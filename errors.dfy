/** Failure kinds reported by the engine, and the result types that carry them.
    `InvalidConfig`, `ShapeMismatch` and `IOFailure` stand for the exceptions the
    library throws; `Malformed` marks a weight stream that ends too early. */
module Errors {

  datatype Error = InvalidConfig | ShapeMismatch | IOFailure | Malformed

  /** A value, or the error that stopped the operation producing it. */
  datatype Result<T> = Success(value: T) | Failure(error: Error)

  /** Success or failure of an operation that returns nothing. */
  datatype Outcome = Pass | Fail(error: Error)
}
