/** The arithmetic of one fully connected sigmoid layer, as pure functions over a
    snapshot of the layer's fields. Scalars are `real`; the activation function is a
    parameter, so nothing below depends on what `sigmoid` computes. */
module LayerMath {

  /** The four fields of a layer: one weight row per output unit, one bias per
      output unit, and the input and output cached by the latest forward pass. */
  datatype LayerState = LayerState(
    weights: seq<seq<real>>,
    biases: seq<real>,
    lastInput: seq<real>,
    lastOutput: seq<real>)

  /** Every row of `w` holds exactly `cols` entries. */
  predicate Rows(w: seq<seq<real>>, cols: nat) {
    forall i :: 0 <= i < |w| ==> |w[i]| == cols
  }

  /** Number of output units: the number of weight rows. */
  function OutSize(L: LayerState): nat {
    |L.weights|
  }

  /** Number of input units: the length of the first weight row, which is what the
      library compares inputs against. */
  function InSize(L: LayerState): nat {
    if |L.weights| == 0 then 0 else |L.weights[0]|
  }

  /** The shape invariant of a layer with `nIn` inputs and `nOut > 0` outputs. The
      cached output is empty until the first forward pass and has `nOut` entries
      after it. */
  predicate Shaped(L: LayerState, nIn: nat, nOut: nat) {
    && nOut > 0
    && |L.weights| == nOut
    && Rows(L.weights, nIn)
    && |L.biases| == nOut
    && (L.lastOutput == [] || |L.lastOutput| == nOut)
  }

  /** `w[0]*x[0] + ... + w[n-1]*x[n-1]` for `n = |w|`, accumulated left to right. */
  function Dot(w: seq<real>, x: seq<real>): real
    requires |w| <= |x|
    decreases |w|
  {
    if |w| == 0 then 0.0 else Dot(w[..|w| - 1], x) + w[|w| - 1] * x[|w| - 1]
  }

  /** The activations of a layer: entry `i` is `sigmoid(b[i] + Σ_j w[i][j] * x[j])`. */
  function Outputs(w: seq<seq<real>>, b: seq<real>, x: seq<real>, sigmoid: real -> real): seq<real>
    requires |b| == |w| && Rows(w, |x|)
  {
    seq(|w|, i requires 0 <= i < |w| => sigmoid(b[i] + Dot(w[i], x)))
  }

  /** `s` resized to `n` entries: a prefix is kept, missing entries become 0. */
  function Resize(s: seq<real>, n: nat): (r: seq<real>)
    ensures |r| == n
    ensures forall i :: 0 <= i < n ==> r[i] == if i < |s| then s[i] else 0.0
  {
    if n <= |s| then s[..n] else s + seq(n - |s|, _ => 0.0)
  }

  /** The parameters of a freshly constructed layer. The constructor draws, for
      each output unit in turn, its `nIn` weights and then its bias, so value
      number `i * (nIn + 1) + j` of the generator becomes `weights[i][j]` and
      value number `i * (nIn + 1) + nIn` becomes `biases[i]`. */
  function InitLayer(nIn: nat, nOut: nat, draw: nat -> real): (L: LayerState)
    requires nOut > 0
    ensures Shaped(L, nIn, nOut) && InSize(L) == nIn && OutSize(L) == nOut
    ensures L.lastInput == [] && L.lastOutput == []
  {
    LayerState(
      seq(nOut, i requires 0 <= i < nOut =>
        seq(nIn, j requires 0 <= j < nIn => draw(i * (nIn + 1) + j))),
      seq(nOut, i requires 0 <= i < nOut => draw(i * (nIn + 1) + nIn)),
      [], [])
  }

  /** The parameters after re-initialisation: all weights are drawn in row-major
      order, then all biases; the caches are untouched. */
  function Reinitialized(L: LayerState, draw: nat -> real): (R: LayerState)
    ensures R.lastInput == L.lastInput && R.lastOutput == L.lastOutput
    ensures InSize(R) == InSize(L) && OutSize(R) == OutSize(L)
    ensures forall nIn, nOut :: Shaped(L, nIn, nOut) ==> Shaped(R, nIn, nOut)
  {
    var n := InSize(L);
    L.(weights := seq(|L.weights|, i requires 0 <= i < |L.weights| =>
                    seq(n, j requires 0 <= j < n => draw(i * n + j))),
       biases := seq(|L.biases|, i requires 0 <= i < |L.biases| => draw(|L.weights| * n + i)))
  }

  /** Local gradients `g[i] = delta[i] * (a[i] * (1 - a[i]))`: the error signal times
      the sigmoid derivative, evaluated at the cached activation `a`. */
  function Gradient(delta: seq<real>, a: seq<real>, n: nat): seq<real>
    requires n <= |delta| && n <= |a|
  {
    seq(n, i requires 0 <= i < n => delta[i] * (a[i] * (1.0 - a[i])))
  }

  /** `w[0][j]*g[0] + ... + w[n-1][j]*g[n-1]`, accumulated over increasing `i`. */
  function ColumnSum(w: seq<seq<real>>, g: seq<real>, j: nat, n: nat): real
    requires n <= |w| && n <= |g|
    requires forall i :: 0 <= i < |w| ==> j < |w[i]|
    decreases n
  {
    if n == 0 then 0.0 else ColumnSum(w, g, j, n - 1) + w[n - 1][j] * g[n - 1]
  }

  /** `d` with `row[j] * gi` added to each entry `d[j]`. */
  function AddScaled(d: seq<real>, row: seq<real>, gi: real): seq<real>
    requires |d| <= |row|
  {
    seq(|d|, j requires 0 <= j < |d| => d[j] + row[j] * gi)
  }

  /** The error signal for the previous layer as the backward pass builds it: `c`
      zeros, then the contributions of rows `0 .. n-1` added one row at a time. */
  function ColumnSums(w: seq<seq<real>>, g: seq<real>, n: nat, c: nat): (d: seq<real>)
    requires n <= |w| && n <= |g| && Rows(w, c)
    ensures |d| == c
    decreases n
  {
    if n == 0 then seq(c, _ => 0.0) else AddScaled(ColumnSums(w, g, n - 1, c), w[n - 1], g[n - 1])
  }

  /** One weight row after the gradient step: `row[j] - lr * gi * prev[j]`. */
  function StepRow(row: seq<real>, gi: real, prev: seq<real>, lr: real): seq<real>
    requires |row| <= |prev|
  {
    seq(|row|, j requires 0 <= j < |row| => row[j] - lr * gi * prev[j])
  }

  /** Every row stepped against its own local gradient. */
  function StepWeights(w: seq<seq<real>>, g: seq<real>, prev: seq<real>, lr: real): (r: seq<seq<real>>)
    requires |g| >= |w| && forall i :: 0 <= i < |w| ==> |w[i]| <= |prev|
    ensures |r| == |w| && forall i :: 0 <= i < |w| ==> |r[i]| == |w[i]|
  {
    seq(|w|, i requires 0 <= i < |w| => StepRow(w[i], g[i], prev, lr))
  }

  /** Every bias stepped: `b[i] - lr * g[i]`. */
  function StepBiases(b: seq<real>, g: seq<real>, lr: real): seq<real>
    requires |g| >= |b|
  {
    seq(|b|, i requires 0 <= i < |b| => b[i] - lr * g[i])
  }

  /** What the backward pass reads without checking: a rectangular weight matrix,
      a cached output and a delta for every output unit, an activation for every
      input unit. */
  predicate CanBackward(L: LayerState, delta: seq<real>, prev: seq<real>) {
    && |L.weights| > 0
    && Rows(L.weights, InSize(L))
    && |L.biases| == |L.weights|
    && |L.lastOutput| == |L.weights|
    && |delta| >= |L.weights|
    && |prev| >= InSize(L)
  }

  /** The backward pass of a layer: the layer with its parameters stepped against
      the local gradients, and the error signal for the previous layer, which is
      computed from the weights as they were BEFORE the step. */
  function Backpropagated(L: LayerState, delta: seq<real>, prev: seq<real>, lr: real): (r: (LayerState, seq<real>))
    requires CanBackward(L, delta, prev)
    ensures r.0.lastInput == L.lastInput && r.0.lastOutput == L.lastOutput
    ensures OutSize(r.0) == OutSize(L) && InSize(r.0) == InSize(L)
    ensures Rows(r.0.weights, InSize(L)) && |r.0.biases| == |L.biases|
    ensures |r.1| == InSize(L)
  {
    var g := Gradient(delta, L.lastOutput, |L.weights|);
    (L.(weights := StepWeights(L.weights, g, prev, lr), biases := StepBiases(L.biases, g, lr)),
     ColumnSums(L.weights, g, |L.weights|, InSize(L)))
  }
}
