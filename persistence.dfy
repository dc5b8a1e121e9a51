/** The weights file as a sequence of tokens. `saveWeights` writes the layer count,
    then for each layer its row count and column count, its weights row by row and
    its biases. `loadWeights` reads the same layout back into a network of the same
    shape, checking the counts as it goes. */
module Persistence {
  import opened Errors
  import opened LayerMath
  import opened NetworkMath

  /** One whitespace-separated item of the file: a count or a scalar. */
  datatype Token = Nat(n: nat) | Num(x: real)

  /** The rows of `w`, concatenated in row-major order. */
  function Flatten(w: seq<seq<real>>): seq<real>
    decreases |w|
  {
    if w == [] then [] else w[0] + Flatten(w[1..])
  }

  /** Scalars as tokens, in order. */
  function Scalars(s: seq<real>): (ts: seq<Token>)
    ensures |ts| == |s| && forall i :: 0 <= i < |s| ==> ts[i] == Num(s[i])
  {
    seq(|s|, i requires 0 <= i < |s| => Num(s[i]))
  }

  /** The block one layer contributes: `rows cols`, the weights, the biases. */
  function EncodeLayer(L: LayerState): seq<Token> {
    [Nat(OutSize(L)), Nat(InSize(L))] + Scalars(Flatten(L.weights)) + Scalars(L.biases)
  }

  function EncodeLayers(ls: seq<LayerState>): seq<Token>
    decreases |ls|
  {
    if ls == [] then [] else EncodeLayer(ls[0]) + EncodeLayers(ls[1..])
  }

  /** What `saveWeights` writes: the layer count, then every layer's block. */
  function Encode(ls: seq<LayerState>): seq<Token> {
    [Nat(|ls|)] + EncodeLayers(ls)
  }

  /** A scalar slot reads a count token as the same number. */
  function ScalarOf(t: Token): real {
    match t
    case Nat(n) => n as real
    case Num(x) => x
  }

  /** The next `n` scalars and the tokens after them; `Malformed` when the sequence
      ends first. */
  function ReadScalars(ts: seq<Token>, n: nat): (r: Result<(seq<real>, seq<Token>)>)
    ensures r.Success? <==> n <= |ts|
    ensures r.Success? ==> |r.value.0| == n && r.value.1 == ts[n..]
    ensures r.Failure? ==> r.error == Malformed
  {
    if |ts| < n then Failure(Malformed)
    else Success((seq(n, i requires 0 <= i < n => ScalarOf(ts[i])), ts[n..]))
  }

  /** `r` rows of `c` scalars each, read row by row. */
  function ReadRows(ts: seq<Token>, r: nat, c: nat): (res: Result<(seq<seq<real>>, seq<Token>)>)
    ensures res.Success? ==> |res.value.0| == r && Rows(res.value.0, c)
    ensures res.Failure? ==> res.error == Malformed
    decreases r
  {
    if r == 0 then Success(([], ts))
    else
      match ReadScalars(ts, c)
      case Failure(e) => Failure(e)
      case Success((row, rest)) =>
        match ReadRows(rest, r - 1, c)
        case Failure(e) => Failure(e)
        case Success((rows, after)) => Success(([row] + rows, after))
  }

  /** Reading one layer's block into `L`: the header must consist of two counts equal
      to `L`'s dimensions; then its weights and biases are replaced. */
  function ReadLayer(L: LayerState, ts: seq<Token>): (r: Result<(LayerState, seq<Token>)>)
    ensures r.Success? ==>
      && r.value.0.lastInput == L.lastInput && r.value.0.lastOutput == L.lastOutput
      && |r.value.0.weights| == OutSize(L) && Rows(r.value.0.weights, InSize(L))
      && |r.value.0.biases| == OutSize(L)
    ensures r.Failure? ==> r.error in {Malformed, ShapeMismatch}
  {
    if |ts| < 2 || !ts[0].Nat? || !ts[1].Nat? then Failure(Malformed)
    else if ts[0].n != OutSize(L) || ts[1].n != InSize(L) then Failure(ShapeMismatch)
    else
      match ReadRows(ts[2..], OutSize(L), InSize(L))
      case Failure(e) => Failure(e)
      case Success((w, rest)) =>
        match ReadScalars(rest, OutSize(L))
        case Failure(e) => Failure(e)
        case Success((b, after)) => Success((L.(weights := w, biases := b), after))
  }

  /** Layers `k ..` read in order. A failing layer stops the load, and the layers
      before it keep what was read into them. */
  function LoadLayers(ls: seq<LayerState>, ts: seq<Token>, k: nat): (r: (seq<LayerState>, Outcome))
    requires k <= |ls|
    ensures |r.0| == |ls| && Caches(r.0) == Caches(ls)
    ensures r.1.Fail? ==> r.1.error in {Malformed, ShapeMismatch}
    decreases |ls| - k
  {
    if k == |ls| then (ls, Pass)
    else
      match ReadLayer(ls[k], ts)
      case Failure(e) => (ls, Fail(e))
      case Success((L, rest)) =>
        CachesOfUpdate(ls, k, L);
        LoadLayers(ls[k := L], rest, k + 1)
  }

  /** What `loadWeights` does to the layers: the layer count is checked before
      anything is written. */
  function Load(ls: seq<LayerState>, ts: seq<Token>): (r: (seq<LayerState>, Outcome))
    ensures |r.0| == |ls| && Caches(r.0) == Caches(ls)
    ensures r.1.Fail? ==> r.1.error in {Malformed, ShapeMismatch}
  {
    if |ts| == 0 || !ts[0].Nat? then (ls, Fail(Malformed))
    else if ts[0].n != |ls| then (ls, Fail(ShapeMismatch))
    else LoadLayers(ls, ts[1..], 0)
  }

  /** `qs` with the weights and biases of `ps` and its own caches. */
  function WithParameters(qs: seq<LayerState>, ps: seq<LayerState>): (r: seq<LayerState>)
    requires |ps| == |qs|
    ensures |r| == |qs|
  {
    seq(|qs|, k requires 0 <= k < |qs| => qs[k].(weights := ps[k].weights, biases := ps[k].biases))
  }
}
