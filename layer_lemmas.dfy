/** What one layer's forward and backward passes compute, stated entry by entry. */
module LayerFacts {
  import opened LayerMath

  /** Entry `j` of the accumulated signal is the column sum `Σ_i w[i][j] * g[i]`. */
  lemma {:induction false} ColumnSumsEntry(w: seq<seq<real>>, g: seq<real>, n: nat, c: nat, j: nat)
    requires n <= |w| && n <= |g| && Rows(w, c) && j < c
    ensures ColumnSums(w, g, n, c)[j] == ColumnSum(w, g, j, n)
    decreases n
  {
    if n > 0 {
      ColumnSumsEntry(w, g, n - 1, c, j);
    }
  }

  /** The backward pass of a layer is one gradient-descent step on the sigmoid
      layer: with `g[i] = delta[i] * a[i] * (1 - a[i])` at the cached output `a`,
      weight `w[i][j]` moves by `-lr * g[i] * prev[j]`, bias `b[i]` by `-lr * g[i]`,
      and the signal handed back is `Σ_i w[i][j] * g[i]` over the weights as they
      were before the step. */
  lemma BackpropagatedEntries(L: LayerState, delta: seq<real>, prev: seq<real>, lr: real)
    requires CanBackward(L, delta, prev)
    ensures var r := Backpropagated(L, delta, prev, lr);
      var a := L.lastOutput;
      && (forall i, j :: 0 <= i < |L.weights| && 0 <= j < InSize(L) ==>
            r.0.weights[i][j] == L.weights[i][j] - lr * (delta[i] * (a[i] * (1.0 - a[i]))) * prev[j])
      && (forall i :: 0 <= i < |L.biases| ==> r.0.biases[i] == L.biases[i] - lr * (delta[i] * (a[i] * (1.0 - a[i]))))
      && (forall j :: 0 <= j < InSize(L) ==>
            r.1[j] == ColumnSum(L.weights, Gradient(delta, a, |L.weights|), j, |L.weights|))
  {
    var r := Backpropagated(L, delta, prev, lr);
    var g := Gradient(delta, L.lastOutput, |L.weights|);
    forall j | 0 <= j < InSize(L)
      ensures r.1[j] == ColumnSum(L.weights, g, j, |L.weights|)
    {
      ColumnSumsEntry(L.weights, g, |L.weights|, InSize(L), j);
    }
  }
}
