/** The network's behaviour as pure functions over the sequence of layer snapshots:
    construction, the forward fold, one training step, a training run over a dataset,
    the loss, re-initialisation and softmax. */
module NetworkMath {
  import opened Errors
  import opened LayerMath

  /** Every layer keeps its shape invariant, and each layer's output width is the
      next layer's input width. */
  predicate Chained(ls: seq<LayerState>) {
    && (forall k :: 0 <= k < |ls| ==> Shaped(ls[k], InSize(ls[k]), OutSize(ls[k])))
    && (forall k :: 0 <= k < |ls| - 1 ==> OutSize(ls[k]) == InSize(ls[k + 1]))
  }

  /** A network has at least one layer, and its layers chain. */
  predicate WellFormed(ls: seq<LayerState>) {
    |ls| >= 1 && Chained(ls)
  }

  /** The widths at the layer boundaries, input width first. */
  function Topology(ls: seq<LayerState>): seq<int>
    requires |ls| >= 1
  {
    [InSize(ls[0])] + seq(|ls|, k requires 0 <= k < |ls| => OutSize(ls[k]))
  }

  /** `a` and `b` have the same number of layers with the same widths. */
  predicate SameShapes(a: seq<LayerState>, b: seq<LayerState>) {
    && |a| == |b|
    && (forall k :: 0 <= k < |a| ==> InSize(a[k]) == InSize(b[k]) && OutSize(a[k]) == OutSize(b[k]))
  }

  lemma TopologyOfSameShapes(a: seq<LayerState>, b: seq<LayerState>)
    requires |a| >= 1 && SameShapes(a, b)
    ensures Topology(a) == Topology(b)
  {
    forall k | 0 <= k < |a| + 1 ensures Topology(a)[k] == Topology(b)[k] {
      if k > 0 { assert OutSize(a[k - 1]) == OutSize(b[k - 1]); }
    }
  }

  lemma SameShapesTransitive(a: seq<LayerState>, b: seq<LayerState>, c: seq<LayerState>)
    requires SameShapes(a, b) && SameShapes(b, c)
    ensures SameShapes(a, c)
  {
  }

  /** Sizes the layer constructor can build from: an input width of at least 0 and
      positive widths after it. The library does not check this; a negative width
      makes the vector allocation throw and a zero width after the first makes
      later `weights[0]` accesses undefined. */
  predicate BuildableSizes(sizes: seq<int>) {
    && (|sizes| > 0 ==> sizes[0] >= 0)
    && (forall k :: 1 <= k < |sizes| ==> sizes[k] > 0)
  }

  /** The layers a new network is made of: layer `k` goes from `sizes[k]` to
      `sizes[k + 1]` units and takes its parameters from generator `draw(k)`. */
  function InitNet(sizes: seq<int>, draw: nat -> nat -> real): (ls: seq<LayerState>)
    requires |sizes| >= 2 && BuildableSizes(sizes)
    ensures |ls| == |sizes| - 1 && WellFormed(ls) && Topology(ls) == sizes
    ensures forall k :: 0 <= k < |ls| ==> ls[k] == InitLayer(sizes[k], sizes[k + 1], draw(k))
  {
    var ls := seq(|sizes| - 1, k requires 0 <= k < |sizes| - 1 => InitLayer(sizes[k], sizes[k + 1], draw(k)));
    InitLayersChain(sizes, draw, ls);
    ls
  }

  lemma InitLayersChain(sizes: seq<int>, draw: nat -> nat -> real, ls: seq<LayerState>)
    requires |sizes| >= 2 && BuildableSizes(sizes) && |ls| == |sizes| - 1
    requires forall k :: 0 <= k < |ls| ==> ls[k] == InitLayer(sizes[k], sizes[k + 1], draw(k))
    ensures WellFormed(ls) && Topology(ls) == sizes
  {
    forall k | 0 <= k < |ls|
      ensures Shaped(ls[k], InSize(ls[k]), OutSize(ls[k])) && InSize(ls[k]) == sizes[k] && OutSize(ls[k]) == sizes[k + 1]
    {
      var L := InitLayer(sizes[k], sizes[k + 1], draw(k));
      assert ls[k] == L;
    }
    forall k | 0 <= k < |sizes| ensures Topology(ls)[k] == sizes[k] {
      if k > 0 { assert OutSize(ls[k - 1]) == sizes[k]; }
    }
  }

  /** The activation at every layer boundary during a forward pass: `acts[0]` is the
      input and `acts[k + 1]` is what layer `k` computes from `acts[k]`. */
  function Activations(ls: seq<LayerState>, x: seq<real>, sigmoid: real -> real): (acts: seq<seq<real>>)
    requires Chained(ls) && (|ls| > 0 ==> |x| == InSize(ls[0]))
    ensures |acts| == |ls| + 1 && acts[0] == x
    ensures forall k :: 0 <= k < |ls| ==> |acts[k]| == InSize(ls[k]) && |acts[k + 1]| == OutSize(ls[k])
    ensures forall k :: 0 <= k < |ls| ==> acts[k + 1] == Outputs(ls[k].weights, ls[k].biases, acts[k], sigmoid)
    decreases |ls|
  {
    if ls == [] then [x]
    else
      assert Chained(ls[1..]) by {
        forall k | 0 <= k < |ls| - 2 ensures OutSize(ls[1..][k]) == InSize(ls[1..][k + 1]) {
          assert OutSize(ls[k + 1]) == InSize(ls[k + 2]);
        }
      }
      var y := Outputs(ls[0].weights, ls[0].biases, x, sigmoid);
      var rest := Activations(ls[1..], y, sigmoid);
      assert forall k :: 1 <= k <= |ls| ==> ([x] + rest)[k] == rest[k - 1];
      [x] + rest
  }

  /** The layers after a forward pass: layer `k` caches `acts[k]` as its input and
      `acts[k + 1]` as its output; their parameters do not change. */
  function Forwarded(ls: seq<LayerState>, acts: seq<seq<real>>): (r: seq<LayerState>)
    requires |acts| == |ls| + 1
    ensures |r| == |ls|
    ensures forall k :: 0 <= k < |ls| ==>
      r[k] == ls[k].(lastInput := acts[k], lastOutput := acts[k + 1])
  {
    seq(|ls|, k requires 0 <= k < |ls| => ls[k].(lastInput := acts[k], lastOutput := acts[k + 1]))
  }

  lemma ForwardedReady(ls: seq<LayerState>, acts: seq<seq<real>>)
    requires Chained(ls) && |acts| == |ls| + 1
    requires forall k :: 0 <= k < |ls| ==> |acts[k]| == InSize(ls[k]) && |acts[k + 1]| == OutSize(ls[k])
    ensures Chained(Forwarded(ls, acts)) && SameShapes(Forwarded(ls, acts), ls)
    ensures |ls| > 0 ==> BackReady(Forwarded(ls, acts), acts, acts[|ls|], |ls|)
  {
    var r := Forwarded(ls, acts);
    forall k | 0 <= k < |ls| ensures Shaped(r[k], InSize(r[k]), OutSize(r[k])) && |r[k].lastOutput| == OutSize(r[k]) {
      assert r[k].weights == ls[k].weights && r[k].biases == ls[k].biases;
    }
  }

  /** The cached input and output of every layer. */
  function Caches(ls: seq<LayerState>): (c: seq<(seq<real>, seq<real>)>)
    ensures |c| == |ls|
  {
    seq(|ls|, k requires 0 <= k < |ls| => (ls[k].lastInput, ls[k].lastOutput))
  }

  lemma CachesOfUpdate(ls: seq<LayerState>, i: nat, L: LayerState)
    requires i < |ls| && L.lastInput == ls[i].lastInput && L.lastOutput == ls[i].lastOutput
    ensures Caches(ls[i := L]) == Caches(ls)
  {
    assert forall k :: 0 <= k < |ls| ==> Caches(ls[i := L])[k] == Caches(ls)[k];
  }

  /** The hypotheses of the backward loop when layers `0 .. i-1` remain: every layer
      has run forward, `acts[k]` is the input of layer `k`, and `delta` is the error
      signal at the output of layer `i - 1`. */
  predicate BackReady(ls: seq<LayerState>, acts: seq<seq<real>>, delta: seq<real>, i: nat) {
    && |acts| == |ls| + 1
    && Chained(ls)
    && (forall k :: 0 <= k < |ls| ==> |ls[k].lastOutput| == OutSize(ls[k]) && |acts[k]| == InSize(ls[k]))
    && i <= |ls|
    && (i > 0 ==> |delta| == OutSize(ls[i - 1]))
  }

  /** One turn of the backward loop: layer `i - 1` runs backward on `delta` and its
      input activation, and hands its own signal on. */
  function BackTurn(ls: seq<LayerState>, acts: seq<seq<real>>, delta: seq<real>, lr: real, i: nat)
    : (r: (seq<LayerState>, seq<real>))
    requires BackReady(ls, acts, delta, i) && i > 0
    ensures CanBackward(ls[i - 1], delta, acts[i - 1])
    ensures r.0 == ls[i - 1 := Backpropagated(ls[i - 1], delta, acts[i - 1], lr).0]
    ensures r.1 == Backpropagated(ls[i - 1], delta, acts[i - 1], lr).1
    ensures BackReady(r.0, acts, r.1, i - 1)
    ensures SameShapes(r.0, ls) && Caches(r.0) == Caches(ls)
  {
    assert Shaped(ls[i - 1], InSize(ls[i - 1]), OutSize(ls[i - 1]));
    var step := Backpropagated(ls[i - 1], delta, acts[i - 1], lr);
    var ls' := ls[i - 1 := step.0];
    assert Shaped(ls'[i - 1], InSize(ls[i - 1]), OutSize(ls[i - 1]));
    assert i - 1 > 0 ==> OutSize(ls[i - 2]) == InSize(ls[i - 1]);
    CachesOfUpdate(ls, i - 1, step.0);
    (ls', step.1)
  }

  /** The backward loop of `train`, from layer `i - 1` down to layer 0: each layer's
      backward pass consumes its input activation and the signal from the layer
      after it, and hands its own signal on. */
  function BackPass(ls: seq<LayerState>, acts: seq<seq<real>>, delta: seq<real>, lr: real, i: nat): (r: seq<LayerState>)
    requires BackReady(ls, acts, delta, i)
    decreases i
  {
    if i == 0 then ls
    else
      var turn := BackTurn(ls, acts, delta, lr, i);
      BackPass(turn.0, acts, turn.1, lr, i - 1)
  }

  /** The backward loop keeps the network's shape and its caches, and leaves the
      layers from `i` on alone. */
  lemma {:induction false} BackPassShape(ls: seq<LayerState>, acts: seq<seq<real>>, delta: seq<real>, lr: real, i: nat)
    requires BackReady(ls, acts, delta, i)
    ensures Chained(BackPass(ls, acts, delta, lr, i)) && SameShapes(BackPass(ls, acts, delta, lr, i), ls)
    ensures Caches(BackPass(ls, acts, delta, lr, i)) == Caches(ls)
    ensures forall k :: i <= k < |ls| ==> BackPass(ls, acts, delta, lr, i)[k] == ls[k]
    decreases i
  {
    if i > 0 {
      var turn := BackTurn(ls, acts, delta, lr, i);
      BackPassShape(turn.0, acts, turn.1, lr, i - 1);
      SameShapesTransitive(BackPass(ls, acts, delta, lr, i), turn.0, ls);
    }
  }

  /** `train` is undefined when it passes its size check with an empty target and an
      empty cache and then indexes the target. Every other call is defined. */
  predicate TrainDefined(ls: seq<LayerState>, x: seq<real>, t: seq<real>)
    requires |ls| >= 1
  {
    !(t == [] && ls[|ls| - 1].lastOutput == [] && |x| == InSize(ls[0]))
  }

  /** The output-layer error signal `out[i] - target[i]`. */
  function OutputDelta(out: seq<real>, t: seq<real>): seq<real>
    requires |out| <= |t|
  {
    seq(|out|, i requires 0 <= i < |out| => out[i] - t[i])
  }

  /** The layers after the forward and backward passes of `train` on input `x` and
      target `t`. */
  function Trained(ls: seq<LayerState>, x: seq<real>, t: seq<real>, lr: real, sigmoid: real -> real)
    : (r: seq<LayerState>)
    requires WellFormed(ls) && |x| == InSize(ls[0]) && |t| >= OutSize(ls[|ls| - 1])
    ensures WellFormed(r) && SameShapes(r, ls)
    ensures Caches(r) == Caches(Forwarded(ls, Activations(ls, x, sigmoid)))
  {
    var acts := Activations(ls, x, sigmoid);
    var last := |ls| - 1;
    assert |acts[last + 1]| == OutSize(ls[last]);
    var seen := Forwarded(ls, acts);
    ForwardedReady(ls, acts);
    var delta := OutputDelta(acts[|ls|], t);
    assert BackReady(seen, acts, delta, |ls|);
    var r := BackPass(seen, acts, delta, lr, |ls|);
    BackPassShape(seen, acts, delta, lr, |ls|);
    SameShapesTransitive(r, seen, ls);
    r
  }

  /** One call of `train`: the target is checked against the output the last layer
      cached on its previous forward pass, then the input width is checked, and only
      then are the layers changed. */
  function TrainStep(ls: seq<LayerState>, x: seq<real>, t: seq<real>, lr: real, sigmoid: real -> real)
    : (r: (seq<LayerState>, Outcome))
    requires WellFormed(ls) && TrainDefined(ls, x, t)
    ensures WellFormed(r.0) && SameShapes(r.0, ls) && Topology(r.0) == Topology(ls)
    ensures r.1.Fail? ==> r.1.error == ShapeMismatch && r.0 == ls
    ensures r.1 == Pass <==> |t| == |ls[|ls| - 1].lastOutput| && |x| == InSize(ls[0])
  {
    if |t| != |ls[|ls| - 1].lastOutput| then (ls, Fail(ShapeMismatch))
    else if |x| != InSize(ls[0]) then (ls, Fail(ShapeMismatch))
    else
      var r := Trained(ls, x, t, lr, sigmoid);
      TopologyOfSameShapes(r, ls);
      (r, Pass)
  }

  /** `(o[0]-t[0])^2 + ... + (o[n-1]-t[n-1])^2`. */
  function SumSquares(o: seq<real>, t: seq<real>, n: nat): real
    requires n <= |o| && n <= |t|
    decreases n
  {
    if n == 0 then 0.0 else SumSquares(o, t, n - 1) + (o[n - 1] - t[n - 1]) * (o[n - 1] - t[n - 1])
  }

  lemma {:induction false} SumSquaresNonNegative(o: seq<real>, t: seq<real>, n: nat)
    requires n <= |o| && n <= |t|
    ensures SumSquares(o, t, n) >= 0.0
    decreases n
  {
    if n > 0 {
      SumSquaresNonNegative(o, t, n - 1);
    }
  }

  /** The loss `Σ (o[i] - t[i])^2 / |o|` over the entries of `o`; never negative. */
  function MeanSquaredError(o: seq<real>, t: seq<real>): (e: real)
    requires 0 < |o| <= |t|
    ensures e >= 0.0
  {
    SumSquaresNonNegative(o, t, |o|);
    SumSquares(o, t, |o|) / (|o| as real)
  }

  /** The layers after one `resetTrain`: layer `k` is re-initialised from its own
      generator `draw(k)`. */
  function ResetAll(ls: seq<LayerState>, draw: nat -> nat -> real): (r: seq<LayerState>)
    requires WellFormed(ls)
    ensures |r| == |ls| && WellFormed(r) && Topology(r) == Topology(ls)
    ensures forall k :: 0 <= k < |ls| ==> r[k] == Reinitialized(ls[k], draw(k))
  {
    var r := seq(|ls|, k requires 0 <= k < |ls| => Reinitialized(ls[k], draw(k)));
    forall k | 0 <= k < |ls|
      ensures Shaped(r[k], InSize(r[k]), OutSize(r[k])) && InSize(r[k]) == InSize(ls[k]) && OutSize(r[k]) == OutSize(ls[k])
    {
      var R := Reinitialized(ls[k], draw(k));
      assert r[k] == R && Shaped(ls[k], InSize(ls[k]), OutSize(ls[k]));
    }
    TopologyOfSameShapes(r, ls);
    r
  }

  /** The network's output on `x`: the activation after the last layer. */
  function Output(ls: seq<LayerState>, x: seq<real>, sigmoid: real -> real): (y: seq<real>)
    requires WellFormed(ls) && |x| == InSize(ls[0])
    ensures |y| == OutSize(ls[|ls| - 1]) > 0
  {
    var acts := Activations(ls, x, sigmoid);
    assert |acts[(|ls| - 1) + 1]| == OutSize(ls[|ls| - 1]);
    acts[|ls|]
  }

  /** The layers after `forward(x)`: every layer has cached its input and output. */
  function AfterForward(ls: seq<LayerState>, x: seq<real>, sigmoid: real -> real): (r: seq<LayerState>)
    requires WellFormed(ls) && |x| == InSize(ls[0])
    ensures WellFormed(r) && SameShapes(r, ls)
    ensures r[|ls| - 1].lastOutput == Output(ls, x, sigmoid)
    ensures forall k :: 0 <= k < |ls| ==> r[k].weights == ls[k].weights && r[k].biases == ls[k].biases
  {
    var acts := Activations(ls, x, sigmoid);
    ForwardedReady(ls, acts);
    Forwarded(ls, acts)
  }

  /** One sample `(x, t)` of `trainDataset`: the layers afterwards, the sample's loss
      and whether it was accepted. The sample is first run forward; its loss is taken
      from that output, which precedes the training step on the same sample. A wrong
      input width rejects the sample before it changes anything; a wrong target width
      rejects it after the forward pass has refreshed the caches. A rejected sample
      has no loss; `0.0` stands in for it. */
  function SampleStep(ls: seq<LayerState>, x: seq<real>, t: seq<real>, lr: real, sigmoid: real -> real)
    : (r: (seq<LayerState>, real, Outcome))
    requires WellFormed(ls)
    ensures WellFormed(r.0) && SameShapes(r.0, ls)
    ensures r.1 >= 0.0
    ensures r.2.Fail? ==> r.2.error == ShapeMismatch
  {
    if |x| != InSize(ls[0]) then (ls, 0.0, Fail(ShapeMismatch))
    else
      var out := Output(ls, x, sigmoid);
      var seen := AfterForward(ls, x, sigmoid);
      if |t| != |out| then (seen, 0.0, Fail(ShapeMismatch))
      else
        var next := TrainStep(seen, x, t, lr, sigmoid).0;
        SameShapesTransitive(next, seen, ls);
        (next, MeanSquaredError(out, t), Pass)
  }

  /** The state after one epoch of `trainDataset` from sample `i` on: the layers, the
      losses of the accepted samples (after those in `losses`), and whether a sample was
      rejected; the first rejected sample ends the epoch. */
  function EpochFrom(ls: seq<LayerState>, data: seq<(seq<real>, seq<real>)>, i: nat, losses: seq<real>,
                     lr: real, sigmoid: real -> real): (r: (seq<LayerState>, seq<real>, Outcome))
    requires WellFormed(ls) && i <= |data|
    ensures WellFormed(r.0) && SameShapes(r.0, ls)
    ensures r.2.Fail? ==> r.2.error == ShapeMismatch
    decreases |data| - i
  {
    if i == |data| then (ls, losses, Pass)
    else
      var step := SampleStep(ls, data[i].0, data[i].1, lr, sigmoid);
      if step.2.Fail? then (step.0, losses, step.2)
      else
        var r := EpochFrom(step.0, data, i + 1, losses + [step.1], lr, sigmoid);
        SameShapesTransitive(r.0, step.0, ls);
        r
  }

  /** The loss `trainDataset` adds up over one epoch. */
  function EpochLoss(losses: seq<real>): real {
    Sum(losses, |losses|)
  }

  /** Recording one more loss adds it to the epoch's loss. */
  lemma EpochLossSnoc(losses: seq<real>, x: real)
    ensures EpochLoss(losses + [x]) == EpochLoss(losses) + x
  {
    SumSnoc(losses, x);
  }

  /** The outcome of `trainDataset`: the final layers, the total loss of every
      completed epoch, and whether a sample was rejected. */
  datatype Run = Run(layers: seq<LayerState>, losses: seq<real>, outcome: Outcome)

  /** Epochs `e, e + 1, ...` below `epochs` of `trainDataset`; a failing epoch ends
      the run and records no loss. */
  function EpochsFrom(ls: seq<LayerState>, data: seq<(seq<real>, seq<real>)>, epochs: int, e: int,
                      lr: real, sigmoid: real -> real, losses: seq<real>): (r: Run)
    requires WellFormed(ls)
    ensures WellFormed(r.layers) && SameShapes(r.layers, ls)
    ensures r.outcome.Pass? ==> |r.losses| == |losses| + if e < epochs then epochs - e else 0
    ensures r.outcome.Fail? ==> r.outcome.error == ShapeMismatch
    ensures |losses| <= |r.losses| && r.losses[..|losses|] == losses
    decreases epochs - e
  {
    if e >= epochs then Run(ls, losses, Pass)
    else
      var step := EpochFrom(ls, data, 0, [], lr, sigmoid);
      if step.2.Fail? then Run(step.0, losses, step.2)
      else
        var r := EpochsFrom(step.0, data, epochs, e + 1, lr, sigmoid, losses + [EpochLoss(step.1)]);
        assert r.losses[..|losses|] == (losses + [EpochLoss(step.1)])[..|losses|];
        SameShapesTransitive(r.layers, step.0, ls);
        r
  }

  /** `trainDataset(data, epochs, _, lr)`. */
  function TrainDataset(ls: seq<LayerState>, data: seq<(seq<real>, seq<real>)>, epochs: int,
                        lr: real, sigmoid: real -> real): (r: Run)
    requires WellFormed(ls)
    ensures WellFormed(r.layers) && Topology(r.layers) == Topology(ls)
    ensures r.outcome.Pass? ==> |r.losses| == if epochs > 0 then epochs else 0
    ensures r.outcome.Fail? ==> r.outcome.error == ShapeMismatch
  {
    var r := EpochsFrom(ls, data, epochs, 0, lr, sigmoid, []);
    TopologyOfSameShapes(r.layers, ls);
    r
  }

  /** `Σ s[i]` over the first `n` entries. */
  function Sum(s: seq<real>, n: nat): real
    requires n <= |s|
    decreases n
  {
    if n == 0 then 0.0 else Sum(s, n - 1) + s[n - 1]
  }

  /** `Sum` over a prefix only sees that prefix. */
  lemma {:induction false} SumOfPrefix(a: seq<real>, b: seq<real>, n: nat)
    requires n <= |a| && n <= |b| && a[..n] == b[..n]
    ensures Sum(a, n) == Sum(b, n)
    decreases n
  {
    if n > 0 {
      assert a[n - 1] == a[..n][n - 1] == b[..n][n - 1] == b[n - 1];
      assert a[..n - 1] == a[..n][..n - 1] == b[..n][..n - 1] == b[..n - 1];
      SumOfPrefix(a, b, n - 1);
    }
  }

  /** Appending `x` adds `x` to the sum. */
  lemma SumSnoc(s: seq<real>, x: real)
    ensures Sum(s + [x], |s| + 1) == Sum(s, |s|) + x
  {
    assert (s + [x])[..|s|] == s[..|s|];
    SumOfPrefix(s + [x], s, |s|);
  }

  /** The largest entry. */
  function Max(s: seq<real>): (m: real)
    requires |s| > 0
    ensures m in s && forall i :: 0 <= i < |s| ==> s[i] <= m
    decreases |s|
  {
    if |s| == 1 then s[0]
    else
      var m := Max(s[..|s| - 1]);
      assert forall i :: 0 <= i < |s| - 1 ==> s[..|s| - 1][i] == s[i];
      if s[|s| - 1] > m then s[|s| - 1] else m
  }

  /** A positive function, as `std::exp` is. */
  ghost predicate Positive(exp: real -> real) {
    forall y :: exp(y) > 0.0
  }

  lemma {:induction false} SumPositive(s: seq<real>, n: nat)
    requires 0 < n <= |s| && forall i :: 0 <= i < |s| ==> s[i] > 0.0
    ensures Sum(s, n) > 0.0
    decreases n
  {
    if n > 1 { SumPositive(s, n - 1); }
  }

  /** `e` divided by its sum. */
  function Normalize(e: seq<real>): (r: seq<real>)
    requires |e| > 0 && forall i :: 0 <= i < |e| ==> e[i] > 0.0
    ensures |r| == |e|
  {
    SumPositive(e, |e|);
    var total := Sum(e, |e|);
    seq(|e|, i requires 0 <= i < |e| => e[i] / total)
  }

  /** The terms `exp(x[i] - m)`; positive when `exp` is. */
  function Shifted(x: seq<real>, m: real, exp: real -> real): (e: seq<real>)
    requires Positive(exp)
    ensures |e| == |x| && forall i :: 0 <= i < |x| ==> e[i] > 0.0
  {
    seq(|x|, i requires 0 <= i < |x| => exp(x[i] - m))
  }

  /** `softmax(x)`: the terms `exp(x[i] - max x)`, normalised by their sum. */
  function Softmax(x: seq<real>, exp: real -> real): (r: seq<real>)
    requires |x| > 0 && Positive(exp)
    ensures |r| == |x|
  {
    Normalize(Shifted(x, Max(x), exp))
  }
}
