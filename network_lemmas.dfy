/** Properties of the network model: what a forward pass leaves unchanged, when
    `train` accepts its arguments, and bounds on the loss and on softmax. */
module NetworkFacts {
  import opened Errors
  import opened LayerMath
  import opened NetworkMath

  /** `a` and `b` differ at most in their caches. */
  predicate SameParameters(a: seq<LayerState>, b: seq<LayerState>) {
    && |a| == |b|
    && (forall k :: 0 <= k < |a| ==> a[k].weights == b[k].weights && a[k].biases == b[k].biases)
  }

  lemma {:induction false} ActivationsAgree(a: seq<LayerState>, b: seq<LayerState>, x: seq<real>, sigmoid: real -> real, k: nat)
    requires Chained(a) && Chained(b) && SameParameters(a, b)
    requires |a| > 0 ==> |x| == InSize(a[0])
    requires k <= |a|
    ensures Activations(a, x, sigmoid)[k] == Activations(b, x, sigmoid)[k]
    decreases k
  {
    if k > 0 {
      ActivationsAgree(a, b, x, sigmoid, k - 1);
    }
  }

  /** The activations depend on the weights and biases alone, not on the caches. */
  lemma ActivationsIgnoreCaches(a: seq<LayerState>, b: seq<LayerState>, x: seq<real>, sigmoid: real -> real)
    requires Chained(a) && Chained(b) && SameParameters(a, b)
    requires |a| > 0 ==> |x| == InSize(a[0])
    ensures Activations(a, x, sigmoid) == Activations(b, x, sigmoid)
  {
    forall k | 0 <= k <= |a| ensures Activations(a, x, sigmoid)[k] == Activations(b, x, sigmoid)[k] {
      ActivationsAgree(a, b, x, sigmoid, k);
    }
  }

  /** A forward pass changes only the caches, so the network computes the same
      function afterwards: `predict` and `forward` are repeatable. */
  lemma ForwardKeepsFunction(ls: seq<LayerState>, x0: seq<real>, x: seq<real>, sigmoid: real -> real)
    requires WellFormed(ls) && |x0| == InSize(ls[0]) && |x| == InSize(ls[0])
    ensures Output(AfterForward(ls, x0, sigmoid), x, sigmoid) == Output(ls, x, sigmoid)
  {
    ActivationsIgnoreCaches(AfterForward(ls, x0, sigmoid), ls, x, sigmoid);
  }

  /** A new network has run no forward pass, so every cache is empty. */
  lemma FreshCachesEmpty(sizes: seq<int>, draw: nat -> nat -> real)
    requires |sizes| >= 2 && BuildableSizes(sizes)
    ensures forall k :: 0 <= k < |sizes| - 1 ==>
      InitNet(sizes, draw)[k].lastInput == [] && InitNet(sizes, draw)[k].lastOutput == []
  {
    var ls := InitNet(sizes, draw);
    forall k | 0 <= k < |ls| ensures ls[k].lastInput == [] && ls[k].lastOutput == [] {
      assert ls[k] == InitLayer(sizes[k], sizes[k + 1], draw(k));
    }
  }

  /** `train` compares the target with the output cached by the previous forward
      pass, so on a new network it rejects every non-empty target and changes
      nothing. */
  lemma TrainRejectsOnFreshNetwork(sizes: seq<int>, draw: nat -> nat -> real, x: seq<real>, t: seq<real>,
                                   lr: real, sigmoid: real -> real)
    requires |sizes| >= 2 && BuildableSizes(sizes) && t != []
    ensures TrainStep(InitNet(sizes, draw), x, t, lr, sigmoid) == (InitNet(sizes, draw), Fail(ShapeMismatch))
  {
    FreshCachesEmpty(sizes, draw);
  }

  /** Once a forward pass has filled the caches, `train` accepts exactly the inputs
      of the input width and the targets of the output width. */
  lemma TrainAcceptsAfterForward(ls: seq<LayerState>, x0: seq<real>, x: seq<real>, t: seq<real>,
                                 lr: real, sigmoid: real -> real)
    requires WellFormed(ls) && |x0| == InSize(ls[0])
    ensures TrainDefined(AfterForward(ls, x0, sigmoid), x, t)
    ensures TrainStep(AfterForward(ls, x0, sigmoid), x, t, lr, sigmoid).1 == Pass <==>
      |x| == InSize(ls[0]) && |t| == OutSize(ls[|ls| - 1])
  {
  }

  lemma {:induction false} SumNonNegative(s: seq<real>, n: nat)
    requires n <= |s| && forall k :: 0 <= k < |s| ==> s[k] >= 0.0
    ensures Sum(s, n) >= 0.0
    decreases n
  {
    if n > 0 {
      SumNonNegative(s, n - 1);
    }
  }

  /** Appending a non-negative loss keeps every recorded loss non-negative. */
  lemma SnocNonNegative(losses: seq<real>, x: real)
    requires forall k :: 0 <= k < |losses| ==> losses[k] >= 0.0
    requires x >= 0.0
    ensures forall k :: 0 <= k < |losses + [x]| ==> (losses + [x])[k] >= 0.0
  {
  }

  /** Every loss an epoch records from sample `i` on, like those recorded before it, is
      non-negative. */
  lemma {:induction false} EpochLossesNonNegative(ls: seq<LayerState>, data: seq<(seq<real>, seq<real>)>,
                                                   i: nat, losses: seq<real>, lr: real, sigmoid: real -> real)
    requires WellFormed(ls) && i <= |data|
    requires forall k :: 0 <= k < |losses| ==> losses[k] >= 0.0
    ensures forall k :: 0 <= k < |EpochFrom(ls, data, i, losses, lr, sigmoid).1| ==>
      EpochFrom(ls, data, i, losses, lr, sigmoid).1[k] >= 0.0
    decreases |data| - i
  {
    if i < |data| {
      var step := SampleStep(ls, data[i].0, data[i].1, lr, sigmoid);
      if step.2.Pass? {
        var more := losses + [step.1];
        SnocNonNegative(losses, step.1);
        EpochLossesNonNegative(step.0, data, i + 1, more, lr, sigmoid);
      }
    }
  }

  lemma {:induction false} EpochsLossesNonNegative(ls: seq<LayerState>, data: seq<(seq<real>, seq<real>)>,
                                                    epochs: int, e: int, lr: real, sigmoid: real -> real,
                                                    losses: seq<real>)
    requires WellFormed(ls) && forall k :: 0 <= k < |losses| ==> losses[k] >= 0.0
    ensures forall k :: 0 <= k < |EpochsFrom(ls, data, epochs, e, lr, sigmoid, losses).losses| ==>
      EpochsFrom(ls, data, epochs, e, lr, sigmoid, losses).losses[k] >= 0.0
    decreases epochs - e
  {
    if e < epochs {
      var step := EpochFrom(ls, data, 0, [], lr, sigmoid);
      if step.2.Pass? {
        EpochLossesNonNegative(ls, data, 0, [], lr, sigmoid);
        SumNonNegative(step.1, |step.1|);
        var more := losses + [EpochLoss(step.1)];
        SnocNonNegative(losses, EpochLoss(step.1));
        EpochsLossesNonNegative(step.0, data, epochs, e + 1, lr, sigmoid, more);
      }
    }
  }

  /** Every epoch loss `trainDataset` records is a sum of per-sample losses, so none
      is negative. */
  lemma TrainDatasetLossesNonNegative(ls: seq<LayerState>, data: seq<(seq<real>, seq<real>)>, epochs: int,
                                      lr: real, sigmoid: real -> real)
    requires WellFormed(ls)
    ensures forall k :: 0 <= k < |TrainDataset(ls, data, epochs, lr, sigmoid).losses| ==>
      TrainDataset(ls, data, epochs, lr, sigmoid).losses[k] >= 0.0
  {
    EpochsLossesNonNegative(ls, data, epochs, 0, lr, sigmoid, []);
  }

  /** After a successful `train`, every layer caches what the forward pass on `x`
      computed with the parameters as they were before the step. */
  lemma TrainCachesForwardPass(ls: seq<LayerState>, x: seq<real>, t: seq<real>, lr: real, sigmoid: real -> real)
    requires WellFormed(ls) && TrainDefined(ls, x, t)
    requires TrainStep(ls, x, t, lr, sigmoid).1 == Pass
    ensures |x| == InSize(ls[0])
    ensures Caches(TrainStep(ls, x, t, lr, sigmoid).0) == Caches(AfterForward(ls, x, sigmoid))
  {
  }

  lemma {:induction false} SumScaled(e: seq<real>, s: seq<real>, total: real, n: nat)
    requires n <= |e| == |s| && total != 0.0
    requires forall i :: 0 <= i < |e| ==> s[i] == e[i] / total
    ensures Sum(s, n) == Sum(e, n) / total
    decreases n
  {
    if n > 0 {
      SumScaled(e, s, total, n - 1);
    }
  }

  lemma QuotientPositive(a: real, b: real)
    requires a > 0.0 && b > 0.0
    ensures a / b > 0.0
  {
  }

  lemma QuotientSelf(a: real)
    requires a != 0.0
    ensures a / a == 1.0
  {
  }

  lemma NormalizePositive(e: seq<real>)
    requires |e| > 0 && forall i :: 0 <= i < |e| ==> e[i] > 0.0
    ensures forall i :: 0 <= i < |e| ==> 0.0 < Normalize(e)[i]
  {
    SumPositive(e, |e|);
    forall i | 0 <= i < |e| ensures 0.0 < Normalize(e)[i] {
      QuotientPositive(e[i], Sum(e, |e|));
    }
  }

  lemma NormalizeSumsToOne(e: seq<real>)
    requires |e| > 0 && forall i :: 0 <= i < |e| ==> e[i] > 0.0
    ensures Sum(Normalize(e), |e|) == 1.0
  {
    SumPositive(e, |e|);
    var total := Sum(e, |e|);
    SumScaled(e, Normalize(e), total, |e|);
    QuotientSelf(total);
  }

  /** Normalising positive terms yields a probability distribution. */
  lemma NormalizeIsDistribution(e: seq<real>)
    requires |e| > 0 && forall i :: 0 <= i < |e| ==> e[i] > 0.0
    ensures forall i :: 0 <= i < |e| ==> 0.0 < Normalize(e)[i]
    ensures Sum(Normalize(e), |e|) == 1.0
  {
    NormalizePositive(e);
    NormalizeSumsToOne(e);
  }

  /** Softmax yields a probability distribution: positive entries summing to 1. */
  lemma SoftmaxIsDistribution(x: seq<real>, exp: real -> real)
    requires |x| > 0 && Positive(exp)
    ensures forall i :: 0 <= i < |x| ==> 0.0 < Softmax(x, exp)[i]
    ensures Sum(Softmax(x, exp), |x|) == 1.0
  {
    NormalizeIsDistribution(Shifted(x, Max(x), exp));
  }
}
