/** The library's `NeuralNetwork` class: a chain of `Layer` objects that are run
    forward, trained, re-initialised, saved and loaded in place. Every method is
    proved against the functions of `NetworkMath` and `Persistence` over the
    snapshots of its layers. */
module Networks {
  import opened Errors
  import opened LayerMath
  import opened Layers
  import opened NetworkMath
  import opened Persistence
  import opened PersistenceFacts

  /** The layers while the forward loop is under way: layers below `k` have cached
      their activations, the others are as they were. */
  function ForwardedUpTo(ls: seq<LayerState>, acts: seq<seq<real>>, k: nat): (r: seq<LayerState>)
    requires |acts| == |ls| + 1
    ensures |r| == |ls|
  {
    seq(|ls|, m requires 0 <= m < |ls| =>
      if m < k then ls[m].(lastInput := acts[m], lastOutput := acts[m + 1]) else ls[m])
  }

  lemma ForwardedUpToStep(ls: seq<LayerState>, acts: seq<seq<real>>, k: nat)
    requires |acts| == |ls| + 1 && k < |ls|
    ensures ForwardedUpTo(ls, acts, k)[k := ls[k].(lastInput := acts[k], lastOutput := acts[k + 1])]
      == ForwardedUpTo(ls, acts, k + 1)
    ensures ForwardedUpTo(ls, acts, 0) == ls
    ensures ForwardedUpTo(ls, acts, |ls|) == Forwarded(ls, acts)
  {
  }

  /** The prefix of `s` one longer is the prefix with the next element appended. */
  lemma PrefixSnoc<T>(s: seq<T>, n: nat)
    requires n < |s|
    ensures s[..n + 1] == s[..n] + [s[n]]
  {
  }

  lemma BackReadyAnySignal(ls: seq<LayerState>, acts: seq<seq<real>>, d: seq<real>, d': seq<real>, i: nat)
    requires BackReady(ls, acts, d, i) && |d'| == |d|
    ensures BackReady(ls, acts, d', i)
  {
  }

  /** `L` is as the layer constructor leaves it for these sizes and this generator. */
  ghost predicate NewLayer(L: Layer, nIn: int, nOut: int, draw: nat -> real)
    reads L
  {
    && nIn >= 0 && nOut > 0
    && L.Valid() && L.inputSize == nIn && L.outputSize == nOut
    && L.Snapshot() == InitLayer(nIn, nOut, draw)
  }

  /** The layers while the reset loop is under way. */
  function ResetUpTo(ls: seq<LayerState>, draw: nat -> nat -> real, k: nat): (r: seq<LayerState>)
    ensures |r| == |ls|
  {
    seq(|ls|, m requires 0 <= m < |ls| => if m < k then Reinitialized(ls[m], draw(m)) else ls[m])
  }

  lemma ResetUpToStep(ls: seq<LayerState>, draw: nat -> nat -> real, k: nat)
    requires k < |ls|
    ensures ResetUpTo(ls, draw, k)[k := Reinitialized(ls[k], draw(k))] == ResetUpTo(ls, draw, k + 1)
    ensures ResetUpTo(ls, draw, 0) == ls
  {
  }

  /** A `train` call that passes both checks is the forward pass followed by the
      backward loop on the output error. */
  lemma TrainStepPasses(ls: seq<LayerState>, x: seq<real>, t: seq<real>, lr: real, sigmoid: real -> real)
    requires WellFormed(ls) && TrainDefined(ls, x, t)
    requires |t| == |ls[|ls| - 1].lastOutput| && |x| == InSize(ls[0])
    ensures |Activations(ls, x, sigmoid)[|ls|]| <= |t|
    ensures BackReady(Forwarded(ls, Activations(ls, x, sigmoid)), Activations(ls, x, sigmoid),
                      Activations(ls, x, sigmoid)[|ls|], |ls|)
    ensures TrainStep(ls, x, t, lr, sigmoid)
      == (BackPass(Forwarded(ls, Activations(ls, x, sigmoid)), Activations(ls, x, sigmoid),
                   OutputDelta(Activations(ls, x, sigmoid)[|ls|], t), lr, |ls|), Pass)
  {
    var acts := Activations(ls, x, sigmoid);
    assert |acts[(|ls| - 1) + 1]| == OutSize(ls[|ls| - 1]);
    ForwardedReady(ls, acts);
  }

  /** After a forward pass whose output is as wide as `t`, `train` is defined on `t`. */
  lemma TrainDefinedAfterForward(ls: seq<LayerState>, x: seq<real>, t: seq<real>, sigmoid: real -> real)
    requires WellFormed(ls) && |x| == InSize(ls[0]) && |t| == OutSize(ls[|ls| - 1])
    ensures TrainDefined(AfterForward(ls, x, sigmoid), x, t)
  {
  }

  /** A sample whose input and target widths fit is trained on, and its loss is that
      of the output before training. */
  lemma SampleAccepted(ls: seq<LayerState>, x: seq<real>, t: seq<real>, lr: real, sigmoid: real -> real)
    requires WellFormed(ls) && |x| == InSize(ls[0]) && |t| == OutSize(ls[|ls| - 1])
    ensures SampleStep(ls, x, t, lr, sigmoid).0 == TrainStep(AfterForward(ls, x, sigmoid), x, t, lr, sigmoid).0
    ensures SampleStep(ls, x, t, lr, sigmoid).1 == MeanSquaredError(Output(ls, x, sigmoid), t)
    ensures SampleStep(ls, x, t, lr, sigmoid).2 == Pass
  {
  }

  /** A sample of the wrong input width leaves the layers alone; one of the wrong
      target width leaves them as the forward pass did. */
  lemma SampleRejected(ls: seq<LayerState>, x: seq<real>, t: seq<real>, lr: real, sigmoid: real -> real)
    requires WellFormed(ls)
    ensures |x| != InSize(ls[0]) ==> SampleStep(ls, x, t, lr, sigmoid).0 == ls
    ensures |x| == InSize(ls[0]) && |t| != OutSize(ls[|ls| - 1]) ==>
      SampleStep(ls, x, t, lr, sigmoid).0 == AfterForward(ls, x, sigmoid)
    ensures |x| != InSize(ls[0]) || |t| != OutSize(ls[|ls| - 1]) ==>
      SampleStep(ls, x, t, lr, sigmoid).1 == 0.0 && SampleStep(ls, x, t, lr, sigmoid).2 == Fail(ShapeMismatch)
  {
  }

  /** An accepted sample moves the epoch on to the next sample: if the rest of the
      epoch from sample `i` gives `goal`, so does the rest from sample `i + 1`, started
      from the layers `next` that sample `i` leaves and with its loss `loss` recorded. */
  lemma EpochAdvance(ls: seq<LayerState>, data: seq<(seq<real>, seq<real>)>, i: nat, losses: seq<real>,
                     lr: real, sigmoid: real -> real, goal: (seq<LayerState>, seq<real>, Outcome),
                     next: seq<LayerState>, loss: real)
    requires WellFormed(ls) && i < |data|
    requires EpochFrom(ls, data, i, losses, lr, sigmoid) == goal
    requires next == SampleStep(ls, data[i].0, data[i].1, lr, sigmoid).0
    requires loss == SampleStep(ls, data[i].0, data[i].1, lr, sigmoid).1
    requires SampleStep(ls, data[i].0, data[i].1, lr, sigmoid).2 == Pass
    ensures WellFormed(next)
    ensures EpochFrom(next, data, i + 1, losses + [loss], lr, sigmoid) == goal
  {
  }

  /** A rejected sample ends the epoch: what the epoch leaves is what the sample
      left, with the losses recorded before it. */
  lemma EpochStops(ls: seq<LayerState>, data: seq<(seq<real>, seq<real>)>, i: nat, losses: seq<real>,
                   lr: real, sigmoid: real -> real, goal: (seq<LayerState>, seq<real>, Outcome))
    requires WellFormed(ls) && i < |data|
    requires EpochFrom(ls, data, i, losses, lr, sigmoid) == goal
    ensures SampleStep(ls, data[i].0, data[i].1, lr, sigmoid).2.Fail? ==>
      goal == (SampleStep(ls, data[i].0, data[i].1, lr, sigmoid).0, losses, SampleStep(ls, data[i].0, data[i].1, lr, sigmoid).2)
  {
  }

  /** `rows` in front of the rows of a successful read. */
  function Prepend(rows: seq<seq<real>>, res: Result<(seq<seq<real>>, seq<Token>)>): Result<(seq<seq<real>>, seq<Token>)> {
    match res
    case Failure(e) => Failure(e)
    case Success((rs, after)) => Success((rows + rs, after))
  }

  /** The file written up to layer `k`, followed by the block of layer `k`, is the
      file written up to layer `k + 1`. */
  lemma WrittenUpTo(ls: seq<LayerState>, k: nat, out: seq<Token>, block: seq<Token>)
    requires k < |ls|
    requires out == [Nat(|ls|)] + EncodeLayers(ls[..k]) && block == EncodeLayer(ls[k])
    ensures out + block == [Nat(|ls|)] + EncodeLayers(ls[..k + 1])
  {
    assert ls[..k + 1] == ls[..k] + [ls[k]];
    EncodeLayersSnoc(ls[..k], ls[k]);
  }

  /** Nothing in front of a read leaves it as it is. */
  lemma PrependNothing(res: Result<(seq<seq<real>>, seq<Token>)>)
    ensures Prepend([], res) == res
  {
    if res.Success? {
      assert [] + res.value.0 == res.value.0;
    }
  }

  /** Reading `n > 0` rows ahead of the rows `w` already read: a short first row
      ends the read, otherwise it joins `w`. */
  lemma PrependRow(w: seq<seq<real>>, ts: seq<Token>, n: nat, c: nat)
    requires n > 0
    ensures ReadScalars(ts, c).Failure? ==> Prepend(w, ReadRows(ts, n, c)) == Failure(Malformed)
    ensures ReadScalars(ts, c).Success? ==>
      Prepend(w, ReadRows(ts, n, c)) ==
      Prepend(w + [ReadScalars(ts, c).value.0], ReadRows(ReadScalars(ts, c).value.1, n - 1, c))
  {
    if ReadScalars(ts, c).Success? {
      var row := ReadScalars(ts, c).value.0;
      match ReadRows(ReadScalars(ts, c).value.1, n - 1, c)
      case Failure(e) =>
      case Success((rs, after)) => assert w + ([row] + rs) == (w + [row]) + rs;
    }
  }

  class NeuralNetwork {
    /** The layers, input side first. The library never adds or removes one after
        construction. */
    const layers: seq<Layer>

    /** The snapshots of the layers, in order. */
    ghost function State(): (s: seq<LayerState>)
      reads layers
      ensures |s| == |layers|
    {
      seq(|layers|, k reads layers requires 0 <= k < |layers| => layers[k].Snapshot())
    }

    /** There is at least one layer, every layer is its own object and keeps its
        shape, and each layer's output width is the next layer's input width. */
    ghost predicate Valid()
      reads layers
    {
      && |layers| >= 1
      && (forall i, j :: 0 <= i < j < |layers| ==> layers[i] != layers[j])
      && (forall k :: 0 <= k < |layers| ==> layers[k].Valid())
      && (forall k :: 0 <= k < |layers| - 1 ==> layers[k].outputSize == layers[k + 1].inputSize)
    }

    /** A valid network's snapshots form a well-formed network whose widths are the
        layers' own. */
    lemma ValidIsWellFormed()
      requires Valid()
      ensures WellFormed(State())
      ensures forall k :: 0 <= k < |layers| ==>
        InSize(State()[k]) == layers[k].inputSize && OutSize(State()[k]) == layers[k].outputSize
    {
      forall k | 0 <= k < |layers|
        ensures InSize(State()[k]) == layers[k].inputSize && OutSize(State()[k]) == layers[k].outputSize
      {
        assert |layers[k].weights[0]| == layers[k].inputSize;
      }
    }

    /** Builds layer `k` from `sizes[k]` to `sizes[k + 1]` units, drawing its
        parameters from `draw(k)`. */
    constructor (sizes: seq<int>, draw: nat -> nat -> real)
      requires |sizes| >= 2 && BuildableSizes(sizes)
      ensures Valid() && State() == InitNet(sizes, draw)
      ensures forall k :: 0 <= k < |layers| ==> fresh(layers[k])
    {
      ghost var goal := InitNet(sizes, draw);
      var ls := BuildLayers(sizes, draw);
      layers := ls;
      new;
      assert forall k :: 0 <= k < |layers| ==> State()[k] == goal[k];
    }

    /** The construction loop: one new layer per pair of adjacent sizes. */
    static method BuildLayers(sizes: seq<int>, draw: nat -> nat -> real) returns (ls: seq<Layer>)
      requires |sizes| >= 2 && BuildableSizes(sizes)
      ensures |ls| == |sizes| - 1
      ensures forall k :: 0 <= k < |ls| ==> fresh(ls[k])
      ensures forall k :: 0 <= k < |ls| ==>
        && ls[k].Valid() && ls[k].inputSize == sizes[k] && ls[k].outputSize == sizes[k + 1]
        && ls[k].Snapshot() == InitLayer(sizes[k], sizes[k + 1], draw(k))
      ensures forall m, n :: 0 <= m < n < |ls| ==> ls[m] != ls[n]
    {
      ls := [];
      for i := 1 to |sizes|
        invariant |ls| == i - 1
        invariant forall k :: 0 <= k < |ls| ==> fresh(ls[k])
        invariant forall k :: 0 <= k < |ls| ==> NewLayer(ls[k], sizes[k], sizes[k + 1], draw(k))
        invariant forall m, n :: 0 <= m < n < |ls| ==> ls[m] != ls[n]
      {
        var L := new Layer(sizes[i - 1], sizes[i], draw(i - 1));
        ls := ls + [L];
      }
      forall k | 0 <= k < |ls|
        ensures && ls[k].Valid() && ls[k].inputSize == sizes[k] && ls[k].outputSize == sizes[k + 1]
                && ls[k].Snapshot() == InitLayer(sizes[k], sizes[k + 1], draw(k))
      {
        assert NewLayer(ls[k], sizes[k], sizes[k + 1], draw(k));
      }
    }

    /** The constructor's check: fewer than two sizes is an invalid configuration. */
    static method Create(sizes: seq<int>, draw: nat -> nat -> real) returns (r: Result<NeuralNetwork>)
      requires |sizes| >= 2 ==> BuildableSizes(sizes)
      ensures r.Failure? <==> |sizes| < 2
      ensures r.Failure? ==> r.error == InvalidConfig
      ensures r.Success? ==> r.value.Valid() && r.value.State() == InitNet(sizes, draw)
      ensures r.Success? ==> forall k :: 0 <= k < |r.value.layers| ==> fresh(r.value.layers[k])
    {
      if |sizes| < 2 {
        return Failure(InvalidConfig);
      }
      var net := new NeuralNetwork(sizes, draw);
      return Success(net);
    }

    /** Layer `k` runs forward on `x`; no other layer changes. */
    method ForwardLayer(k: nat, x: seq<real>, sigmoid: real -> real) returns (r: Result<seq<real>>)
      requires Valid() && k < |layers|
      modifies layers[k]
      ensures Valid()
      ensures r.Failure? <==> |x| != layers[k].inputSize
      ensures r.Failure? ==> r.error == ShapeMismatch && State() == old(State())
      ensures r.Success? ==> r.value == Outputs(old(State())[k].weights, old(State())[k].biases, x, sigmoid)
      ensures r.Success? ==> State() == old(State())[k := old(State())[k].(lastInput := x, lastOutput := r.value)]
    {
      r := layers[k].Forward(x, sigmoid);
    }

    /** Layer `k` runs backward; no other layer changes. */
    method BackwardLayer(k: nat, delta: seq<real>, prev: seq<real>, lr: real) returns (d: seq<real>)
      requires Valid() && k < |layers| && CanBackward(State()[k], delta, prev)
      modifies layers[k]
      ensures Valid()
      ensures State() == old(State())[k := Backpropagated(old(State())[k], delta, prev, lr).0]
      ensures d == Backpropagated(old(State())[k], delta, prev, lr).1
    {
      d := layers[k].Backward(delta, prev, lr);
    }

    /** `forward(input)`: each layer in turn runs forward on the previous layer's
        output. Only the first layer can reject its input, and it does so before
        anything is changed. */
    method Forward(input: seq<real>, sigmoid: real -> real) returns (r: Result<seq<real>>)
      requires Valid()
      modifies layers
      ensures Valid()
      ensures r.Failure? <==> |input| != InSize(old(State())[0])
      ensures r.Failure? ==> r.error == ShapeMismatch && State() == old(State())
      ensures r.Success? ==> r.value == Output(old(State()), input, sigmoid)
      ensures r.Success? ==> State() == AfterForward(old(State()), input, sigmoid)
    {
      ghost var S0 := State();
      ValidIsWellFormed();
      r := ForwardLayer(0, input, sigmoid);
      if r.Failure? {
        return;
      }
      ghost var acts := Activations(S0, input, sigmoid);
      var out := r.value;
      ForwardedUpToStep(S0, acts, 0);
      for k := 1 to |layers|
        invariant Valid()
        invariant out == acts[k]
        invariant State() == ForwardedUpTo(S0, acts, k)
      {
        var res := ForwardLayer(k, out, sigmoid);
        out := res.value;
        ForwardedUpToStep(S0, acts, k);
      }
      r := Success(out);
    }

    /** `predict(input)` is `forward(input)`. */
    method Predict(input: seq<real>, sigmoid: real -> real) returns (r: Result<seq<real>>)
      requires Valid()
      modifies layers
      ensures Valid()
      ensures r.Failure? <==> |input| != InSize(old(State())[0])
      ensures r.Failure? ==> r.error == ShapeMismatch && State() == old(State())
      ensures r.Success? ==> r.value == Output(old(State()), input, sigmoid)
      ensures r.Success? ==> State() == AfterForward(old(State()), input, sigmoid)
    {
      r := Forward(input, sigmoid);
    }

    /** The output-layer error signal, one entry at a time. */
    static method OutputError(out: seq<real>, target: seq<real>) returns (delta: seq<real>)
      requires |out| <= |target|
      ensures delta == OutputDelta(out, target)
    {
      delta := seq(|out|, _ => 0.0);
      for i := 0 to |out|
        invariant |delta| == |out|
        invariant forall m :: 0 <= m < i ==> delta[m] == out[m] - target[m]
      {
        delta := delta[i := out[i] - target[i]];
      }
    }

    /** The forward loop of `train`: like `forward`, and it also records the input
        and every layer's output. */
    method ForwardRecording(input: seq<real>, sigmoid: real -> real) returns (r: Result<seq<seq<real>>>)
      requires Valid() && WellFormed(State())
      modifies layers
      ensures Valid()
      ensures r.Failure? <==> |input| != InSize(old(State())[0])
      ensures r.Failure? ==> r.error == ShapeMismatch && State() == old(State())
      ensures r.Success? ==> r.value == Activations(old(State()), input, sigmoid)
      ensures r.Success? ==> State() == Forwarded(old(State()), r.value)
    {
      ghost var S0 := State();
      ValidIsWellFormed();
      var activations := [input];
      var first := ForwardLayer(0, input, sigmoid);
      if first.Failure? {
        return Failure(first.error);
      }
      ghost var acts := Activations(S0, input, sigmoid);
      var out := first.value;
      activations := activations + [out];
      ForwardedUpToStep(S0, acts, 0);
      for k := 1 to |layers|
        invariant Valid()
        invariant out == acts[k]
        invariant activations == acts[..k + 1]
        invariant State() == ForwardedUpTo(S0, acts, k)
      {
        out := RecordLayer(S0, acts, k, out, sigmoid);
        PrefixSnoc(acts, k + 1);
        activations := activations + [out];
      }
      assert activations == acts[..|acts|] == acts;
      r := Success(activations);
    }

    /** One turn of the forward loop of `train`: layer `k` runs forward on `acts[k]`,
        the activation handed to it, and hands on `acts[k + 1]`. */
    method RecordLayer(ghost S0: seq<LayerState>, ghost acts: seq<seq<real>>, k: nat, out: seq<real>,
                       sigmoid: real -> real) returns (next: seq<real>)
      requires Valid() && k < |layers| && |S0| == |layers| && |acts| == |layers| + 1
      requires WellFormed(S0) && out == acts[k] && |out| == InSize(S0[k]) == layers[k].inputSize
      requires acts[k + 1] == Outputs(S0[k].weights, S0[k].biases, out, sigmoid)
      requires State() == ForwardedUpTo(S0, acts, k)
      modifies layers[k]
      ensures Valid() && next == acts[k + 1]
      ensures State() == ForwardedUpTo(S0, acts, k + 1)
    {
      ForwardedUpToStep(S0, acts, k);
      var res := ForwardLayer(k, out, sigmoid);
      next := res.value;
    }

    /** The backward half of `train`: the error signal at the output is formed
        against the target and handed to the backward loop. */
    method Backpropagate(acts: seq<seq<real>>, target: seq<real>, learningRate: real)
      requires Valid() && |acts| == |layers| + 1 && |acts[|layers|]| <= |target|
      requires BackReady(State(), acts, acts[|layers|], |layers|)
      modifies layers
      ensures Valid()
      ensures State() == BackPass(old(State()), acts, OutputDelta(acts[|layers|], target), learningRate, |layers|)
    {
      var delta := OutputError(acts[|layers|], target);
      BackReadyAnySignal(State(), acts, acts[|layers|], delta, |layers|);
      BackwardAll(acts, delta, learningRate);
    }

    /** The backward loop of `train`: layers `n - 1` down to `0` each run backward on
        the signal handed down by the layer after them. */
    method BackwardAll(acts: seq<seq<real>>, delta0: seq<real>, learningRate: real)
      requires Valid() && BackReady(State(), acts, delta0, |layers|)
      modifies layers
      ensures Valid()
      ensures State() == BackPass(old(State()), acts, delta0, learningRate, |layers|)
    {
      ghost var goal := BackPass(State(), acts, delta0, learningRate, |layers|);
      var delta := delta0;
      var i := |layers|;
      while i > 0
        invariant 0 <= i <= |layers|
        invariant Valid() && BackReady(State(), acts, delta, i)
        invariant BackPass(State(), acts, delta, learningRate, i) == goal
      {
        ghost var turn := BackTurn(State(), acts, delta, learningRate, i);
        i := i - 1;
        delta := BackwardLayer(i, delta, acts[i], learningRate);
        assert State() == turn.0;
      }
    }

    /** `train(input, target, learningRate)`: the target is checked against the
        output cached by the previous forward pass; then a forward pass records every
        activation, and the layers run backward from the last to the first. */
    method Train(input: seq<real>, target: seq<real>, learningRate: real, sigmoid: real -> real)
      returns (r: Outcome)
      requires Valid() && TrainDefined(State(), input, target)
      modifies layers
      ensures Valid()
      ensures State() == TrainStep(old(State()), input, target, learningRate, sigmoid).0
      ensures r == TrainStep(old(State()), input, target, learningRate, sigmoid).1
    {
      ghost var S0 := State();
      ValidIsWellFormed();
      var n := |layers|;
      if |target| != |layers[n - 1].lastOutput| {
        return Fail(ShapeMismatch);
      }
      var activations := ForwardRecording(input, sigmoid);
      if activations.Failure? {
        return Fail(activations.error);
      }
      assert |S0[n - 1].lastOutput| == OutSize(S0[n - 1]);
      TrainStepPasses(S0, input, target, learningRate, sigmoid);
      Backpropagate(activations.value, target, learningRate);
      return Pass;
    }

    /** `mse(output, target)`: the squared differences summed left to right, divided
        by the number of outputs. */
    static method Mse(output: seq<real>, target: seq<real>) returns (e: real)
      requires 0 < |output| <= |target|
      ensures e == MeanSquaredError(output, target)
    {
      var sum := 0.0;
      for i := 0 to |output|
        invariant sum == SumSquares(output, target, i)
      {
        var diff := output[i] - target[i];
        sum := sum + diff * diff;
      }
      e := sum / (|output| as real);
    }

    /** The body of `trainDataset`'s inner loop for one sample: forward, check the
        target width, train, and compute the loss of the output the forward pass gave
        before the training step. */
    method TrainSample(input: seq<real>, target: seq<real>, learningRate: real, sigmoid: real -> real)
      returns (loss: real, outcome: Outcome)
      requires Valid()
      modifies layers
      ensures Valid()
      ensures State() == SampleStep(old(State()), input, target, learningRate, sigmoid).0
      ensures loss == SampleStep(old(State()), input, target, learningRate, sigmoid).1
      ensures outcome == SampleStep(old(State()), input, target, learningRate, sigmoid).2
    {
      ValidIsWellFormed();
      ghost var S0 := State();
      var output := Forward(input, sigmoid);
      if output.Failure? {
        SampleRejected(S0, input, target, learningRate, sigmoid);
        SampleState(S0, input, target, learningRate, sigmoid);
        return 0.0, Fail(ShapeMismatch);
      }
      if |target| != |output.value| {
        SampleRejected(S0, input, target, learningRate, sigmoid);
        SampleState(S0, input, target, learningRate, sigmoid);
        return 0.0, Fail(ShapeMismatch);
      }
      loss := Mse(output.value, target);
      TrainAfterForward(S0, input, target, learningRate, sigmoid);
      outcome := Pass;
      SampleAccepted(S0, input, target, learningRate, sigmoid);
      SampleState(S0, input, target, learningRate, sigmoid);
    }

    /** The layers after one sample, from the state each path of `TrainSample` leaves. */
    lemma SampleState(S0: seq<LayerState>, input: seq<real>, target: seq<real>, learningRate: real,
                      sigmoid: real -> real)
      requires WellFormed(S0)
      requires |input| != InSize(S0[0]) ==> State() == S0
      requires |input| == InSize(S0[0]) && |target| != OutSize(S0[|S0| - 1]) ==>
        State() == AfterForward(S0, input, sigmoid)
      requires |input| == InSize(S0[0]) && |target| == OutSize(S0[|S0| - 1]) ==>
        State() == TrainStep(AfterForward(S0, input, sigmoid), input, target, learningRate, sigmoid).0
      ensures State() == SampleStep(S0, input, target, learningRate, sigmoid).0
    {
      SampleRejected(S0, input, target, learningRate, sigmoid);
      if |input| == InSize(S0[0]) && |target| == OutSize(S0[|S0| - 1]) {
        SampleAccepted(S0, input, target, learningRate, sigmoid);
      }
    }

    /** `train` right after the forward pass of `input` from `S0`, on a target as wide as
        the output. */
    method TrainAfterForward(ghost S0: seq<LayerState>, input: seq<real>, target: seq<real>,
                             learningRate: real, sigmoid: real -> real)
      requires Valid() && WellFormed(S0) && |input| == InSize(S0[0])
      requires |target| == OutSize(S0[|S0| - 1])
      requires State() == AfterForward(S0, input, sigmoid)
      modifies layers
      ensures Valid()
      ensures State() == TrainStep(AfterForward(S0, input, sigmoid), input, target, learningRate, sigmoid).0
    {
      TrainDefinedAfterForward(S0, input, target, sigmoid);
      var trained := Train(input, target, learningRate, sigmoid);
    }

    /** One epoch of `trainDataset`: the samples in order, until one is rejected; the
        epoch's loss is the sum of the losses of the accepted samples. */
    method Epoch(data: seq<(seq<real>, seq<real>)>, learningRate: real, sigmoid: real -> real)
      returns (total: real, outcome: Outcome)
      requires Valid()
      modifies layers
      ensures Valid()
      ensures State() == EpochFrom(old(State()), data, 0, [], learningRate, sigmoid).0
      ensures total == EpochLoss(EpochFrom(old(State()), data, 0, [], learningRate, sigmoid).1)
      ensures outcome == EpochFrom(old(State()), data, 0, [], learningRate, sigmoid).2
    {
      ValidIsWellFormed();
      ghost var goal := EpochFrom(State(), data, 0, [], learningRate, sigmoid);
      ghost var losses: seq<real> := [];
      total := 0.0;
      for i := 0 to |data|
        invariant Valid() && WellFormed(State())
        invariant EpochFrom(State(), data, i, losses, learningRate, sigmoid) == goal
        invariant total == EpochLoss(losses)
      {
        var loss, sample := EpochTurn(goal, losses, data, i, learningRate, sigmoid);
        if sample.Fail? {
          return total, sample;
        }
        EpochLossSnoc(losses, loss);
        losses := losses + [loss];
        total := total + loss;
      }
      outcome := Pass;
    }

    /** Sample `i` of an epoch whose remainder from sample `i` on is `goal`: a
        rejected sample ends the epoch there, an accepted one records its loss. */
    method EpochTurn(ghost goal: (seq<LayerState>, seq<real>, Outcome), ghost losses: seq<real>,
                     data: seq<(seq<real>, seq<real>)>, i: nat, learningRate: real, sigmoid: real -> real)
      returns (loss: real, sample: Outcome)
      requires Valid() && WellFormed(State()) && i < |data|
      requires EpochFrom(State(), data, i, losses, learningRate, sigmoid) == goal
      modifies layers
      ensures Valid() && WellFormed(State())
      ensures sample.Fail? ==> goal == (State(), losses, sample)
      ensures sample.Pass? ==> EpochFrom(State(), data, i + 1, losses + [loss], learningRate, sigmoid) == goal
    {
      ghost var cur := State();
      EpochStops(cur, data, i, losses, learningRate, sigmoid, goal);
      loss, sample := TrainSample(data[i].0, data[i].1, learningRate, sigmoid);
      if sample.Pass? {
        EpochAdvance(cur, data, i, losses, learningRate, sigmoid, goal, State(), loss);
      }
    }

    /** `trainDataset(dataset, epochs, showProgres, learningRate)`: `epochs` epochs in
        a row; the total loss of each completed epoch is recorded, and a rejected
        sample ends the run. */
    method TrainDataset(data: seq<(seq<real>, seq<real>)>, epochs: int, learningRate: real, sigmoid: real -> real)
      returns (losses: seq<real>, outcome: Outcome)
      requires Valid()
      modifies layers
      ensures Valid()
      ensures Run(State(), losses, outcome) == NetworkMath.TrainDataset(old(State()), data, epochs, learningRate, sigmoid)
    {
      ValidIsWellFormed();
      ghost var cur := State();
      ghost var goal := NetworkMath.TrainDataset(cur, data, epochs, learningRate, sigmoid);
      losses := [];
      var epoch := 0;
      while epoch < epochs
        invariant Valid() && State() == cur && WellFormed(cur)
        invariant EpochsFrom(cur, data, epochs, epoch, learningRate, sigmoid, losses) == goal
        decreases epochs - epoch
      {
        var total, o := Epoch(data, learningRate, sigmoid);
        if o.Fail? {
          return losses, o;
        }
        losses := losses + [total];
        epoch := epoch + 1;
        cur := State();
      }
      outcome := Pass;
    }

    /** `softmax(x)`: the largest entry is subtracted before exponentiating, the terms
        are summed in a first loop and divided by the sum in a second. */
    static method Softmax(x: seq<real>, exp: real -> real) returns (result: seq<real>)
      requires |x| > 0 && Positive(exp)
      ensures result == NetworkMath.Softmax(x, exp)
    {
      var maxVal := Max(x);
      ghost var e := Shifted(x, maxVal, exp);
      result := seq(|x|, _ => 0.0);
      var sum := 0.0;
      for i := 0 to |x|
        invariant |result| == |x|
        invariant forall k :: 0 <= k < i ==> result[k] == e[k]
        invariant sum == Sum(e, i)
      {
        result := result[i := exp(x[i] - maxVal)];
        sum := sum + result[i];
      }
      assert result == e;
      SumPositive(e, |e|);
      for i := 0 to |result|
        invariant |result| == |e|
        invariant forall k :: 0 <= k < i ==> result[k] == e[k] / sum
        invariant forall k :: i <= k < |e| ==> result[k] == e[k]
      {
        result := result[i := result[i] / sum];
      }
    }

    /** Layer `k` re-initialises its parameters from `draw`; no other layer changes. */
    method ResetLayer(k: nat, draw: nat -> real)
      requires Valid() && k < |layers|
      modifies layers[k]
      ensures Valid()
      ensures State() == old(State())[k := Reinitialized(old(State())[k], draw)]
    {
      layers[k].Initialize(draw);
    }

    /** `resetTrain()`: every layer in turn re-initialises its parameters, layer `k`
        from its own generator `draw(k)`. */
    method ResetTrain(draw: nat -> nat -> real)
      requires Valid()
      modifies layers
      ensures Valid()
      ensures State() == ResetAll(old(State()), draw)
    {
      ValidIsWellFormed();
      ghost var S0 := State();
      ResetUpToStep(S0, draw, 0);
      for k := 0 to |layers|
        invariant Valid()
        invariant State() == ResetUpTo(S0, draw, k)
      {
        ResetUpToStep(S0, draw, k);
        ResetLayer(k, draw(k));
      }
      assert ResetUpTo(S0, draw, |layers|) == ResetAll(S0, draw);
    }

    /** The tokens of `s`, one scalar after another, appended to `out`. */
    static method WriteScalars(out: seq<Token>, s: seq<real>) returns (r: seq<Token>)
      ensures r == out + Scalars(s)
    {
      r := out;
      for j := 0 to |s|
        invariant r == out + Scalars(s[..j])
      {
        assert s[..j + 1] == s[..j] + [s[j]];
        ScalarsAppend(s[..j], [s[j]]);
        r := r + [Num(s[j])];
      }
      assert s[..|s|] == s;
    }

    /** What `saveWeights` writes for layer `k`: its row and column counts, its weights
        row by row, then its biases. */
    method WriteLayer(k: nat) returns (block: seq<Token>)
      requires Valid() && k < |layers|
      ensures block == EncodeLayer(State()[k])
    {
      var L := layers[k];
      var w := L.weights;
      ghost var header := [Nat(|w|), Nat(|w[0]|)];
      block := [Nat(|w|), Nat(|w[0]|)];
      for i := 0 to |w|
        invariant block == header + Scalars(Flatten(w[..i]))
      {
        assert w[..i + 1] == w[..i] + [w[i]];
        FlattenSnoc(w[..i], w[i]);
        ScalarsAppend(Flatten(w[..i]), w[i]);
        block := WriteScalars(block, w[i]);
      }
      assert w[..|w|] == w;
      block := WriteScalars(block, L.biases);
    }

    /** `saveWeights(filename)`: nothing is written when the file cannot be opened;
        otherwise the layer count is written, then every layer's block in order. */
    method SaveWeights(canOpen: bool) returns (r: Result<seq<Token>>)
      requires Valid()
      ensures r.Failure? <==> !canOpen
      ensures r.Failure? ==> r.error == IOFailure
      ensures r.Success? ==> r.value == Encode(State())
    {
      if !canOpen {
        return Failure(IOFailure);
      }
      var out := [Nat(|layers|)];
      for k := 0 to |layers|
        invariant out == [Nat(|layers|)] + EncodeLayers(State()[..k])
      {
        var block := WriteLayer(k);
        WrittenUpTo(State(), k, out, block);
        out := out + block;
      }
      assert State()[..|layers|] == State();
      return Success(out);
    }

    /** `n` scalars read one after another from `ts`; `Malformed` when the stream ends
        first. */
    static method ReadRow(ts: seq<Token>, n: nat) returns (r: Result<(seq<real>, seq<Token>)>)
      ensures r == ReadScalars(ts, n)
    {
      if |ts| < n {
        return Failure(Malformed);
      }
      var row := [];
      for j := 0 to n
        invariant row == seq(j, i requires 0 <= i < j => ScalarOf(ts[i]))
      {
        row := row + [ScalarOf(ts[j])];
      }
      return Success((row, ts[n..]));
    }

    /** `rows` rows of `cols` scalars each, read row by row from `ts`. */
    static method ReadMatrix(ts: seq<Token>, rows: nat, cols: nat) returns (r: Result<(seq<seq<real>>, seq<Token>)>)
      ensures r == ReadRows(ts, rows, cols)
    {
      var w := [];
      var rest := ts;
      PrependNothing(ReadRows(ts, rows, cols));
      for i := 0 to rows
        invariant ReadRows(ts, rows, cols) == Prepend(w, ReadRows(rest, rows - i, cols))
      {
        PrependRow(w, rest, rows - i, cols);
        var row := ReadRow(rest, cols);
        if row.Failure? {
          return Failure(row.error);
        }
        w := w + [row.value.0];
        rest := row.value.1;
      }
      assert w + [] == w;
      return Success((w, rest));
    }

    /** Loads layer `k` from the front of `ts`: the two counts must be present and
        equal to the layer's dimensions; then its weights and biases are read. The
        layer changes only when the whole block has been read. */
    method LoadLayer(k: nat, ts: seq<Token>) returns (r: Outcome, rest: seq<Token>)
      requires Valid() && k < |layers|
      modifies layers[k]
      ensures Valid()
      ensures ReadLayer(old(State())[k], ts).Failure? ==>
        r == Fail(ReadLayer(old(State())[k], ts).error) && State() == old(State())
      ensures ReadLayer(old(State())[k], ts).Success? ==>
        && r == Pass && rest == ReadLayer(old(State())[k], ts).value.1
        && State() == old(State())[k := ReadLayer(old(State())[k], ts).value.0]
    {
      var L := layers[k];
      rest := ts;
      if |ts| < 2 || !ts[0].Nat? || !ts[1].Nat? {
        return Fail(Malformed), rest;
      }
      if ts[0].n != |L.weights| || ts[1].n != |L.weights[0]| {
        return Fail(ShapeMismatch), rest;
      }
      var w := ReadMatrix(ts[2..], |L.weights|, |L.weights[0]|);
      if w.Failure? {
        return Fail(w.error), rest;
      }
      var b := ReadRow(w.value.1, |L.weights|);
      if b.Failure? {
        return Fail(b.error), rest;
      }
      L.weights := w.value.0;
      L.biases := b.value.0;
      return Pass, b.value.1;
    }

    /** `loadWeights(filename)`: a file that cannot be opened changes nothing; the
        layer count is checked before any layer is touched, then each layer's block is
        read in turn until one fails. */
    method LoadWeights(canOpen: bool, ts: seq<Token>) returns (r: Outcome)
      requires Valid()
      modifies layers
      ensures Valid()
      ensures !canOpen ==> r == Fail(IOFailure) && State() == old(State())
      ensures canOpen ==> (State(), r) == Load(old(State()), ts)
    {
      if !canOpen {
        return Fail(IOFailure);
      }
      if |ts| == 0 || !ts[0].Nat? {
        return Fail(Malformed);
      }
      if ts[0].n != |layers| {
        return Fail(ShapeMismatch);
      }
      ghost var goal := Load(State(), ts);
      var rest := ts[1..];
      for k := 0 to |layers|
        invariant Valid()
        invariant LoadLayers(State(), rest, k) == goal
      {
        var o;
        o, rest := LoadLayer(k, rest);
        if o.Fail? {
          return o;
        }
      }
      return Pass;
    }
  }
}
