/** One fully connected sigmoid layer whose parameters and caches are updated in
    place, as the library's `Layer` class does. */
module Layers {
  import opened Errors
  import opened LayerMath

  class Layer {
    var weights: seq<seq<real>>
    var biases: seq<real>
    var lastInput: seq<real>
    var lastOutput: seq<real>

    /** The dimensions the layer is built with. The library does not store them; they
        are the lengths of `weights[0]` and `weights`, which no operation changes. */
    ghost const inputSize: nat
    ghost const outputSize: nat

    /** The fields as one value. */
    ghost function Snapshot(): LayerState
      reads this
    {
      LayerState(weights, biases, lastInput, lastOutput)
    }

    ghost predicate Valid()
      reads this
    {
      Shaped(Snapshot(), inputSize, outputSize)
    }

    /** Builds a layer with `outputSize` rows of `inputSize` weights, taking its
        parameters from the generator `draw` in the order the library draws them. */
    constructor (inputSize: nat, outputSize: nat, draw: nat -> real)
      requires outputSize > 0
      ensures Valid() && this.inputSize == inputSize && this.outputSize == outputSize
      ensures Snapshot() == InitLayer(inputSize, outputSize, draw)
    {
      this.inputSize := inputSize;
      this.outputSize := outputSize;
      weights := seq(outputSize, _ => seq(inputSize, _ => 0.0));
      biases := seq(outputSize, _ => 0.0);
      lastInput := [];
      lastOutput := [];
      new;
      ghost var goal := InitLayer(inputSize, outputSize, draw);
      var n := 0;  // number of values drawn so far
      for i := 0 to outputSize
        invariant |weights| == outputSize && Rows(weights, inputSize) && |biases| == outputSize
        invariant lastInput == [] && lastOutput == []
        invariant n == i * (inputSize + 1)
        invariant forall k :: 0 <= k < i ==> weights[k] == goal.weights[k] && biases[k] == goal.biases[k]
      {
        var row := DrawRow(weights[i], draw, n);
        weights := weights[i := row];
        n := n + inputSize;
        biases := biases[i := draw(n)];
        n := n + 1;
      }
    }

    /** Overwrites every entry of `row` in turn with the next value of `draw`,
        starting at value number `start`. */
    static method DrawRow(row: seq<real>, draw: nat -> real, start: nat) returns (r: seq<real>)
      ensures |r| == |row|
      ensures forall j :: 0 <= j < |row| ==> r[j] == draw(start + j)
    {
      r := row;
      for j := 0 to |r|
        invariant |r| == |row|
        invariant forall m :: 0 <= m < j ==> r[m] == draw(start + m)
      {
        r := r[j := draw(start + j)];
      }
    }

    /** The pre-activation of one output unit: `bias + Σ_j row[j] * input[j]`,
        accumulated left to right. */
    static method WeightedSum(bias: real, row: seq<real>, input: seq<real>) returns (sum: real)
      requires |row| <= |input|
      ensures sum == bias + Dot(row, input)
    {
      sum := bias;
      var j := 0;
      while j < |row|
        invariant 0 <= j <= |row|
        invariant sum == bias + Dot(row[..j], input)
      {
        assert row[..j + 1][..j] == row[..j];
        sum := sum + row[j] * input[j];
        j := j + 1;
      }
      assert row[..j] == row;
    }

    /** The activations of all output units, written into `out` (resized to
        `|w|` entries) one unit at a time: entry `i` becomes `sigmoid(sum)` for the
        weighted sum of row `i`. */
    static method ComputeOutputs(w: seq<seq<real>>, b: seq<real>, input: seq<real>,
                                 sigmoid: real -> real, out: seq<real>)
      returns (r: seq<real>)
      requires |b| == |w| && Rows(w, |input|)
      ensures r == Outputs(w, b, input, sigmoid)
    {
      r := Resize(out, |w|);
      for i := 0 to |w|
        invariant |r| == |w|
        invariant forall k :: 0 <= k < i ==> r[k] == sigmoid(b[k] + Dot(w[k], input))
      {
        var sum := WeightedSum(b[i], w[i], input);
        r := r[i := sigmoid(sum)];
      }
      forall k | 0 <= k < |w| ensures r[k] == Outputs(w, b, input, sigmoid)[k] { }
    }

    /** The forward pass: rejects an input whose length differs from the rows', and
        otherwise caches the input and returns (and caches) the activations. */
    method Forward(input: seq<real>, sigmoid: real -> real) returns (r: Result<seq<real>>)
      requires Valid()
      modifies this
      ensures Valid()
      ensures r.Failure? <==> |input| != inputSize
      ensures r.Failure? ==> r.error == ShapeMismatch && Snapshot() == old(Snapshot())
      ensures r.Success? ==> r.value == Outputs(weights, biases, input, sigmoid)
      ensures r.Success? ==> Snapshot() == old(Snapshot()).(lastInput := input, lastOutput := r.value)
    {
      if |input| != |weights[0]| {
        return Failure(ShapeMismatch);
      }
      lastInput := input;
      lastOutput := ComputeOutputs(weights, biases, input, sigmoid, lastOutput);
      return Success(lastOutput);
    }

    /** The inner loop of the backward pass for output unit `i`: for each input `j`,
        first `deltaPrev[j]` gains `row[j] * gi` from the entry as it stands, then the
        entry is stepped to `row[j] - lr * gi * prev[j]`. */
    static method BackwardRow(row: seq<real>, deltaPrev: seq<real>, gi: real, prev: seq<real>, lr: real)
      returns (newRow: seq<real>, newDeltaPrev: seq<real>)
      requires |row| == |deltaPrev| && |row| <= |prev|
      ensures newRow == StepRow(row, gi, prev, lr)
      ensures newDeltaPrev == AddScaled(deltaPrev, row, gi)
    {
      newRow, newDeltaPrev := row, deltaPrev;
      for j := 0 to |row|
        invariant |newRow| == |row| && |newDeltaPrev| == |deltaPrev|
        invariant forall m :: 0 <= m < j ==> newRow[m] == row[m] - lr * gi * prev[m]
        invariant forall m :: j <= m < |row| ==> newRow[m] == row[m]
        invariant forall m :: 0 <= m < j ==> newDeltaPrev[m] == deltaPrev[m] + row[m] * gi
        invariant forall m :: j <= m < |row| ==> newDeltaPrev[m] == deltaPrev[m]
      {
        newDeltaPrev := newDeltaPrev[j := newDeltaPrev[j] + newRow[j] * gi];
        newRow := newRow[j := newRow[j] - lr * gi * prev[j]];
      }
      forall m | 0 <= m < |row| ensures newRow[m] == StepRow(row, gi, prev, lr)[m] { }
      forall m | 0 <= m < |row| ensures newDeltaPrev[m] == AddScaled(deltaPrev, row, gi)[m] { }
    }

    /** The loops of the backward pass over the weight matrix `w`, the biases `b`
        and the cached activations `a`: row `i` is visited once, its local gradient is
        formed, its contributions to the returned signal are read and then the row
        and its bias are stepped. */
    static method BackwardRows(w: seq<seq<real>>, b: seq<real>, a: seq<real>, delta: seq<real>,
                               prevActivation: seq<real>, learningRate: real, cols: nat)
      returns (newW: seq<seq<real>>, newB: seq<real>, deltaPrev: seq<real>)
      requires |w| > 0 && Rows(w, cols) && |b| == |w| && |a| == |w|
      requires |delta| >= |w| && |prevActivation| >= cols
      ensures var g := Gradient(delta, a, |w|);
        && newW == StepWeights(w, g, prevActivation, learningRate)
        && newB == StepBiases(b, g, learningRate)
        && deltaPrev == ColumnSums(w, g, |w|, cols)
    {
      ghost var g := Gradient(delta, a, |w|);
      ghost var goalW, goalB := StepWeights(w, g, prevActivation, learningRate), StepBiases(b, g, learningRate);
      newW, newB := w, b;
      deltaPrev := seq(|w[0]|, _ => 0.0);
      for i := 0 to |w|
        invariant |newW| == |w| && |newB| == |b|
        invariant forall k :: 0 <= k < |w| ==> newW[k] == if k < i then goalW[k] else w[k]
        invariant forall k :: 0 <= k < |w| ==> newB[k] == if k < i then goalB[k] else b[k]
        invariant deltaPrev == ColumnSums(w, g, i, cols)
      {
        var sigmoidDerivative := a[i] * (1.0 - a[i]);
        var deltaVal := delta[i] * sigmoidDerivative;
        assert deltaVal == g[i];
        assert ColumnSums(w, g, i + 1, cols) == AddScaled(deltaPrev, w[i], g[i]);
        var row;
        row, deltaPrev := BackwardRow(newW[i], deltaPrev, deltaVal, prevActivation, learningRate);
        newW := newW[i := row];
        newB := newB[i := newB[i] - learningRate * deltaVal];
      }
      assert newW == goalW;
      assert newB == goalB;
    }

    /** The backward pass: `weights` and `biases` are stepped and the returned signal
        is built from the weights as they were before the step, exactly as
        `Backpropagated` describes; the caches are left alone. */
    method Backward(delta: seq<real>, prevActivation: seq<real>, learningRate: real) returns (deltaPrev: seq<real>)
      requires Valid() && |lastOutput| == outputSize
      requires |delta| >= outputSize && |prevActivation| >= inputSize
      modifies this
      ensures Valid()
      ensures (Snapshot(), deltaPrev) == Backpropagated(old(Snapshot()), delta, prevActivation, learningRate)
    {
      weights, biases, deltaPrev :=
        BackwardRows(weights, biases, lastOutput, delta, prevActivation, learningRate, |weights[0]|);
    }

    /** Re-initialisation: every weight and then every bias is redrawn from `draw`;
        the shape and the caches stay as they are. */
    method Initialize(draw: nat -> real)
      requires Valid()
      modifies this
      ensures Valid()
      ensures Snapshot() == Reinitialized(old(Snapshot()), draw)
    {
      ghost var goal := Reinitialized(Snapshot(), draw);
      var n := 0;  // number of values drawn so far
      for i := 0 to |weights|
        invariant |weights| == outputSize && Rows(weights, inputSize)
        invariant lastInput == old(lastInput) && lastOutput == old(lastOutput) && biases == old(biases)
        invariant n == i * inputSize
        invariant forall k :: 0 <= k < i ==> weights[k] == goal.weights[k]
      {
        var row := DrawRow(weights[i], draw, n);
        weights := weights[i := row];
        n := n + |row|;
      }
      biases := DrawRow(biases, draw, n);
    }
  }
}
