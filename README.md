# A verified model of the BersbotsAILib feed-forward network

BersbotsAILib is a small C++ library for fully connected sigmoid networks. A
`Layer` holds one weight row and one bias per output unit. It also caches the input
and the output of its latest forward pass. A `NeuralNetwork` is a chain of layers
built from a list of widths. It can:

- run forward (`forward`, `predict`);
- take one gradient-descent step on a sample (`train`);
- train over a dataset for a number of epochs (`trainDataset`) and report the mean
  squared error (`mse`);
- turn a vector into a probability distribution (`softmax`);
- re-draw all parameters (`resetTrain`);
- save its parameters to a text file (`saveWeights`) and load them back
  (`loadWeights`).

This project models that engine in Dafny and proves properties of the model.

- **Modules.**
  - `LayerMath` and `NetworkMath` describe each operation as pure functions over
    snapshots of the layers.
  - `Layers.Layer` and `Networks.NeuralNetwork` are classes whose methods update the
    layers in place, as the library does. Every method is proved to leave exactly
    the state the functions describe.
  - `Persistence` describes the weights file as a sequence of tokens: counts and
    scalars.
  - `LayerFacts`, `NetworkFacts` and `PersistenceFacts` hold the properties. Among
    them: the save/load round trip, the loss bounds, softmax being a distribution,
    and gradient-step equations entry by entry.
- **Scalars.** They are `real`. So the model describes the arithmetic exactly, not
  its single-precision rounding.
- **Parameters standing for what the model cannot see.**
  - The logistic function is a parameter `sigmoid: real -> real`, so every result
    holds whatever it computes. The backward pass uses the derivative `a * (1 - a)`
    at the cached output, exactly as the code writes it.
  - `std::exp`, used by `softmax`, is a parameter `exp` that is assumed positive.
  - Each `std::random_device`/`mt19937` generator becomes a stream `draw: nat -> real`
    of values. The network constructor and `resetTrain` give layer `k` its own
    stream `draw(k)`, because every layer seeds a fresh generator.
  - Whether the weights file can be opened is a parameter `canOpen`. `saveWeights`
    returns the tokens it would write, and `loadWeights` takes the tokens it reads.
- **Exceptions.** They become `Errors.Error` values:
  - `InvalidConfig` for fewer than two widths;
  - `ShapeMismatch` for an input, target, layer count or layer-size mismatch;
  - `IOFailure` for a file that cannot be opened;
  - `Malformed` for a weights stream that ends early or has no count where one is
    expected.

## Behaviour of the code worth knowing

- **`train`'s target check.** `train` compares the target's length with the output
  the last layer cached on its previous forward pass (`BersbotsAILib.hpp:135`). It
  does not compare it with the layer's width.
  - On a new network the cache is empty, so every non-empty target is rejected
    (`NetworkFacts.TrainRejectsOnFreshNetwork`).
  - An empty target passes the check and is then indexed. That is undefined
    behaviour, excluded by the precondition `TrainDefined`.
  - Once a forward pass has run, the check accepts exactly the targets of the output
    width (`NetworkFacts.TrainAcceptsAfterForward`).
- **`trainDataset`'s loss.** The loss of a sample comes from the forward pass at
  `BersbotsAILib.hpp:169`, which precedes `train` on the same sample (`:175-176`).
  The per-epoch value is the sum of the sample losses. It is divided by the dataset
  size only for printing.
- **`trainDataset`'s rejections.** A rejected sample throws and ends the whole run. A
  target of the wrong width is rejected only after its forward pass has already
  refreshed the caches.
- **`loadWeights` is not all-or-nothing.** Layers are overwritten one after another,
  and a size mismatch at layer `m` leaves layers `0 .. m-1` already overwritten
  (`PersistenceFacts.LoadStopsAtFirstMismatch`). Only the layer count is checked
  before anything is written (`PersistenceFacts.LoadRejectsOtherCount`).
- **Widths are not validated.** The constructor checks only the number of widths.
  The model requires widths it can build (`BuildableSizes`: a first width of at least
  0 and positive widths after it). A zero width after the first would make later
  `weights[0]` accesses undefined.

## Model

| member | source | states |
|---|---|---|
| LayerMath.InitLayer | BersbotsAILib.hpp:13-27 | a new layer has `nOut` rows of `nIn` weights and `nOut` biases, its caches are empty, and it satisfies the layer shape invariant |
| Layers.Layer.constructor | BersbotsAILib.hpp:13-27 | the constructor leaves a valid layer whose weight `[i][j]` is generator value `i*(nIn+1)+j` and whose bias `[i]` is value `i*(nIn+1)+nIn`, with empty caches |
| Layers.Layer.DrawRow | BersbotsAILib.hpp:22-24 | the inner drawing loop gives entry `j` the generator value number `start + j` and keeps the row's length |
| Layers.Layer.WeightedSum | BersbotsAILib.hpp:38-41 | the accumulated sum is the bias plus the dot product of the weight row with the input |
| Layers.Layer.ComputeOutputs | BersbotsAILib.hpp:35-43 | the resized output vector ends with entry `i` equal to `sigmoid(b[i] + Σ_j w[i][j]*x[j])` for every output unit |
| LayerMath.Resize | BersbotsAILib.hpp:35 | a resize to `n` entries keeps the first entries and fills the missing ones with 0 |
| Layers.Layer.Forward | BersbotsAILib.hpp:29-46 | an input whose length differs from the weight rows' is rejected with ShapeMismatch and the layer is unchanged; otherwise the input and the activations are cached and the activations are returned; the parameters never change |
| Layers.Layer.BackwardRow | BersbotsAILib.hpp:55-58 | for each input `j`, `deltaPrev[j]` gains `w[i][j]*g` read before the weight is stepped, and the weight becomes `w[i][j] - lr*g*prev[j]` |
| Layers.Layer.BackwardRows | BersbotsAILib.hpp:49-62 | the loops step every weight row and bias against its local gradient, and the returned signal is the accumulated column sums of the old weights |
| Layers.Layer.Backward | BersbotsAILib.hpp:48-63 | the backward pass keeps the layer valid, leaves the caches alone and computes exactly the gradient step and signal of `Backpropagated` |
| LayerMath.Backpropagated | BersbotsAILib.hpp:48-63 | the stepped layer keeps its caches and dimensions, and the returned signal has one entry per input unit |
| LayerFacts.BackpropagatedEntries | BersbotsAILib.hpp:51-61 | with `g[i] = delta[i]*a[i]*(1-a[i])` at the cached output `a`, weight `[i][j]` moves by `-lr*g[i]*prev[j]` and bias `[i]` by `-lr*g[i]`, and signal entry `j` is `Σ_i w[i][j]*g[i]` over the weights before the step |
| LayerFacts.ColumnSumsEntry | BersbotsAILib.hpp:49-56 | entry `j` of the signal accumulated row by row is the column sum `Σ_i w[i][j]*g[i]` |
| LayerMath.Reinitialized | BersbotsAILib.hpp:65-79 | re-initialisation keeps the caches, the dimensions and the shape invariant |
| Layers.Layer.Initialize | BersbotsAILib.hpp:65-79 | `initialize` redraws every weight in row-major order and then every bias, keeping the layer valid and its caches unchanged |
| NetworkMath.InitNet | BersbotsAILib.hpp:121-123 | the layers of a new network chain the given widths: there is one layer per adjacent pair of widths, the topology equals the width list, and layer `k` is a new layer from `sizes[k]` to `sizes[k+1]` drawn from `draw(k)` |
| Networks.NeuralNetwork.BuildLayers | BersbotsAILib.hpp:121-123 | the construction loop builds one distinct fresh layer per adjacent pair of widths, layer `k` valid with widths `sizes[k]`, `sizes[k+1]` and the parameters of a new layer |
| Networks.NeuralNetwork.constructor | BersbotsAILib.hpp:117-124 | the network built from the widths is valid and its layers are exactly `InitNet(sizes, draw)` |
| Networks.NeuralNetwork.Create | BersbotsAILib.hpp:117-124 | construction fails with InvalidConfig if and only if fewer than two widths are given, whatever they are, and otherwise yields the network `InitNet` describes |
| NetworkMath.Activations | BersbotsAILib.hpp:126-132 | there is one activation per layer boundary, the first is the input, and each next one is what the layer computes from the previous one with the right widths |
| NetworkMath.AfterForward | BersbotsAILib.hpp:126-132 | a forward pass keeps every weight and bias and the shapes, and leaves the network output in the last layer's cache |
| NetworkMath.Output | BersbotsAILib.hpp:126-132 | the network output is as wide as the last layer, and that width is positive |
| Networks.NeuralNetwork.ForwardLayer | BersbotsAILib.hpp:129 | one layer's forward step rejects a wrong width without change, and otherwise updates only that layer's caches |
| Networks.NeuralNetwork.Forward | BersbotsAILib.hpp:126-132 | `forward` fails with ShapeMismatch if and only if the input width differs from the first layer's, changing nothing; otherwise it returns the network output and caches every activation |
| Networks.NeuralNetwork.Predict | BersbotsAILib.hpp:183-185 | `predict` behaves exactly as `forward` |
| NetworkFacts.ForwardKeepsFunction | BersbotsAILib.hpp:126-132 | a forward pass changes only caches, so the network computes the same output on every input afterwards |
| NetworkFacts.ActivationsIgnoreCaches | BersbotsAILib.hpp:29-45 | the activations depend on the weights and biases alone, not on the cached values |
| Networks.NeuralNetwork.ForwardRecording | BersbotsAILib.hpp:139-145 | the recording forward loop of `train` returns every activation, input first, and leaves each layer caching its input and output |
| Networks.NeuralNetwork.RecordLayer | BersbotsAILib.hpp:143-144 | one turn of the recording loop runs layer `k` on `acts[k]`, returns `acts[k+1]` and extends the cached prefix by layer `k` |
| Networks.NeuralNetwork.OutputError | BersbotsAILib.hpp:147-150 | the output error signal is `out[i] - target[i]` for every output unit |
| Networks.NeuralNetwork.BackwardLayer | BersbotsAILib.hpp:153 | layer `k` runs its backward pass and no other layer changes |
| Networks.NeuralNetwork.BackwardAll | BersbotsAILib.hpp:152-154 | the backward loop runs the layers from last to first, each on the signal the layer after it handed back, as `BackPass` describes |
| Networks.NeuralNetwork.Backpropagate | BersbotsAILib.hpp:147-154 | the output error is formed against the target and run through the backward loop |
| NetworkMath.BackTurn | BersbotsAILib.hpp:153 | one backward turn updates only layer `i-1`, keeps shapes and caches, and leaves the loop ready for the next turn |
| NetworkMath.BackPassShape | BersbotsAILib.hpp:152-154 | the backward loop keeps the chain of widths and every cache, and leaves the layers it has not reached unchanged |
| NetworkMath.Trained | BersbotsAILib.hpp:139-154 | after the forward and backward passes of `train`, the network is well formed with the same shapes, and its caches are those of the forward pass |
| NetworkMath.TrainStep | BersbotsAILib.hpp:134-155 | `train` accepts if and only if the target is as long as the output cached in the last layer and the input is as wide as the first layer; it keeps the topology, and a rejected call reports ShapeMismatch and changes nothing |
| Networks.NeuralNetwork.Train | BersbotsAILib.hpp:134-155 | `train` checks the target against the cached output and leaves exactly the layers and outcome of `TrainStep` |
| NetworkFacts.TrainRejectsOnFreshNetwork | BersbotsAILib.hpp:135-137 | on a new network `train` rejects every non-empty target with ShapeMismatch and changes nothing |
| NetworkFacts.TrainAcceptsAfterForward | BersbotsAILib.hpp:134-137 | after a forward pass `train` is defined and accepts if and only if the input and target widths are the network's |
| NetworkFacts.TrainCachesForwardPass | BersbotsAILib.hpp:139-145 | after an accepted `train` every layer caches what the forward pass on the input computed from the parameters before the step |
| NetworkMath.MeanSquaredError | BersbotsAILib.hpp:156-163 | the mean squared error is never negative |
| NetworkMath.SumSquaresNonNegative | BersbotsAILib.hpp:157-161 | the accumulated sum of squared differences is never negative |
| Networks.NeuralNetwork.Mse | BersbotsAILib.hpp:156-163 | `mse` sums the squared differences left to right and divides by the output length, giving `MeanSquaredError` |
| NetworkMath.SampleStep | BersbotsAILib.hpp:169-176 | one sample keeps the shapes, each sample loss is non-negative, and the only rejection is ShapeMismatch |
| Networks.NeuralNetwork.TrainSample | BersbotsAILib.hpp:169-176 | one sample of `trainDataset` runs forward, checks the target width, trains and reports the loss of the earlier output, leaving exactly the state, loss and outcome of `SampleStep` |
| Networks.NeuralNetwork.SampleState | BersbotsAILib.hpp:169-176 | from the state each path of a sample leaves, the layers are those of `SampleStep` |
| Networks.NeuralNetwork.TrainAfterForward | BersbotsAILib.hpp:175 | `train` right after the sample's forward pass takes the training step |
| Networks.SampleAccepted | BersbotsAILib.hpp:169-176 | a sample of the right widths is trained on and its loss is the MSE of the network output before training |
| Networks.SampleRejected | BersbotsAILib.hpp:169-174 | a wrong input width changes nothing; a wrong target width leaves the forward pass's caches; both report ShapeMismatch with no loss |
| NetworkMath.EpochFrom | BersbotsAILib.hpp:168-177 | an epoch keeps the shapes and is rejected only with ShapeMismatch |
| Networks.NeuralNetwork.Epoch | BersbotsAILib.hpp:167-177 | one epoch visits the samples in order until one is rejected, and returns the sum of the accepted samples' losses |
| Networks.NeuralNetwork.EpochTurn | BersbotsAILib.hpp:168-177 | sample `i` either ends the epoch with the state it leaves or records its loss and moves on to sample `i+1` |
| Networks.EpochAdvance | BersbotsAILib.hpp:168-177 | an accepted sample hands the rest of the epoch on from the next sample, with the sample's loss recorded |
| Networks.EpochStops | BersbotsAILib.hpp:170-174 | a rejected sample ends the epoch with the state it leaves and the losses recorded before it |
| NetworkMath.EpochLossSnoc | BersbotsAILib.hpp:176 | recording one more sample loss adds it to the epoch total |
| NetworkMath.EpochsFrom | BersbotsAILib.hpp:166-179 | running epochs from `e` records one loss per completed epoch after those already recorded, and fails only with ShapeMismatch |
| NetworkMath.TrainDataset | BersbotsAILib.hpp:165-180 | `trainDataset` keeps the topology, records one loss per epoch (none for `epochs <= 0`) when no sample is rejected, and otherwise fails with ShapeMismatch |
| Networks.NeuralNetwork.TrainDataset | BersbotsAILib.hpp:165-180 | the in-place training run leaves exactly the layers, epoch losses and outcome of `NetworkMath.TrainDataset` |
| NetworkFacts.EpochLossesNonNegative | BersbotsAILib.hpp:167-177 | every sample loss an epoch records is non-negative |
| NetworkFacts.TrainDatasetLossesNonNegative | BersbotsAILib.hpp:165-180 | every epoch loss of a training run is non-negative |
| NetworkMath.Max | BersbotsAILib.hpp:189 | the maximum is an entry of the vector and no entry exceeds it |
| NetworkMath.Shifted | BersbotsAILib.hpp:191-194 | the shifted exponentials are positive, one per entry |
| Networks.NeuralNetwork.Softmax | BersbotsAILib.hpp:187-197 | the two loops of `softmax` compute the shifted exponentials divided by their sum |
| NetworkFacts.NormalizeIsDistribution | BersbotsAILib.hpp:195 | dividing positive terms by their sum gives positive values summing to 1 |
| NetworkFacts.SoftmaxIsDistribution | BersbotsAILib.hpp:187-197 | softmax of a non-empty vector is a probability distribution: every entry is positive and the entries sum to 1 |
| NetworkMath.ResetAll | BersbotsAILib.hpp:252-256 | `resetTrain` keeps the layer count and the topology and re-initialises layer `k` from generator `k` |
| Networks.NeuralNetwork.ResetLayer | BersbotsAILib.hpp:254 | one layer is re-initialised and no other layer changes |
| Networks.NeuralNetwork.ResetTrain | BersbotsAILib.hpp:252-256 | every layer in turn is re-initialised, leaving exactly `ResetAll` of the old layers |
| Networks.NeuralNetwork.WriteScalars | BersbotsAILib.hpp:209-216 | the writing loop appends the scalars' tokens in order |
| Networks.NeuralNetwork.WriteLayer | BersbotsAILib.hpp:207-217 | a layer's block is its row count, its column count, its weights row by row and its biases |
| Networks.NeuralNetwork.SaveWeights | BersbotsAILib.hpp:199-219 | saving fails with IOFailure if and only if the file cannot be opened, and otherwise writes the layer count followed by every layer's block |
| PersistenceFacts.EncodeLayersAppend | BersbotsAILib.hpp:206-218 | the blocks of two runs of layers written one after the other are the blocks of the joined run |
| PersistenceFacts.EncodeBlockAt | BersbotsAILib.hpp:205-218 | the file is the layer count, then the blocks of layers `0..k-1`, then the block of layer `k`, then the blocks of the layers after it, for every layer `k` |
| PersistenceFacts.EncodeLayerHeader | BersbotsAILib.hpp:207 | a layer's block starts with its row and column counts and is `2 + r*c + r` tokens long |
| PersistenceFacts.EncodeLayerWeight | BersbotsAILib.hpp:208-213 | weight `[i][j]` is token `2 + i*c + j` of its layer's block (row-major order) |
| PersistenceFacts.EncodeLayerBias | BersbotsAILib.hpp:214-216 | bias `[i]` is token `2 + r*c + i` of its layer's block |
| PersistenceFacts.FlattenEntry | BersbotsAILib.hpp:208-213 | weight `[i][j]` sits at offset `i*c + j` of the row-major sequence |
| Persistence.ReadScalars | BersbotsAILib.hpp:246-248 | reading `n` scalars succeeds if and only if `n` tokens remain, consumes exactly `n` tokens, and otherwise reports Malformed |
| Networks.NeuralNetwork.ReadRow | BersbotsAILib.hpp:246-248 | the reading loop for a row reads exactly as `ReadScalars` describes |
| Persistence.ReadRows | BersbotsAILib.hpp:241-245 | a successful matrix read yields `r` rows of `c` scalars; a failure is Malformed |
| Networks.NeuralNetwork.ReadMatrix | BersbotsAILib.hpp:241-245 | the row-by-row reading loop reads exactly as `ReadRows` describes |
| Persistence.ReadLayer | BersbotsAILib.hpp:235-248 | reading a layer's block keeps the caches and the dimensions, and fails only with Malformed or ShapeMismatch |
| Networks.NeuralNetwork.LoadLayer | BersbotsAILib.hpp:235-248 | a failing block leaves the network unchanged and reports the error; a successful one replaces only layer `k`'s parameters and returns the tokens after the block |
| Persistence.LoadLayers | BersbotsAILib.hpp:234-249 | loading the layers keeps their number and caches and fails only with Malformed or ShapeMismatch |
| Persistence.Load | BersbotsAILib.hpp:228-250 | loading keeps the layer count and the caches and fails only with Malformed or ShapeMismatch |
| Networks.NeuralNetwork.LoadWeights | BersbotsAILib.hpp:222-250 | a file that cannot be opened gives IOFailure and changes nothing; otherwise the layers and outcome are exactly those of `Load` |
| PersistenceFacts.ReadLayerOfEncode | BersbotsAILib.hpp:234-249 | reading the saved block of a layer into a layer of the same dimensions gives it exactly the saved weights and biases |
| PersistenceFacts.ReadLayerMismatch | BersbotsAILib.hpp:237-239 | a saved block is rejected with ShapeMismatch by a layer of other dimensions |
| PersistenceFacts.LoadLayersOfEncode | BersbotsAILib.hpp:234-249 | loading saved blocks replaces the parameters of the matching layers and stops at the first mismatching one |
| PersistenceFacts.SaveLoadRoundTrip | BersbotsAILib.hpp:199-250 | loading what `saveWeights` wrote into a network of the same shape succeeds, restores every weight and bias, keeps the caches and ignores trailing tokens |
| PersistenceFacts.LoadStopsAtFirstMismatch | BersbotsAILib.hpp:234-249 | a file whose layer `m` has other dimensions fails with ShapeMismatch after layers `0..m-1` have been overwritten |
| PersistenceFacts.LoadRejectsOtherCount | BersbotsAILib.hpp:228-232 | loading a file saved from a network with another number of layers, whatever follows it, is rejected with ShapeMismatch before any layer is written |

## Left out

- Single-precision floating point: scalars are `real`. The model says nothing about
  rounding, overflow, NaN or infinities.
- The logistic function and `std::exp` are parameters. Nothing depends on their
  values except that `exp` is positive, which softmax needs.
- `std::random_device`, `std::mt19937` and the uniform distribution are replaced by
  injected value streams. The `[-1, 1]` range of the drawn values is not modelled.
- The text format of the weights file is abstracted as a sequence of tokens:
  - the 6-significant-digit formatting and the whitespace are not modelled;
  - `saveWeights` therefore round-trips exactly in the model, although the real file
    usually loses precision.
- Persistence.ReadLayer: iostream extraction failures are not modelled as the
  library sees them.
  - A truncated stream reports `Malformed` in the model. The library sets the
    stream's fail bit and goes on. When another layer follows, that layer's header
    extraction (`BersbotsAILib.hpp:236`) fails under the fail bit, both sizes keep
    their initial 0 (`:235`), and the size check throws a mismatch (`:237-238`).
    Only when the last layer is cut short does the library throw nothing, leaving
    the entries it could not read without new values.
  - A count token that does not parse is also `Malformed`. The library would read 0
    and report a size mismatch.
  - The model replaces a layer's parameters only once the whole block has been read.
    The library writes them entry by entry, so a truncated block leaves it partly
    overwritten.
- The progress output of `trainDataset` (`showProgres`) and the error message it
  prints are console I/O and are not modelled. So is the division of the epoch loss
  by the dataset size, which happens only for printing.
- Opening the file is a parameter `canOpen`. File names are not modelled.
- The `Layer` getters (`getOutput`, `getWeights`, `getBiases`) are plain accessors.
  The model reads the fields directly.
- `exemple.cpp` is a demonstration program and is not part of this model.
- Networks.NeuralNetwork.constructor: requires `BuildableSizes`. A negative width (an
  allocation failure) and a zero width after the first (undefined `weights[0]`
  accesses) are not modelled.
- Networks.NeuralNetwork.Train: requires `TrainDefined`. The one undefined call, an
  empty target on a network with an empty output cache, is excluded.
- Networks.NeuralNetwork.Mse: requires a non-empty output. The library divides by
  zero there.
- Networks.NeuralNetwork.Softmax: requires a non-empty input. The library
  dereferences the end iterator there.
- NetworkMath.MeanSquaredError: only non-negativity is proved. "Zero exactly when the
  output equals the target" is not.
- The learning-rate sign and the missing factor `2/n` in the output error are not
  checked against any convergence property. Convergence on XOR is an empirical claim
  that the model does not state.
- Integer widths: `size_t` and `int` overflow are not modelled. Counts are
  unbounded natural numbers.
