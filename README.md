# NeuralNetworksLibrary perceptron core, modelled in Dafny

This project models the back-propagation engine of NeuralNetworksLibrary's
multilayer perceptron:

- `Layer`: one layer of neurons, with a forward `Compute` and the two backward
  passes `ComputeHiddenBackward` and `ComputeOutputBackward`. Each backward pass
  returns gradient sums and moves every bias and weight by a momentum-smoothed
  step. `SetWeights`/`GetWeights` import and export the weights.
- `Perceptron`: a fixed sequence of layers, with `Predict`, the error measures
  `GetMSE`/`GetCost` and the epoch loop of `TrainBackProp`.
- `LayerConfig` (`LayerConfig.cs:6-32`): the shape and training constants of one
  layer, the record `LayerConfigs.LayerConfig`. It has no operations of its own.
- The piecewise-linear activations `LeakyReLU` and `LinearFunc`, whose slope
  `alpha` is kept by their `ActivationFunction` base.

Doubles are modelled as mathematical reals. Every statement is exact algebra on
the arrays and says nothing about rounding.

The model comes in two layers:

- **Pure specification.** `LayerSpec` and `NetworkSpec` describe a layer's state
  as a value (`LayerState`: biases, weight rows, cached inputs, cached
  derivatives, and the momentum matrix `lastDeltaWeights`). Every operation is a
  function from the old state to the new state and the returned vector.
  `LayerProperties` and `NetworkProperties` prove what those functions promise.
- **Imperative classes.** `Layers.Layer` keeps the neurons in parallel arrays
  (`bias`, `weights`, `inputs`, `derivs`, `lastDelta`) and updates them in place,
  in the source's nested loops. `Perceptrons.Perceptron` owns a sequence of such
  layers and runs `Predict` and `TrainBackProp` as loops. Each method is proved
  to leave exactly the state, and return exactly the value, that the
  specification function gives for the state it started from.

Behaviour kept as the code has it:

- **Output-pass biases.** The output pass adds every neuron's bias delta to the
  bias of neuron 0 (`Layer.cs:141`). The momentum matrix still records each
  neuron's own delta.
- **Initial momentum.** The momentum matrix of a new layer starts as the very
  rows the weights were drawn from, not as zeros (`Layer.cs:47`).
- **Hidden-pass indexing.** The hidden pass pairs neuron `k` with entry `k` of
  the incoming gradient vector. That vector has N+1 entries (the P+1 of the layer above), and its entry 0 is
  a bias sum. So neuron 0 is driven by the bias sum and the last entry is never
  read.
- **Empty training set.** `GetCost` of an empty error vector is `0/0`, a NaN.
  It is modelled as `None`, which the loop test `epochCost > threshold` treats
  as false.

Errors the source throws are values of `Errors.Result`:

- `DimensionMismatch`: vectors of different sizes in a dot product or a
  difference.
- `IndexOutOfRange`: reading past the end of a vector or array.

## Model

| member | source | states |
|---|---|---|
| `Activations.NewLinear` | NeuralNetworksLibrary/ActivationFunctions/LinearFunc.cs:16 | The constructor keeps `alpha` and drops `beta`: a fresh instance computes `alpha * x` and has derivative `alpha` everywhere |
| `Activations.LeakyBranches` | NeuralNetworksLibrary/ActivationFunctions/LeakyReLU.cs:12-14 | For `x >= 0` the rectifier is the identity with slope 1; for `x < 0` it is `alpha * x` with slope `alpha` |
| `Activations.LeakyAtZero` | NeuralNetworksLibrary/ActivationFunctions/LeakyReLU.cs:12-14 | Both branches give 0 at 0, and the derivative at 0 is 1 |
| `Activations.Activation.Activate` | NeuralNetworksLibrary/ActivationFunctions/LeakyReLU.cs:12 | The value gives back the argument: a leaky rectifier with `alpha > 0` is undone by dividing negative values by `alpha`, and a linear function with `alpha != 0` by `(y - beta) / alpha` (`LinearFunc.cs:18`) |
| `Activations.Activation.Derivate` | NeuralNetworksLibrary/ActivationFunctions/LinearFunc.cs:20-23 | The derivative is the slope of the branch `x` lies on: a linear function's value is `Derivate(x) * x + beta`, and a leaky rectifier's value is `Derivate(x) * x` (`LeakyReLU.cs:14`) |
| `Activations.LeakyMonotone` | NeuralNetworksLibrary/ActivationFunctions/LeakyReLU.cs:12 | With `alpha >= 0` the rectifier is monotone non-decreasing |
| `Activations.LinearSecant` | NeuralNetworksLibrary/ActivationFunctions/LinearFunc.cs:18-23 | `Activate(x) - Activate(y) == Derivate(z) * (x - y)` for all `x`, `y`, `z`: the derivative is the constant slope |
| `Activations.NewLinearUnitSlopeIsIdentity` | NeuralNetworksLibrary/ActivationFunctions/LinearFunc.cs:16-18 | A freshly built `LinearFunc(1, beta)` is the identity, whatever `beta` was passed |
| `Vectors.Ones` | NeuralNetworksLibrary/Perceptron/Perceptron.cs:82 | `GetVectorOfOnes(n)` has `n` entries, all 1 |
| `Vectors.Sub` | NeuralNetworksLibrary/Perceptron/Perceptron.cs:113 | `Y - O` succeeds exactly when the sizes agree, and then each entry plus `O[i]` gives back `Y[i]` |
| `Vectors.DotOnes` | NeuralNetworksLibrary/Perceptron/Perceptron.cs:82 | A dot product with the all-ones vector is the sum of the entries |
| `Vectors.DotIsSumOfProducts` | NeuralNetworksLibrary/Perceptron/Perceptron.cs:75 | The vector product `E * E` used here is the sum of the coordinate-wise products |
| `Vectors.DotSelf` | NeuralNetworksLibrary/Perceptron/Perceptron.cs:75 | `E * E` is never negative, and is 0 exactly when every entry of `E` is 0 |
| `LayerSpec.Augmented` | NeuralNetworksLibrary/Perceptron/Layer.cs:161-174 | The exported rows form an N x (P+1) matrix |
| `LayerSpec.Initial` | NeuralNetworksLibrary/Perceptron/Layer.cs:39-49 | A new layer has the configured shape. Its exported rows are the drawn rows, so each bias is entry 0 and the weights are entries 1..P. The momentum matrix equals those same rows |
| `LayerSpec.Compute` | NeuralNetworksLibrary/Perceptron/Layer.cs:58-67 | The result has N entries: entry `i` is the activation at neuron `i`'s weighted input `Net`, and neuron `i` caches the input and the derivative at that same weighted input. Biases, weights and momentum matrix are unchanged. It fails with `DimensionMismatch` exactly when N > 0 and the input does not have P entries, and then only neuron 0's cached input has changed |
| `LayerSpec.GradSums` | NeuralNetworksLibrary/Perceptron/Layer.cs:76-93 | The gradient-sum vector has P+1 entries, whatever N is |
| `LayerSpec.HiddenSignal` | NeuralNetworksLibrary/Perceptron/Layer.cs:85-102 | The hidden pass gives one signal per neuron, N in all |
| `LayerSpec.NewDeltas` | NeuralNetworksLibrary/Perceptron/Layer.cs:97-103 | The new momentum matrix is N x (P+1) |
| `LayerSpec.HiddenBackward` | NeuralNetworksLibrary/Perceptron/Layer.cs:74-108 | Succeeds exactly when G has at least N entries, and then returns P+1 sums. On failure it throws `IndexOutOfRange` with the state untouched. It never changes the cached inputs or derivatives |
| `LayerSpec.HiddenStep` | NeuralNetworksLibrary/Perceptron/Layer.cs:95-106 | The update loop keeps the shape and the cached inputs and derivatives |
| `LayerSpec.OutputBackward` | NeuralNetworksLibrary/Perceptron/Layer.cs:115-150 | Succeeds exactly when E has at least N entries, and then returns P+1 sums. On failure it throws `IndexOutOfRange` with the state untouched. It never changes the cached inputs or derivatives |
| `LayerSpec.OutputStep` | NeuralNetworksLibrary/Perceptron/Layer.cs:137-148 | The update loop keeps the shape and the cached inputs and derivatives |
| `LayerSpec.SetRows` | NeuralNetworksLibrary/Perceptron/Layer.cs:152-159 | Importing succeeds exactly when rows `i..N-1` exist with at least P+1 entries each. It changes only biases and weights |
| `LayerSpec.SetRowsWrites` | NeuralNetworksLibrary/Perceptron/Layer.cs:152-159 | When the rows fit, row `k` gives neuron `k` its bias (entry 0) and weights (entries 1..P). Rows before the start are kept |
| `LayerSpec.SetWeights` | NeuralNetworksLibrary/Perceptron/Layer.cs:152-159 | Succeeds exactly when `m` has a row of at least P+1 entries for every neuron. Then neuron `i` takes its bias from `m[i][0]` and its weights from `m[i][1..P]`. The shape, the momentum matrix and the caches are kept |
| `LayerSpec.NetIsAugmentedDot` | NeuralNetworksLibrary/Perceptron/Layer.cs:45-49 | A neuron's weighted input `bias + w * x` is the dot product of its augmented row `[bias, w...]`, the layout the rows are drawn in, with `[1] + x` |
| `LayerProperties.HiddenSums` | NeuralNetworksLibrary/Perceptron/Layer.cs:76-93 | Entry 0 of the returned vector is `sum_k bias_k * d_k * G[k]`, entry `j` is `sum_k W_k[j-1] * d_k * G[k]`. Both are taken over the biases and weights on entry, before the update loop |
| `LayerProperties.OutputSums` | NeuralNetworksLibrary/Perceptron/Layer.cs:117-135 | The same sums with `E[k]` in place of `d_k * G[k]`, over the biases and weights on entry |
| `LayerProperties.HiddenUpdate` | NeuralNetworksLibrary/Perceptron/Layer.cs:95-106 | Neuron `i`'s new bias delta is `m * last + lr * d_i * G[i]`, and its bias grows by exactly that. The delta of weight `n-1` is `m * last + lr * In_i[n-1] * d_i * G[i]`, and that weight grows by exactly that |
| `LayerProperties.OutputUpdate` | NeuralNetworksLibrary/Perceptron/Layer.cs:137-148 | Row `i` of the momentum matrix holds neuron `i`'s own deltas, and its weights grow by them. Neuron 0's bias grows by the sum of all N bias deltas; every other bias is unchanged |
| `LayerProperties.MomentumFreeDeltas` | NeuralNetworksLibrary/Perceptron/Layer.cs:97-102 | With momentum 0 the new deltas do not depend on the previous ones: the bias delta is `lr * signal` |
| `LayerProperties.DeltaWithoutMomentum` | NeuralNetworksLibrary/Perceptron/Layer.cs:97 | With momentum 0 one step is the scaled gradient term alone |
| `LayerProperties.SignalsAgree` | NeuralNetworksLibrary/Perceptron/Layer.cs:81-103 | Gradient sums and new deltas read the signals of neurons 0..N-1 only |
| `LayerProperties.HiddenReadsFirstN` | NeuralNetworksLibrary/Perceptron/Layer.cs:85-102 | Two gradient vectors that agree on entries 0..N-1 give the hidden pass the same result and the same new state |
| `LayerProperties.HiddenIgnoresLastEntry` | NeuralNetworksLibrary/Perceptron/Layer.cs:85-102 | Given an (N+1)-long gradient vector, the last entry is never read, and neuron 0 is driven by entry 0 (the bias sum) |
| `LayerProperties.OutputIsHiddenWithUnitDerivatives` | NeuralNetworksLibrary/Perceptron/Layer.cs:74-150 | With all derivatives 1, both passes return the same sums, momentum matrix and weights. They differ only in where the bias deltas land, and the bias totals agree |
| `LayerProperties.HiddenBiasTotal` | NeuralNetworksLibrary/Perceptron/Layer.cs:95-99 | The hidden pass grows the sum of all biases by the sum of the new bias deltas |
| `LayerProperties.OutputBiasTotal` | NeuralNetworksLibrary/Perceptron/Layer.cs:137-141 | So does the output pass, although it puts all of them on neuron 0 |
| `LayerProperties.OutputAtRest` | NeuralNetworksLibrary/Perceptron/Layer.cs:115-150 | With momentum 0 and all errors 0, the output pass returns zero sums, leaves biases and weights unchanged and zeroes the momentum matrix |
| `LayerProperties.SetThenGet` | NeuralNetworksLibrary/Perceptron/Layer.cs:152-174 | `SetWeights(m)` then `GetWeights()` gives back any N x (P+1) matrix `m`. The momentum matrix and caches are untouched |
| `LayerProperties.GetThenSet` | NeuralNetworksLibrary/Perceptron/Layer.cs:152-174 | Re-importing the exported weights succeeds and changes nothing |
| `Layers.Layer.constructor` | NeuralNetworksLibrary/Perceptron/Layer.cs:29-51 | The new layer's arrays hold `Initial(config, rows)`, in fresh arrays |
| `Layers.Layer.Compute` | NeuralNetworksLibrary/Perceptron/Layer.cs:58-67 | The neuron loop leaves the state and result of `LayerSpec.Compute` on the state it started from |
| `Layers.Layer.GradientSums` | NeuralNetworksLibrary/Perceptron/Layer.cs:78-93 | The double accumulator loop computes the P+1 column sums of the augmented rows weighted by the signals, on the arrays as they are |
| `Layers.Layer.UpdateNeuron` | NeuralNetworksLibrary/Perceptron/Layer.cs:95-105 | Neuron `i` gets its new deltas and weights, and bias `b` grows by its bias delta. Every other neuron's row is unchanged |
| `Layers.Layer.ComputeHiddenBackward` | NeuralNetworksLibrary/Perceptron/Layer.cs:74-108 | In-place pass whose new arrays and result are those of `HiddenBackward` on the old state |
| `Layers.Layer.UpdateHidden` | NeuralNetworksLibrary/Perceptron/Layer.cs:95-106 | The neuron loop leaves exactly `HiddenStep` of the old state |
| `Layers.Layer.ComputeOutputBackward` | NeuralNetworksLibrary/Perceptron/Layer.cs:115-150 | In-place pass whose new arrays and result are those of `OutputBackward` on the old state |
| `Layers.Layer.UpdateOutput` | NeuralNetworksLibrary/Perceptron/Layer.cs:137-148 | The neuron loop leaves exactly `OutputStep` of the old state, including the sum of bias deltas on neuron 0 |
| `Layers.Layer.SetWeights` | NeuralNetworksLibrary/Perceptron/Layer.cs:152-159 | The row loop leaves the state and result of `SetRows` from row 0, including a partial write before a short row throws |
| `Layers.Layer.GetWeights` | NeuralNetworksLibrary/Perceptron/Layer.cs:161-174 | N rows of P+1 entries: row `i` is bias `i` followed by neuron `i`'s weights, i.e. `Augmented` of the state |
| `NetworkSpec.LayerOutput` | NeuralNetworksLibrary/Perceptron/Layer.cs:58-67 | A layer's output for a valid input has one entry per neuron |
| `NetworkSpec.Forward` | NeuralNetworksLibrary/Perceptron/Perceptron.cs:63-66 | The loop from layer `j` leaves the layers below `j` alone and fails only with `DimensionMismatch`. On success every visited layer has cached an input, and the output has the last layer's size |
| `NetworkSpec.Predict` | NeuralNetworksLibrary/Perceptron/Perceptron.cs:60-68 | On success the output has the last layer's neuron count and every layer holds an input. With no layers it throws `IndexOutOfRange` |
| `NetworkSpec.HiddenFrom` | NeuralNetworksLibrary/Perceptron/Perceptron.cs:116-119 | The hidden passes keep every layer ready for another backward pass |
| `NetworkSpec.Backward` | NeuralNetworksLibrary/Perceptron/Perceptron.cs:115-119 | The backward half keeps every layer ready for another backward pass |
| `NetworkSpec.GetMSE` | NeuralNetworksLibrary/Perceptron/Perceptron.cs:75 | `0.5 * (E * E)` is never negative, and is 0 exactly when every error is 0 |
| `NetworkSpec.GetCost` | NeuralNetworksLibrary/Perceptron/Perceptron.cs:82 | The cost is NaN exactly when there are no errors to average |
| `NetworkSpec.CostIsMean` | NeuralNetworksLibrary/Perceptron/Perceptron.cs:82 | A defined cost times the number of errors is their sum, i.e. the mean. It is non-negative when every error is |
| `NetworkSpec.TrainSample` | NeuralNetworksLibrary/Perceptron/Perceptron.cs:112-119 | One sample's recorded error is never negative |
| `NetworkSpec.Epoch` | NeuralNetworksLibrary/Perceptron/Perceptron.cs:110-120 | A completed epoch returns one error per sample |
| `NetworkSpec.EpochErrors` | NeuralNetworksLibrary/Perceptron/Perceptron.cs:110-114 | An epoch from sample `i` keeps the errors before `i` and writes a non-negative error for every sample from `i` on |
| `NetworkSpec.EpochCost` | NeuralNetworksLibrary/Perceptron/Perceptron.cs:110-122 | After a completed epoch the cost is NaN exactly when the training set is empty, and is otherwise non-negative |
| `NetworkSpec.TrainFrom` | NeuralNetworksLibrary/Perceptron/Perceptron.cs:108-126 | The loop runs at least one more epoch and at most `fuel`. It finishes only with a cost that is not above the threshold, and stops unfinished only when the fuel runs out with the cost still above |
| `NetworkSpec.Train` | NeuralNetworksLibrary/Perceptron/Perceptron.cs:101-126 | Training runs between 1 and `maxEpochs` epochs, and a finished run's cost is not above the threshold |
| `NetworkProperties.ForwardIsFeed` | NeuralNetworksLibrary/Perceptron/Perceptron.cs:60-68 | The loop from layer `j` computes the composition of layers `j..` in increasing order. Every later layer `k` caches the output of layers `j..k-1` |
| `NetworkProperties.PredictIsFeed` | NeuralNetworksLibrary/Perceptron/Perceptron.cs:60-68 | `Predict` computes the network function of all layers in order. Layer 0 caches the input, and layer `k` caches the output of layers `0..k-1` |
| `NetworkProperties.FeedParams` | NeuralNetworksLibrary/Perceptron/Perceptron.cs:60-68 | The network function reads only the biases and weights of the layers it passes |
| `NetworkProperties.HiddenFromFrame` | NeuralNetworksLibrary/Perceptron/Perceptron.cs:116-119 | The hidden passes from layer `j` down leave the layers from `j` up and every cache unchanged, and fail only with `IndexOutOfRange` |
| `NetworkProperties.BackwardKeepsCaches` | NeuralNetworksLibrary/Perceptron/Perceptron.cs:115-119 | The backward half of a sample keeps every cached input and derivative |
| `NetworkProperties.BackwardOutputFirst` | NeuralNetworksLibrary/Perceptron/Perceptron.cs:115-119 | The output layer ends in the state its own pass on `E` leaves, whatever the hidden passes do |
| `NetworkProperties.BackwardHandsDown` | NeuralNetworksLibrary/Perceptron/Perceptron.cs:115-119 | The layer below the output layer runs its hidden pass on exactly the sums the output pass returned |
| `NetworkProperties.EpochOverwrites` | NeuralNetworksLibrary/Perceptron/Perceptron.cs:110-114 | An epoch from sample `i` does not depend on the error entries `i..` it starts with |
| `NetworkProperties.EpochForgetsPrevious` | NeuralNetworksLibrary/Perceptron/Perceptron.cs:105-122 | A whole epoch, and so its cost, does not depend on the error vector left by the previous epoch |
| `NetworkProperties.TrainIgnoresStartingErrors` | NeuralNetworksLibrary/Perceptron/Perceptron.cs:105-126 | The training loop gives the same result from any starting error vector of the right size |
| `Perceptrons.NewLayers` | NeuralNetworksLibrary/Perceptron/Perceptron.cs:50-51 | One layer per configuration, in order. Each is in its initial state and uses its own fresh arrays |
| `Perceptrons.ZeroArray` | NeuralNetworksLibrary/Perceptron/Perceptron.cs:105 | A fresh error vector of `n` zeros |
| `Perceptrons.Perceptron.constructor` | NeuralNetworksLibrary/Perceptron/Perceptron.cs:40-53 | One layer per configuration, in order, each in its initial state. `outputLayerIndex` is the last index, and `LastError` starts at 0 |
| `Perceptrons.Perceptron.ComputeAt` | NeuralNetworksLibrary/Perceptron/Perceptron.cs:62-65 | `layers[j].Compute(x)` changes only layer `j`'s state, as `LayerSpec.Compute` says |
| `Perceptrons.Perceptron.OutputAt` | NeuralNetworksLibrary/Perceptron/Perceptron.cs:115 | After the output layer's pass, what remains of `Backward` is the hidden passes from the layer below it |
| `Perceptrons.Perceptron.HiddenAt` | NeuralNetworksLibrary/Perceptron/Perceptron.cs:118 | After layer `j`'s hidden pass, what remains is the hidden passes below `j` on the vector it returned |
| `Perceptrons.Perceptron.Predict` | NeuralNetworksLibrary/Perceptron/Perceptron.cs:60-68 | The loop over the layers leaves the states and output of `NetworkSpec.Predict` |
| `Perceptrons.Perceptron.HiddenPasses` | NeuralNetworksLibrary/Perceptron/Perceptron.cs:116-119 | The downward loop leaves the states and result of `HiddenFrom` |
| `Perceptrons.Perceptron.Backpropagate` | NeuralNetworksLibrary/Perceptron/Perceptron.cs:115-119 | Output pass then hidden passes, as `Backward` |
| `Perceptrons.Perceptron.TrainSample` | NeuralNetworksLibrary/Perceptron/Perceptron.cs:112-119 | Predict, `Y - O`, its error, backward: exactly `NetworkSpec.TrainSample` |
| `Perceptrons.Perceptron.TrainAt` | NeuralNetworksLibrary/Perceptron/Perceptron.cs:112-119 | Sample `i` is trained and its error stored in `MSEs[i]`. What is left of the epoch is the samples after `i` |
| `Perceptrons.Perceptron.TrainEpoch` | NeuralNetworksLibrary/Perceptron/Perceptron.cs:110-120 | The sample loop leaves the states and error vector of `Epoch`, and `MSEs` holds the epoch's errors |
| `Perceptrons.Perceptron.RunEpoch` | NeuralNetworksLibrary/Perceptron/Perceptron.cs:110-126 | One pass of the do-while: either the loop ends here as `TrainFrom` says, or it goes on and the rest is `TrainFrom` from the next epoch |
| `Perceptrons.Perceptron.TrainLoop` | NeuralNetworksLibrary/Perceptron/Perceptron.cs:108-126 | The do-while leaves the states and outcome of `TrainFrom` from epoch 0 |
| `Perceptrons.Perceptron.TrainBackProp` | NeuralNetworksLibrary/Perceptron/Perceptron.cs:101-131 | Training leaves the states and outcome of `Train`. When it finishes, `LastError` is the final cost |

## Left out

- `Neuron.cs` is not part of this model. A neuron is entry `i` of the layer's
  arrays. Its output is `activate(bias + weights * input)`. Its derivative is the
  activation's derivative at the same weighted input, cached by `Compute`.
  A dot product of an input with the wrong size throws `DimensionMismatch`
  after that neuron has been given the input.
- `LinearAlgebraLibrary.Vector` is not part of this model. Vectors are
  sequences of reals, and `GetCoordinatesSlice(a, b)` is taken as the inclusive
  range `a..b`, the only reading under which `Layer.cs:47` and `Layer.cs:100-103`
  stay in bounds.
- `Vector.GetRandomVector` initialisation is nondeterministic. The constructors
  take the initial rows as a parameter, bounded as the generator bounds them.
- IEEE-754 doubles: rounding, overflow and infinities are not modelled. NaN is
  modelled only for the `0/0` of an empty cost. Products are compared as reals,
  so `bias * d * G` and `bias * (d * G)` are equal here.
- Sigmoid, Tanh, Arctan, ELU and SoftPlus are built on transcendental functions.
  They are an opaque activation/derivative pair.
- `SaveModel`/`LoadModel` are JSON serialisation and file I/O.
- The `Stopwatch` timing and `LastLearningTime` are wall-clock time.
- The `#if DEBUG` console output is console I/O.
- A `null` configuration array leaves `layers` unset in the source. Configurations
  here are a sequence, and neuron counts are natural numbers.
- `Perceptrons.Perceptron.TrainBackProp`: the source's do-while has no bound.
  The model stops after `maxEpochs` epochs and reports `Unfinished`, leaving
  `LastError` as it was, in a case the source never leaves the loop.
- `Perceptrons.Perceptron.TrainBackProp`: the default `threshold = 0.001` of
  `Perceptron.cs:101` is not modelled. Callers pass the threshold explicitly.
- `NetworkSpec.TrainFrom`: the epoch fuel bounds the loop, for the same reason.
- `NetworkSpec.Train`: the epoch fuel bounds the loop, for the same reason.
- `Perceptrons.Perceptron.TrainLoop`: the epoch fuel bounds the loop, for the same reason.
- `LayerSpec.HiddenBackward`: requires every neuron to hold an input of at least P
  entries, as after a forward pass. Without one the source throws midway through
  its update loop, leaving a partial update, which is not modelled. Training always
  calls `Predict` first, which gives every layer such an input.
- `LayerSpec.OutputBackward`: the same requirement, for the same reason.
- `Layers.Layer.ComputeHiddenBackward`: the same requirement, for the same reason.
- `Layers.Layer.ComputeOutputBackward`: the same requirement, for the same reason.
- `Perceptrons.Perceptron.Backpropagate`: the same requirement on every layer.
- `LayerProperties.HiddenUpdate`: the derivative read at `Layer.cs:102` is the one
  cached by the last `Compute`, an assumption, since `Neuron.cs` is not
  part of this model. A neuron that recomputed its derivative on each read would see
  the bias already moved at `Layer.cs:99` and the weights moved by the earlier
  iterations at `Layer.cs:104`, and its weight deltas would differ from the ones
  stated. `LayerSpec.HiddenStep` and `Layers.Layer.UpdateNeuron` rest on the same
  assumption.
- `Perceptrons.Perceptron.TrainAt`: the source writes `MSEs[i]` before the backward
  pass and the model after it. Nothing reads the vector in between, and a failure
  ends training.
- The `layers` array is never replaced outside `LoadModel`. It is an immutable
  sequence of layer objects here.
