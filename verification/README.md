# mininn numeric engine in Dafny

A model of the numeric core of mininn (`main.c`), a two-layer feedforward
network with sigmoid units trained by backpropagation. The model covers:

- the `array_t` vector and its helpers `create_array`, `array_copy` and `one_hot`;
- the `layer_t` layer: `create_layer`, the pre-activation `activation`, the forward pass `forward_layer_to` and the update rule `update_weights`;
- the `network_t` network: `create_network` and `forward_to`;
- one training step, `backpropagate`, with `sigmoid_derivative`;
- the squared-error loss `error2_for`.

Vectors are `seq<real>` and matrices are `seq<seq<real>>`. Layers and the
network are immutable datatypes with a `Valid()` shape predicate, and every
operation is a pure function that returns the new value. A C buffer passed
in to be filled becomes a result.

Numbers are Dafny `real`, not IEEE doubles. The logistic function calls
`exp`, a foreign call, so every operation that needs it takes it as a
parameter `sigma` of type `Logistic.Sigmoid`. That type admits any map of
the reals into the open interval (0, 1). The model therefore states the
index and algebraic structure of the computation, not its floating-point
accuracy.

The C code fails in two ways:

- A shape mismatch it `assert`s on aborts the process. In the model this is `Result.Err` with a descriptive error.
- A buffer it indexes without a check is undefined behaviour when the index is out of range. The corrected operations report an error instead. The `AsWritten` module keeps the code as written and returns `Access.OutOfBounds`, naming the buffer and the index of the first such access.

The as-written members model only the unchecked accesses. Where the code asserts a size, as `update_weights` does for its input, they take that size as a precondition rather than returning an error.

Modules, one per component: `Outcomes` (result types), `Signs` (the rule
of signs for products), `Vectors`, `Logistic`, `Layers`, `Networks`,
`Training` and `AsWritten`.

## Model

| member | source | states |
|---|---|---|
| Vectors.CreateArray | main.c:26-31 | the vector has `size` entries and every one is 0.0 |
| Vectors.Accumulate | main.c:88-93 | the total left by an `a += term` loop is the starting value plus the sum of all terms |
| Vectors.ArrayCopy | main.c:37-42 | an error exactly when `from` is shorter than `to`; otherwise a vector of `to`'s length whose every entry equals `from`'s entry at the same position |
| Vectors.ArrayCopyIsPrefix | main.c:37-42 | the copy followed by the uncopied tail of `from` gives back `from`, and a buffer of `from`'s size receives all of `from` |
| Vectors.OneHot | main.c:176-181 | an index error exactly when `n` is not a position of the vector; otherwise the same length, 1.0 at `n` and 0.0 everywhere else |
| Vectors.OneHotRoundTrip | main.c:176-181 | reading the class back from a one-hot vector (the position of its first 1.0) gives `n` again |
| Vectors.SquaredErrorZeroIff | main.c:227-230 | a sum of squared differences is never negative and is zero exactly when the two vectors are equal |
| Logistic.SigmoidDerivative | main.c:17-19 | the slope `y(1-y)` is positive for every sigmoid value `y` in (0, 1) and never exceeds 1/4 |
| Layers.CreateLayer | main.c:71-82 | the layer is well formed: `output_size` rows of `input_size` weights and `output_size` biases, all zero |
| Layers.Activation | main.c:84-94 | an error exactly when `n` is not a unit or the input length differs from `input_size`; otherwise `bias[n] + Σ_i weights[n][i] * input[i]` |
| Layers.Apply | main.c:96-102 | a layer's map yields one value per unit, each strictly between 0 and 1 |
| Layers.ForwardLayer | main.c:96-102 | an error exactly when the input or the output buffer has the wrong length; otherwise `output[i] = sigma(activation(i))` for every unit |
| Layers.FreshLayerIgnoresInput | main.c:71-102 | a freshly created layer maps every input to `sigma(0)` in every unit |
| Layers.UpdateWeights | main.c:126-135 | an error exactly when the input or delta length disagrees with the layer; otherwise the shape is kept, weight `[i][j]` drops by `rate * deltas[i] * input[j]` and bias `i` by `rate * deltas[i]` |
| Layers.UpdateWeightsUndo | main.c:126-135 | a step with rate `-rate` restores the layer exactly, so the update loses nothing |
| Layers.UpdateWeightsIdle | main.c:126-135 | with rate 0, or with every delta 0, the step leaves the layer unchanged |
| Layers.UpdateWeightsDescends | main.c:129-133 | with a positive rate and a positive input, a positive delta strictly lowers the weight and a negative one strictly raises it |
| Networks.CreateNetwork | main.c:112-117 | the network is well formed with the requested sizes, and the hidden layer's output size is the output layer's input size |
| Networks.Predict | main.c:119-124 | the function a network computes gives one value per output unit, each strictly between 0 and 1 |
| Networks.Forward | main.c:119-124 | an error exactly when the input or the output buffer has the wrong length; otherwise the output layer applied to the hidden layer's output, every entry in (0, 1) |
| Networks.FreshNetworkIgnoresInput | main.c:112-124 | a freshly created network outputs `sigma(0)` in every unit whatever its input |
| Training.OutputDeltas | main.c:144-149 | one delta per output unit, `(output[k] - expected[k]) * sigmoid_derivative(output[k])`; for an output in (0, 1) it is positive exactly when the output overshoots its target and zero exactly when it hits it |
| Training.OutputDeltaSign | main.c:147-148 | for an output `o` in (0, 1) and a target `e`, `(o - e) * sigmoid_derivative(o)` is positive exactly when `o > e` and zero exactly when `o = e` |
| Training.HiddenDeltas | main.c:151-159 | hidden delta `h` is `(Σ_k weights[k][h] * outputDeltas[k]) * sigmoid_derivative(hiddenOutput[h])` |
| Training.Backpropagate | main.c:137-169 | an error exactly when the input length is wrong or `expected` is shorter than the output; otherwise a well-formed network of the same shape |
| Training.BackpropagateGradient | main.c:137-169 | each weight and bias moves by the rate times its delta, times the input it multiplies; the hidden deltas use the output weights from before the step |
| Training.Error2For | main.c:223-233 | an error exactly when the input or `expected` length is wrong; otherwise a loss that is never negative and is zero exactly when the network's prediction equals `expected` |
| Training.Error2ForSumsSquares | main.c:223-233 | for inputs of the right sizes the loss is the sum of squared differences between the network's prediction and `expected` |
| Training.TrainingAtZeroErrorIsIdle | main.c:137-169 | when the squared error on an example is zero, a training step on it changes no parameter |
| AsWritten.CopyLoop | main.c:39-41 | the copy loop reads past `from` exactly when `from` is shorter than the buffer, first at index `from.size` of `from`; otherwise it copies entry by entry |
| AsWritten.ArrayCopyAsWritten | main.c:37-42 | the unchecked copy goes out of bounds exactly when `from` is shorter than `to`; otherwise it agrees with the checked copy |
| AsWritten.ArrayCopyAsWrittenOverreads | main.c:37-42 | a three-entry buffer copied from a two-entry source reads index 2 of the source, while the driver's copy of a four-column row into a two-entry input stays in bounds |
| AsWritten.OneHotAsWritten | main.c:176-181 | the unchecked encoding writes out of bounds, at index `n` of `array`, exactly when `n` is negative or at least the size; otherwise it agrees with the checked one |
| AsWritten.OneHotAsWrittenWritesPastEnd | main.c:176-181 | index 2 on a two-entry vector is written past the end, where the checked encoding fails; index 1 gives `[0.0, 1.0]` |
| AsWritten.UpdateWeightsAsWritten | main.c:126-135 | the code goes out of bounds exactly when `deltas` is shorter than `output_size` or the layer has inputs but more units than inputs, first at `input[input_size]` when the input is non-empty and `deltas` is longer than it, otherwise at `deltas[deltas.size]`; in bounds, weight `[i][j]` drops by `rate * deltas[i] * input[i]` |
| AsWritten.UpdateWeightsAsWrittenUsesWrongInput | main.c:131 | on a layer of two inputs and one unit, input `[1, 0]`, delta 1 and rate 1, the code lowers both weights by 1 where the gradient step lowers only the first |
| AsWritten.BackpropagateAsWritten | main.c:137-169 | the step as written goes out of bounds exactly when `expected` is too short (at `expected[expected.size]`) or a layer has inputs but more units than inputs (at `input[input.size]` for the hidden layer, else at `hidden_output[hidden_output.size]`) |
| AsWritten.DriverNetworkStepReadsPastHiddenOutput | main.c:161-165 | for the driver's 2-1-2 network, whatever its weights, every step as written first goes out of bounds at `hidden_output[1]`, past the one-entry hidden output, while the corrected step succeeds |

## Left out

- `load_dataset` and `destroy_dataset`: file input through `getline`, `strtok` and `strtod`, and growth through `realloc`.
- `print_array` and the `main` driver: console output and the epoch loop. Convergence of training is a statistical property, not a provable one.
- `randfrom`, `initialize_layer` and `initialize_network`: they draw from the global `rand()`. The lemmas about trained networks hold for every weight value, so they cover any initialisation.
- `destroy_array`, `destroy_layer`, `destroy_network`, `calloc` and `free`: manual memory management. Dafny values have no owner to free them.
- `create_array_like`: a one-line wrapper of `create_array`, folded into `Training.Error2For`.
- The value of `sigmoid`, which calls `exp`. It is the parameter `sigma`, assumed only to map every real into (0, 1). In doubles the logistic function saturates to exactly 1.0 for inputs above about 37 and to 0.0 below about -709.8, where `exp(-x)` overflows; the model does not cover those outputs. For them the range promises of `Layers.Apply` and `Networks.Predict` would be closed rather than open, and an output delta would be 0 whatever the target, against the sign rule of `Training.OutputDeltas`.
- Floating-point rounding of `double`: all arithmetic is exact over `real`, so the order in which the loops add does not matter.
- `size_t` overflow: sizes are unbounded `nat`.
- Zero-length deltas: `backpropagate` declares `output_deltas` and `hidden_deltas` as variable-length arrays, which C leaves undefined at length zero. `Training.Backpropagate` and `AsWritten.BackpropagateAsWritten` treat a layer with no units as an ordinary empty step.
- Determinism of the forward pass is not a separate lemma: every operation is a mathematical function of its arguments.
- Layers.UpdateWeights: the code never checks the length of `deltas` (a bare pointer in C). The model reports an error unless it equals `output_size`, which is what the code's comment asks for.
- Training.Backpropagate: the code reads `expected` up to the output size without a check. The model reports an error when `expected` is shorter; extra entries are ignored, as in the code.
- Vectors.ArrayCopy: copies `to.size` entries, as the code does, rather than `min(to.size, from.size)`; where the code would read past a shorter `from`, the model reports an error.

## Findings

| source | as written | input that shows it | evidently intended | confidence | as-written member | corrected member |
|---|---|---|---|---|---|---|
| main.c:131 | weight `[i][j]` is lowered by `rate * deltas[i] * input.values[i]` | the driver's network `create_network(2, 1, 2)`: its output layer has 1 input and 2 units, so row 1 reads index 1 of the one-entry hidden output | `input.values[j]`, the gradient of the weight from input `j` | high; not executed | AsWritten.DriverNetworkStepReadsPastHiddenOutput, AsWritten.BackpropagateAsWritten | Layers.UpdateWeights, Training.Backpropagate |
| main.c:176-181 | `one_hot` stores 1.0 at index `n` without checking it | a two-entry vector with `n = 2` | fail with an index error when `n` is not a position | high; not executed | AsWritten.OneHotAsWrittenWritesPastEnd | Vectors.OneHot |
| main.c:37-42 | `array_copy` reads `from` at every index below `to.size`; the size check is only a comment | a three-entry `to` and a two-entry `from` | reject the copy when `from` is shorter than `to` | medium (the driver's own call is in bounds); not executed | AsWritten.ArrayCopyAsWrittenOverreads | Vectors.ArrayCopy |
