/** The three defective operations of main.c as the code writes them, and
    the training step that calls one of them, with the inputs that take
    them outside their buffers. `Access.OutOfBounds` marks the first read or
    write past the end of a buffer, which C leaves undefined. Sizes the code
    asserts are taken as preconditions. The corrected operations are
    `Vectors.ArrayCopy`, `Vectors.OneHot`, `Layers.UpdateWeights` and
    `Training.Backpropagate`. */
module AsWritten {
  import opened Outcomes
  import opened Vectors
  import opened Logistic
  import opened Layers
  import opened Networks
  import opened Training

  /** The loop of `array_copy` from position `i` on: it writes
      `from[i]` into `buffer[i]` for every position of `buffer`, never
      looking at the size of `from`. */
  function CopyLoop(buffer: Vector, from: Vector, i: nat): (r: Access<Vector>)
    requires i <= |buffer| && i <= |from|
    requires forall k | 0 <= k < i :: buffer[k] == from[k]
    ensures r.OutOfBounds? <==> |from| < |buffer|
    ensures r.OutOfBounds? ==> r == OutOfBounds("from", |from|)
    ensures r.Defined? ==> |r.value| == |buffer| && forall k | 0 <= k < |buffer| :: r.value[k] == from[k]
    decreases |buffer| - i
  {
    if i == |buffer| then Defined(buffer)
    else if i == |from| then OutOfBounds("from", i)
    else CopyLoop(buffer[i := from[i]], from, i + 1)
  }

  /** `array_copy(to, from)` as written, without the size check its own
      comment asks for. */
  function ArrayCopyAsWritten(to: Vector, from: Vector): (r: Access<Vector>)
    ensures r.OutOfBounds? <==> |from| < |to|
    ensures r.Defined? ==> ArrayCopy(to, from) == Ok(r.value)
  {
    var r := CopyLoop(to, from, 0);
    assert r.Defined? ==> r.value == from[..|to|];
    r
  }

  /** A three-entry buffer filled from a two-entry source reads one entry
      past the source, where the checked copy reports the mismatch. The
      driver's own use, a two-entry input filled from a four-column row, is
      in bounds. */
  lemma ArrayCopyAsWrittenOverreads(row: Vector)
    requires |row| == 4
    ensures ArrayCopyAsWritten([0.0, 0.0, 0.0], [1.0, 2.0]) == OutOfBounds("from", 2)
    ensures ArrayCopy([0.0, 0.0, 0.0], [1.0, 2.0]) == Err(ShapeMismatch(3, 2))
    ensures ArrayCopyAsWritten(CreateArray(2), row) == Defined(row[..2])
  {
    var r := ArrayCopyAsWritten(CreateArray(2), row);
    assert ArrayCopy(CreateArray(2), row) == Ok(row[..2]);
  }

  /** `one_hot(array, n)` as written: it zeroes the buffer and stores 1.0
      at position `n` whatever `n` is. */
  function OneHotAsWritten(v: Vector, n: int): (r: Access<Vector>)
    ensures r.OutOfBounds? <==> n < 0 || |v| <= n
    ensures r.OutOfBounds? ==> r == OutOfBounds("array", n)
    ensures r.Defined? ==> OneHot(v, n) == Ok(r.value)
  {
    var zeros := seq(|v|, _ => 0.0);
    if 0 <= n < |v| then
      assert zeros[n := 1.0] == OneHot(v, n).value;
      Defined(zeros[n := 1.0])
    else OutOfBounds("array", n)
  }

  /** Index 2 on a two-entry target is stored past the buffer, where the
      checked encoding fails; index 1 gives `[0.0, 1.0]` either way. */
  lemma OneHotAsWrittenWritesPastEnd()
    ensures OneHotAsWritten([0.0, 0.0], 2) == OutOfBounds("array", 2)
    ensures OneHot([0.0, 0.0], 2) == Err(IndexOutOfRange(2, 2))
    ensures OneHot([0.0, 0.0], 1) == Ok([0.0, 1.0])
    ensures OneHotAsWritten([0.0, 0.0], 1) == Defined([0.0, 1.0])
  {
    assert OneHot([0.0, 0.0], 1).value == [0.0, 1.0];
  }

  /** `update_weights(layer, input, deltas, rate)` as written: weight
      `[i][j]` is lowered by `rate * deltas[i] * input[i]`, with the row
      index where the input index belongs. The input size is asserted; the
      size of `deltas` is not. The first access out of bounds is at the
      first row `i` past `deltas` or, when there is any input, past
      `input`; where both end at the same row, `deltas[i]`, written first,
      is the one reported. */
  function UpdateWeightsAsWritten(l: Layer, input: Vector, deltas: Vector, rate: real): (r: Access<Layer>)
    requires l.Valid() && |input| == l.inputSize
    ensures r.OutOfBounds? <==> |deltas| < l.outputSize || 0 < l.inputSize < l.outputSize
    ensures r.OutOfBounds? ==>
      r == if 0 < l.inputSize < |deltas| then OutOfBounds("input", l.inputSize)
           else OutOfBounds("deltas", |deltas|)
    ensures r.Defined? ==> r.value.Valid()
    ensures r.Defined? ==> r.value.inputSize == l.inputSize && r.value.outputSize == l.outputSize
    ensures r.Defined? ==> forall i, j | 0 <= i < l.outputSize && 0 <= j < l.inputSize ::
      r.value.weights[i][j] == l.weights[i][j] - rate * deltas[i] * input[i]
    ensures r.Defined? ==> forall i | 0 <= i < l.outputSize :: r.value.bias[i] == l.bias[i] - rate * deltas[i]
  {
    if |deltas| < l.outputSize && (l.inputSize == 0 || |deltas| <= |input|) then OutOfBounds("deltas", |deltas|)
    else if 0 < |input| < l.outputSize then OutOfBounds("input", |input|)
    else
      var weights := seq(l.outputSize, i requires 0 <= i < l.outputSize =>
        seq(l.inputSize, j requires 0 <= j < l.inputSize => l.weights[i][j] - rate * deltas[i] * input[i]));
      var bias := seq(l.outputSize, i requires 0 <= i < l.outputSize => l.bias[i] - rate * deltas[i]);
      Defined(Layer(l.inputSize, l.outputSize, weights, bias))
  }

  /** Even in bounds the update as written is not the gradient step. On the
      driver's hidden layer shape (two inputs, one unit), with input
      `[1, 0]`, delta 1 and rate 1, it lowers both weights by 1 where the
      intended step lowers only the first. */
  lemma UpdateWeightsAsWrittenUsesWrongInput()
    ensures UpdateWeightsAsWritten(CreateLayer(2, 1), [1.0, 0.0], [1.0], 1.0).Defined?
    ensures UpdateWeightsAsWritten(CreateLayer(2, 1), [1.0, 0.0], [1.0], 1.0).value.weights[0] == [-1.0, -1.0]
    ensures UpdateWeights(CreateLayer(2, 1), [1.0, 0.0], [1.0], 1.0).value.weights[0] == [-1.0, 0.0]
  {
    var asWritten := UpdateWeightsAsWritten(CreateLayer(2, 1), [1.0, 0.0], [1.0], 1.0).value;
    assert asWritten.weights[0][0] == -1.0 && asWritten.weights[0][1] == -1.0;
    var intended := UpdateWeights(CreateLayer(2, 1), [1.0, 0.0], [1.0], 1.0).value;
    assert intended.weights[0][0] == -1.0 && intended.weights[0][1] == 0.0;
  }

  /** `backpropagate` as written: the forward pass and the deltas as in
      `Training.Backpropagate`, then the two updates as written. A buffer
      read out of bounds is named as `backpropagate` names it: the hidden
      layer's update reads `input` and `hidden_deltas`, the output layer's
      `hidden_output` and `output_deltas`. */
  function BackpropagateAsWritten(sigma: Sigmoid, net: Network, input: Vector, expected: Vector, rate: real): (r: Access<Network>)
    requires net.Valid() && |input| == net.hidden.inputSize
    ensures r.OutOfBounds? <==>
      || |expected| < net.output.outputSize
      || 0 < net.hidden.inputSize < net.hidden.outputSize
      || 0 < net.output.inputSize < net.output.outputSize
    ensures |expected| < net.output.outputSize ==> r == OutOfBounds("expected", |expected|)
    ensures net.output.outputSize <= |expected| && 0 < net.hidden.inputSize < net.hidden.outputSize ==>
      r == OutOfBounds("input", net.hidden.inputSize)
    ensures
      && net.output.outputSize <= |expected|
      && !(0 < net.hidden.inputSize < net.hidden.outputSize)
      && 0 < net.output.inputSize < net.output.outputSize
      ==> r == OutOfBounds("hidden_output", net.output.inputSize)
  {
    var hiddenOutput := Apply(sigma, net.hidden, input);
    var output := Apply(sigma, net.output, hiddenOutput);
    if |expected| < |output| then OutOfBounds("expected", |expected|)
    else
      var outputDeltas := OutputDeltas(output, expected);
      var hiddenDeltas := HiddenDeltas(net.output, outputDeltas, hiddenOutput);
      match UpdateWeightsAsWritten(net.hidden, input, hiddenDeltas, rate)
      case OutOfBounds(buffer, i) => OutOfBounds(if buffer == "deltas" then "hidden_deltas" else "input", i)
      case Defined(hidden) =>
        match UpdateWeightsAsWritten(net.output, hiddenOutput, outputDeltas, rate)
        case OutOfBounds(buffer, i) => OutOfBounds(if buffer == "deltas" then "output_deltas" else "hidden_output", i)
        case Defined(outputLayer) => Defined(Network(hidden, outputLayer))
  }

  /** The network the driver trains, `create_network(2, 1, 2)`, whatever
      its weights: every training step as written reads the one-entry hidden
      output at position 1, while the corrected step succeeds. */
  lemma DriverNetworkStepReadsPastHiddenOutput(sigma: Sigmoid, net: Network, input: Vector, expected: Vector, rate: real)
    requires net.Valid()
    requires net.hidden.inputSize == 2 && net.hidden.outputSize == 1 && net.output.outputSize == 2
    requires |input| == 2 && |expected| == 2
    ensures BackpropagateAsWritten(sigma, net, input, expected, rate) == OutOfBounds("hidden_output", 1)
    ensures Backpropagate(sigma, net, input, expected, rate).Ok?
  {
  }
}
