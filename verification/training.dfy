/** One training step of main.c (`backpropagate`) and the squared-error
    loss that monitors training (`error2_for`). */
module Training {
  import opened Outcomes
  import opened Signs
  import opened Vectors
  import opened Logistic
  import opened Layers
  import opened Networks

  /** The output-layer deltas: for each output unit `k`,
      `(output[k] - expected[k]) * sigmoid_derivative(output[k])`. Entries of
      `expected` past the output size are never read. For an output in
      (0, 1), as every sigmoid output is, the delta has the sign of the
      error: positive exactly when the output overshoots, zero exactly when
      it hits its target. */
  function OutputDeltas(output: Vector, expected: Vector): (deltas: Vector)
    requires |output| <= |expected|
    ensures |deltas| == |output|
    ensures forall k | 0 <= k < |output| :: deltas[k] == (output[k] - expected[k]) * SigmoidDerivative(output[k])
    ensures forall k | 0 <= k < |output| && 0.0 < output[k] < 1.0 ::
      && (0.0 < deltas[k] <==> expected[k] < output[k])
      && (deltas[k] == 0.0 <==> output[k] == expected[k])
  {
    var deltas := seq(|output|, k requires 0 <= k < |output| => (output[k] - expected[k]) * SigmoidDerivative(output[k]));
    assert forall k | 0 <= k < |output| && 0.0 < output[k] < 1.0 ::
      && (0.0 < deltas[k] <==> expected[k] < output[k])
      && (deltas[k] == 0.0 <==> output[k] == expected[k])
    by {
      forall k | 0 <= k < |output| && 0.0 < output[k] < 1.0
        ensures 0.0 < deltas[k] <==> expected[k] < output[k]
        ensures deltas[k] == 0.0 <==> output[k] == expected[k]
      {
        OutputDeltaSign(output[k], expected[k]);
      }
    }
    deltas
  }

  /** Column `h` of a weight matrix: the weights leaving input `h`. */
  function Column(weights: seq<Vector>, h: nat): (c: Vector)
    requires forall k | 0 <= k < |weights| :: h < |weights[k]|
    ensures |c| == |weights|
  {
    seq(|weights|, k requires 0 <= k < |weights| => weights[k][h])
  }

  /** The hidden-layer deltas: the output deltas sent back through the
      output layer's weights, `Σ_k weights[k][h] * outputDeltas[k]`, scaled by
      the sigmoid slope at hidden output `h`. */
  function HiddenDeltas(output: Layer, outputDeltas: Vector, hiddenOutput: Vector): (deltas: Vector)
    requires output.Valid()
    requires |outputDeltas| == output.outputSize && |hiddenOutput| == output.inputSize
    ensures |deltas| == output.inputSize
    ensures forall h | 0 <= h < |deltas| ::
      deltas[h] == Dot(Column(output.weights, h), outputDeltas) * SigmoidDerivative(hiddenOutput[h])
  {
    seq(output.inputSize, h requires 0 <= h < output.inputSize =>
      Accumulate(0.0, Products(Column(output.weights, h), outputDeltas)) * SigmoidDerivative(hiddenOutput[h]))
  }

  /** `backpropagate(network, input, expected, rate)`: forward pass keeping
      the hidden output, both sets of deltas computed from the weights as
      they were before the step, then a gradient step on each layer by
      `Layers.UpdateWeights`, which multiplies by `input[j]` where main.c:131
      has `input[i]` (the code as written is
      `AsWritten.BackpropagateAsWritten`). The code reads `expected` up to
      the output size, so a shorter `expected` is an error here. */
  function Backpropagate(sigma: Sigmoid, net: Network, input: Vector, expected: Vector, rate: real): (r: Result<Network>)
    requires net.Valid()
    ensures r.Err? <==> |input| != net.hidden.inputSize || |expected| < net.output.outputSize
    ensures r.Ok? ==> r.value.Valid()
    ensures r.Ok? ==>
      && r.value.hidden.inputSize == net.hidden.inputSize
      && r.value.hidden.outputSize == net.hidden.outputSize
      && r.value.output.outputSize == net.output.outputSize
  {
    var hiddenOutput :- ForwardLayer(sigma, net.hidden, input, CreateArray(net.hidden.outputSize));
    var output := ForwardLayer(sigma, net.output, hiddenOutput, CreateArray(net.output.outputSize)).value;
    if |expected| < |output| then Err(ShapeMismatch(|output|, |expected|))
    else
      var outputDeltas := OutputDeltas(output, expected);
      var hiddenDeltas := HiddenDeltas(net.output, outputDeltas, hiddenOutput);
      var hidden := UpdateWeights(net.hidden, input, hiddenDeltas, rate).value;
      var outputLayer := UpdateWeights(net.output, hiddenOutput, outputDeltas, rate).value;
      Ok(Network(hidden, outputLayer))
  }

  /** One output unit's delta has the sign of its error: for an output `o`
      in (0, 1) and a target `e`, `(o - e) * sigmoid_derivative(o)` is
      positive exactly when `o` overshoots `e` and zero exactly when it hits
      it. */
  lemma OutputDeltaSign(o: real, e: real)
    requires 0.0 < o < 1.0
    ensures 0.0 < (o - e) * SigmoidDerivative(o) <==> e < o
    ensures (o - e) * SigmoidDerivative(o) == 0.0 <==> o == e
  {
    var slope := SigmoidDerivative(o);
    assert (o - e) * slope == Product(o - e, slope);
  }

  /** `error2_for(network, input, expected)`: runs the forward pass into a
      buffer the size of `expected` and sums the squared differences. */
  function Error2For(sigma: Sigmoid, net: Network, input: Vector, expected: Vector): (r: Result<real>)
    requires net.Valid()
    ensures r.Err? <==> |input| != net.hidden.inputSize || |expected| != net.output.outputSize
    ensures r.Ok? ==> 0.0 <= r.value
    ensures r.Ok? ==> (r.value == 0.0 <==> Predict(sigma, net, input) == expected)
  {
    var output :- Forward(sigma, net, input, CreateArray(|expected|));
    SquaredErrorZeroIff(output, expected);
    Ok(Accumulate(0.0, Squares(output, expected)))
  }

  /** The loss is the sum of the squared differences between the network's
      prediction and `expected`, entry by entry. */
  lemma Error2ForSumsSquares(sigma: Sigmoid, net: Network, input: Vector, expected: Vector)
    requires net.Valid() && |input| == net.hidden.inputSize && |expected| == net.output.outputSize
    ensures Error2For(sigma, net, input, expected) == Ok(SquaredError(Predict(sigma, net, input), expected))
  {
    var output := Forward(sigma, net, input, CreateArray(|expected|)).value;
    assert output == Predict(sigma, net, input);
  }

  /** A network whose squared error on an example is zero is a fixed point
      of training on that example: the step changes no weight and no bias. */
  lemma TrainingAtZeroErrorIsIdle(sigma: Sigmoid, net: Network, input: Vector, expected: Vector, rate: real)
    requires net.Valid()
    requires Error2For(sigma, net, input, expected) == Ok(0.0)
    ensures Backpropagate(sigma, net, input, expected, rate) == Ok(net)
  {
    var hiddenOutput := Apply(sigma, net.hidden, input);
    var output := Apply(sigma, net.output, hiddenOutput);
    assert output == expected;
    var outputDeltas := OutputDeltas(output, expected);
    ZeroErrorMeansZeroDeltas(net.output, output, hiddenOutput);
    var hiddenDeltas := HiddenDeltas(net.output, outputDeltas, hiddenOutput);
    UpdateWeightsIdle(net.hidden, input, hiddenDeltas, rate);
    UpdateWeightsIdle(net.output, hiddenOutput, outputDeltas, rate);
    BackpropagateSteps(sigma, net, input, expected, rate);
  }

  /** With no output error every output delta is zero, and so is every
      hidden delta sent back from them. */
  lemma ZeroErrorMeansZeroDeltas(output: Layer, target: Vector, hiddenOutput: Vector)
    requires output.Valid() && |target| == output.outputSize && |hiddenOutput| == output.inputSize
    ensures forall k | 0 <= k < |target| :: OutputDeltas(target, target)[k] == 0.0
    ensures forall h | 0 <= h < |hiddenOutput| :: HiddenDeltas(output, OutputDeltas(target, target), hiddenOutput)[h] == 0.0
  {
    var outputDeltas := OutputDeltas(target, target);
    forall k | 0 <= k < |target|
      ensures outputDeltas[k] == 0.0
    {
    }
    forall h | 0 <= h < |hiddenOutput|
      ensures HiddenDeltas(output, outputDeltas, hiddenOutput)[h] == 0.0
    {
      SumOfZeros(Products(Column(output.weights, h), outputDeltas));
    }
  }

  /** What a successful step does to each parameter: every weight and bias
      moves by the learning rate times its delta (times the input it
      multiplies), where the output deltas come from the forward pass and the
      hidden deltas from the output layer's weights before the step. */
  lemma BackpropagateGradient(sigma: Sigmoid, net: Network, input: Vector, expected: Vector, rate: real)
    requires net.Valid() && |input| == net.hidden.inputSize && net.output.outputSize <= |expected|
    ensures Backpropagate(sigma, net, input, expected, rate).Ok?
    ensures
      var next := Backpropagate(sigma, net, input, expected, rate).value;
      var hiddenOutput := Apply(sigma, net.hidden, input);
      var outputDeltas := OutputDeltas(Apply(sigma, net.output, hiddenOutput), expected);
      var hiddenDeltas := HiddenDeltas(net.output, outputDeltas, hiddenOutput);
      && (forall k, h | 0 <= k < net.output.outputSize && 0 <= h < net.output.inputSize ::
            next.output.weights[k][h] == net.output.weights[k][h] - rate * outputDeltas[k] * hiddenOutput[h])
      && (forall k | 0 <= k < net.output.outputSize ::
            next.output.bias[k] == net.output.bias[k] - rate * outputDeltas[k])
      && (forall h, j | 0 <= h < net.hidden.outputSize && 0 <= j < net.hidden.inputSize ::
            next.hidden.weights[h][j] == net.hidden.weights[h][j] - rate * hiddenDeltas[h] * input[j])
      && (forall h | 0 <= h < net.hidden.outputSize ::
            next.hidden.bias[h] == net.hidden.bias[h] - rate * hiddenDeltas[h])
  {
    BackpropagateSteps(sigma, net, input, expected, rate);
  }

  /** A successful step is the two layer updates, both fed with deltas taken
      from the network before the step. */
  lemma BackpropagateSteps(sigma: Sigmoid, net: Network, input: Vector, expected: Vector, rate: real)
    requires net.Valid() && |input| == net.hidden.inputSize && net.output.outputSize <= |expected|
    ensures
      var hiddenOutput := Apply(sigma, net.hidden, input);
      var outputDeltas := OutputDeltas(Apply(sigma, net.output, hiddenOutput), expected);
      var hiddenDeltas := HiddenDeltas(net.output, outputDeltas, hiddenOutput);
      Backpropagate(sigma, net, input, expected, rate)
        == Ok(Network(UpdateWeights(net.hidden, input, hiddenDeltas, rate).value,
                      UpdateWeights(net.output, hiddenOutput, outputDeltas, rate).value))
  {
  }
}
