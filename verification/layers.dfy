/** The fully connected layer `layer_t` of main.c: its construction, the
    pre-activation of one unit, the forward pass and the weight update. */
module Layers {
  import opened Outcomes
  import opened Signs
  import opened Vectors
  import opened Logistic

  /** A `layer_t`. Row `i` of `weights` holds the weights feeding output
      unit `i`; `bias[i]` is that unit's bias. */
  datatype Layer = Layer(inputSize: nat, outputSize: nat, weights: seq<Vector>, bias: Vector) {

    /** The shape every layer keeps: `outputSize` rows of `inputSize`
        weights and `outputSize` biases. */
    predicate Valid() {
      && |weights| == outputSize
      && |bias| == outputSize
      && forall i | 0 <= i < |weights| :: |weights[i]| == inputSize
    }
  }

  /** `create_layer(input_size, output_size)`: a layer of the given shape
      whose weights and biases are all zero. */
  function CreateLayer(inputSize: nat, outputSize: nat): (l: Layer)
    ensures l.Valid()
    ensures l.inputSize == inputSize && l.outputSize == outputSize
    ensures forall i, j | 0 <= i < outputSize && 0 <= j < inputSize :: l.weights[i][j] == 0.0
    ensures forall i | 0 <= i < outputSize :: l.bias[i] == 0.0
  {
    Layer(inputSize, outputSize, seq(outputSize, _ => CreateArray(inputSize)), CreateArray(outputSize))
  }

  /** `activation(layer, input, n)`: the pre-activation `bias[n] + Σ_i
      weights[n][i] * input[i]` of unit `n`, accumulated the way the C loop
      does; the two asserts of the code become errors. */
  function Activation(l: Layer, input: Vector, n: nat): (r: Result<real>)
    requires l.Valid()
    ensures r.Err? <==> l.outputSize <= n || |input| != l.inputSize
    ensures r.Ok? ==> r.value == l.bias[n] + Dot(l.weights[n], input)
  {
    if l.outputSize <= n then Err(IndexOutOfRange(n, l.outputSize))
    else if |input| != l.inputSize then Err(ShapeMismatch(l.inputSize, |input|))
    else Ok(Accumulate(l.bias[n], Products(l.weights[n], input)))
  }

  /** The map `x ↦ sigma(W x + b)` a well-formed layer denotes. */
  function Apply(sigma: Sigmoid, l: Layer, x: Vector): (y: Vector)
    requires l.Valid() && |x| == l.inputSize
    ensures |y| == l.outputSize
    ensures forall i | 0 <= i < |y| :: 0.0 < y[i] < 1.0
  {
    seq(l.outputSize, i requires 0 <= i < l.outputSize => sigma(l.bias[i] + Dot(l.weights[i], x)))
  }

  /** `forward_layer_to(layer, input, output)`: fills the buffer `output`
      with `sigma` of each unit's activation. Both buffers must have the
      layer's sizes; the layer itself is a value and cannot change. */
  function ForwardLayer(sigma: Sigmoid, l: Layer, input: Vector, output: Vector): (r: Result<Vector>)
    requires l.Valid()
    ensures r.Err? <==> |input| != l.inputSize || |output| != l.outputSize
    ensures r.Ok? ==> r.value == Apply(sigma, l, input)
  {
    if |input| != l.inputSize then Err(ShapeMismatch(l.inputSize, |input|))
    else if |output| != l.outputSize then Err(ShapeMismatch(l.outputSize, |output|))
    else Ok(seq(l.outputSize, i requires 0 <= i < l.outputSize => sigma(Activation(l, input, i).value)))
  }

  /** A freshly created layer ignores its input: every unit outputs
      `sigma(0)`. */
  lemma FreshLayerIgnoresInput(sigma: Sigmoid, inputSize: nat, outputSize: nat, x: Vector)
    requires |x| == inputSize
    ensures forall i | 0 <= i < outputSize :: Apply(sigma, CreateLayer(inputSize, outputSize), x)[i] == sigma(0.0)
  {
    var l := CreateLayer(inputSize, outputSize);
    forall i | 0 <= i < outputSize
      ensures Dot(l.weights[i], x) == 0.0
    {
      SumOfZeros(Products(l.weights[i], x));
    }
  }

  /** `update_weights(layer, input, deltas, rate)` as intended: one gradient
      step that lowers weight `[i][j]` by `rate * deltas[i] * input[j]` and
      bias `i` by `rate * deltas[i]`. The input size is asserted by the code;
      the deltas size is the check its comment asks for. */
  function UpdateWeights(l: Layer, input: Vector, deltas: Vector, rate: real): (r: Result<Layer>)
    requires l.Valid()
    ensures r.Err? <==> |input| != l.inputSize || |deltas| != l.outputSize
    ensures r.Ok? ==> r.value.Valid()
    ensures r.Ok? ==> r.value.inputSize == l.inputSize && r.value.outputSize == l.outputSize
    ensures r.Ok? ==> forall i, j | 0 <= i < l.outputSize && 0 <= j < l.inputSize ::
      r.value.weights[i][j] == l.weights[i][j] - rate * deltas[i] * input[j]
    ensures r.Ok? ==> forall i | 0 <= i < l.outputSize :: r.value.bias[i] == l.bias[i] - rate * deltas[i]
  {
    if |input| != l.inputSize then Err(ShapeMismatch(l.inputSize, |input|))
    else if |deltas| != l.outputSize then Err(ShapeMismatch(l.outputSize, |deltas|))
    else
      var weights := seq(l.outputSize, i requires 0 <= i < l.outputSize =>
        seq(l.inputSize, j requires 0 <= j < l.inputSize => l.weights[i][j] - rate * deltas[i] * input[j]));
      var bias := seq(l.outputSize, i requires 0 <= i < l.outputSize => l.bias[i] - rate * deltas[i]);
      Ok(Layer(l.inputSize, l.outputSize, weights, bias))
  }

  /** A step with the opposite rate undoes a step: the update is invertible
      and loses nothing of the layer. */
  lemma UpdateWeightsUndo(l: Layer, input: Vector, deltas: Vector, rate: real)
    requires l.Valid() && |input| == l.inputSize && |deltas| == l.outputSize
    ensures UpdateWeights(l, input, deltas, rate).Ok?
    ensures UpdateWeights(UpdateWeights(l, input, deltas, rate).value, input, deltas, -rate) == Ok(l)
  {
    var stepped := UpdateWeights(l, input, deltas, rate).value;
    var back := UpdateWeights(stepped, input, deltas, -rate).value;
    forall i | 0 <= i < l.outputSize
      ensures back.weights[i] == l.weights[i]
    {
      forall j | 0 <= j < l.inputSize
        ensures back.weights[i][j] == l.weights[i][j]
      {
        StepBack(l.weights[i][j], rate, deltas[i], input[j]);
      }
    }
    forall i | 0 <= i < l.outputSize
      ensures back.bias[i] == l.bias[i]
    {
      StepBack(l.bias[i], rate, deltas[i], 1.0);
    }
    assert back.weights == l.weights;
    assert back.bias == l.bias;
  }

  lemma StepBack(w: real, rate: real, delta: real, x: real)
    ensures (w - rate * delta * x) - (-rate) * delta * x == w
  {
  }

  /** A step changes nothing when the rate is zero or every delta is zero. */
  lemma UpdateWeightsIdle(l: Layer, input: Vector, deltas: Vector, rate: real)
    requires l.Valid() && |input| == l.inputSize && |deltas| == l.outputSize
    requires rate == 0.0 || forall i | 0 <= i < |deltas| :: deltas[i] == 0.0
    ensures UpdateWeights(l, input, deltas, rate) == Ok(l)
  {
    var stepped := UpdateWeights(l, input, deltas, rate).value;
    forall i | 0 <= i < l.outputSize
      ensures stepped.weights[i] == l.weights[i]
    {
      forall j | 0 <= j < l.inputSize
        ensures stepped.weights[i][j] == l.weights[i][j]
      {
        assert Product(rate, deltas[i]) == 0.0;
      }
    }
    forall i | 0 <= i < l.outputSize
      ensures stepped.bias[i] == l.bias[i]
    {
      assert Product(rate, deltas[i]) == 0.0;
    }
    assert stepped.weights == l.weights;
    assert stepped.bias == l.bias;
  }

  /** The update moves a weight against the sign of `deltas[i] * input[j]`:
      with a positive rate, a positive delta and a positive input the weight
      strictly decreases, and with a negative delta it strictly increases. */
  lemma UpdateWeightsDescends(l: Layer, input: Vector, deltas: Vector, rate: real, i: nat, j: nat)
    requires l.Valid() && |input| == l.inputSize && |deltas| == l.outputSize
    requires i < l.outputSize && j < l.inputSize
    requires 0.0 < rate && 0.0 < input[j]
    ensures 0.0 < deltas[i] ==> UpdateWeights(l, input, deltas, rate).value.weights[i][j] < l.weights[i][j]
    ensures deltas[i] < 0.0 ==> l.weights[i][j] < UpdateWeights(l, input, deltas, rate).value.weights[i][j]
  {
    var step := rate * deltas[i] * input[j];
    assert step == Product(Product(rate, deltas[i]), input[j]);
    if deltas[i] < 0.0 {
      assert rate * deltas[i] == -Product(rate, -deltas[i]);
    }
  }
}
