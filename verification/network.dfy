/** The two-layer `network_t` of main.c and its forward pass. */
module Networks {
  import opened Outcomes
  import opened Vectors
  import opened Logistic
  import opened Layers

  /** A `network_t`: a hidden layer wired in series with an output layer. */
  datatype Network = Network(hidden: Layer, output: Layer) {

    /** Both layers are well formed and the hidden layer produces exactly
        what the output layer consumes. */
    predicate Valid() {
      && hidden.Valid()
      && output.Valid()
      && hidden.outputSize == output.inputSize
    }
  }

  /** `create_network(input, hidden, output)`: a zero-initialised network
      with the given sizes, wired in series. */
  function CreateNetwork(inputSize: nat, hiddenSize: nat, outputSize: nat): (net: Network)
    ensures net.Valid()
    ensures net.hidden.inputSize == inputSize && net.hidden.outputSize == hiddenSize
    ensures net.output.inputSize == hiddenSize && net.output.outputSize == outputSize
  {
    Network(CreateLayer(inputSize, hiddenSize), CreateLayer(hiddenSize, outputSize))
  }

  /** The function a well-formed network denotes: the hidden layer's map
      followed by the output layer's. */
  function Predict(sigma: Sigmoid, net: Network, x: Vector): (y: Vector)
    requires net.Valid() && |x| == net.hidden.inputSize
    ensures |y| == net.output.outputSize
    ensures forall k | 0 <= k < |y| :: 0.0 < y[k] < 1.0
  {
    Apply(sigma, net.output, Apply(sigma, net.hidden, x))
  }

  /** `forward_to(network, input, output)`: runs the hidden layer into a
      fresh temporary of the hidden size, then the output layer from that
      temporary into `output`. */
  function Forward(sigma: Sigmoid, net: Network, input: Vector, output: Vector): (r: Result<Vector>)
    requires net.Valid()
    ensures r.Err? <==> |input| != net.hidden.inputSize || |output| != net.output.outputSize
    ensures r.Ok? ==> r.value == Predict(sigma, net, input)
    ensures r.Ok? ==> forall k | 0 <= k < |r.value| :: 0.0 < r.value[k] < 1.0
  {
    var tmp := CreateArray(net.hidden.outputSize);
    var hiddenOutput :- ForwardLayer(sigma, net.hidden, input, tmp);
    ForwardLayer(sigma, net.output, hiddenOutput, output)
  }

  /** A freshly created network ignores its input: every output is
      `sigma(0)`. */
  lemma FreshNetworkIgnoresInput(sigma: Sigmoid, inputSize: nat, hiddenSize: nat, outputSize: nat, x: Vector)
    requires |x| == inputSize
    ensures forall k | 0 <= k < outputSize :: Predict(sigma, CreateNetwork(inputSize, hiddenSize, outputSize), x)[k] == sigma(0.0)
  {
    var net := CreateNetwork(inputSize, hiddenSize, outputSize);
    FreshLayerIgnoresInput(sigma, hiddenSize, outputSize, Apply(sigma, net.hidden, x));
  }
}
