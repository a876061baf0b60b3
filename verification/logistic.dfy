/** The logistic activation of main.c and its derivative. */
module Logistic {
  import opened Signs

  /** The logistic function `1 / (1 + exp(-x))`. Its value needs `exp`, a
      foreign call, so the model takes it as a parameter of this type: any
      map of the reals into the open interval (0, 1). */
  type Sigmoid = f: real -> real | forall x :: 0.0 < f(x) < 1.0 witness (x: real) => 0.5

  /** `sigmoid_derivative(y)`: the slope of the logistic curve at the point
      where its value is `y`, written in terms of that value. */
  function SigmoidDerivative(y: real): (slope: real)
    ensures 0.0 < y < 1.0 ==> 0.0 < slope
    ensures slope <= 0.25
  {
    var slope := y * (1.0 - y);
    assert slope == Product(y, 1.0 - y);
    assert slope == 0.25 - Square(y - 0.5);
    slope
  }
}
