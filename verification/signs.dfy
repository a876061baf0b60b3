/** The rule of signs for products of reals, stated once for the proofs
    about deltas, slopes and squared differences. */
module Signs {

  /** `x * y`, with the rule of signs. Proofs about a product in the model
      read its sign off `Product(x, y)`. */
  function Product(x: real, y: real): (p: real)
    ensures 0.0 < x && 0.0 < y ==> 0.0 < p
    ensures x < 0.0 && y < 0.0 ==> 0.0 < p
    ensures x < 0.0 && 0.0 < y ==> p < 0.0
    ensures x == 0.0 || y == 0.0 ==> p == 0.0
  {
    x * y
  }

  /** `d * d`: never negative, and positive unless `d` is zero. It is
      built on `Product` so that both factors are seen as factors. */
  function Square(d: real): (s: real)
    ensures 0.0 <= s
    ensures d != 0.0 ==> 0.0 < s
  {
    Product(d, d)
  }
}
