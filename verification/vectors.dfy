/** The `array_t` vector of main.c as a value, the sums its loops compute,
    and the vector helpers `create_array`, `array_copy` and `one_hot`. */
module Vectors {
  import opened Outcomes
  import opened Signs

  /** An `array_t`: its `size` is the length of the sequence. */
  type Vector = seq<real>

  /** The sum of the terms: the closed form of every accumulation loop. */
  function Sum(terms: seq<real>): real
  {
    if |terms| == 0 then 0.0 else terms[0] + Sum(terms[1..])
  }

  /** What a loop `acc += terms[i]` over i = 0, 1, ... leaves in `acc`. */
  function Accumulate(acc: real, terms: seq<real>): (total: real)
    ensures total == acc + Sum(terms)
    decreases |terms|
  {
    if |terms| == 0 then acc else Accumulate(acc + terms[0], terms[1..])
  }

  /** The entry-wise products `w[i] * x[i]`. */
  function Products(w: Vector, x: Vector): Vector
    requires |w| == |x|
  {
    seq(|w|, i requires 0 <= i < |w| => w[i] * x[i])
  }

  /** The inner product of two vectors of equal length. */
  function Dot(w: Vector, x: Vector): real
    requires |w| == |x|
  {
    Sum(Products(w, x))
  }

  /** The entry-wise squared differences `(a[i] - b[i])^2`. */
  function Squares(a: Vector, b: Vector): Vector
    requires |a| == |b|
  {
    seq(|a|, i requires 0 <= i < |a| => Square(a[i] - b[i]))
  }

  /** The sum of squared differences (not the mean). */
  function SquaredError(a: Vector, b: Vector): real
    requires |a| == |b|
  {
    Sum(Squares(a, b))
  }

  lemma {:induction false} SumOfZeros(terms: seq<real>)
    requires forall i | 0 <= i < |terms| :: terms[i] == 0.0
    ensures Sum(terms) == 0.0
  {
    if |terms| > 0 {
      SumOfZeros(terms[1..]);
    }
  }

  lemma {:induction false} SumOfNonNegatives(terms: seq<real>)
    requires forall i | 0 <= i < |terms| :: 0.0 <= terms[i]
    ensures 0.0 <= Sum(terms)
    ensures Sum(terms) == 0.0 <==> forall i | 0 <= i < |terms| :: terms[i] == 0.0
  {
    if |terms| > 0 {
      var rest := terms[1..];
      SumOfNonNegatives(rest);
      if Sum(terms) == 0.0 {
        forall i | 0 <= i < |terms|
          ensures terms[i] == 0.0
        {
          if i > 0 {
            assert terms[i] == rest[i - 1];
          }
        }
      }
    }
  }

  /** The squared error is never negative, and it vanishes exactly when the
      two vectors are equal. */
  lemma SquaredErrorZeroIff(a: Vector, b: Vector)
    requires |a| == |b|
    ensures 0.0 <= SquaredError(a, b)
    ensures SquaredError(a, b) == 0.0 <==> a == b
  {
    var sq := Squares(a, b);
    SumOfNonNegatives(sq);
    if SquaredError(a, b) == 0.0 {
      forall i | 0 <= i < |a|
        ensures a[i] == b[i]
      {
        assert sq[i] == Square(a[i] - b[i]) == 0.0;
      }
    }
  }

  /** `create_array(size)`: a vector of `size` zeros. */
  function CreateArray(size: nat): (v: Vector)
    ensures |v| == size
    ensures forall i | 0 <= i < size :: v[i] == 0.0
  {
    seq(size, _ => 0.0)
  }

  /** `array_copy(to, from)` with the size check its comment asks for: the
      first `|to|` entries of `from`, or an error when `from` is shorter. */
  function ArrayCopy(to: Vector, from: Vector): (r: Result<Vector>)
    ensures r.Err? <==> |from| < |to|
    ensures r.Ok? ==> |r.value| == |to| && forall i | 0 <= i < |to| :: r.value[i] == from[i]
  {
    if |from| < |to| then Err(ShapeMismatch(|to|, |from|)) else Ok(from[..|to|])
  }

  /** A copy is the prefix of its source: what it leaves out is exactly the
      tail of `from` past `|to|`, and a buffer of the same size receives all of
      `from`. */
  lemma ArrayCopyIsPrefix(to: Vector, from: Vector)
    requires |to| <= |from|
    ensures ArrayCopy(to, from).Ok?
    ensures ArrayCopy(to, from).value + from[|to|..] == from
    ensures |to| == |from| ==> ArrayCopy(to, from) == Ok(from)
  {
    var c := ArrayCopy(to, from).value;
    assert c == from[..|to|];
    assert from[..|from|] == from;
  }

  /** `one_hot(array, n)` with the index check the code omits: all zeros but
      a 1.0 at position `n`, or an error when `n` is not a position of `v`. */
  function OneHot(v: Vector, n: int): (r: Result<Vector>)
    ensures r.Err? <==> n < 0 || |v| <= n
    ensures r.Err? ==> r.error == IndexOutOfRange(n, |v|)
    ensures r.Ok? ==> |r.value| == |v| && r.value[n] == 1.0
    ensures r.Ok? ==> forall i | 0 <= i < |v| && i != n :: r.value[i] == 0.0
  {
    if 0 <= n < |v| then Ok(seq(|v|, i => if i == n then 1.0 else 0.0))
    else Err(IndexOutOfRange(n, |v|))
  }

  /** The class a target vector encodes: the position of its first 1.0, or
      `|v|` when there is none. */
  function LabelOf(v: Vector): (k: nat)
    ensures k <= |v|
    ensures k < |v| ==> v[k] == 1.0
  {
    if |v| == 0 then 0 else if v[0] == 1.0 then 0 else 1 + LabelOf(v[1..])
  }

  lemma {:induction false} LabelOfFirstOne(v: Vector, n: nat)
    requires n < |v| && v[n] == 1.0
    requires forall i | 0 <= i < n :: v[i] != 1.0
    ensures LabelOf(v) == n
  {
    if n > 0 {
      LabelOfFirstOne(v[1..], n - 1);
    }
  }

  /** Encoding a class as a one-hot vector and reading the class back gives
      the class. */
  lemma OneHotRoundTrip(v: Vector, n: int)
    requires 0 <= n < |v|
    ensures OneHot(v, n).Ok?
    ensures LabelOf(OneHot(v, n).value) == n
  {
    LabelOfFirstOne(OneHot(v, n).value, n);
  }
}
