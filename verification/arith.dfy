/** Small facts of integer and real arithmetic that the solver needs stated one at a time. */
module Arith {

  /** Euclidean division is determined by its bounds. */
  lemma DivUnique(a: int, b: int, q: int)
    requires 0 < b && b * q <= a < b * q + b
    ensures a / b == q
  {
    var r := a / b;
    assert a == b * r + a % b;
    if r < q {
      MulLe(b, r + 1, q);
    } else if r > q {
      MulLe(b, q + 1, r);
    }
  }

  /** Multiplying by a positive integer keeps the order. */
  lemma MulLe(b: int, x: int, y: int)
    requires 0 < b && x <= y
    ensures b * x <= b * y
  {
  }

  /** Converting a product to a real is the product of the conversions. */
  lemma CastMul(a: int, b: int)
    ensures (a * b) as real == a as real * b as real
  {
  }

  /** Multiplying by a positive factor keeps a strict order. */
  lemma MulLtReal(a: real, b: real, t: real)
    requires a < b && t > 0.0
    ensures a * t < b * t
  {
  }

  /** Multiplication distributes over addition. */
  lemma Distrib(x: int, y: int, t: int)
    ensures x * t + y * t == (x + y) * t
  {
  }

  /** Multiplying by a non-negative factor keeps the order. */
  lemma MulMono(a: real, b: real, t: real)
    requires a <= b && 0.0 <= t
    ensures a * t <= b * t
  {
  }

  /** Multiplying by a non-positive factor reverses the order. */
  lemma MulAnti(a: real, b: real, t: real)
    requires a <= b && t <= 0.0
    ensures b * t <= a * t
  {
  }
}
