/** Small facts about integer multiplication and Euclidean division. */
module Arith {

  /** Multiplying by a non-negative number keeps the order. */
  lemma MulLe(a: int, b: int, d: int)
    requires a <= b && d >= 0
    ensures a * d <= b * d
  {
    assert b * d - a * d == (b - a) * d;
  }

  /** Euclidean division undoes `q * d + r` for a remainder in [0, d). */
  lemma DivModUnique(q: int, r: int, d: int)
    requires d > 0 && 0 <= r < d
    ensures (q * d + r) / d == q && (q * d + r) % d == r
  {
    var x := q * d + r;
    var q1, r1 := x / d, x % d;
    assert x == q1 * d + r1 && 0 <= r1 < d;
    if q1 > q {
      MulLe(q + 1, q1, d);
      assert false;
    } else if q1 < q {
      MulLe(q1 + 1, q, d);
      assert false;
    }
  }


  /** Regrouping a product of four factors: the item count times the item size. */
  lemma MulRegroup(n: int, c: int, h: int, w: int)
    ensures n * c * h * w == n * (c * h * w)
  {
    assert n * c * h * w == n * (c * h) * w;
  }

  /** One more item adds one item size. */
  lemma MulSucc(i: int, x: int)
    ensures (i + 1) * x == i * x + x
  {
  }

  /** A product of non-negative reals is non-negative. */
  lemma RealMulNonneg(a: real, b: real)
    requires a >= 0.0 && b >= 0.0
    ensures a * b >= 0.0
  {
  }
}
