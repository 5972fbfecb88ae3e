/** The JavaScript `Math` functions the sound generator uses, on exact reals. */
module JsMath {

  function Max(a: real, b: real): (r: real)
    ensures r >= a && r >= b && (r == a || r == b)
  {
    if a >= b then a else b
  }

  function Min(a: real, b: real): (r: real)
    ensures r <= a && r <= b && (r == a || r == b)
  {
    if a <= b then a else b
  }

  function Abs(x: real): (r: real)
    ensures r >= 0.0 && (r == x || r == -x)
  {
    if x >= 0.0 then x else -x
  }

  /** `Math.round`: the nearest integer, halves rounded up. */
  function Round(x: real): (r: int)
    ensures r as real - 0.5 <= x < r as real + 0.5
  {
    (x + 0.5).Floor
  }

  /** `Math.ceil`: the least integer not below `x`. */
  function Ceil(x: real): (r: int)
    ensures x <= r as real < x + 1.0
  {
    -((-x).Floor)
  }

  /** `Math.pow` with a natural exponent. */
  function Pow(b: real, n: nat): (r: real)
    ensures b >= 0.0 ==> r >= 0.0
    ensures b == 1.0 ==> r == 1.0
  {
    if n == 0 then 1.0 else b * Pow(b, n - 1)
  }

  lemma FloorMonotone(x: real, y: real)
    requires x <= y
    ensures x.Floor <= y.Floor
  {
    assert x.Floor as real <= x;
  }

  /** A power of a number in [0, 1] stays in [0, 1] and does not grow with
      the exponent. */
  lemma {:induction false} PowUnit(b: real, n: nat)
    requires 0.0 <= b <= 1.0
    ensures 0.0 <= Pow(b, n) <= 1.0
    ensures n > 0 ==> Pow(b, n) <= Pow(b, n - 1)
  {
    if n == 0 {
      assert Pow(b, n) == 1.0;
    } else {
      var q := Pow(b, n - 1);
      assert 0.0 <= q <= 1.0 by { PowUnit(b, n - 1); }
      assert 0.0 <= b * q <= q by { ProductInUnit(b, q); }
      assert Pow(b, n) == b * q;
    }
  }

  /** Raising to a fixed power keeps the order of non-negative numbers. */
  lemma {:induction false} PowMonotone(a: real, b: real, n: nat)
    requires 0.0 <= a <= b
    ensures Pow(a, n) <= Pow(b, n)
  {
    if n > 0 {
      PowMonotone(a, b, n - 1);
      ProductMonotone(a, Pow(a, n - 1), b, Pow(b, n - 1));
    }
  }

  lemma ProductInUnit(b: real, q: real)
    requires 0.0 <= b <= 1.0 && 0.0 <= q <= 1.0
    ensures 0.0 <= b * q <= q
  {
  }

  lemma ProductMonotone(a: real, p: real, b: real, q: real)
    requires 0.0 <= a <= b && 0.0 <= p <= q
    ensures a * p <= b * q
  {
    assert a * p <= b * p;
  }
}
