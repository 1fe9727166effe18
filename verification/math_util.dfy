/** The one numeric helper of three.js that the controller relies on. */
module MathUtil {

  /** `MathUtils.clamp(x, lo, hi)`, that is `max(lo, min(hi, x))`: the result
      lies in [lo, hi] and is `x` itself whenever `x` already does. */
  function Clamp(x: real, lo: real, hi: real): (r: real)
    requires lo <= hi
    ensures lo <= r <= hi
    ensures lo <= x <= hi ==> r == x
    ensures x < lo ==> r == lo
    ensures hi < x ==> r == hi
  {
    var m := if hi < x then hi else x;
    if m < lo then lo else m
  }

  // Arithmetic facts the proofs lean on.

  lemma MulLeftMono(a: real, b: real, c: real)
    requires 0.0 <= c && a <= b
    ensures c * a <= c * b
  {
  }

  lemma SquareMono(a: real, b: real)
    requires 0.0 <= a < b
    ensures a * a < b * b
  {
    var aa, ab, bb := a * a, a * b, b * b;
    assert aa <= ab;
    assert ab < bb;
  }

  /** A non-negative square root is determined by its square. */
  lemma RootUnique(a: real, b: real)
    requires 0.0 <= a && 0.0 <= b && a * a == b * b
    ensures a == b
  {
    if a < b {
      SquareMono(a, b);
    } else if b < a {
      SquareMono(b, a);
    }
  }

  /** A quotient of a non-negative numerator by a positive denominator is
      bounded by `m` when the numerator is bounded by `m` times the denominator. */
  lemma QuotientBound(x: real, y: real, m: real)
    requires 0.0 <= x && 0.0 < y && x <= m * y
    ensures 0.0 <= x / y <= m
    ensures x / y == 0.0 <==> x == 0.0
  {
    var q := x / y;
    assert q * y == x;
    if q > m {
      MulLeftMono(m, q, y);
    }
    if q < 0.0 {
      MulLeftMono(q, 0.0, y);
    }
  }

  lemma QuotientBelow(x: real, y: real)
    requires 0.0 <= x < y
    ensures 0.0 <= x / y < 1.0
  {
    var q := x / y;
    assert q * y == x;
    if q >= 1.0 {
      MulLeftMono(1.0, q, y);
    }
    QuotientBound(x, y, 1.0);
  }

  /** Products of non-negative factors grow with each factor. */
  lemma ProductMono(x1: real, y1: real, x2: real, y2: real)
    requires 0.0 <= x1 <= x2 && 0.0 <= y1 <= y2
    ensures 0.0 <= x1 * y1 <= x2 * y2
  {
    MulLeftMono(0.0, y1, x1);
    MulLeftMono(y1, y2, x1);
    MulLeftMono(x1, x2, y2);
    var a, b, c := x1 * y1, x1 * y2, y2 * x1;
    assert a <= b;
    assert b == c;
    assert c <= y2 * x2;
  }

  lemma IntMulMono(a: int, b: int, c: int)
    requires 0 <= c && a <= b
    ensures a * c <= b * c
  {
  }

  lemma IntDistrib(m: int, x: int, y: int)
    ensures m * (x + y) == m * x + m * y
  {
  }

  /** A byte's distance from the zero point, scaled by 1/128 and squared. */
  lemma ScaledSquare(d: int)
    ensures (d as real / 128.0) * (d as real / 128.0) == (d * d) as real / 16384.0
  {
    var x := d as real;
    assert (d * d) as real == x * x;
  }

  /** A magnitude scaled by 1/255 and weighted by its bin index. */
  lemma ScaledWeight(x: int, k: int)
    ensures (x as real / 255.0) * (k as real) == (k * x) as real / 255.0
  {
    var a, b := x as real, k as real;
    assert (k * x) as real == b * a;
  }

  /** A common positive scale cancels in a quotient. */
  lemma CancelScale(w: real, t: real, c: real)
    requires t != 0.0 && 0.0 < c
    ensures (w / c) / (t / c) == w / t
  {
  }

  /** `QuotientBound` for a quotient of integers. */
  lemma IntQuotientBound(w: int, t: int, k: int)
    requires 0 <= w && 0 < t && w <= k * t
    ensures 0.0 <= w as real / t as real <= k as real
  {
    var x, y, m := w as real, t as real, k as real;
    assert (k * t) as real == m * y;
    QuotientBound(x, y, m);
  }
}
