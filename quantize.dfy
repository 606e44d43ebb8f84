/** Quantization: Python's `int()` applied to a float, which truncates toward
    zero (scripts/gentables.py, lines 19, 27, 29, 31). Floats are modelled as
    exact reals. */
module Quantize {

  /** `int(x)` for a float x: the integer part, rounding toward zero. */
  function Trunc(x: real): (r: int)
    ensures 0.0 <= x ==> 0 <= r && r as real <= x < r as real + 1.0
    ensures x < 0.0 ==> r <= 0 && r as real - 1.0 < x <= r as real
  {
    if x >= 0.0 then x.Floor else -((-x).Floor)
  }

  /** On a non-negative quotient of integers, truncation is integer division. */
  lemma TruncOfQuotient(a: int, b: int)
    requires 0 <= a && 0 < b
    ensures Trunc(a as real / b as real) == a / b
  {
    var q, r := a / b, a % b;
    assert a == q * b + r;
    assert (a as real) == (q as real) * (b as real) + (r as real);
    var x := a as real / b as real;
    assert x == q as real + (r as real) / (b as real);
    assert 0.0 <= (r as real) / (b as real) < 1.0;
  }

  /** Integer division is monotone in the dividend. */
  lemma DivMonotone(a: int, b: int, d: int)
    requires a <= b && 0 < d
    ensures a / d <= b / d
  {
    var qa, qb := a / d, b / d;
    assert a == qa * d + a % d;
    assert b == qb * d + b % d;
    if qa > qb {
      assert (qa - qb) * d == qa * d - qb * d;
      MulAtLeast(qa - qb, d);
    }
  }

  /** A common positive factor cancels in a quotient. */
  lemma DivCancel(a: int, b: int, c: int)
    requires 0 <= a && 0 < b && 0 < c
    ensures (a * c) / (b * c) == a / b
  {
    var q, r := a / b, a % b;
    assert a * c == q * (b * c) + r * c by {
      assert a == q * b + r;
    }
    assert 0 <= r * c < b * c;
    DivUnique(a * c, b * c, q, r * c);
  }

  /** The quotient is the unique q with n == q * d + r and 0 <= r < d. */
  lemma DivUnique(n: int, d: int, q: int, r: int)
    requires 0 < d && 0 <= r < d && n == q * d + r
    ensures n / d == q
  {
    var q', r' := n / d, n % d;
    assert n == q' * d + r';
    if q' > q {
      assert (q' - q) * d == r - r' by { assert (q' - q) * d == q' * d - q * d; }
      MulAtLeast(q' - q, d);
    } else if q' < q {
      assert (q - q') * d == r' - r by { assert (q - q') * d == q * d - q' * d; }
      MulAtLeast(q - q', d);
    }
  }

  /** m * k / d stays within [0, m] while k is within [0, d]. */
  lemma ScaledQuotientAtMost(m: int, k: int, d: int)
    requires 0 <= m && 0 <= k <= d && 0 < d
    ensures 0 <= m * k && 0 <= (m * k) / d <= m
  {
    DivMonotone(0, m * k, d);
    assert m * d - m * k == m * (d - k);
    assert 0 <= m * (d - k);
    DivMonotone(m * k, m * d, d);
    DivUnique(m * d, d, m, 0);
  }

  /** m * k / d grows with k for non-negative m. */
  lemma ScaledQuotientMonotone(m: int, k1: int, k2: int, d: int)
    requires 0 <= m && k1 <= k2 && 0 < d
    ensures (m * k1) / d <= (m * k2) / d
  {
    assert m * k2 - m * k1 == m * (k2 - k1);
    assert 0 <= m * (k2 - k1);
    DivMonotone(m * k1, m * k2, d);
  }

  /** An integer product keeps its value as a real. */
  lemma ProductAsReal(a: int, b: int)
    ensures (a * b) as real == (a as real) * (b as real)
  {
  }

  lemma MulAtLeast(k: int, d: int)
    requires k >= 1 && d > 0
    ensures k * d >= d
  {
    assert k * d == (k - 1) * d + d;
  }
}
