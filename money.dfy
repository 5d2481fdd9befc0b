/**
 * Money in integer units. The ledger columns are DECIMAL(10,2), so stored
 * amounts are whole euro cents. Intermediate values of the royalty calculator
 * are kept exactly in sub-cents (hundredths of a cent), which is exact for a
 * cent price after a whole-percent discount.
 */
module Money {

  /** Sub-cents per cent. */
  const SubPerCent: nat := 100

  /** A cent amount written in sub-cents. */
  function ToSub(cents: int): int
  {
    cents * SubPerCent
  }

  /**
   * n / d rounded to the nearest integer, halves away from zero: what MySQL does
   * when a value with more decimals is stored in a DECIMAL column, and what
   * PHP's round() does.
   */
  function RoundHalfAway(n: int, d: int): int
    requires d > 0
  {
    if n >= 0 then (2 * n + d) / (2 * d) else -((-2 * n + d) / (2 * d))
  }

  /** The rounded quotient is within half a unit of n / d, and has the sign of n. */
  lemma RoundHalfAwayBounds(n: int, d: int)
    requires d > 0
    ensures var r := RoundHalfAway(n, d);
            (n >= 0 ==> 0 <= r && 2 * r * d - d <= 2 * n < 2 * r * d + d)
            && (n < 0 ==> r <= 0 && 2 * r * d - d < 2 * n <= 2 * r * d + d)
  {
    if n >= 0 {
      DivBounds(2 * n + d, 2 * d);
    } else {
      DivBounds(-2 * n + d, 2 * d);
    }
  }

  /** n / d truncated toward zero, as PHP's intval() does with a quotient. */
  function TruncDiv(n: int, d: int): int
    requires d > 0
  {
    if n >= 0 then n / d else -((-n) / d)
  }

  /** The truncated quotient is the largest multiple of d not beyond n, toward zero. */
  lemma TruncDivBounds(n: int, d: int)
    requires d > 0
    ensures var r := TruncDiv(n, d);
            (n >= 0 ==> 0 <= r && r * d <= n < r * d + d)
            && (n < 0 ==> r <= 0 && r * d - d < n <= r * d)
  {
    if n >= 0 {
      DivBounds(n, d);
    } else {
      DivBounds(-n, d);
    }
  }

  /** Euclidean division, stated with the quotient first. */
  lemma DivBounds(n: int, d: int)
    requires d > 0
    ensures (n / d) * d <= n < (n / d) * d + d
    ensures n >= 0 ==> n / d >= 0
  {
    assert n == d * (n / d) + n % d;
  }

  /** Rounding a multiple of d gives back the factor. */
  lemma RoundExact(c: int, d: int)
    requires d > 0
    ensures RoundHalfAway(c * d, d) == c
  {
    if c >= 0 {
      MulNonneg(c, d);
      assert 2 * (c * d) + d == c * (2 * d) + d;
      DivUnique(2 * (c * d) + d, 2 * d, c, d);
    } else {
      MulPos(-c, d);
      assert -2 * (c * d) + d == (-c) * (2 * d) + d;
      DivUnique(-2 * (c * d) + d, 2 * d, -c, d);
    }
  }

  /** Truncating a multiple of d gives back the factor. */
  lemma TruncExact(c: int, d: int)
    requires d > 0
    ensures TruncDiv(c * d, d) == c
  {
    var r := TruncDiv(c * d, d);
    MulStrict(r - c, d);
    MulStrict(c - r, d);
  }

  /** Rounding is monotone. */
  lemma RoundMonotone(a: int, b: int, d: int)
    requires d > 0 && a <= b
    ensures RoundHalfAway(a, d) <= RoundHalfAway(b, d)
  {
    var ra, rb := RoundHalfAway(a, d), RoundHalfAway(b, d);
    if rb < ra {
      MulStrict(ra - rb, d);
    }
  }

  /** A positive multiple of a positive d is at least d. */
  lemma MulStrict(k: int, d: int)
    requires d > 0
    ensures k >= 1 ==> k * d >= d
  {
    if k >= 1 {
      assert k * d == (k - 1) * d + d;
      assert (k - 1) * d >= 0;
    }
  }

  /** Rounding n * k over d * k is rounding n over d. */
  lemma RoundScaled(n: int, d: int, k: int)
    requires d > 0 && k > 0
    ensures RoundHalfAway(n * k, d * k) == RoundHalfAway(n, d)
  {
    MulPos(d, k);
    var b := 2 * d;
    assert 2 * (d * k) == b * k;
    if n >= 0 {
      MulNonneg(n, k);
      var a := 2 * n + d;
      assert 2 * (n * k) + d * k == a * k;
      DivCancel(a, b, k);
      assert RoundHalfAway(n * k, d * k) == (a * k) / (b * k);
    } else {
      MulPos(-n, k);
      var a := -2 * n + d;
      assert -2 * (n * k) + d * k == a * k;
      DivCancel(a, b, k);
      assert RoundHalfAway(n * k, d * k) == -((a * k) / (b * k));
    }
  }

  lemma DivCancel(a: int, b: int, k: int)
    requires b > 0 && k > 0
    ensures (a * k) / (b * k) == a / b
  {
    var q, r := a / b, a % b;
    assert a == q * b + r && 0 <= r < b;
    assert a * k == q * (b * k) + r * k;
    assert 0 <= r * k < b * k by {
      MulNonneg(r, k);
      MulPos(b - r, k);
    }
    DivUnique(a * k, b * k, q, r * k);
  }

  lemma DivUnique(a: int, b: int, q: int, r: int)
    requires b > 0 && a == q * b + r && 0 <= r < b
    ensures a / b == q
  {
    var q', r' := a / b, a % b;
    if q' > q {
      MulPos(q' - q, b);
    } else if q' < q {
      MulPos(q - q', b);
    }
  }

  lemma MulNonneg(a: int, b: int)
    requires a >= 0 && b >= 0
    ensures a * b >= 0
  {
  }

  lemma MulPos(a: int, b: int)
    requires a > 0 && b > 0
    ensures a * b > 0 && a * b >= b
  {
    assert a * b == (a - 1) * b + b;
    MulNonneg(a - 1, b);
  }
}
