/**
 * Exact decimal numbers as java.math.BigDecimal holds them, and rounding to
 * a scale with RoundingMode.HALF_EVEN.
 */
module Decimal {

  /** 10 raised to the power k. */
  function Pow10(k: nat): (r: nat)
    ensures r >= 1
  {
    if k == 0 then 1 else 10 * Pow10(k - 1)
  }

  lemma {:induction false} Pow10Add(a: nat, b: nat)
    ensures Pow10(a + b) == Pow10(a) * Pow10(b)
  {
    if a > 0 {
      Pow10Add(a - 1, b);
      calc {
        Pow10(a + b);
        10 * Pow10(a - 1 + b);
        10 * (Pow10(a - 1) * Pow10(b));
        (10 * Pow10(a - 1)) * Pow10(b);
      }
    }
  }

  /** A BigDecimal: the number unscaled × 10^(-scale); the scale may be negative. */
  datatype Decimal = Decimal(unscaled: int, scale: int)

  /** The numerator of the number, over Denominator(d). */
  function Numerator(d: Decimal): int
  {
    if d.scale >= 0 then d.unscaled else d.unscaled * Pow10(-d.scale)
  }

  /** The denominator of the number: 10^scale for a non-negative scale, else 1. */
  function Denominator(d: Decimal): (r: nat)
    ensures r >= 1
  {
    if d.scale >= 0 then Pow10(d.scale) else 1
  }

  function Dist(a: int, b: int): nat
  {
    if a <= b then b - a else a - b
  }

  /**
   * k is the HALF_EVEN rounding of the fraction n / den: no integer is nearer,
   * and when n / den lies exactly half-way, k is the even neighbour.
   */
  ghost predicate IsHalfEvenRounding(n: int, den: nat, k: int)
    requires den > 0
  {
    && 2 * Dist(n, k * den) <= den
    && (2 * Dist(n, k * den) == den ==> k % 2 == 0)
  }

  /** Rounds n / den to an integer with RoundingMode.HALF_EVEN. */
  function RoundHalfEven(n: int, den: nat): (k: int)
    requires den > 0
    ensures IsHalfEvenRounding(n, den, k)
  {
    var q, rem := n / den, n % den;
    assert n == q * den + rem;
    assert (q + 1) * den == q * den + den;
    if 2 * rem < den then q
    else if 2 * rem > den then q + 1
    else if q % 2 == 0 then q
    else q + 1
  }

  /** (lo + d) * den splits into lo * den + d * den, and d * den grows with d. */
  lemma MulSplit(lo: int, d: nat, den: nat)
    ensures (lo + d) * den == lo * den + d * den
    ensures d >= 2 ==> d * den >= 2 * den
    ensures d == 1 ==> d * den == den
  {
  }

  lemma MulSign(k: int, den: nat)
    ensures k <= -1 ==> k * den <= -(den as int)
    ensures k >= 0 ==> k * den >= 0
  {
    if k <= -1 {
      MulSplit(k, -k - 1, den);
      assert (-k - 1) * den >= 0;
    }
  }

  /** The HALF_EVEN rounding is unique: whatever satisfies the definition is RoundHalfEven. */
  lemma RoundHalfEvenUnique(n: int, den: nat, k: int)
    requires den > 0
    requires IsHalfEvenRounding(n, den, k)
    ensures k == RoundHalfEven(n, den)
  {
    var r := RoundHalfEven(n, den);
    if k != r {
      var lo, hi := if k < r then k else r, if k < r then r else k;
      assert IsHalfEvenRounding(n, den, lo) && IsHalfEvenRounding(n, den, hi);
      // Both lie within den / 2 of n, so they are neighbours, both exactly
      // half-way, and so both even.
      MulSplit(lo, hi - lo, den);
      assert false;
    }
  }

  /** Rounding is exact when den divides n. */
  lemma RoundHalfEvenExact(n: int, den: nat)
    requires den > 0 && n % den == 0
    ensures RoundHalfEven(n, den) == n / den
  {
  }

  /** The HALF_EVEN rounding of n / den is non-negative iff n / den >= -1/2. */
  lemma RoundHalfEvenNonNegative(n: int, den: nat)
    requires den > 0
    ensures RoundHalfEven(n, den) >= 0 <==> 2 * n >= -(den as int)
  {
    MulSign(RoundHalfEven(n, den), den);
  }

  /** The unscaled value of BigDecimal.setScale(2, HALF_EVEN): the number in hundredths. */
  function ToScale2(d: Decimal): (cents: int)
    ensures IsHalfEvenRounding(Numerator(d) * 100, Denominator(d), cents)
    ensures d.scale <= 2 ==> cents == d.unscaled * Pow10(2 - d.scale)
  {
    ToScale2Exact(d);
    RoundHalfEven(Numerator(d) * 100, Denominator(d))
  }

  /** Setting the scale to 2 does not round a number whose scale is at most 2. */
  lemma ToScale2Exact(d: Decimal)
    ensures d.scale <= 2 ==> RoundHalfEven(Numerator(d) * 100, Denominator(d)) == d.unscaled * Pow10(2 - d.scale)
  {
    if d.scale > 2 {
    } else if d.scale >= 0 {
      Pow10Add(d.scale, 2 - d.scale);
      assert Pow10(2) == 100;
      var den := Pow10(d.scale);
      var m := d.unscaled * Pow10(2 - d.scale);
      assert d.unscaled * 100 == m * den;
      assert (m * den) % den == 0 && (m * den) / den == m;
      RoundHalfEvenExact(d.unscaled * 100, den);
    } else {
      Pow10Add(-d.scale, 2);
      assert Pow10(2) == 100;
      assert Numerator(d) * 100 == d.unscaled * Pow10(2 - d.scale);
      RoundHalfEvenExact(Numerator(d) * 100, 1);
    }
  }
}
