/**
 * Money: a non-negative BigDecimal with scale 2. Every operation builds its
 * result through the constructor, which rounds HALF_EVEN to two places and
 * then rejects a negative value.
 */
module Money {
  import opened DomainErrors
  import opened Decimal
  import Quantity

  /** An amount held as its unscaled value at scale 2, i.e. in hundredths. */
  datatype Money = Money(cents: nat)

  /** The BigDecimal a Money holds. */
  function Value(m: Money): (d: Decimal)
    ensures d.scale == 2 && Numerator(d) == m.cents
  {
    Decimal(m.cents, 2)
  }

  /** Money.ZERO, built from BigDecimal.ZERO. */
  const ZERO: Money := Money(0)

  /**
   * The constructor: setScale(2, HALF_EVEN), then reject a negative result.
   * It succeeds iff the value is at least -0.005, and then holds the value
   * rounded half-even to hundredths.
   */
  function Of(value: Decimal): (r: Result<Money>)
    ensures r.Ok? <==> 200 * Numerator(value) >= -(Denominator(value) as int)
    ensures r.Ok? ==> IsHalfEvenRounding(Numerator(value) * 100, Denominator(value), r.value.cents)
    ensures r.Ok? && value.scale <= 2 ==> r.value.cents == value.unscaled * Pow10(2 - value.scale)
    ensures r.Err? ==> r.error == IllegalArgument
  {
    RoundHalfEvenNonNegative(Numerator(value) * 100, Denominator(value));
    var cents := ToScale2(value);
    if cents < 0 then Err(IllegalArgument) else Ok(Money(cents))
  }

  /** Constructing from a scale-2 value rounds nothing: it accepts exactly the non-negative ones. */
  lemma OfScale2(cents: int)
    ensures Of(Decimal(cents, 2)) == if cents >= 0 then Ok(Money(cents)) else Err(IllegalArgument)
  {
  }

  /** Every Money goes through the constructor unchanged: scale 2 and non-negativity hold. */
  lemma OfValue(m: Money)
    ensures Of(Value(m)) == Ok(m)
  {
  }

  /** The constructor agrees with any other definition of HALF_EVEN rounding. */
  lemma {:induction false} OfRoundsHalfEven(value: Decimal, cents: nat)
    requires IsHalfEvenRounding(Numerator(value) * 100, Denominator(value), cents)
    ensures Of(value) == Ok(Money(cents))
  {
    RoundHalfEvenUnique(Numerator(value) * 100, Denominator(value), cents);
  }

  /** add: the exact sum, which at scale 2 is never rounded and never negative. */
  function Add(a: Money, b: Money): (r: Money)
    ensures r.cents == a.cents + b.cents
  {
    OfScale2(a.cents + b.cents);
    Of(Decimal(a.cents + b.cents, 2)).value
  }

  lemma AddCommutative(a: Money, b: Money)
    ensures Add(a, b) == Add(b, a)
  {
  }

  lemma AddAssociative(a: Money, b: Money, c: Money)
    ensures Add(Add(a, b), c) == Add(a, Add(b, c))
  {
  }

  lemma AddZeroIdentity(a: Money)
    ensures Add(a, ZERO) == a && Add(ZERO, a) == a
  {
  }

  /** multiply: rejects a quantity below 1, otherwise the exact product. */
  function Multiply(m: Money, q: Quantity.Quantity): (r: Result<Money>)
    ensures r.Ok? <==> q.value >= 1
    ensures r.Ok? ==> r.value.cents == m.cents * q.value
    ensures r.Err? ==> r.error == IllegalArgument
  {
    if q.value < 1 then Err(IllegalArgument)
    else
      OfScale2(m.cents * q.value);
      Of(Decimal(m.cents * q.value, 2))
  }

  /** m added to ZERO n times. */
  function AddTimes(m: Money, n: nat): Money
  {
    if n == 0 then ZERO else Add(AddTimes(m, n - 1), m)
  }

  lemma {:induction false} AddTimesCents(m: Money, n: nat)
    ensures AddTimes(m, n).cents == n * m.cents
  {
    if n > 0 {
      AddTimesCents(m, n - 1);
      assert (n - 1) * m.cents + m.cents == n * m.cents;
    }
  }

  /** Multiplying by a quantity n >= 1 is adding the amount to itself n times. */
  lemma {:induction false} MultiplyIsRepeatedAdd(m: Money, q: Quantity.Quantity)
    requires q.value >= 1
    ensures Multiply(m, q) == Ok(AddTimes(m, q.value))
  {
    AddTimesCents(m, q.value);
  }

  /**
   * divide: BigDecimal.divide(other, HALF_EVEN) keeps the dividend's scale 2,
   * so the result is the quotient rounded half-even to hundredths; a zero
   * divisor throws ArithmeticException.
   */
  function Divide(a: Money, b: Money): (r: Result<Money>)
    ensures r.Err? <==> b.cents == 0
    ensures r.Err? ==> r.error == ArithmeticError
    ensures r.Ok? ==> IsHalfEvenRounding(a.cents * 100, b.cents, r.value.cents)
  {
    if b.cents == 0 then Err(ArithmeticError)
    else
      var q := RoundHalfEven(a.cents * 100, b.cents);
      RoundHalfEvenNonNegative(a.cents * 100, b.cents);
      OfScale2(q);
      Of(Decimal(q, 2))
  }

  /** compareTo: BigDecimal.compareTo on the values, which answers -1, 0 or 1. */
  function CompareTo(a: Money, b: Money): (r: int)
    ensures -1 <= r <= 1
    ensures r < 0 <==> a.cents < b.cents
    ensures r == 0 <==> a == b
    ensures r > 0 <==> a.cents > b.cents
  {
    if a.cents < b.cents then -1 else if a.cents == b.cents then 0 else 1
  }

  lemma CompareToAntisymmetric(a: Money, b: Money)
    ensures CompareTo(a, b) == -CompareTo(b, a)
  {
  }

  lemma CompareToTransitive(a: Money, b: Money, c: Money)
    requires CompareTo(a, b) <= 0 && CompareTo(b, c) <= 0
    ensures CompareTo(a, c) <= 0
  {
  }

  /**
   * "10" becomes 10.00; -0.01 is rejected; -0.004 and -0.005 round to 0.00
   * and are accepted; -0.015 rounds half-even to -0.02 and is rejected;
   * 2.345 rounds to 2.34 and 2.355 to 2.36.
   */
  lemma ConstructionExamples()
    ensures Of(Decimal(10, 0)) == Ok(Money(1000))
    ensures Of(Decimal(-1, 2)) == Err(IllegalArgument)
    ensures Of(Decimal(-4, 3)) == Ok(Money(0))
    ensures Of(Decimal(-5, 3)) == Ok(Money(0))
    ensures Of(Decimal(-15, 3)) == Err(IllegalArgument)
    ensures Of(Decimal(2345, 3)) == Ok(Money(234))
    ensures Of(Decimal(2355, 3)) == Ok(Money(236))
  {
  }

  /** 1.10 + 2.25 = 3.35; 2.00 × 3 = 6.00; 2.00 × 0 is rejected; 10.00 / 4.00 = 2.50; 1.00 / 3.00 = 0.33. */
  lemma ArithmeticExamples()
    ensures Add(Money(110), Money(225)) == Money(335)
    ensures Multiply(Money(200), Quantity.Quantity(3)) == Ok(Money(600))
    ensures Multiply(Money(200), Quantity.Quantity(0)) == Err(IllegalArgument)
    ensures Divide(Money(1000), Money(400)) == Ok(Money(250))
    ensures Divide(Money(100), Money(300)) == Ok(Money(33))
    ensures Divide(Money(1000), ZERO) == Err(ArithmeticError)
  {
  }
}
