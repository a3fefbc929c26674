/**
 * Quantity: a non-negative Java int, with addition through Integer.sum and
 * comparison by value.
 */
module Quantity {
  import opened DomainErrors

  const INT_MIN: int := -0x8000_0000
  const INT_MAX: int := 0x7fff_ffff
  const TWO_POW_32: int := 0x1_0000_0000

  /** A Java int. */
  type Int32 = x: int | INT_MIN <= x <= INT_MAX

  /** A Java int that the constructor accepts. */
  type NonNegativeInt32 = x: int | 0 <= x <= INT_MAX

  /** Two's-complement wrap-around of an int operation whose exact result is x. */
  function Wrap(x: int): (r: Int32)
    ensures (r - x) % TWO_POW_32 == 0
    ensures INT_MIN <= x <= INT_MAX ==> r == x
    ensures INT_MAX < x < INT_MAX + TWO_POW_32 ==> r == x - TWO_POW_32
  {
    (x - INT_MIN) % TWO_POW_32 + INT_MIN
  }

  datatype Quantity = Quantity(value: NonNegativeInt32)

  /** The constant Quantity.ZERO; it holds 1, not 0. */
  const ZERO: Quantity := Quantity(1)

  /** The compact constructor: rejects a negative value, keeps any other unchanged. */
  function Of(value: Int32): (r: Result<Quantity>)
    ensures r.Ok? <==> value >= 0
    ensures r.Ok? ==> r.value.value == value
    ensures r.Err? ==> r.error == IllegalArgument
  {
    if value < 0 then Err(IllegalArgument) else Ok(Quantity(value))
  }

  /**
   * add: the 32-bit sum goes back through the constructor, so a sum past
   * INT_MAX wraps to a negative int and is rejected.
   */
  function Add(a: Quantity, b: Quantity): (r: Result<Quantity>)
    ensures r.Ok? <==> a.value + b.value <= INT_MAX
    ensures r.Ok? ==> r.value.value == a.value + b.value
    ensures r.Err? ==> r.error == IllegalArgument
  {
    Of(Wrap(a.value + b.value))
  }

  /** compareTo: Integer.compare on the values, which answers -1, 0 or 1. */
  function CompareTo(a: Quantity, b: Quantity): (r: int)
    ensures -1 <= r <= 1
    ensures r < 0 <==> a.value < b.value
    ensures r == 0 <==> a == b
    ensures r > 0 <==> a.value > b.value
  {
    if a.value < b.value then -1 else if a.value == b.value then 0 else 1
  }

  lemma CompareToAntisymmetric(a: Quantity, b: Quantity)
    ensures CompareTo(a, b) == -CompareTo(b, a)
  {
  }

  lemma CompareToTransitive(a: Quantity, b: Quantity, c: Quantity)
    requires CompareTo(a, b) <= 0 && CompareTo(b, c) <= 0
    ensures CompareTo(a, c) <= 0
  {
  }

  /** The constant ZERO holds 1: it is a valid quantity of one unit. */
  lemma ZeroHoldsOne()
    ensures Of(1) == Ok(ZERO)
    ensures ZERO.value == 1
  {
  }

  lemma AddCommutative(a: Quantity, b: Quantity)
    ensures Add(a, b) == Add(b, a)
  {
  }

  /** Where both groupings are defined, add is associative. */
  lemma AddAssociative(a: Quantity, b: Quantity, c: Quantity)
    requires a.value + b.value + c.value <= INT_MAX
    ensures Add(a, b).Ok? && Add(b, c).Ok?
    ensures Add(Add(a, b).value, c) == Add(a, Add(b, c).value)
  {
  }

  /** Quantity(0) is the identity of add; the constant ZERO is not, it adds one. */
  lemma AddIdentity(a: Quantity)
    ensures Add(a, Quantity(0)) == Ok(a)
    ensures a.value < INT_MAX ==> Add(a, ZERO) == Ok(Quantity(a.value + 1))
    ensures a.value == INT_MAX ==> Add(a, ZERO) == Err(IllegalArgument)
  {
  }

  /** The largest quantity plus one wraps to INT_MIN, which the constructor rejects. */
  lemma AddOverflowWraps()
    ensures Wrap(INT_MAX + 1) == INT_MIN
    ensures Add(Quantity(INT_MAX), Quantity(1)) == Err(IllegalArgument)
  {
  }

  /** 2 + 3 = 5, -1 is rejected, 0 and 5 are accepted unchanged. */
  lemma Examples()
    ensures Add(Quantity(2), Quantity(3)) == Ok(Quantity(5))
    ensures Of(-1) == Err(IllegalArgument)
    ensures Of(0) == Ok(Quantity(0)) && Of(5) == Ok(Quantity(5))
    ensures CompareTo(Quantity(1), Quantity(2)) < 0 && CompareTo(Quantity(2), Quantity(1)) > 0
    ensures CompareTo(Quantity(2), Quantity(2)) == 0
  {
  }
}
