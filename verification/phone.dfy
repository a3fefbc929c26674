/** Phone: a string that String.isBlank does not reject, stored as given. */
module Phone {
  import opened DomainErrors

  /**
   * Character.isWhitespace: the Unicode space, line and paragraph separators
   * other than the non-breaking ones (U+00A0, U+2007, U+202F), and the
   * controls U+0009..U+000D and U+001C..U+001F.
   */
  predicate IsWhitespace(c: char)
  {
    var n := c as int;
    || 0x09 <= n <= 0x0D
    || 0x1C <= n <= 0x20
    || n == 0x1680
    || 0x2000 <= n <= 0x2006
    || 0x2008 <= n <= 0x200A
    || n == 0x2028 || n == 0x2029
    || n == 0x205F
    || n == 0x3000
  }

  /** The index of the first non-whitespace character of s, or |s| if there is none. */
  function FirstNonWhitespace(s: string): (i: nat)
    ensures i <= |s|
    ensures forall k :: 0 <= k < i ==> IsWhitespace(s[k])
    ensures i < |s| ==> !IsWhitespace(s[i])
  {
    if s == [] || !IsWhitespace(s[0]) then 0 else 1 + FirstNonWhitespace(s[1..])
  }

  /** String.isBlank: the first non-whitespace index is the length. */
  predicate IsBlank(s: string)
  {
    FirstNonWhitespace(s) == |s|
  }

  datatype Phone = Phone(value: string)

  /**
   * The compact constructor: rejects a blank string with
   * IllegalArgumentException, otherwise stores it untrimmed.
   */
  function Of(value: string): (r: Result<Phone>)
    ensures r.Ok? <==> exists k :: 0 <= k < |value| && !IsWhitespace(value[k])
    ensures r.Ok? ==> r.value.value == value
    ensures r.Err? ==> r.error == IllegalArgument
  {
    if IsBlank(value) then Err(IllegalArgument) else Ok(Phone(value))
  }

  /** Two phones built by the constructor are equal iff their strings are equal. */
  lemma OfInjective(a: string, b: string)
    requires Of(a).Ok? && Of(b).Ok?
    ensures Of(a) == Of(b) <==> a == b
  {
  }

  /** The empty string and spaces are rejected; " 1 " and a full number are kept as given. */
  lemma Examples()
    ensures Of("") == Err(IllegalArgument)
    ensures Of("   ") == Err(IllegalArgument)
    ensures Of("\t\n") == Err(IllegalArgument)
    ensures Of(" 1 ") == Ok(Phone(" 1 "))
    ensures Of("+5511999999999") == Ok(Phone("+5511999999999"))
  {
  }
}
