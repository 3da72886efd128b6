/**
 * The PHP language rules the pages rely on: truthiness and `empty()` of request
 * values, the `??` operator, the `(int)` cast of a string, and the
 * percentage that several pages compute from two counts.
 *
 * A request or session value is an `Option<string>`: None when the key is
 * unset or null.
 */
module Php {
  import opened Strings

  /** A string is truthy unless it is '' or '0'. */
  predicate Truthy(s: string) {
    s != [] && s != "0"
  }

  /** `empty($v)`: unset, null, '' or '0'. */
  predicate Empty(v: Option<string>) {
    v.None? || !Truthy(v.value)
  }

  /** `$v ?? $default`: the default only when the value is unset or null. */
  function Coalesce(v: Option<string>, default: string): (r: string)
    ensures v.Some? ==> r == v.value
    ensures v.None? ==> r == default
  {
    match v
    case Some(x) => x
    case None => default
  }

  /** `??` keeps an empty string, which `empty()` would treat as missing. */
  lemma CoalesceKeepsEmpty(default: string)
    ensures Coalesce(Some([]), default) == [] && Empty(Some([]))
  {
  }

  /** The white space PHP skips before a numeric string: space, \t, \n, \r, \v and \f. */
  predicate NumericSpace(c: char) {
    c == ' ' || c == '\t' || c == '\n' || c == '\r' || c == '\U{000B}' || c == '\U{000C}'
  }

  /**
   * `(int)$s`: leading white space is skipped, a sign is read, and the decimal
   * digits that follow are the value; no digits at all give 0.
   */
  function IntCast(s: string): (r: int)
    ensures LeadingValue(SignDropped(TrimLeft(s, NumericSpace)), 10).None? ==> r == 0
  {
    var t := TrimLeft(s, NumericSpace);
    match LeadingValue(SignDropped(t), 10)
    case None => 0
    case Some(v) => if t != [] && t[0] == '-' then -(v as int) else v
  }

  /** A string that does not start with a sign, a digit or white space casts to 0. */
  lemma IntCastOfText(s: string)
    requires s != [] && !IsDigit(s[0]) && !NumericSpace(s[0]) && s[0] != '-' && s[0] != '+'
    ensures IntCast(s) == 0
  {
    assert TrimLeft(s, NumericSpace) == s;
    assert SignDropped(s) == s;
  }

  /** On text that starts with a decimal digit the cast reads the leading digits. */
  lemma IntCastLeadingDigits(s: string)
    requires s != [] && IsDigit(s[0])
    ensures IntCast(s) == DigitsValue(DigitPrefix(s, 10), 10)
  {
    assert !NumericSpace(s[0]);
    assert TrimLeft(s, NumericSpace) == s;
    assert SignDropped(s) == s;
    assert DigitOf(s[0], 10).Some?;
    assert LeadingValue(s, 10) == Some(DigitsValue(DigitPrefix(s, 10), 10));
  }

  /**
   * White space in front is skipped and one sign is read: '-' negates the
   * leading digits that follow it, '+' keeps them.
   */
  lemma IntCastSigned(pad: string, sign: char, digits: string)
    requires forall i :: 0 <= i < |pad| ==> NumericSpace(pad[i])
    requires sign == '-' || sign == '+'
    requires digits != [] && IsDigit(digits[0])
    ensures var v := DigitsValue(DigitPrefix(digits, 10), 10);
      IntCast(pad + [sign] + digits) == if sign == '-' then -(v as int) else v
  {
    var t := [sign] + digits;
    assert pad + [sign] + digits == pad + t;
    PaddingSkipped(pad, t);
    SignedDigits(sign, digits);
    assert t[0] == sign;
  }

  lemma PaddingSkipped(pad: string, t: string)
    requires forall i :: 0 <= i < |pad| ==> NumericSpace(pad[i])
    requires t != [] && !NumericSpace(t[0])
    ensures TrimLeft(pad + t, NumericSpace) == t
  {
    TrimLeftPadding(pad, t, NumericSpace);
  }

  lemma SignedDigits(sign: char, digits: string)
    requires sign == '-' || sign == '+'
    requires digits != [] && IsDigit(digits[0])
    ensures LeadingValue(SignDropped([sign] + digits), 10) == Some(DigitsValue(DigitPrefix(digits, 10), 10))
  {
    assert ([sign] + digits)[1..] == digits;
    assert DigitOf(digits[0], 10).Some?;
  }

  /** The cast reads back the decimal text of a natural number. */
  lemma IntCastOfNatToString(n: nat)
    ensures IntCast(NatToString(n)) == n
  {
    var d := NatToString(n);
    DigitsValueOfNatToString(n);
    assert d[0] in d;
    assert forall i :: 0 <= i < |d| ==> IsDigit(d[i]) by {
      forall i | 0 <= i < |d| ensures IsDigit(d[i]) { assert d[i] in d; }
    }
    IntCastLeadingDigits(d);
    DigitPrefixOfDigits(d, []);
    assert d + [] == d;
  }

  /**
   * The percentage a page shows: 0 when there is nothing to count, otherwise
   * `part / total * 100`, before PHP's `round`.
   */
  function Rate(part: nat, total: nat): (r: real)
    ensures total == 0 ==> r == 0.0
    ensures total > 0 ==> r * (total as real) == (part as real) * 100.0
  {
    if total == 0 then 0.0 else part as real / total as real * 100.0
  }

  /** When the part is a subset of the total the rate lies between 0 and 100, and is 100 exactly when they are equal. */
  lemma RateInRange(part: nat, total: nat)
    requires part <= total
    ensures 0.0 <= Rate(part, total) <= 100.0
    ensures total > 0 ==> (Rate(part, total) == 100.0 <==> part == total)
  {
    if total > 0 {
      var r := Rate(part, total);
      assert r * (total as real) == (part as real) * 100.0;
      assert r * (total as real) <= 100.0 * (total as real);
    }
  }
}
