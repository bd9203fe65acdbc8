/** Decimal numerals: how a non-negative integer is printed (`Date.now()`
    inside a template literal) and how JavaScript's `parseInt` reads one back. */
module Decimal {
  import opened Common

  predicate IsDigit(c: char) {
    '0' <= c <= '9'
  }

  predicate AllDigits(s: string) {
    forall i :: 0 <= i < |s| ==> IsDigit(s[i])
  }

  function DigitChar(d: nat): (c: char)
    requires d < 10
    ensures IsDigit(c)
  {
    (('0' as int) + d) as char
  }

  /** The value of one digit character in the given radix (10 or 16), if it is one. */
  function DigitValue(c: char, radix: nat): (d: Option<nat>)
    requires radix == 10 || radix == 16
    ensures d.Some? ==> d.value < radix
    ensures radix == 10 ==> (d.Some? <==> IsDigit(c))
  {
    if '0' <= c <= '9' then Some((c as int) - ('0' as int))
    else if radix == 16 && 'a' <= c <= 'f' then Some((c as int) - ('a' as int) + 10)
    else if radix == 16 && 'A' <= c <= 'F' then Some((c as int) - ('A' as int) + 10)
    else None
  }

  /** The shortest decimal numeral of `n`, as `${n}` prints it. */
  function ToDecimal(n: nat): (s: string)
    ensures |s| > 0
    ensures AllDigits(s)
    ensures |s| > 1 ==> s[0] != '0'
  {
    if n < 10 then [DigitChar(n)] else ToDecimal(n / 10) + [DigitChar(n % 10)]
  }

  /** The value of a digit string in `radix`, most significant digit first. */
  function ValueIn(s: string, radix: nat): nat
    requires radix == 10 || radix == 16
    requires forall i :: 0 <= i < |s| ==> DigitValue(s[i], radix).Some?
  {
    if |s| == 0 then 0
    else radix * ValueIn(s[..|s| - 1], radix) + DigitValue(s[|s| - 1], radix).value
  }

  /** Reading back a printed numeral gives the number printed. */
  lemma {:induction false} ValueOfToDecimal(n: nat)
    ensures ValueIn(ToDecimal(n), 10) == n
  {
    var s := ToDecimal(n);
    if n >= 10 {
      ValueOfToDecimal(n / 10);
      assert s[..|s| - 1] == ToDecimal(n / 10);
    }
  }

  /** Distinct numbers print as distinct numerals. */
  lemma ToDecimalInjective(m: nat, n: nat)
    requires ToDecimal(m) == ToDecimal(n)
    ensures m == n
  {
    ValueOfToDecimal(m);
    ValueOfToDecimal(n);
  }

  /** The longest prefix of `s` made of digits of `radix`. */
  function DigitPrefix(s: string, radix: nat): (p: string)
    requires radix == 10 || radix == 16
    ensures p <= s
    ensures forall i :: 0 <= i < |p| ==> DigitValue(p[i], radix).Some?
    ensures |p| < |s| ==> DigitValue(s[|p|], radix).None?
  {
    if |s| == 0 || DigitValue(s[0], radix).None? then ""
    else [s[0]] + DigitPrefix(s[1..], radix)
  }

  /** `s` with its leading white space removed. */
  function TrimStart(s: string): (t: string)
    ensures |t| <= |s| && t == s[|s| - |t|..]
    ensures forall i :: 0 <= i < |s| - |t| ==> IsJsWhitespace(s[i])
    ensures |t| > 0 ==> !IsJsWhitespace(t[0])
  {
    if |s| > 0 && IsJsWhitespace(s[0]) then TrimStart(s[1..]) else s
  }

  /** JavaScript `parseInt(s)` with no radix argument, `None` standing for
      `NaN`: skip leading white space, take an optional sign, then read the
      magnitude. */
  function ParseInt(s: string): (r: Option<int>)
    ensures r.Some? ==> exists i :: 0 <= i < |s| && IsDigit(s[i])
    ensures r.Some? && r.value < 0 ==> |TrimStart(s)| > 0 && TrimStart(s)[0] == '-'
  {
    var t := TrimStart(s);
    var negative := |t| > 0 && t[0] == '-';
    var u := if |t| > 0 && (t[0] == '-' || t[0] == '+') then t[1..] else t;
    match ParseMagnitude(u)
    case None => None
    case Some(m) =>
      assert u[0] == s[|s| - |u|];
      Some(if negative then -(m as int) else m)
  }

  /** The unsigned part of `parseInt`: radix 16 after a `0x`/`0X` prefix and
      radix 10 otherwise, then the longest run of digits; none at all is `NaN`.
      Either way a magnitude starts with a decimal digit. */
  function ParseMagnitude(u: string): (r: Option<nat>)
    ensures r.Some? ==> |u| > 0 && IsDigit(u[0])
  {
    var hex := |u| >= 2 && u[0] == '0' && (u[1] == 'x' || u[1] == 'X');
    var radix := if hex then 16 else 10;
    var digits := DigitPrefix(if hex then u[2..] else u, radix);
    if |digits| == 0 then None else Some(ValueIn(digits, radix))
  }

  lemma DigitPrefixOfDigits(s: string)
    requires AllDigits(s)
    ensures DigitPrefix(s, 10) == s
  {
    if |s| > 0 {
      DigitPrefixOfDigits(s[1..]);
    }
  }

  /** `parseInt` reads back every printed natural number: `parseInt(`${n}`) == n`. */
  lemma ParseIntToDecimal(n: nat)
    ensures ParseInt(ToDecimal(n)) == Some(n)
  {
    var s := ToDecimal(n);
    assert IsDigit(s[0]);
    assert TrimStart(s) == s by {
      assert !IsJsWhitespace(s[0]);
    }
    assert !(s[0] == '-' || s[0] == '+');
    assert !(|s| >= 2 && s[0] == '0');
    DigitPrefixOfDigits(s);
    ValueOfToDecimal(n);
    assert ParseMagnitude(s) == Some(ValueIn(DigitPrefix(s, 10), 10)) == Some(n);
  }

  /** A string with no digit after the blanks and sign parses as `NaN`. */
  lemma ParseIntNoDigits(s: string)
    requires forall i :: 0 <= i < |s| ==> !IsDigit(s[i])
    ensures ParseInt(s) == None
  {
    var t := TrimStart(s);
    var u := if |t| > 0 && (t[0] == '-' || t[0] == '+') then t[1..] else t;
    if |u| > 0 {
      assert u[0] == s[|s| - |u|];
      assert !IsDigit(u[0]);
    }
    NoLeadingDigitIsNaN(u);
  }

  /** Text that does not start with a decimal digit has no magnitude. */
  lemma NoLeadingDigitIsNaN(u: string)
    requires |u| == 0 || !IsDigit(u[0])
    ensures ParseMagnitude(u) == None
  {
    assert !(|u| >= 2 && u[0] == '0');
    assert DigitPrefix(u, 10) == "";
  }
}
