/** The sign-up page's password strength meter: a score from 0 to 5, one
    point per criterion met, shown as a label and five bars. */
module Password {
  import opened Common

  /** The ASCII character classes the meter's patterns test for. */
  datatype CharClass = Lower | Upper | Digit | NonAlnum

  predicate InClass(c: char, k: CharClass) {
    match k
    case Lower => 'a' <= c <= 'z'
    case Upper => 'A' <= c <= 'Z'
    case Digit => '0' <= c <= '9'
    case NonAlnum => !('a' <= c <= 'z' || 'A' <= c <= 'Z' || '0' <= c <= '9')
  }

  /** Reference definition: some character of `s` is in class `k`. */
  ghost predicate Occurs(s: string, k: CharClass) {
    exists i :: 0 <= i < |s| && InClass(s[i], k)
  }

  /** `s.match(/[k]/)` is truthy: a scan for a character of class `k`. */
  function Matches(s: string, k: CharClass): (b: bool)
    ensures b <==> Occurs(s, k)
  {
    if |s| == 0 then false
    else if InClass(s[0], k) then true
    else
      assert forall i :: 1 <= i < |s| ==> s[i] == s[1..][i - 1];
      Matches(s[1..], k)
  }

  /** The five things the meter rewards. */
  datatype Criterion = LongEnough | HasLower | HasUpper | HasDigit | HasOther

  const AllCriteria: seq<Criterion> := [LongEnough, HasLower, HasUpper, HasDigit, HasOther]

  /** The length threshold of the first criterion. */
  const MinStrongLength: nat := 8

  predicate Meets(p: string, c: Criterion) {
    match c
    case LongEnough => |p| >= MinStrongLength
    case HasLower => Matches(p, Lower)
    case HasUpper => Matches(p, Upper)
    case HasDigit => Matches(p, Digit)
    case HasOther => Matches(p, NonAlnum)
  }

  /** Reference definition: the criteria `p` meets, in the meter's order. */
  function Met(p: string, cs: seq<Criterion>): (r: seq<Criterion>)
    ensures |r| <= |cs|
    ensures forall c :: c in r <==> c in cs && Meets(p, c)
  {
    if |cs| == 0 then []
    else (if Meets(p, cs[0]) then [cs[0]] else []) + Met(p, cs[1..])
  }

  function Point(b: bool): nat {
    if b then 1 else 0
  }

  /** `passwordStrength(password)`. */
  function PasswordStrength(p: string): (n: nat)
    ensures n <= 5
    ensures p == "" ==> n == 0
    ensures n == 5 ==> forall c :: Meets(p, c)
  {
    Point(|p| >= MinStrongLength)
    + Point(Matches(p, Lower))
    + Point(Matches(p, Upper))
    + Point(Matches(p, Digit))
    + Point(Matches(p, NonAlnum))
  }

  /** The score is the number of criteria met. */
  lemma StrengthCountsCriteria(p: string)
    ensures PasswordStrength(p) == |Met(p, AllCriteria)|
  {
    var cs := AllCriteria;
    MetFirst(p, cs);
    MetFirst(p, cs[1..]);
    MetFirst(p, cs[2..]);
    MetFirst(p, cs[3..]);
    MetFirst(p, cs[4..]);
    assert cs[1..][1..] == cs[2..] && cs[2..][1..] == cs[3..] && cs[3..][1..] == cs[4..] && cs[4..][1..] == [];
  }

  lemma MetFirst(p: string, cs: seq<Criterion>)
    requires |cs| > 0
    ensures |Met(p, cs)| == Point(Meets(p, cs[0])) + |Met(p, cs[1..])|
  {
  }

  /** Each criterion, once met, stays met as the password grows. */
  lemma MeetsExtend(p: string, q: string, c: Criterion)
    requires Meets(p, c)
    ensures Meets(p + q, c)
  {
    if c != LongEnough {
      var k := match c
        case HasLower => Lower
        case HasUpper => Upper
        case HasDigit => Digit
        case _ => NonAlnum;
      var i :| 0 <= i < |p| && InClass(p[i], k);
      assert (p + q)[i] == p[i];
    }
  }

  /** Typing more never lowers the score. */
  lemma StrengthMonotone(p: string, q: string)
    ensures PasswordStrength(p) <= PasswordStrength(p + q)
  {
    forall c | Meets(p, c) ensures Meets(p + q, c) {
      MeetsExtend(p, q, c);
    }
    assert Meets(p, LongEnough) ==> Meets(p + q, LongEnough);
    assert Meets(p, HasLower) ==> Meets(p + q, HasLower);
    assert Meets(p, HasUpper) ==> Meets(p + q, HasUpper);
    assert Meets(p, HasDigit) ==> Meets(p + q, HasDigit);
    assert Meets(p, HasOther) ==> Meets(p + q, HasOther);
  }

  /** The caption under the bars. */
  datatype Label = Weak | Medium | Strong

  function LabelOf(strength: nat): (l: Label)
    ensures l == Weak <==> strength <= 2
    ensures l == Medium <==> strength == 3
    ensures l == Strong <==> strength >= 4
  {
    if strength <= 2 then Weak
    else if strength <= 3 then Medium
    else Strong
  }

  /** The caption's text: "weak", "medium", "strong". */
  function LabelText(l: Label): string {
    match l
    case Weak => "ضعيفة"
    case Medium => "متوسطة"
    case Strong => "قوية"
  }

  /** A bar's colour: filled in the label's colour, or empty. */
  datatype BarColour = Danger | Warning | Success | Unfilled

  /** The colour a filled bar takes for a label. */
  function ColourOf(l: Label): (c: BarColour)
    ensures c != Unfilled
  {
    match l
    case Weak => Danger
    case Medium => Warning
    case Strong => Success
  }

  const BarCount: nat := 5

  /** The five bars for a score: bar `i` is filled when `i` is below the
      score, in the colour of the score's label. */
  function Bars(strength: nat): (bars: seq<BarColour>)
    ensures |bars| == BarCount
    ensures forall i :: 0 <= i < BarCount ==> (bars[i] != Unfilled <==> i < strength)
    ensures forall i :: 0 <= i < BarCount && i < strength ==> bars[i] == ColourOf(LabelOf(strength))
  {
    var colour := ColourOf(LabelOf(strength));
    seq(BarCount, i => if i < strength then colour else Unfilled)
  }

  /** The number of filled bars. */
  function Filled(bars: seq<BarColour>): nat {
    if |bars| == 0 then 0 else Point(bars[0] != Unfilled) + Filled(bars[1..])
  }

  lemma {:induction false} FilledPrefix(bars: seq<BarColour>, n: nat)
    requires n <= |bars|
    requires forall i :: 0 <= i < |bars| ==> (bars[i] != Unfilled <==> i < n)
    ensures Filled(bars) == n
  {
    if |bars| > 0 {
      var rest := bars[1..];
      if n == 0 {
        FilledPrefix(rest, 0);
      } else {
        assert forall i :: 0 <= i < |rest| ==> (rest[i] != Unfilled <==> i < n - 1) by {
          forall i | 0 <= i < |rest| ensures rest[i] != Unfilled <==> i < n - 1 {
            assert rest[i] == bars[i + 1];
          }
        }
        FilledPrefix(rest, n - 1);
      }
    }
  }

  /** As many bars are filled as the score, for every password. */
  lemma FilledBarsEqualStrength(p: string)
    ensures Filled(Bars(PasswordStrength(p))) == PasswordStrength(p)
  {
    FilledPrefix(Bars(PasswordStrength(p)), PasswordStrength(p));
  }

  /** The bars, the caption and the caption's text. */
  datatype Indicator = Indicator(bars: seq<BarColour>, caption: Label, text: string)

  /** The meter under the password field, shown only once something is typed. */
  function MeterFor(p: string): (m: Option<Indicator>)
    ensures m.None? <==> p == ""
    ensures m.Some? ==> Filled(m.value.bars) == PasswordStrength(p)
    ensures m.Some? ==> m.value.caption == LabelOf(PasswordStrength(p)) && m.value.text == LabelText(m.value.caption)
  {
    if p == "" then None
    else
      FilledBarsEqualStrength(p);
      var n := PasswordStrength(p);
      Some(Indicator(Bars(n), LabelOf(n), LabelText(LabelOf(n))))
  }
}
