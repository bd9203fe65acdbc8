/** The sign-up form: its validation schema, how the schema relates to the
    strength meter, and the two-step navigation. */
module Signup {
  import opened Common
  import opened Password

  datatype SignUpData = SignUpData(
    name: string,
    email: string,
    password: string,
    confirmPassword: string,
    company: string,
    phone: string,
    acceptTerms: bool)

  /** The schema's checks, one per field rule, then the cross-field match. */
  datatype Rule =
    | NameLength
    | EmailFormat
    | PasswordLength
    | PasswordUpper
    | PasswordDigit
    | CompanyLength
    | PhoneFormat
    | TermsAccepted
    | PasswordsMatch

  const AllRules: seq<Rule> := [
    NameLength, EmailFormat, PasswordLength, PasswordUpper, PasswordDigit,
    CompanyLength, PhoneFormat, TermsAccepted, PasswordsMatch
  ]

  const MinNameLength: nat := 3
  const MinCompanyLength: nat := 2
  const MinPasswordLength: nat := 8

  /** A character the phone pattern allows: a digit, `+`, `-` or whitespace. */
  predicate IsPhoneChar(c: char) {
    '0' <= c <= '9' || c == '+' || c == '-' || IsJsWhitespace(c)
  }

  /** The whole phone string is one or more allowed characters. */
  predicate IsPhone(s: string) {
    |s| > 0 && forall i :: 0 <= i < |s| ==> IsPhoneChar(s[i])
  }

  /** Whether `d` passes rule `r`. The address check is the validator
      library's; its verdict is the input `emailValid`. */
  predicate Holds(d: SignUpData, emailValid: bool, r: Rule) {
    match r
    case NameLength => |d.name| >= MinNameLength
    case EmailFormat => emailValid
    case PasswordLength => |d.password| >= MinPasswordLength
    case PasswordUpper => Matches(d.password, Upper)
    case PasswordDigit => Matches(d.password, Digit)
    case CompanyLength => |d.company| >= MinCompanyLength
    case PhoneFormat => IsPhone(d.phone)
    case TermsAccepted => d.acceptTerms
    case PasswordsMatch => d.password == d.confirmPassword
  }

  /** The schema accepts `d` when every rule holds. */
  predicate Accepts(d: SignUpData, emailValid: bool) {
    forall r :: Holds(d, emailValid, r)
  }

  /** The rules among `rules` that `d` breaks, in order. */
  function Broken(d: SignUpData, emailValid: bool, rules: seq<Rule>): (r: seq<Rule>)
    ensures forall x :: x in r <==> x in rules && !Holds(d, emailValid, x)
  {
    if |rules| == 0 then []
    else (if Holds(d, emailValid, rules[0]) then [] else [rules[0]]) + Broken(d, emailValid, rules[1..])
  }

  /** Every rule is in the list the schema runs. */
  lemma AllRulesListed()
    ensures forall r :: r in AllRules
  {
    forall r ensures r in AllRules {
      match r
      case NameLength => assert AllRules[0] == r;
      case EmailFormat => assert AllRules[1] == r;
      case PasswordLength => assert AllRules[2] == r;
      case PasswordUpper => assert AllRules[3] == r;
      case PasswordDigit => assert AllRules[4] == r;
      case CompanyLength => assert AllRules[5] == r;
      case PhoneFormat => assert AllRules[6] == r;
      case TermsAccepted => assert AllRules[7] == r;
      case PasswordsMatch => assert AllRules[8] == r;
    }
  }

  /** The rules the schema reports for `d`; none exactly when it accepts. */
  function Check(d: SignUpData, emailValid: bool): (broken: seq<Rule>)
    ensures broken == [] <==> Accepts(d, emailValid)
    ensures forall r :: r in broken <==> !Holds(d, emailValid, r)
  {
    var broken := Broken(d, emailValid, AllRules);
    AllRulesListed();
    assert broken != [] ==> broken[0] in broken;
    broken
  }

  /** A password the schema accepts has at least eight characters, an
      upper-case letter and a digit, so it scores at least three and the
      meter never calls it weak. */
  lemma AcceptedPasswordNotWeak(d: SignUpData, emailValid: bool)
    requires Accepts(d, emailValid)
    ensures PasswordStrength(d.password) >= 3
    ensures LabelOf(PasswordStrength(d.password)) != Weak
  {
    assert Holds(d, emailValid, PasswordLength);
    assert Holds(d, emailValid, PasswordUpper);
    assert Holds(d, emailValid, PasswordDigit);
  }

  /** The two buttons that move between the form's steps. */
  datatype StepEvent = NextStep | PreviousStep

  /** Step 1 holds the personal details, step 2 the account details. */
  const FirstStep: nat := 1

  function OnStep(step: nat, e: StepEvent): (s: nat)
    ensures e == NextStep ==> s == 2
    ensures e == PreviousStep ==> s == 1
  {
    match e
    case NextStep => 2
    case PreviousStep => 1
  }

  /** The step after a run of button presses from the first step. */
  function Navigate(step: nat, events: seq<StepEvent>): (s: nat)
    requires step == 1 || step == 2
    ensures s == 1 || s == 2
    ensures |events| > 0 ==> s == (if events[|events| - 1] == NextStep then 2 else 1)
    ensures |events| == 0 ==> s == step
    decreases |events|
  {
    if |events| == 0 then step
    else Navigate(OnStep(step, events[0]), events[1..])
  }

  /** Step 1 renders the personal fields; every other step the account fields. */
  predicate ShowsPersonalDetails(step: nat) {
    step == 1
  }

  /** From the initial step, every run of presses leaves the form on one of
      its two steps, and the step shown is the one the last press chose. */
  lemma NavigationStaysInSteps(events: seq<StepEvent>)
    ensures var s := Navigate(FirstStep, events);
      && (s == 1 || s == 2)
      && (ShowsPersonalDetails(s) <==> |events| == 0 || events[|events| - 1] == PreviousStep)
  {
  }
}
