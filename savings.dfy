/** The savings calculator of app/tool/page-csr.tsx: five fixed formulas, each turning
    one numeric answer into a rounded dollar figure, and their total over the text
    inputs of the page. Arithmetic is exact (`real`), with `Round` standing for
    `Math.round`. */
module Savings {
  import opened Wrappers
  import opened Decimal
  import Strings

  // ---------------------------------------------------------------- Number(text)

  /** The ASCII white space that `Number` strips from both ends. */
  predicate IsJsSpace(c: char) {
    c == ' ' || c == '\t' || c == '\n' || c == '\r' || c as int == 11 || c as int == 12
  }

  function TrimStart(s: string): string
    decreases |s|
  {
    if s != [] && IsJsSpace(s[0]) then TrimStart(s[1..]) else s
  }

  function TrimEnd(s: string): string
    decreases |s|
  {
    if s != [] && IsJsSpace(s[|s| - 1]) then TrimEnd(s[..|s| - 1]) else s
  }

  function Pow10(n: nat): (r: real)
    ensures r >= 1.0
  {
    if n == 0 then 1.0 else 10.0 * Pow10(n - 1)
  }

  /** The position of the first exponent marker, 'e' or 'E', or `|s|`. */
  function ExponentAt(s: string): (k: nat)
    ensures k <= |s|
    ensures forall i :: 0 <= i < k ==> s[i] != 'e' && s[i] != 'E'
    ensures k < |s| ==> s[k] == 'e' || s[k] == 'E'
  {
    if s == [] || s[0] == 'e' || s[0] == 'E' then 0 else 1 + ExponentAt(s[1..])
  }

  /** Digits, optionally a point and more digits, with at least one digit in all. */
  function ParseMantissa(m: string): Option<real> {
    var d := Strings.IndexOf(m, '.');
    var whole, frac := m[..d], if d < |m| then m[d + 1..] else "";
    if AllDigits(whole) && AllDigits(frac) && |whole| + |frac| > 0
    then Some(DigitsValue(whole) as real + DigitsValue(frac) as real / Pow10(|frac|))
    else None
  }

  /** An optionally signed, non-empty run of digits. */
  function ParseExponent(x: string): Option<int> {
    var neg := x != [] && x[0] == '-';
    var digits := if x != [] && (x[0] == '-' || x[0] == '+') then x[1..] else x;
    if digits != [] && AllDigits(digits)
    then var d: int := DigitsValue(digits); Some(if neg then -d else d)
    else None
  }

  function ParseUnsigned(b: string): Option<real> {
    var k := ExponentAt(b);
    match ParseMantissa(b[..k])
    case None => None
    case Some(m) =>
      if k == |b| then Some(m)
      else match ParseExponent(b[k + 1..])
        case None => None
        case Some(e) => Some(if e >= 0 then m * Pow10(e) else m / Pow10(-e))
  }

  /** JavaScript's `Number(text)` on decimal text, `None` standing for NaN: blank text is
      0; otherwise an optional sign, a decimal mantissa and an optional exponent. */
  function ParseNumber(text: string): Option<real> {
    var t := TrimEnd(TrimStart(text));
    if t == [] then Some(0.0)
    else if t[0] == '-' then
      match ParseUnsigned(t[1..]) case None => None case Some(x) => Some(-x)
    else if t[0] == '+' then ParseUnsigned(t[1..])
    else ParseUnsigned(t)
  }

  /** `Number(text) || 0`: NaN becomes 0 (and a zero result is 0 anyway). */
  function NumberOrZero(text: string): real {
    match ParseNumber(text)
    case None => 0.0
    case Some(x) => x
  }

  // ---------------------------------------------------------------- formulas

  /** `Math.round`: the nearest integer, halves rounded up. */
  function Round(x: real): (r: int)
    ensures r as real - 0.5 <= x < r as real + 0.5
  {
    (x + 0.5).Floor
  }

  function CustomerServiceSavings(value: real): int {
    Round(value * 0.7)
  }

  function ReceptionistSavings(value: real): int {
    var missedCalls := Round(value * 0.25);
    var potentialRevenue := missedCalls * 100;
    potentialRevenue
  }

  function AppointmentSetterSavings(value: real): int {
    var avgDealValue := 1000.0;
    var currentConversionRate := 0.04;
    var aiConversionRate := 0.21;
    var currentRevenue := value * currentConversionRate * avgDealValue;
    var potentialRevenue := value * aiConversionRate * avgDealValue;
    Round(potentialRevenue - currentRevenue)
  }

  /** `salary` is `Number(onboardingSalary) || 0`; the formula falls back to 4000 when
      it is 0. */
  function OnboardingSalary(salary: real): real {
    if salary == 0.0 then 4000.0 else salary
  }

  /** The monthly saving of onboarding, before the yearly total is rounded. */
  function OnboardingMonthlySavings(value: real, salary: real): real {
    var onboardingSalary := OnboardingSalary(salary);
    var onboardingTimeReduction := 0.90;
    var oldOnboardingTimeHours := 20.0;
    var newOnboardingTimeHours := oldOnboardingTimeHours * (1.0 - onboardingTimeReduction);
    var hourlyRate := onboardingSalary / 160.0;
    var currentMonthlyCost := value * oldOnboardingTimeHours * hourlyRate;
    var newMonthlyCost := value * newOnboardingTimeHours * hourlyRate;
    currentMonthlyCost - newMonthlyCost
  }

  function OnboardingSavings(value: real, salary: real): int {
    Round(OnboardingMonthlySavings(value, salary) * 12.0)
  }

  function WorkflowSavings(value: real): int {
    var hourlyRate := 50.0;
    var errorCostMultiplier := 200.0;
    var currentErrorRate := 0.15;
    var currentLaborCost := value * hourlyRate;
    var currentErrorCost := (value * currentErrorRate) * errorCostMultiplier;
    var totalCurrentCost := currentLaborCost + currentErrorCost;
    var aiHours := value * 0.3;
    var aiLaborCost := aiHours * hourlyRate;
    var aiErrorCost := (aiHours * (currentErrorRate * 0.1)) * errorCostMultiplier;
    var totalAiCost := aiLaborCost + aiErrorCost;
    var monthlySavings := totalCurrentCost - totalAiCost;
    Round(monthlySavings * 12.0)
  }

  // ---------------------------------------------------------------- the page

  /** The page's text inputs, keyed by input id. */
  type Values = map<string, string>

  function InitialValues(): Values {
    map["customerService" := "", "virtualReceptionist" := "", "appointmentSetter" := "",
        "onboarding" := "", "onboardingSalary" := "", "workflow" := ""]
  }

  /** handleInputChange: a fresh record with key `id` set to `value`. */
  function HandleInputChange(values: Values, id: string, value: string): (r: Values)
    ensures r.Keys == values.Keys + {id} && r[id] == value
    ensures forall k :: k in values && k != id ==> r[k] == values[k]
  {
    values[id := value]
  }

  /** `Number(values[id]) || 0`; a missing key reads as `undefined`, which is NaN. */
  function Input(values: Values, id: string): real {
    if id in values then NumberOrZero(values[id]) else 0.0
  }

  datatype Section = CustomerService | VirtualReceptionist | AppointmentSetter | Onboarding | Workflow

  /** The sections in the order of the `sections` array. */
  const Sections: seq<Section> :=
    [CustomerService, VirtualReceptionist, AppointmentSetter, Onboarding, Workflow]

  function SectionId(sec: Section): string {
    match sec
    case CustomerService => "customerService"
    case VirtualReceptionist => "virtualReceptionist"
    case AppointmentSetter => "appointmentSetter"
    case Onboarding => "onboarding"
    case Workflow => "workflow"
  }

  /** One section's `calculation(value, additionalValues).savings`. */
  function SectionSavings(sec: Section, values: Values): int {
    var value := Input(values, SectionId(sec));
    match sec
    case CustomerService => CustomerServiceSavings(value)
    case VirtualReceptionist => ReceptionistSavings(value)
    case AppointmentSetter => AppointmentSetterSavings(value)
    case Onboarding => OnboardingSavings(value, Input(values, "onboardingSalary"))
    case Workflow => WorkflowSavings(value)
  }

  /** The `reduce` that adds the sections' savings in order. */
  function SumSavings(secs: seq<Section>, values: Values, total: int): int
    decreases |secs|
  {
    if secs == [] then total
    else SumSavings(secs[1..], values, total + SectionSavings(secs[0], values))
  }

  function TotalSavings(values: Values): int {
    SumSavings(Sections, values, 0)
  }

  // ---------------------------------------------------------------- properties

  lemma RoundMonotone(x: real, y: real)
    requires x <= y
    ensures Round(x) <= Round(y)
  {
  }

  lemma RoundNonNegative(x: real)
    requires x >= 0.0
    ensures Round(x) >= 0
  {
  }

  lemma RoundOfInt(n: int)
    ensures Round(n as real) == n
  {
  }

  /** Virtual receptionist savings are always a whole number of $100 leads. */
  lemma ReceptionistMultipleOf100(value: real)
    ensures ReceptionistSavings(value) % 100 == 0
    ensures ReceptionistSavings(value) == 100 * Round(0.25 * value)
  {
  }

  /** The appointment-setter formula is 170 dollars per lead, rounded. */
  lemma AppointmentSetterClosedForm(value: real)
    ensures AppointmentSetterSavings(value) == Round(170.0 * value)
  {
    assert value * 0.21 * 1000.0 - value * 0.04 * 1000.0 == 170.0 * value;
  }

  /** Onboarding saves 18 of 20 hours per client at `salary / 160` an hour, for twelve
      months; with the default salary of 4000 that is 5400 dollars per client. */
  lemma OnboardingClosedForm(value: real, salary: real)
    ensures OnboardingSavings(value, salary) == Round(1.35 * value * OnboardingSalary(salary))
    ensures salary == 0.0 ==> OnboardingSavings(value, salary) == Round(5400.0 * value)
  {
    var h := OnboardingSalary(salary) / 160.0;
    var vh := value * h;
    assert value * 20.0 * h == 20.0 * vh;
    assert value * (20.0 * (1.0 - 0.90)) * h == 2.0 * vh;
    assert OnboardingMonthlySavings(value, salary) == 18.0 * vh;
    assert OnboardingMonthlySavings(value, salary) * 12.0 == 1.35 * value * OnboardingSalary(salary);
  }

  /** Workflow automation saves 769.2 dollars a year per monthly manual hour. */
  lemma WorkflowClosedForm(value: real)
    ensures WorkflowSavings(value) == Round(769.2 * value)
  {
    var aiHours := value * 0.3;
    assert (value * 50.0 + (value * 0.15) * 200.0)
           - (aiHours * 50.0 + (aiHours * (0.15 * 0.1)) * 200.0) == 64.1 * value;
  }

  /** Non-negative answers (and a non-negative salary) give non-negative savings. */
  lemma SavingsNonNegative(value: real, salary: real)
    requires value >= 0.0 && salary >= 0.0
    ensures CustomerServiceSavings(value) >= 0 && ReceptionistSavings(value) >= 0
    ensures AppointmentSetterSavings(value) >= 0 && WorkflowSavings(value) >= 0
    ensures OnboardingSavings(value, salary) >= 0
  {
    AppointmentSetterClosedForm(value);
    WorkflowClosedForm(value);
    OnboardingClosedForm(value, salary);
    assert 1.35 * value * OnboardingSalary(salary) >= 0.0;
  }

  /** The total is the sum of the five sections' savings. */
  lemma TotalIsSumOfSections(values: Values)
    ensures TotalSavings(values)
            == CustomerServiceSavings(Input(values, "customerService"))
               + ReceptionistSavings(Input(values, "virtualReceptionist"))
               + AppointmentSetterSavings(Input(values, "appointmentSetter"))
               + OnboardingSavings(Input(values, "onboarding"), Input(values, "onboardingSalary"))
               + WorkflowSavings(Input(values, "workflow"))
  {
    assert Sections[1..][1..][1..][1..][1..] == [];
  }

  /** Every answer 0 (or blank, or not a number) gives a total of 0. */
  lemma ZeroInputsZeroTotal(values: Values)
    requires forall sec :: sec in Sections ==> Input(values, SectionId(sec)) == 0.0
    ensures TotalSavings(values) == 0
  {
    TotalIsSumOfSections(values);
    assert Input(values, "customerService") == 0.0 by {
      assert Sections[0] == CustomerService;
    }
    assert Input(values, "virtualReceptionist") == 0.0 by {
      assert Sections[1] == VirtualReceptionist;
    }
    assert Input(values, "appointmentSetter") == 0.0 by {
      assert Sections[2] == AppointmentSetter;
    }
    assert Input(values, "onboarding") == 0.0 by {
      assert Sections[3] == Onboarding;
    }
    assert Input(values, "workflow") == 0.0 by {
      assert Sections[4] == Workflow;
    }
    AppointmentSetterClosedForm(0.0);
    WorkflowClosedForm(0.0);
    OnboardingClosedForm(0.0, Input(values, "onboardingSalary"));
    RoundOfInt(0);
  }

  /** Blank text reads as 0, so the page starts with a total of 0. */
  lemma InitialTotalIsZero()
    ensures TotalSavings(InitialValues()) == 0
  {
    assert ParseNumber("") == Some(0.0);
    ZeroInputsZeroTotal(InitialValues());
  }

  /** Non-negative answers give a non-negative total. */
  lemma TotalNonNegative(values: Values)
    requires forall id :: id in values ==> NumberOrZero(values[id]) >= 0.0
    ensures TotalSavings(values) >= 0
  {
    TotalIsSumOfSections(values);
    SavingsNonNegative(Input(values, "customerService"), 0.0);
    SavingsNonNegative(Input(values, "virtualReceptionist"), 0.0);
    SavingsNonNegative(Input(values, "appointmentSetter"), 0.0);
    SavingsNonNegative(Input(values, "onboarding"), Input(values, "onboardingSalary"));
    SavingsNonNegative(Input(values, "workflow"), 0.0);
  }

  /** Editing an input the sections do not read leaves the total alone. */
  lemma UnrelatedInputKeepsTotal(values: Values, id: string, value: string)
    requires id !in {"customerService", "virtualReceptionist", "appointmentSetter",
                     "onboarding", "onboardingSalary", "workflow"}
    ensures TotalSavings(HandleInputChange(values, id, value)) == TotalSavings(values)
  {
    var r := HandleInputChange(values, id, value);
    TotalIsSumOfSections(values);
    TotalIsSumOfSections(r);
    assert Input(r, "customerService") == Input(values, "customerService");
    assert Input(r, "virtualReceptionist") == Input(values, "virtualReceptionist");
    assert Input(r, "appointmentSetter") == Input(values, "appointmentSetter");
    assert Input(r, "onboarding") == Input(values, "onboarding");
    assert Input(r, "onboardingSalary") == Input(values, "onboardingSalary");
    assert Input(r, "workflow") == Input(values, "workflow");
  }

  /** A printable ASCII character that no text `Number` accepts can hold: not a digit,
      a sign, a point or white space, and no letter of an exponent, of a hexadecimal,
      octal or binary literal, or of `Infinity`. */
  predicate NeverNumeric(c: char) {
    && '!' <= c <= '~'
    && !IsDigit(c) && c !in "+-."
    && !('a' <= c <= 'f') && !('A' <= c <= 'F')
    && c !in "xXoObBIinfty"
  }

  lemma {:induction false} TrimStartKeeps(s: string, c: char)
    requires c in s && !IsJsSpace(c)
    ensures c in TrimStart(s)
    decreases |s|
  {
    if s != [] && IsJsSpace(s[0]) {
      assert s == [s[0]] + s[1..];
      TrimStartKeeps(s[1..], c);
    }
  }

  lemma {:induction false} TrimEndKeeps(s: string, c: char)
    requires c in s && !IsJsSpace(c)
    ensures c in TrimEnd(s)
    decreases |s|
  {
    if s != [] && IsJsSpace(s[|s| - 1]) {
      assert s == s[..|s| - 1] + [s[|s| - 1]];
      TrimEndKeeps(s[..|s| - 1], c);
    }
  }

  lemma MantissaRejects(m: string, c: char)
    requires c in m && NeverNumeric(c)
    ensures ParseMantissa(m).None?
  {
    var d := Strings.IndexOf(m, '.');
    var i :| 0 <= i < |m| && m[i] == c;
    if i < d {
      assert m[..d][i] == c;
    } else {
      assert i != d;
      assert m[d + 1..][i - d - 1] == c;
    }
  }

  lemma ExponentRejects(x: string, c: char)
    requires c in x && NeverNumeric(c)
    ensures ParseExponent(x).None?
  {
    var i :| 0 <= i < |x| && x[i] == c;
    if x[0] == '-' || x[0] == '+' {
      assert x[1..][i - 1] == c;
    }
  }

  lemma UnsignedRejects(b: string, c: char)
    requires c in b && NeverNumeric(c)
    ensures ParseUnsigned(b).None?
  {
    var k := ExponentAt(b);
    var i :| 0 <= i < |b| && b[i] == c;
    if i < k {
      assert b[..k][i] == c;
      MantissaRejects(b[..k], c);
    } else if ParseMantissa(b[..k]).Some? {
      assert i != k;
      assert b[k + 1..][i - k - 1] == c;
      ExponentRejects(b[k + 1..], c);
    }
  }

  /** Text holding a character no number can contain (a currency sign, a comma, a
      unit such as "px") is NaN for `Number`, and so counts as 0. */
  lemma NonNumericIsZero(text: string, c: char)
    requires c in text && NeverNumeric(c)
    ensures ParseNumber(text).None?
    ensures NumberOrZero(text) == 0.0
  {
    TrimStartKeeps(text, c);
    TrimEndKeeps(TrimStart(text), c);
    var t := TrimEnd(TrimStart(text));
    if t[0] == '-' || t[0] == '+' {
      var i :| 0 <= i < |t| && t[i] == c;
      assert t[1..][i - 1] == c;
      UnsignedRejects(t[1..], c);
    } else {
      UnsignedRejects(t, c);
    }
  }

  lemma {:induction false} TrimStartBlank(s: string)
    requires forall i :: 0 <= i < |s| ==> IsJsSpace(s[i])
    ensures TrimStart(s) == []
    decreases |s|
  {
    if s != [] {
      TrimStartBlank(s[1..]);
    }
  }

  /** Empty or all-white-space text reads as 0. */
  lemma BlankIsZero(text: string)
    requires forall i :: 0 <= i < |text| ==> IsJsSpace(text[i])
    ensures ParseNumber(text) == Some(0.0)
    ensures NumberOrZero(text) == 0.0
  {
    TrimStartBlank(text);
  }

  lemma BareSignIsNaN()
    ensures ParseNumber("-").None?
  {
  }

  lemma BarePointIsNaN()
    ensures ParseNumber(".").None?
  {
  }

  lemma EmptyExponentIsNaN()
    ensures ParseNumber("1e").None?
  {
  }

  lemma SecondPointIsNaN()
    ensures ParseNumber("1.2.3").None?
  {
    var t := "1.2.3";
    assert TrimStart(t) == t && TrimEnd(t) == t;
    assert ExponentAt(t) == 5 && t[..5] == t;
    assert Strings.IndexOf(t, '.') == 1;
    assert t[2..][1] == '.';
  }

  /** Text made of number characters can still be NaN: a bare sign, a bare point, an
      exponent without digits, a second point. Each counts as 0. */
  lemma MalformedNumbersAreZero()
    ensures NumberOrZero("-") == 0.0 && NumberOrZero(".") == 0.0
    ensures NumberOrZero("1e") == 0.0 && NumberOrZero("1.2.3") == 0.0
  {
    BareSignIsNaN();
    BarePointIsNaN();
    EmptyExponentIsNaN();
    SecondPointIsNaN();
  }

  lemma TrimDigits(s: string)
    requires s != [] && AllDigits(s)
    ensures TrimEnd(TrimStart(s)) == s
  {
    assert TrimStart(s) == s;
    assert !IsJsSpace(s[|s| - 1]);
  }

  /** A plain decimal numeral, as a number input delivers it, reads as its value. */
  lemma ParseNumeral(n: nat)
    ensures ParseNumber(NatToString(n)) == Some(n as real)
  {
    var s := NatToString(n);
    TrimDigits(s);
    NonDigitNotIn(s, '.');
    Strings.IndexOfAbsent(s, '.');
    assert ExponentAt(s) == |s|;
    assert s[..|s|] == s;
    DigitsValueOfNatToString(n);
    assert ParseMantissa(s) == Some(n as real);
    assert ParseUnsigned(s) == Some(n as real);
    assert IsDigit(s[0]);
  }

  /** A minus sign in front negates the value. */
  lemma ParseNegativeNumeral(n: nat)
    ensures ParseNumber("-" + NatToString(n)) == Some(-(n as real))
  {
    var s := NatToString(n);
    var t := "-" + s;
    assert TrimStart(t) == t;
    assert t[|t| - 1] == s[|s| - 1];
    assert TrimEnd(t) == t;
    assert t[1..] == s;
    ParseNumeral(n);
    TrimDigits(s);
  }
}
