/** The AI-assessment lead form of app/ai-assessment/page-csr.tsx: its required-field
    gate, the industry that is sent, the AI-agent checkbox toggle, the per-agent count
    record, and the three `<select>`s, each of which accepts a value only when it is
    on a fixed list. The form state is the record `Form`, every handler a function on
    it, and the class `AssessmentPage` performs those updates in place together with
    the submit handler of module Submission. */
module AssessmentForm {
  import Submission

  const Industries: seq<string> :=
    ["Technology", "Healthcare", "Finance", "Retail", "Education",
     "Real Estate", "Manufacturing", "Entertainment", "Hospitality",
     "Transportation", "Construction", "Other", ""]

  const CompanySizes: seq<string> := ["Small", "Medium", "Large", ""]

  const CRMSystems: seq<string> :=
    ["HubSpot", "Salesforce", "GoHighLevel", "Jobber",
     "Bitrix24", "Zoho", "Close", "Pipedrive", "Other", ""]

  predicate IsIndustry(v: string) { v in Industries }
  predicate IsCompanySize(v: string) { v in CompanySizes }
  predicate IsCRMSystem(v: string) { v in CRMSystems }

  /** The values of the industry `<option>`s the page renders, in order, leaving
      out the disabled placeholder; the page repeats some entries. They are kept in
      groups of ten so that each group can be checked against `Industries` alone. */
  const IndustryOptions1: seq<string> :=
    ["service_industries", "real_estate", "clinics", "spas", "salons", "enterprises",
     "law_firms", "solar_energy", "logistics", "marketing_agencies"]
  const IndustryOptions2: seq<string> :=
    ["advertising_agencies", "digital_marketing", "financial_services", "insurance",
     "education_services", "medical_services", "health_and_wellness",
     "event_management", "travel_agencies", "hospitality_services"]
  const IndustryOptions3: seq<string> :=
    ["tourism", "construction_services", "real_estate_agents", "property_management",
     "automotive_services", "home_services", "cleaning_services", "personal_training",
     "coaching_services", "consulting_services"]
  const IndustryOptions4: seq<string> :=
    ["it_services", "cybersecurity", "software_development", "web_design",
     "app_development", "business_services", "transportation_services",
     "retail_services", "ecommerce", "financial_advisors"]
  const IndustryOptions5: seq<string> :=
    ["accounting_services", "tax_services", "marketing_services", "branding_services",
     "public_relations", "customer_support", "virtual_assistants",
     "photography_services", "videography_services", "graphic_design"]
  const IndustryOptions6: seq<string> :=
    ["copywriting", "translation_services", "it_support", "cleaning_services",
     "real_estate_development", "home_improvement", "pool_services", "pest_control",
     "security_services", "hr_services"]
  const IndustryOptions7: seq<string> :=
    ["staffing_agencies", "engineering_services", "architecture_services",
     "graphic_design", "photography_services", "videography_services",
     "business_coaching", "professional_services", "Other"]

  const RenderedIndustries: seq<string> :=
    IndustryOptions1 + IndustryOptions2 + IndustryOptions3 + IndustryOptions4
    + IndustryOptions5 + IndustryOptions6 + IndustryOptions7

  /** The company-size `<option>` values, leaving out the disabled placeholder. */
  const RenderedCompanySizes: seq<string> :=
    ["Small (1-50 employees)", "Medium (51-200 employees)", "Large (200+ employees)"]

  /** The CRM `<option>` values, including the selectable blank first entry. */
  const RenderedCRMs: seq<string> :=
    ["", "HubSpot", "Salesforce", "GoHighLevel", "Jobber", "Bitrix24", "Zoho",
     "Close", "Pipedrive", "Other"]

  /** The six plain text inputs whose values the submit handler reads. */
  datatype TextField = FirstName | LastName | Email | Phone | CompanyName | OtherIndustry

  datatype Form = Form(
    firstName: string,
    lastName: string,
    email: string,
    phone: string,
    companyName: string,
    industry: string,
    otherIndustry: string,
    showOtherIndustry: bool,
    companySize: string,
    crmSystem: string,
    selectedAIAgents: seq<string>,
    agentsRequired: map<string, string>)

  function InitForm(): (f: Form)
    ensures f.industry == "" && f.companySize == "" && f.crmSystem == ""
    ensures !f.showOtherIndustry && f.selectedAIAgents == [] && f.agentsRequired == map[]
    ensures forall g :: GetText(f, g) == ""
    ensures FormInv(f)
  {
    Form("", "", "", "", "", "", "", false, "", "", [], map[])
  }

  /** What the selects can leave in the form, and the agent list has no repeats. */
  ghost predicate FormInv(f: Form) {
    && IsIndustry(f.industry)
    && IsCompanySize(f.companySize)
    && IsCRMSystem(f.crmSystem)
    && (f.showOtherIndustry <==> f.industry == "Other")
    && NoDuplicates(f.selectedAIAgents)
  }

  ghost predicate NoDuplicates(s: seq<string>) {
    forall i, j :: 0 <= i < j < |s| ==> s[i] != s[j]
  }

  /** The industry that is sent: the free text when "Other" is chosen. */
  function FinalIndustry(industry: string, otherIndustry: string): string {
    if industry == "Other" then otherIndustry else industry
  }

  /** The gate at the top of handleSubmit: none of the seven values may be blank. */
  predicate Complete(f: Form) {
    !(f.firstName == "" || f.lastName == "" || f.email == "" || f.phone == ""
      || FinalIndustry(f.industry, f.otherIndustry) == "" || f.companyName == ""
      || f.companySize == "")
  }

  function GetText(f: Form, field: TextField): string {
    match field
    case FirstName => f.firstName
    case LastName => f.lastName
    case Email => f.email
    case Phone => f.phone
    case CompanyName => f.companyName
    case OtherIndustry => f.otherIndustry
  }

  /** An `onChange={(e) => setX(e.target.value)}` text input. */
  function SetText(f: Form, field: TextField, v: string): (r: Form)
    ensures GetText(r, field) == v
    ensures forall g :: g != field ==> GetText(r, g) == GetText(f, g)
    ensures r.(firstName := f.firstName, lastName := f.lastName, email := f.email,
               phone := f.phone, companyName := f.companyName,
               otherIndustry := f.otherIndustry) == f
  {
    match field
    case FirstName => f.(firstName := v)
    case LastName => f.(lastName := v)
    case Email => f.(email := v)
    case Phone => f.(phone := v)
    case CompanyName => f.(companyName := v)
    case OtherIndustry => f.(otherIndustry := v)
  }

  /** The industry select: an accepted value is stored, and the free-text input is
      shown exactly for "Other". */
  function SelectIndustry(f: Form, v: string): Form {
    if IsIndustry(v) then f.(industry := v, showOtherIndustry := v == "Other") else f
  }

  function SelectCompanySize(f: Form, v: string): Form {
    if IsCompanySize(v) then f.(companySize := v) else f
  }

  function SelectCRM(f: Form, v: string): Form {
    if IsCRMSystem(v) then f.(crmSystem := v) else f
  }

  /** `filter((item) => item !== agent)`: every occurrence removed, order kept
      (`RemoveAllAppend`). */
  function RemoveAll(s: seq<string>, a: string): (r: seq<string>)
    ensures |r| <= |s|
    ensures forall x :: x in r <==> x in s && x != a
    ensures forall x :: x != a ==> multiset(r)[x] == multiset(s)[x]
    decreases |s|
  {
    if s == [] then []
    else
      var rest := RemoveAll(s[..|s| - 1], a);
      assert s == s[..|s| - 1] + [s[|s| - 1]];
      if s[|s| - 1] == a then rest else rest + [s[|s| - 1]]
  }

  /** handleAIAgentChange: drop a present agent, append an absent one. */
  function ToggleAgent(s: seq<string>, a: string): seq<string> {
    if a in s then RemoveAll(s, a) else s + [a]
  }

  /** handleAgentsRequiredChange: `{ ...prev, [agent]: value }`. */
  function SetAgentsRequired(m: map<string, string>, a: string, v: string): (r: map<string, string>)
    ensures r.Keys == m.Keys + {a} && r[a] == v
    ensures forall k :: k in m && k != a ==> r[k] == m[k]
  {
    m[a := v]
  }

  datatype Event =
    | TextInput(field: TextField, value: string)
    | IndustryChange(value: string)
    | CompanySizeChange(value: string)
    | CRMChange(value: string)
    | AIAgentChange(agent: string)
    | AgentsRequiredChange(agent: string, value: string)

  function Step(f: Form, e: Event): Form {
    match e
    case TextInput(field, v) => SetText(f, field, v)
    case IndustryChange(v) => SelectIndustry(f, v)
    case CompanySizeChange(v) => SelectCompanySize(f, v)
    case CRMChange(v) => SelectCRM(f, v)
    case AIAgentChange(a) => f.(selectedAIAgents := ToggleAgent(f.selectedAIAgents, a))
    case AgentsRequiredChange(a, v) => f.(agentsRequired := SetAgentsRequired(f.agentsRequired, a, v))
  }

  function Run(f: Form, es: seq<Event>): Form
    decreases |es|
  {
    if es == [] then f else Run(Step(f, es[0]), es[1..])
  }

  /** The events the rendered page can deliver: a select only reports one of its own
      option values (the disabled placeholders included), and the per-agent count
      inputs are commented out of the page. */
  predicate Deliverable(e: Event) {
    match e
    case IndustryChange(v) => v in RenderedIndustries || v == ""
    case CompanySizeChange(v) => v in RenderedCompanySizes || v == ""
    case CRMChange(v) => v in RenderedCRMs
    case AgentsRequiredChange(_, _) => false
    case _ => true
  }

  // ---------------------------------------------------------------- properties

  /** The industry sent is blank exactly when nothing usable was entered: no
      industry, or "Other" with a blank free text. */
  lemma FinalIndustrySpec(industry: string, otherIndustry: string)
    ensures industry == "Other" ==> FinalIndustry(industry, otherIndustry) == otherIndustry
    ensures industry != "Other" ==> FinalIndustry(industry, otherIndustry) == industry
    ensures FinalIndustry(industry, otherIndustry) == ""
            <==> industry == "" || (industry == "Other" && otherIndustry == "")
  {
  }

  /** The form passes the gate exactly when each of the five text answers, the
      company size and the industry sent are all non-blank. */
  lemma CompleteSpec(f: Form)
    ensures Complete(f) <==>
              && (forall g :: g != OtherIndustry ==> GetText(f, g) != "")
              && FinalIndustry(f.industry, f.otherIndustry) != ""
              && f.companySize != ""
  {
    if !Complete(f) {
      if f.firstName == "" { assert GetText(f, FirstName) == ""; }
      if f.lastName == "" { assert GetText(f, LastName) == ""; }
      if f.email == "" { assert GetText(f, Email) == ""; }
      if f.phone == "" { assert GetText(f, Phone) == ""; }
      if f.companyName == "" { assert GetText(f, CompanyName) == ""; }
    }
  }

  /** A select accepts a value exactly when it is on the select's list; a rejected
      value leaves the whole form as it was. */
  lemma SelectSpec(f: Form, v: string)
    ensures IsIndustry(v) ==> SelectIndustry(f, v).industry == v
                              && (SelectIndustry(f, v).showOtherIndustry <==> v == "Other")
    ensures !IsIndustry(v) ==> SelectIndustry(f, v) == f
    ensures SelectIndustry(f, v).(industry := f.industry, showOtherIndustry := f.showOtherIndustry) == f
    ensures IsCompanySize(v) ==> SelectCompanySize(f, v) == f.(companySize := v)
    ensures !IsCompanySize(v) ==> SelectCompanySize(f, v) == f
    ensures IsCRMSystem(v) ==> SelectCRM(f, v) == f.(crmSystem := v)
    ensures !IsCRMSystem(v) ==> SelectCRM(f, v) == f
  {
  }

  /** After a toggle the agent is selected exactly when it was not before; no other
      agent's membership changes. */
  lemma ToggleMembership(s: seq<string>, a: string)
    ensures a in ToggleAgent(s, a) <==> a !in s
    ensures forall x :: x != a ==> (x in ToggleAgent(s, a) <==> x in s)
  {
  }

  /** Removing an agent that is not there changes nothing. */
  lemma {:induction false} RemoveAbsent(s: seq<string>, a: string)
    requires a !in s
    ensures RemoveAll(s, a) == s
    decreases |s|
  {
    if s != [] {
      assert s[..|s| - 1] + [s[|s| - 1]] == s;
      RemoveAbsent(s[..|s| - 1], a);
    }
  }

  /** The filter works item by item, so it keeps the order of what it keeps: filtering
      a concatenation is concatenating the filtered parts. */
  lemma {:induction false} RemoveAllAppend(s: seq<string>, t: seq<string>, a: string)
    ensures RemoveAll(s + t, a) == RemoveAll(s, a) + RemoveAll(t, a)
    decreases |t|
  {
    if t == [] {
      assert s + t == s;
    } else {
      var u := s + t;
      var t' := t[..|t| - 1];
      assert u[..|u| - 1] == s + t';
      assert u[|u| - 1] == t[|t| - 1];
      RemoveAllAppend(s, t', a);
    }
  }

  /** Ticking an unticked agent and unticking it again restores the list. */
  lemma ToggleTwiceRestores(s: seq<string>, a: string)
    requires a !in s
    ensures ToggleAgent(ToggleAgent(s, a), a) == s
  {
    var t := s + [a];
    assert t[..|t| - 1] == s;
    RemoveAbsent(s, a);
  }

  lemma {:induction false} RemoveAllKeepsNoDuplicates(s: seq<string>, a: string)
    requires NoDuplicates(s)
    ensures NoDuplicates(RemoveAll(s, a))
    decreases |s|
  {
    if s != [] {
      var p := s[..|s| - 1];
      var last := s[|s| - 1];
      RemoveAllKeepsNoDuplicates(p, a);
      if last != a {
        var r := RemoveAll(p, a);
        assert last !in p;
        assert last !in r;
        assert RemoveAll(s, a) == r + [last];
      }
    }
  }

  /** A list without repeats stays without repeats, however it is toggled. */
  lemma ToggleKeepsNoDuplicates(s: seq<string>, a: string)
    requires NoDuplicates(s)
    ensures NoDuplicates(ToggleAgent(s, a))
  {
    if a in s {
      RemoveAllKeepsNoDuplicates(s, a);
    }
  }

  lemma StepPreservesInv(f: Form, e: Event)
    requires FormInv(f)
    ensures FormInv(Step(f, e))
  {
    if e.AIAgentChange? {
      ToggleKeepsNoDuplicates(f.selectedAIAgents, e.agent);
    }
  }

  lemma {:induction false} RunPreservesInv(f: Form, es: seq<Event>)
    requires FormInv(f)
    ensures FormInv(Run(f, es))
    decreases |es|
  {
    if es != [] {
      StepPreservesInv(f, es[0]);
      RunPreservesInv(Step(f, es[0]), es[1..]);
    }
  }

  lemma IndustryOptionsAccepted1(v: string)
    requires v in IndustryOptions1
    ensures IsIndustry(v) <==> v == "Other"
  {
  }

  lemma IndustryOptionsAccepted2(v: string)
    requires v in IndustryOptions2
    ensures IsIndustry(v) <==> v == "Other"
  {
  }

  lemma IndustryOptionsAccepted3(v: string)
    requires v in IndustryOptions3
    ensures IsIndustry(v) <==> v == "Other"
  {
  }

  lemma IndustryOptionsAccepted4(v: string)
    requires v in IndustryOptions4
    ensures IsIndustry(v) <==> v == "Other"
  {
  }

  lemma IndustryOptionsAccepted5(v: string)
    requires v in IndustryOptions5
    ensures IsIndustry(v) <==> v == "Other"
  {
  }

  lemma IndustryOptionsAccepted6(v: string)
    requires v in IndustryOptions6
    ensures IsIndustry(v) <==> v == "Other"
  {
  }

  lemma IndustryOptionsAccepted7(v: string)
    requires v in IndustryOptions7
    ensures IsIndustry(v) <==> v == "Other"
  {
  }

  /** Of the industries the page offers, only "Other" is accepted: the list holds
      capitalised names, the options are snake_case identifiers. */
  lemma RenderedIndustryAccepted(v: string)
    requires v in RenderedIndustries
    ensures IsIndustry(v) <==> v == "Other"
  {
    if v in IndustryOptions1 { IndustryOptionsAccepted1(v); }
    else if v in IndustryOptions2 { IndustryOptionsAccepted2(v); }
    else if v in IndustryOptions3 { IndustryOptionsAccepted3(v); }
    else if v in IndustryOptions4 { IndustryOptionsAccepted4(v); }
    else if v in IndustryOptions5 { IndustryOptionsAccepted5(v); }
    else if v in IndustryOptions6 { IndustryOptionsAccepted6(v); }
    else if v in IndustryOptions7 { IndustryOptionsAccepted7(v); }
  }

  /** None of the company sizes the page offers is accepted: the option texts carry
      the employee counts and the list holds the bare words. */
  lemma RenderedCompanySizeRejected(v: string)
    requires v in RenderedCompanySizes
    ensures !IsCompanySize(v)
  {
  }

  /** Every CRM the page offers is accepted. */
  lemma RenderedCRMAccepted(v: string)
    requires v in RenderedCRMs
    ensures IsCRMSystem(v)
  {
  }

  /** Whatever the visitor does on the rendered page, the company size stays blank. */
  lemma {:induction false} CompanySizeStaysBlank(f: Form, es: seq<Event>)
    requires f.companySize == ""
    requires forall i :: 0 <= i < |es| ==> Deliverable(es[i])
    ensures Run(f, es).companySize == ""
    decreases |es|
  {
    if es != [] {
      var e := es[0];
      assert Deliverable(e);
      if e.CompanySizeChange? && e.value != "" {
        RenderedCompanySizeRejected(e.value);
      }
      CompanySizeStaysBlank(Step(f, e), es[1..]);
    }
  }

  /** So the form never passes its gate: every call of handleSubmit after events the
      page can deliver ends with "All fields are required." and sends nothing. */
  lemma AssessmentNeverSubmits(es: seq<Event>, st: Submission.Status, webhookConfigured: bool)
    requires forall i :: 0 <= i < |es| ==> Deliverable(es[i])
    ensures !Complete(Run(InitForm(), es))
    ensures var r := Submission.Submit(st, Complete(Run(InitForm(), es)), webhookConfigured);
            r.error == Submission.MissingFields && r.pendingPosts == st.pendingPosts && !r.isLoading
  {
    CompanySizeStaysBlank(InitForm(), es);
  }

  /** Picking "Other" shows the free-text input; any other offered industry is
      rejected and changes nothing, so the input is shown exactly while "Other" is
      the stored industry. */
  lemma OtherIndustryShown(f: Form, v: string)
    requires FormInv(f) && v in RenderedIndustries
    ensures v == "Other" ==> SelectIndustry(f, v).showOtherIndustry
    ensures v != "Other" ==> SelectIndustry(f, v) == f
    ensures SelectIndustry(f, v).showOtherIndustry <==> SelectIndustry(f, v).industry == "Other"
  {
    RenderedIndustryAccepted(v);
  }

  class AssessmentPage {
    var firstName: string
    var lastName: string
    var email: string
    var phone: string
    var companyName: string
    var industry: string
    var otherIndustry: string
    var showOtherIndustry: bool
    var companySize: string
    var crmSystem: string
    var selectedAIAgents: seq<string>
    var agentsRequired: map<string, string>
    var isLoading: bool
    var error: string
    var pendingPosts: nat
    var navigated: bool

    ghost function State(): Form
      reads this
    {
      Form(firstName, lastName, email, phone, companyName, industry, otherIndustry,
           showOtherIndustry, companySize, crmSystem, selectedAIAgents, agentsRequired)
    }

    ghost function Status(): Submission.Status
      reads this
    {
      Submission.Status(isLoading, error, pendingPosts, navigated)
    }

    ghost predicate Valid()
      reads this
    {
      FormInv(State()) && Submission.StatusInv(Status())
    }

    constructor ()
      ensures Valid() && State() == InitForm() && Status() == Submission.InitStatus()
    {
      firstName, lastName, email, phone, companyName := "", "", "", "", "";
      industry, otherIndustry, showOtherIndustry := "", "", false;
      companySize, crmSystem := "", "";
      selectedAIAgents, agentsRequired := [], map[];
      isLoading, error, pendingPosts, navigated := false, "", 0, false;
    }

    method OnTextInput(field: TextField, v: string)
      requires Valid()
      modifies this
      ensures Valid() && State() == SetText(old(State()), field, v)
      ensures Status() == old(Status())
    {
      match field
      case FirstName => firstName := v;
      case LastName => lastName := v;
      case Email => email := v;
      case Phone => phone := v;
      case CompanyName => companyName := v;
      case OtherIndustry => otherIndustry := v;
    }

    method OnIndustryChange(v: string)
      requires Valid()
      modifies this
      ensures Valid() && State() == SelectIndustry(old(State()), v)
      ensures Status() == old(Status())
    {
      if IsIndustry(v) {
        industry := v;
        showOtherIndustry := v == "Other";
      }
    }

    method OnCompanySizeChange(v: string)
      requires Valid()
      modifies this
      ensures Valid() && State() == SelectCompanySize(old(State()), v)
      ensures Status() == old(Status())
    {
      if IsCompanySize(v) {
        companySize := v;
      }
    }

    method OnCRMChange(v: string)
      requires Valid()
      modifies this
      ensures Valid() && State() == SelectCRM(old(State()), v)
      ensures Status() == old(Status())
    {
      if IsCRMSystem(v) {
        crmSystem := v;
      }
    }

    method HandleAIAgentChange(agent: string)
      requires Valid()
      modifies this
      ensures Valid() && State() == Step(old(State()), AIAgentChange(agent))
      ensures Status() == old(Status())
    {
      ToggleKeepsNoDuplicates(selectedAIAgents, agent);
      selectedAIAgents := ToggleAgent(selectedAIAgents, agent);
    }

    method HandleAgentsRequiredChange(agent: string, v: string)
      requires Valid()
      modifies this
      ensures Valid() && State() == Step(old(State()), AgentsRequiredChange(agent, v))
      ensures Status() == old(Status())
    {
      agentsRequired := agentsRequired[agent := v];
    }

    /** handleSubmit up to its `await`; returns whether a POST was issued. */
    method HandleSubmit(webhookConfigured: bool) returns (posted: bool)
      requires Valid()
      modifies this
      ensures Valid() && State() == old(State())
      ensures Status() == Submission.Submit(old(Status()), Complete(old(State())), webhookConfigured)
      ensures posted <==> Complete(old(State())) && webhookConfigured
    {
      isLoading := true;
      error := "";
      var finalIndustry := if industry == "Other" then otherIndustry else industry;
      if firstName == "" || lastName == "" || email == "" || phone == ""
         || finalIndustry == "" || companyName == "" || companySize == "" {
        error := Submission.MissingFields;
        isLoading := false;
        return false;
      }
      if !webhookConfigured {
        error := Submission.InternalError;
        isLoading := false;
        return false;
      }
      pendingPosts := pendingPosts + 1;
      return true;
    }

    /** The awaited POST settles. */
    method OnSubmitSettled(response: Submission.Response)
      requires Valid()
      modifies this
      ensures Valid() && State() == old(State())
      ensures Status() == Submission.Settle(old(Status()), response)
    {
      if pendingPosts == 0 {
        return;
      }
      pendingPosts := pendingPosts - 1;
      if response == Submission.OkResponse {
        navigated := true;
      } else {
        error := Submission.SubmitFailed;
      }
      isLoading := false;
    }
  }
}
