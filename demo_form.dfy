/** The AI-agent demo request form of app/ai-agent-demo/page-csr.tsx: nine required
    answers, a language select that accepts only the 36 supported languages, an
    optional knowledge-base link, and five FAQ slots edited by copying the array and
    assigning one entry. The answers are the record `Answers`; the class `DemoPage`
    holds them, the FAQ array and the submit status of module Submission. */
module DemoForm {
  import Submission

  const SupportedLanguages: seq<string> :=
    ["English (UK)", "English (USA)", "English (Australia)", "English (Canada)",
     "Japanese", "Chinese", "German", "Hindi", "French (France)", "French (Canada)",
     "Korean", "Portuguese (Brazil)", "Portuguese (Portugal)", "Italian",
     "Spanish (Spain)", "Spanish (Mexico)", "Indonesian", "Dutch", "Turkish",
     "Filipino", "Polish", "Swedish", "Bulgarian", "Romanian", "Arabic (Saudi Arabia)",
     "Arabic (UAE)", "Czech", "Greek", "Finnish", "Croatian", "Malay", "Slovak",
     "Danish", "Tamil", "Ukrainian", "Russian"]

  predicate IsValidLanguage(v: string) {
    v in SupportedLanguages
  }

  /** The values of the language `<option>`s the page renders, in order, starting
      with the selectable blank placeholder; kept in groups so that each group can
      be checked against `SupportedLanguages` alone. */
  const LanguageOptions1: seq<string> :=
    ["", "English (UK)", "English (USA)", "English (Australia)", "English (Canada)",
     "Japanese", "Chinese", "German", "Hindi", "French (France)"]
  const LanguageOptions2: seq<string> :=
    ["French (Canada)", "Korean", "Portuguese (Brazil)", "Portuguese (Portugal)",
     "Italian", "Spanish (Spain)", "Spanish (Mexico)", "Indonesian", "Dutch"]
  const LanguageOptions3: seq<string> :=
    ["Turkish", "Filipino", "Polish", "Swedish", "Bulgarian", "Romanian",
     "Arabic (Saudi Arabia)", "Arabic (UAE)", "Czech"]
  const LanguageOptions4: seq<string> :=
    ["Greek", "Finnish", "Croatian", "Malay", "Slovak", "Danish", "Tamil",
     "Ukrainian", "Russian"]

  const RenderedLanguages: seq<string> :=
    LanguageOptions1 + LanguageOptions2 + LanguageOptions3 + LanguageOptions4

  /** The number of FAQ slots, `Array(5).fill('')`. */
  const FaqCount: nat := 5

  /** The inputs set by a plain `onChange` setter; the language is set only through
      its validating select. */
  datatype TextField =
    | AiAgentName | Email | CompanyTransferPhone | ClientInput
    | AgentRole | Persona | Gender | SpeechSpeed | KnowledgeBaseLink

  datatype Answers = Answers(
    aiAgentName: string,
    email: string,
    companyTransferPhone: string,
    clientInput: string,
    selectedAIAgentType: string,
    persona: string,
    gender: string,
    speechSpeed: string,
    language: string,
    knowledgeBaseLink: string)

  function InitAnswers(): (a: Answers)
    ensures forall g :: GetText(a, g) == ""
    ensures a.language == ""
  {
    Answers("", "", "", "", "", "", "", "", "", "")
  }

  function GetText(a: Answers, field: TextField): string {
    match field
    case AiAgentName => a.aiAgentName
    case Email => a.email
    case CompanyTransferPhone => a.companyTransferPhone
    case ClientInput => a.clientInput
    case AgentRole => a.selectedAIAgentType
    case Persona => a.persona
    case Gender => a.gender
    case SpeechSpeed => a.speechSpeed
    case KnowledgeBaseLink => a.knowledgeBaseLink
  }

  /** A plain setter: this field takes the value, every other answer is kept. */
  function SetText(a: Answers, field: TextField, v: string): (r: Answers)
    ensures GetText(r, field) == v
    ensures forall g :: g != field ==> GetText(r, g) == GetText(a, g)
    ensures r.language == a.language
  {
    match field
    case AiAgentName => a.(aiAgentName := v)
    case Email => a.(email := v)
    case CompanyTransferPhone => a.(companyTransferPhone := v)
    case ClientInput => a.(clientInput := v)
    case AgentRole => a.(selectedAIAgentType := v)
    case Persona => a.(persona := v)
    case Gender => a.(gender := v)
    case SpeechSpeed => a.(speechSpeed := v)
    case KnowledgeBaseLink => a.(knowledgeBaseLink := v)
  }

  /** The language select: a supported language is stored, anything else ignored. */
  function SelectLanguage(language: string, v: string): string {
    if IsValidLanguage(v) then v else language
  }

  /** The gate at the top of handleSubmit: nine answers must be non-blank. */
  predicate Complete(a: Answers) {
    !(a.email == "" || a.aiAgentName == "" || a.companyTransferPhone == ""
      || a.clientInput == "" || a.selectedAIAgentType == "" || a.persona == ""
      || a.gender == "" || a.speechSpeed == "" || a.language == "")
  }

  // ---------------------------------------------------------------- properties

  /** The form passes the gate exactly when the language and every answer but the
      knowledge-base link are non-blank; the FAQs are not consulted at all. */
  lemma CompleteSpec(a: Answers)
    ensures Complete(a) <==>
              (forall g :: g != KnowledgeBaseLink ==> GetText(a, g) != "") && a.language != ""
    ensures forall v :: Complete(a.(knowledgeBaseLink := v)) == Complete(a)
  {
    if !Complete(a) {
      if a.email == "" { assert GetText(a, Email) == ""; }
      if a.aiAgentName == "" { assert GetText(a, AiAgentName) == ""; }
      if a.companyTransferPhone == "" { assert GetText(a, CompanyTransferPhone) == ""; }
      if a.clientInput == "" { assert GetText(a, ClientInput) == ""; }
      if a.selectedAIAgentType == "" { assert GetText(a, AgentRole) == ""; }
      if a.persona == "" { assert GetText(a, Persona) == ""; }
      if a.gender == "" { assert GetText(a, Gender) == ""; }
      if a.speechSpeed == "" { assert GetText(a, SpeechSpeed) == ""; }
    }
  }

  /** Blanking any one of the nine required answers fails the gate. */
  lemma BlankRequiredFails(a: Answers, field: TextField)
    requires field != KnowledgeBaseLink
    ensures !Complete(SetText(a, field, ""))
    ensures !Complete(a.(language := ""))
  {
    CompleteSpec(SetText(a, field, ""));
  }

  /** The select stores its value exactly when it is a supported language. */
  lemma SelectLanguageSpec(language: string, v: string)
    ensures IsValidLanguage(v) ==> SelectLanguage(language, v) == v
    ensures !IsValidLanguage(v) ==> SelectLanguage(language, v) == language
    ensures SelectLanguage(language, v) in {language, v}
  {
  }

  /** The list has 36 entries and the blank string is not one of them. */
  lemma SupportedLanguagesShape()
    ensures |SupportedLanguages| == 36
    ensures !IsValidLanguage("")
  {
  }

  lemma LanguageOptionsAccepted1(v: string)
    requires v in LanguageOptions1
    ensures IsValidLanguage(v) <==> v != ""
  {
  }

  lemma LanguageOptionsAccepted2(v: string)
    requires v in LanguageOptions2
    ensures IsValidLanguage(v)
  {
  }

  lemma LanguageOptionsAccepted3(v: string)
    requires v in LanguageOptions3
    ensures IsValidLanguage(v)
  {
  }

  lemma LanguageOptionsAccepted4(v: string)
    requires v in LanguageOptions4
    ensures IsValidLanguage(v)
  {
  }

  /** Every language the page offers is accepted; the blank placeholder is not. */
  lemma RenderedLanguageAccepted(v: string)
    requires v in RenderedLanguages
    ensures IsValidLanguage(v) <==> v != ""
  {
    if v in LanguageOptions1 { LanguageOptionsAccepted1(v); }
    else if v in LanguageOptions2 { LanguageOptionsAccepted2(v); }
    else if v in LanguageOptions3 { LanguageOptionsAccepted3(v); }
    else { LanguageOptionsAccepted4(v); }
  }

  /** The language after a run of select events. */
  function LanguageAfter(language: string, vs: seq<string>): string
    decreases |vs|
  {
    if vs == [] then language else LanguageAfter(SelectLanguage(language, vs[0]), vs[1..])
  }

  /** Once a language is chosen, no select event brings it back to blank. */
  lemma {:induction false} LanguageCannotReset(language: string, vs: seq<string>)
    requires language != ""
    ensures LanguageAfter(language, vs) != ""
    decreases |vs|
  {
    if vs != [] {
      SupportedLanguagesShape();
      LanguageCannotReset(SelectLanguage(language, vs[0]), vs[1..]);
    }
  }

  /** After any run of select events the language is blank or supported. */
  lemma {:induction false} LanguageStaysValid(language: string, vs: seq<string>)
    requires language == "" || IsValidLanguage(language)
    ensures var l := LanguageAfter(language, vs); l == "" || IsValidLanguage(l)
    ensures vs != [] && IsValidLanguage(vs[|vs| - 1]) ==> LanguageAfter(language, vs) == vs[|vs| - 1]
    decreases |vs|
  {
    if vs != [] {
      LanguageStaysValid(SelectLanguage(language, vs[0]), vs[1..]);
      if |vs| == 1 {
        assert vs[|vs| - 1] == vs[0];
      } else {
        assert vs[1..][|vs[1..]| - 1] == vs[|vs| - 1];
      }
    }
  }

  /** `[...faqs]`: a fresh array with the same entries. */
  method CopyFaqs(a: array<string>) returns (b: array<string>)
    ensures fresh(b) && b.Length == a.Length && b[..] == a[..]
  {
    b := new string[a.Length];
    var i := 0;
    while i < a.Length
      invariant 0 <= i <= a.Length
      invariant b[..i] == a[..i]
    {
      b[i] := a[i];
      i := i + 1;
    }
    assert b[..] == b[..a.Length];
  }

  class DemoPage {
    var aiAgentName: string
    var email: string
    var companyTransferPhone: string
    var clientInput: string
    var selectedAIAgentType: string
    var persona: string
    var gender: string
    var speechSpeed: string
    var language: string
    var knowledgeBaseLink: string
    var faqs: array<string>
    var isLoading: bool
    var error: string
    var pendingPosts: nat
    var navigated: bool

    ghost function State(): Answers
      reads this
    {
      Answers(aiAgentName, email, companyTransferPhone, clientInput, selectedAIAgentType,
              persona, gender, speechSpeed, language, knowledgeBaseLink)
    }

    ghost function Status(): Submission.Status
      reads this
    {
      Submission.Status(isLoading, error, pendingPosts, navigated)
    }

    ghost predicate Valid()
      reads this
    {
      faqs.Length == FaqCount && Submission.StatusInv(Status())
    }

    constructor ()
      ensures Valid() && State() == InitAnswers() && Status() == Submission.InitStatus()
      ensures faqs[..] == seq(FaqCount, _ => "")
      ensures fresh(faqs)
    {
      aiAgentName, email, companyTransferPhone, clientInput := "", "", "", "";
      selectedAIAgentType, persona, gender, speechSpeed := "", "", "", "";
      language, knowledgeBaseLink := "", "";
      faqs := new string[FaqCount](_ => "");
      isLoading, error, pendingPosts, navigated := false, "", 0, false;
    }

    method OnTextInput(field: TextField, v: string)
      requires Valid()
      modifies this
      ensures Valid() && State() == SetText(old(State()), field, v)
      ensures Status() == old(Status()) && faqs == old(faqs)
    {
      match field
      case AiAgentName => aiAgentName := v;
      case Email => email := v;
      case CompanyTransferPhone => companyTransferPhone := v;
      case ClientInput => clientInput := v;
      case AgentRole => selectedAIAgentType := v;
      case Persona => persona := v;
      case Gender => gender := v;
      case SpeechSpeed => speechSpeed := v;
      case KnowledgeBaseLink => knowledgeBaseLink := v;
    }

    method OnLanguageChange(v: string)
      requires Valid()
      modifies this
      ensures Valid() && State() == old(State()).(language := SelectLanguage(old(language), v))
      ensures Status() == old(Status()) && faqs == old(faqs)
    {
      if IsValidLanguage(v) {
        language := v;
      }
    }

    /** The FAQ input at `index`: `[...faqs]`, then `updatedFAQs[index] = value`.
        The page holds a fresh array afterwards; the one it replaced is not written. */
    method OnFaqChange(index: nat, v: string)
      requires Valid() && index < faqs.Length
      modifies this
      ensures Valid() && State() == old(State()) && Status() == old(Status())
      ensures fresh(faqs)
      ensures faqs[..] == old(faqs[..])[index := v]
      ensures faqs.Length == FaqCount && faqs[index] == v
      ensures forall i :: 0 <= i < FaqCount && i != index ==> faqs[i] == old(faqs[i])
    {
      var updated := CopyFaqs(faqs);
      updated[index] := v;
      faqs := updated;
    }

    /** handleSubmit up to its `await`; returns whether a POST was issued. */
    method HandleSubmit(webhookConfigured: bool) returns (posted: bool)
      requires Valid()
      modifies this
      ensures Valid() && State() == old(State()) && faqs == old(faqs)
      ensures Status() == Submission.Submit(old(Status()), Complete(old(State())), webhookConfigured)
      ensures posted <==> Complete(old(State())) && webhookConfigured
    {
      isLoading := true;
      error := "";
      if email == "" || aiAgentName == "" || companyTransferPhone == "" || clientInput == ""
         || selectedAIAgentType == "" || persona == "" || gender == "" || speechSpeed == ""
         || language == "" {
        error := Submission.MissingFields;
        isLoading := false;
        return false;
      }
      if !webhookConfigured {
        error := Submission.InternalError;
        isLoading := false;
        return false;
      }
      pendingPosts := pendingPosts + 1;
      return true;
    }

    /** The awaited POST settles. */
    method OnSubmitSettled(response: Submission.Response)
      requires Valid()
      modifies this
      ensures Valid() && State() == old(State()) && faqs == old(faqs)
      ensures Status() == Submission.Settle(old(Status()), response)
    {
      if pendingPosts == 0 {
        return;
      }
      pendingPosts := pendingPosts - 1;
      if response == Submission.OkResponse {
        navigated := true;
      } else {
        error := Submission.SubmitFailed;
      }
      isLoading := false;
    }
  }
}
