# DialWise site logic in Dafny

This project models the parts of the DialWise marketing site that hold logic, and proves properties of that model.

- **The call-invitation widget** (`app/DialWiseAgentBar.tsx`). Seven seconds after mount it appears with a ringing tone and a six-minute countdown. It offers Answer, which starts a voice call through the Vapi SDK, and Decline/End. While a call is connected it shows the elapsed call time, and it hides itself when the countdown runs out.
- **The earlier floating bar** (`components/FloatingBar.tsx`). It has the same countdown, a Call button that posts to a webhook, and Cancel.
- **The savings calculator** (`app/tool/page-csr.tsx`). Five fixed formulas each turn one numeric answer into a rounded dollar figure, and the page sums them.
- **The two lead forms.**
  - The AI assessment form (`app/ai-assessment/page-csr.tsx`) has a required-field gate, the industry it sends, an AI-agent checkbox toggle, a per-agent count record and three validating selects.
  - The AI-agent demo form (`app/ai-agent-demo/page-csr.tsx`) has nine required answers, a validating language select and five FAQ slots.
  - Both forms share a submit handler: refuse, POST, then navigate or show an error.

Modules and files:

| file | module | contents |
|---|---|---|
| `wrappers.dfy` | `Wrappers` | `Option` |
| `strings.dfy` | `Strings` | `IndexOf` of a character |
| `decimal.dfy` | `Decimal` | digit strings and how `${n}` prints an integer |
| `time_format.dfy` | `TimeFormat` | `formatTime` and a reader for its output |
| `agent_bar.dfy` | `AgentBar` | the call-invitation widget |
| `floating_bar.dfy` | `FloatingBar` | the floating bar |
| `savings.dfy` | `Savings` | `Number(text) \|\| 0`, the five formulas, the total |
| `submission.dfy` | `Submission` | the submit handler shared by both forms |
| `assessment_form.dfy` | `AssessmentForm` | the assessment form |
| `demo_form.dfy` | `DemoForm` | the demo form |

Each widget and form follows one pattern:

- Its state is a datatype, and every callback is a transition function on it: a timer callback, a button handler, an SDK event, or the settling of an awaited promise.
- A class holds the same state in fields. Each of its methods is proved to perform exactly one transition in place (`State() == F(old(State()))`). The handler methods are also proved to keep the invariant. The audio helpers and the hide-at-0 effect, which the handlers call part-way through a transition, are not.
- The properties are lemmas about the transition functions and about `Run`, which applies a sequence of events.

The widget's timers fire as explicit tick events. A tick for a timer that is not running is the identity, and so is a settle when no request is in flight. Each handler that awaits something is cut at its `await`. For example, `StartCall` and `StartSettled` are the two halves of `handleStartCall`.

These things are inputs to the model rather than computed:

- whether `audio.play()` rejects;
- whether the SDK's `start` resolves;
- whether a webhook URL is configured;
- how a `fetch` ends.

## Model

| member | source | states |
|---|---|---|
| AgentBar.Init | app/DialWiseAgentBar.tsx:8-14 | After mount the bar is hidden, 360 s are left, it is neither dialling nor connected, the call time is 0, nothing plays and nothing is rendered. |
| AgentBar.StepPreservesInv | app/DialWiseAgentBar.tsx:54-181 | Every event keeps these facts: the countdown stays in [0, 360], the call time stays ≥ 0, dialling implies a pending start, the audio flag matches the element's paused state, audio plays only while visible, and a countdown at 0 means hidden. |
| AgentBar.RunPreservesInv | app/DialWiseAgentBar.tsx:54-181 | The invariant holds after any sequence of events. |
| AgentBar.Reachable | app/DialWiseAgentBar.tsx:97-147 | From mount, for every event sequence, `timeLeft` stays within [0, 360], audio plays only while shown, and the bar is hidden once `timeLeft` is 0. |
| AgentBar.RunAppend | app/DialWiseAgentBar.tsx:97-181 | Running `a + b` is running `a` and then `b`. |
| AgentBar.PlaySoundSpec | app/DialWiseAgentBar.tsx:72-84 | Playing while already playing changes nothing. Otherwise the flag ends true exactly when play succeeds, a rejected play leaves the element as it was, and only the audio state changes. |
| AgentBar.StopSoundSpec | app/DialWiseAgentBar.tsx:87-94 | Stopping pauses the element, rewinds it to 0 and clears the flag, and changes nothing else. |
| AgentBar.RevealSpec | app/DialWiseAgentBar.tsx:97-101 | The first reveal shows the bar and rings exactly when play succeeds. Once the reveal has fired, a later reveal is the identity. |
| AgentBar.CountdownSpec | app/DialWiseAgentBar.tsx:110-118 | While the bar is visible with time left, a tick takes exactly 1 off `timeLeft`; otherwise it changes nothing. `timeLeft` never goes below 0. Only visibility, `timeLeft` and audio can change. |
| AgentBar.HideAtZeroSpec | app/DialWiseAgentBar.tsx:142-147 | The tick that reaches 0 hides the bar and silences the audio (paused, position 0, flag cleared). Earlier ticks keep the bar shown and the audio as it was. |
| AgentBar.CountdownExpires | app/DialWiseAgentBar.tsx:110-147 | From a visible bar with `n` seconds left, `n` ticks end with the bar hidden, the audio silent and `timeLeft` at 0. |
| AgentBar.IgnoredInvitationExpires | app/DialWiseAgentBar.tsx:97-147 | Mount, the reveal, then 360 ticks: the bar is hidden and silent with the countdown at 0. |
| AgentBar.OnlyRevealShows | app/DialWiseAgentBar.tsx:97-101 | The only event that turns a hidden bar visible is a pending reveal. |
| AgentBar.HiddenForGood | app/DialWiseAgentBar.tsx:97-181 | After the reveal has fired, a hidden bar stays hidden under every event sequence. |
| AgentBar.StartCallSpec | app/DialWiseAgentBar.tsx:150-158 | Without an SDK instance, Answer changes nothing. With one, it sets `isCalling`, silences the audio and issues one `start`, leaving the connection and visibility alone. No assistant-id check is made. |
| AgentBar.StartSettledSpec | app/DialWiseAgentBar.tsx:160-168 | A settling `start` clears `isCalling`. Success connects; failure leaves the connection as it was. |
| AgentBar.AnswerOutcome | app/DialWiseAgentBar.tsx:150-169 | After Answer and the settle, the bar is not dialling and is silent, and it is connected exactly when the start succeeded or the bar already was connected. |
| AgentBar.EndCallSpec | app/DialWiseAgentBar.tsx:172-181 | Decline/End leaves the bar not dialling, not connected, hidden and silent, and keeps `timeLeft` and `callDuration`. Doing it twice equals doing it once. |
| AgentBar.SdkEventsSpec | app/DialWiseAgentBar.tsx:54-63 | `call-start` connects and silences the audio. `call-end` disconnects, sets `callDuration` to 0 and changes nothing else. |
| AgentBar.CallTickSpec | app/DialWiseAgentBar.tsx:121-139 | The call timer adds 1 second per tick while connected and nothing otherwise. |
| AgentBar.NoTicksWhileDisconnected | app/DialWiseAgentBar.tsx:121-139 | While disconnected, any number of call-timer ticks leave the state unchanged. |
| AgentBar.CallEndResetsDuration | app/DialWiseAgentBar.tsx:59-63 | After `call-end`, the duration is 0 and further ticks keep it at 0. |
| AgentBar.ViewSpec | app/DialWiseAgentBar.tsx:183-241 | Nothing is rendered exactly while the bar is hidden. The countdown text reads back as `timeLeft`, the elapsed time shows exactly while connected, and Answer is enabled exactly while neither dialling nor connected. |
| AgentBar.LateStartAfterDecline | app/DialWiseAgentBar.tsx:150-181 | A start that resolves after Decline is not cancelled: the bar ends hidden but connected. |
| AgentBar.CallingWhileConnected | app/DialWiseAgentBar.tsx:54-58 | `isCalling` and `isConnected` can hold together, when `call-start` arrives before `start` settles. |
| AgentBar.DeclineKeepsDuration | app/DialWiseAgentBar.tsx:172-181 | Decline does not reset the elapsed call time. |
| AgentBar.FailedStartScenario | app/DialWiseAgentBar.tsx:150-169 | Driving the widget object: load, reveal, Answer, then a failed start. The bar stays visible, not dialling and not connected. |
| AgentBar.AgentBarWidget.constructor | app/DialWiseAgentBar.tsx:8-16 | The fields start in the `Init` state. |
| AgentBar.AgentBarWidget.StopVibrationSound | app/DialWiseAgentBar.tsx:87-94 | Performs `StopSound` in place. |
| AgentBar.AgentBarWidget.PlayVibrationSound | app/DialWiseAgentBar.tsx:72-84 | Performs `PlaySound` in place. |
| AgentBar.AgentBarWidget.OnScriptLoaded | app/DialWiseAgentBar.tsx:41-52 | The SDK instance becomes available. |
| AgentBar.AgentBarWidget.OnRevealTimer | app/DialWiseAgentBar.tsx:97-101 | Performs `Reveal` in place; a first reveal shows the bar and rings exactly when play succeeds. |
| AgentBar.AgentBarWidget.HideWhenExpired | app/DialWiseAgentBar.tsx:142-147 | Performs `HideAtZero` in place. |
| AgentBar.AgentBarWidget.OnCountdownTick | app/DialWiseAgentBar.tsx:110-118 | Performs `Countdown` in place and keeps `timeLeft` ≥ 0. |
| AgentBar.AgentBarWidget.OnCallTimerTick | app/DialWiseAgentBar.tsx:121-139 | Performs `CallTick` in place. |
| AgentBar.AgentBarWidget.HandleStartCall | app/DialWiseAgentBar.tsx:150-158 | Performs `StartCall` in place. |
| AgentBar.AgentBarWidget.OnStartSettled | app/DialWiseAgentBar.tsx:160-168 | Performs `StartSettled` in place; `isCalling` is false afterwards. |
| AgentBar.AgentBarWidget.HandleEndCall | app/DialWiseAgentBar.tsx:172-181 | Performs `EndCall` in place: not dialling, not connected, hidden, not playing. |
| AgentBar.AgentBarWidget.OnCallStart | app/DialWiseAgentBar.tsx:54-58 | Performs `CallStarted` in place. |
| AgentBar.AgentBarWidget.OnCallEnd | app/DialWiseAgentBar.tsx:59-63 | Performs `CallEnded` in place. |
| AgentBar.AgentBarWidget.OnMediaClock | app/DialWiseAgentBar.tsx:20-21 | This is the host's playback clock, not a statement of the source. The cited lines create the looping element it acts on. Its position moves only while the element plays. |
| TimeFormat.JsRem | app/DialWiseAgentBar.tsx:249 | JavaScript's `%` by a positive divisor: `a - r` is a multiple of `b`, and the remainder lies in [0, b) for a non-negative dividend and in (-b, 0] for a negative one. Together these fix the value. |
| TimeFormat.TwoDigits | app/DialWiseAgentBar.tsx:249-250 | A remainder below 60 becomes exactly two digits that spell it. |
| TimeFormat.FormatTimeShape | app/DialWiseAgentBar.tsx:247-251 | For `s` ≥ 0, the output is `s / 60` in decimal, then `:`, then `s % 60` zero-padded to two digits. |
| TimeFormat.TwoDigitsAfterColon | components/FloatingBar.tsx:124-128 | For `s` ≥ 0 there is a colon, followed by exactly two digits. |
| TimeFormat.FormatTimeRoundTrip | app/DialWiseAgentBar.tsx:247-251 | For `s` ≥ 0, reading the `M:SS` text back gives `s`. |
| TimeFormat.FormatTimeInjective | components/FloatingBar.tsx:124-128 | Distinct non-negative counts print differently. |
| TimeFormat.SixMinutes | app/DialWiseAgentBar.tsx:9 | `formatTime(360)` is `"6:00"`. |
| TimeFormat.NegativeSecondsMisformat | app/DialWiseAgentBar.tsx:247-251 | A negative count leaves the shape: `formatTime(-1)` is `"-1:0-1"`. |
| Decimal.NatToString | app/DialWiseAgentBar.tsx:250 | `${n}` of a non-negative integer is a non-empty string of digits with no leading zero. |
| Decimal.DigitsValueOfNatToString | app/DialWiseAgentBar.tsx:250 | The digits of `${n}` read back as `n`. |
| Decimal.NatToStringInjective | app/DialWiseAgentBar.tsx:250 | Distinct numbers print differently. |
| FloatingBar.Init | components/FloatingBar.tsx:8-10 | After mount the bar is hidden, 360 s are left, it is not calling, and nothing is rendered. |
| FloatingBar.StepPreservesInv | components/FloatingBar.tsx:13-107 | Every event keeps the countdown in [0, 360] and the bar hidden at 0, and `isCalling` implies a request is in flight. |
| FloatingBar.RunPreservesInv | components/FloatingBar.tsx:13-107 | The invariant holds after any event sequence. |
| FloatingBar.Reachable | components/FloatingBar.tsx:22-39 | From mount, `timeLeft` stays in [0, 360] and the bar is hidden when it is 0. |
| FloatingBar.RevealSpec | components/FloatingBar.tsx:13-19 | The reveal shows the bar once; after it has fired, a later reveal is the identity. |
| FloatingBar.OnlyRevealShows | components/FloatingBar.tsx:13-19 | The only event that makes a hidden bar visible is the pending reveal. |
| FloatingBar.HiddenForGood | components/FloatingBar.tsx:13-107 | After the reveal has fired, a hidden bar never becomes visible again. |
| FloatingBar.CountdownSpec | components/FloatingBar.tsx:22-39 | A tick takes exactly 1 off while the bar is visible with time left and is the identity otherwise. `timeLeft` stays ≥ 0, and the tick reaching 0 hides the bar. |
| FloatingBar.CancelSpec | components/FloatingBar.tsx:107 | Cancel hides the bar and keeps `timeLeft`, `isCalling` and the rest. |
| FloatingBar.HandleCallBracket | components/FloatingBar.tsx:42-63 | `isCalling` is true while the POST is in flight. It is false when handleCall is over: with no webhook URL, on a response and on an error. |
| FloatingBar.ViewSpec | components/FloatingBar.tsx:72-118 | Nothing is rendered exactly while hidden. The countdown reads back as `timeLeft`, and Call is enabled exactly while not calling. |
| FloatingBar.FloatingBarWidget.constructor | components/FloatingBar.tsx:8-10 | The fields start in the `Init` state. |
| FloatingBar.FloatingBarWidget.OnRevealTimer | components/FloatingBar.tsx:13-19 | Performs `Reveal` in place. |
| FloatingBar.FloatingBarWidget.OnCountdownTick | components/FloatingBar.tsx:22-39 | Performs `Countdown` in place and keeps `timeLeft` ≥ 0. |
| FloatingBar.FloatingBarWidget.HandleCall | components/FloatingBar.tsx:42-49 | Performs `Call` in place. |
| FloatingBar.FloatingBarWidget.OnPostSettled | components/FloatingBar.tsx:56-62 | Performs `PostSettledStep` in place. |
| FloatingBar.FloatingBarWidget.OnCancel | components/FloatingBar.tsx:107 | Hides the bar and keeps `timeLeft` and `isCalling`. |
| Savings.Round | app/tool/page-csr.tsx:38 | `Math.round(x)` is the integer within half a unit of `x`, with halves rounded up. |
| Savings.RoundMonotone | app/tool/page-csr.tsx:38 | Rounding preserves order. |
| Savings.RoundNonNegative | app/tool/page-csr.tsx:38 | A non-negative number rounds to a non-negative integer. |
| Savings.RoundOfInt | app/tool/page-csr.tsx:38 | An integer rounds to itself. |
| Savings.ReceptionistMultipleOf100 | app/tool/page-csr.tsx:61-65 | Receptionist savings are `100 · round(0.25 · v)`, so they are a multiple of 100. |
| Savings.AppointmentSetterClosedForm | app/tool/page-csr.tsx:89-99 | Appointment-setter savings are `round(170 · v)`. |
| Savings.OnboardingClosedForm | app/tool/page-csr.tsx:130-143 | Onboarding savings are `round(1.35 · v · salary)`, that is `12 · v · (20 − 2) · salary / 160`. The salary falls back to 4000 when it is 0, which gives `round(5400 · v)`. |
| Savings.WorkflowClosedForm | app/tool/page-csr.tsx:167-187 | Workflow savings are `round(769.2 · v)`. |
| Savings.SavingsNonNegative | app/tool/page-csr.tsx:37-187 | A non-negative answer, and a non-negative salary, give non-negative savings in every section. |
| Savings.TotalIsSumOfSections | app/tool/page-csr.tsx:212-221 | The total is the sum of the five sections' savings, each computed from `Number(text) \|\| 0` of its input. |
| Savings.ZeroInputsZeroTotal | app/tool/page-csr.tsx:212-221 | When every section input reads as 0 (blank or not a number), the total is 0, whatever the salary. |
| Savings.InitialTotalIsZero | app/tool/page-csr.tsx:22-29 | The page starts with six blank inputs and a total of 0. |
| Savings.TotalNonNegative | app/tool/page-csr.tsx:212-221 | Non-negative inputs give a non-negative total. |
| Savings.HandleInputChange | app/tool/page-csr.tsx:208-210 | Only key `id` changes, to `value`; every other key keeps its value. |
| Savings.UnrelatedInputKeepsTotal | app/tool/page-csr.tsx:208-221 | Editing a key that no section reads leaves the total unchanged. |
| Savings.NonNumericIsZero | app/tool/page-csr.tsx:214 | Text holding a printable ASCII character that no JavaScript number can contain (not a digit, sign, point or white space, and no letter of an exponent, of a hex, octal or binary literal, or of `Infinity`) is NaN, so it counts as 0. |
| Savings.BlankIsZero | app/tool/page-csr.tsx:214 | Empty or all-white-space text reads as 0. |
| Savings.MalformedNumbersAreZero | app/tool/page-csr.tsx:214 | Text made only of number characters is also NaN, and counts as 0, when it is malformed: `-`, `.`, `1e`, `1.2.3`. |
| Savings.ParseNumeral | app/tool/page-csr.tsx:214 | A decimal numeral reads as its value. |
| Savings.ParseNegativeNumeral | app/tool/page-csr.tsx:214 | A minus sign before a numeral negates the value. |
| Submission.InitStatus | app/ai-assessment/page-csr.tsx:101-102 | The form starts not loading, with no error, nothing in flight and no navigation. |
| Submission.SubmitPreservesInv | app/ai-assessment/page-csr.tsx:107-128 | handleSubmit up to its `await` keeps this fact: loading implies a request in flight. |
| Submission.SettlePreservesInv | app/ai-assessment/page-csr.tsx:161-171 | A settling request keeps the same fact. |
| Submission.SubmitOutcome | app/ai-assessment/page-csr.tsx:107-128 | A POST is issued exactly when the form is complete and the webhook URL is set. An incomplete form reports "All fields are required." whatever the URL; a missing URL reports "Internal error. Please try again later.". Both refusals lower the loading flag. An issued POST keeps loading up and the error blank. |
| Submission.SettleOutcome | app/ai-assessment/page-csr.tsx:161-171 | Settling lowers loading. It navigates exactly on an `ok` response; a non-`ok` response or a throw reports "Failed to submit the form. Please try again.". |
| Submission.HandleSubmitOutcome | app/ai-agent-demo/page-csr.tsx:90-143 | A whole submit from idle, with its request settled: loading ends false; the form navigates exactly when complete, configured and `ok`; and the error is blank exactly then. |
| Submission.IdleMeansNotLoading | app/ai-assessment/page-csr.tsx:169-171 | With nothing in flight, loading is false. |
| AssessmentForm.InitForm | app/ai-assessment/page-csr.tsx:72-105 | The six text fields, the three selects, the agent list and the count record all start blank or empty. The Other flag starts false, and the invariant holds. |
| AssessmentForm.FinalIndustrySpec | app/ai-assessment/page-csr.tsx:112 | The industry sent is the free text for "Other" and the chosen industry otherwise. It is blank exactly when no industry is chosen, or "Other" is chosen with blank text. |
| AssessmentForm.CompleteSpec | app/ai-assessment/page-csr.tsx:114 | The gate passes exactly when the five text answers, the industry sent and the company size are all non-blank. |
| AssessmentForm.SetText | app/ai-assessment/page-csr.tsx:257-318 | A text input sets its own field. The other text fields, the selects, the Other flag, the agent list and the count record are all kept. |
| AssessmentForm.SelectSpec | app/ai-assessment/page-csr.tsx:184-202 | Each select stores a value exactly when its membership test accepts it, and a rejected value leaves the form unchanged. The industry select also sets `showOtherIndustry` to whether the value is "Other". |
| AssessmentForm.RemoveAll | app/ai-assessment/page-csr.tsx:176 | `filter` keeps exactly the items different from the agent, with their multiplicities. |
| AssessmentForm.RemoveAllAppend | app/ai-assessment/page-csr.tsx:176 | `filter` keeps the order: filtering a concatenation is concatenating the filtered parts. |
| AssessmentForm.ToggleMembership | app/ai-assessment/page-csr.tsx:174-178 | After a toggle the agent is present exactly when it was absent before, and no other item's membership changes. |
| AssessmentForm.RemoveAbsent | app/ai-assessment/page-csr.tsx:176 | Filtering out an absent agent changes nothing. |
| AssessmentForm.ToggleTwiceRestores | app/ai-assessment/page-csr.tsx:174-178 | Toggling an absent agent twice restores the list. |
| AssessmentForm.RemoveAllKeepsNoDuplicates | app/ai-assessment/page-csr.tsx:176 | Filtering keeps a list free of duplicates. |
| AssessmentForm.ToggleKeepsNoDuplicates | app/ai-assessment/page-csr.tsx:174-178 | Toggling keeps a duplicate-free list duplicate-free. |
| AssessmentForm.SetAgentsRequired | app/ai-assessment/page-csr.tsx:180-182 | Key `a` is set to `v` and every other key keeps its value. |
| AssessmentForm.StepPreservesInv | app/ai-assessment/page-csr.tsx:174-202 | Every handler keeps these facts: the three selects hold accepted values, `showOtherIndustry` is set exactly while the industry is "Other", and the agent list has no duplicates. |
| AssessmentForm.RunPreservesInv | app/ai-assessment/page-csr.tsx:174-202 | The invariant holds after any sequence of handler calls. |
| AssessmentForm.RenderedIndustryAccepted | app/ai-assessment/page-csr.tsx:358-426 | Of the industry options the page offers, only "Other" passes `isIndustry`. |
| AssessmentForm.RenderedCompanySizeRejected | app/ai-assessment/page-csr.tsx:464-466 | No company-size option the page offers passes `isCompanySize`. |
| AssessmentForm.RenderedCRMAccepted | app/ai-assessment/page-csr.tsx:486-495 | Every CRM option offered passes `isCRMSystem`. |
| AssessmentForm.OtherIndustryShown | app/ai-assessment/page-csr.tsx:347-353 | Choosing "Other" shows the free-text input. Any other offered industry is rejected and changes nothing. |
| AssessmentForm.CompanySizeStaysBlank | app/ai-assessment/page-csr.tsx:452-466 | Whatever the visitor does on the rendered page, `companySize` stays "". |
| AssessmentForm.AssessmentNeverSubmits | app/ai-assessment/page-csr.tsx:114-118 | So from the rendered page the gate always fails: every call of `handleSubmit` reports "All fields are required.", issues no POST and ends not loading. |
| AssessmentForm.AssessmentPage.constructor | app/ai-assessment/page-csr.tsx:72-105 | The fields start in `InitForm` and `InitStatus`. |
| AssessmentForm.AssessmentPage.OnTextInput | app/ai-assessment/page-csr.tsx:257-318 | Performs `SetText` in place. |
| AssessmentForm.AssessmentPage.OnIndustryChange | app/ai-assessment/page-csr.tsx:347-353 | Performs `SelectIndustry` in place. |
| AssessmentForm.AssessmentPage.OnCompanySizeChange | app/ai-assessment/page-csr.tsx:452-457 | Performs `SelectCompanySize` in place. |
| AssessmentForm.AssessmentPage.OnCRMChange | app/ai-assessment/page-csr.tsx:477-482 | Performs `SelectCRM` in place. |
| AssessmentForm.AssessmentPage.HandleAIAgentChange | app/ai-assessment/page-csr.tsx:174-178 | Toggles the agent in place and keeps the list duplicate-free. |
| AssessmentForm.AssessmentPage.HandleAgentsRequiredChange | app/ai-assessment/page-csr.tsx:180-182 | Performs the keyed update in place. |
| AssessmentForm.AssessmentPage.HandleSubmit | app/ai-assessment/page-csr.tsx:107-128 | Performs `Submission.Submit` with this form's gate and leaves the answers unchanged. It reports a POST exactly when the form is complete and the URL is set. |
| AssessmentForm.AssessmentPage.OnSubmitSettled | app/ai-assessment/page-csr.tsx:161-171 | Performs `Submission.Settle` in place. |
| DemoForm.InitAnswers | app/ai-agent-demo/page-csr.tsx:61-71 | Every answer and the language start blank. |
| DemoForm.SetText | app/ai-agent-demo/page-csr.tsx:171-356 | A plain setter changes its own field and keeps every other answer and the language. |
| DemoForm.CompleteSpec | app/ai-agent-demo/page-csr.tsx:95-99 | The gate passes exactly when the language and every answer except the knowledge-base link are non-blank. The link, and the FAQs, never matter. |
| DemoForm.BlankRequiredFails | app/ai-agent-demo/page-csr.tsx:95-99 | Blanking any of the nine required answers fails the gate. |
| DemoForm.SelectLanguageSpec | app/ai-agent-demo/page-csr.tsx:266-271 | The select stores the value exactly when `isValidLanguage` accepts it and otherwise keeps the old language. |
| DemoForm.SupportedLanguagesShape | app/ai-agent-demo/page-csr.tsx:74-85 | The list has 36 entries, and "" is not one of them. |
| DemoForm.RenderedLanguageAccepted | app/ai-agent-demo/page-csr.tsx:275-311 | Every language option offered passes `isValidLanguage`; the blank placeholder does not. |
| DemoForm.LanguageCannotReset | app/ai-agent-demo/page-csr.tsx:266-271 | Once a language is chosen, no sequence of select events returns it to "". |
| DemoForm.LanguageStaysValid | app/ai-agent-demo/page-csr.tsx:266-271 | After any select events, the language is "" or supported. A supported last pick is the stored language. |
| DemoForm.CopyFaqs | app/ai-agent-demo/page-csr.tsx:340 | `[...faqs]` is a fresh array with the same entries. |
| DemoForm.DemoPage.constructor | app/ai-agent-demo/page-csr.tsx:61-71 | The answers start blank and `faqs` starts as exactly five empty strings. |
| DemoForm.DemoPage.OnTextInput | app/ai-agent-demo/page-csr.tsx:171-356 | Performs `SetText` in place and keeps the FAQ array. |
| DemoForm.DemoPage.OnLanguageChange | app/ai-agent-demo/page-csr.tsx:266-271 | Performs `SelectLanguage` in place. |
| DemoForm.DemoPage.OnFaqChange | app/ai-agent-demo/page-csr.tsx:339-343 | The page holds a fresh array of length 5 whose entry `i` is the new text and whose other entries are the old ones. |
| DemoForm.DemoPage.HandleSubmit | app/ai-agent-demo/page-csr.tsx:90-109 | Performs `Submission.Submit` with the nine-field gate. It reports a POST exactly when the form is complete and the URL is set. |
| DemoForm.DemoPage.OnSubmitSettled | app/ai-agent-demo/page-csr.tsx:132-142 | Performs `Submission.Settle` in place. |

## Left out

- The unmount cleanups are not modelled: clearing timers, pausing and unloading the audio element (`app/DialWiseAgentBar.tsx:24-29, 103-106`). The model covers a mounted widget only.
- Loading the Vapi SDK script and the SDK's internals are foreign code (`app/DialWiseAgentBar.tsx:33-69`). Script load is the event `ScriptLoaded`. `start` is an abstract success or failure, and `stop` has no effect on the modelled state.
- The audio element is modelled as a paused flag, a position and `isAudioPlaying`. Actual playback, the autoplay policy and the `loop` attribute are host behaviour; a play rejection is an input.
- The floating bar's `playVibrationSound` creates an untracked `Audio` element that nothing reads back, so the model does not represent it.
- Real timing of `setTimeout`/`setInterval`, effect re-subscription and React batching are left out. Each timer firing and each settled promise is one atomic transition. An effect's response to a state change is folded into the transition that causes it (hide at 0 inside the countdown tick).
- I/O is left out: `fetch`, the JSON payloads, `response.json()`, `router.push` (modelled as a `navigated` flag), `process.env` (modelled as a "webhook configured" input), `new Date().toISOString()` and `console` output.
- Floating point is left out. The calculator is modelled over exact reals, so IEEE-754 rounding is absent. Example: `20 · (1 − 0.9)` is exactly 2 here. `toLocaleString` output, the sources and the citations are left out too.
- Savings.ParseNumber models `Number` on decimal text only. `Infinity`, hexadecimal, binary and octal literals, and Unicode white space beyond the ASCII controls are not modelled.
- The calculator's own submit button and the results view (`app/tool/page-csr.tsx:223` onward) lie outside the five formulas, the input handler and the total.
- The assessment form's other text inputs are plain setters whose values go only into the POST body (company website, the employee, lead and talk-time answers, CRM free text, AI budget, custom APIs). They are not modelled.
- AssessmentForm.SetAgentsRequired models `handleAgentsRequiredChange`. The inputs that call it are commented out of the page (`app/ai-assessment/page-csr.tsx:671-692`), so `Deliverable` excludes that event.
- The browser's constraint validation for the `required` attribute is not modelled (`app/ai-assessment/page-csr.tsx:260-523`, `app/ai-agent-demo/page-csr.tsx:174-321`). The model lets `handleSubmit` run on any form. On the assessment page, the company-size select stays on its blank placeholder, so the browser blocks the submit event before `handleSubmit` runs, and the message "All fields are required." is not actually seen there.
- The forms' submit buttons are disabled while loading. The model still allows a second submit while one is in flight and counts pending requests; it does not claim that the browser prevents it.

In these places the source is looser than a stricter reading of its intent, and the model follows the code:

- `handleStartCall` has no empty-assistant-id check and no guard against a second start while one is in flight.
- `isCalling` and `isConnected` can hold together (AgentBar.CallingWhileConnected).
- A start that resolves after Decline is not cancelled (AgentBar.LateStartAfterDecline).
- Only `call-end` resets the elapsed call time; Decline does not (AgentBar.DeclineKeepsDuration).
