/** The submit handler shared by the two lead forms (app/ai-assessment/page-csr.tsx and
    app/ai-agent-demo/page-csr.tsx): raise the loading flag and clear the error, refuse
    an incomplete form, refuse a missing webhook URL, otherwise POST and, when the
    request settles, either navigate to the thank-you page or show a failure message.
    The `finally` clears the loading flag on every path.

    The handler is split at its `await`: `Submit` is the synchronous part, `Settle`
    what runs when the request resolves or throws. Whether the form is complete is
    decided by each form and passed in; the webhook URL and the response are inputs. */
module Submission {

  const MissingFields: string := "All fields are required."
  const InternalError: string := "Internal error. Please try again later."
  const SubmitFailed: string := "Failed to submit the form. Please try again."

  /** How an issued POST ends: a response with `ok`, one without, or a thrown error
      (network failure). The last two reach the same `catch`. */
  datatype Response = OkResponse | NotOkResponse | FetchThrew

  datatype Status = Status(
    isLoading: bool,
    error: string,
    pendingPosts: nat,   // POSTs issued and not yet settled
    navigated: bool)     // `router.push("/thank-you")` has been called

  function InitStatus(): (st: Status)
    ensures !st.isLoading && st.error == "" && st.pendingPosts == 0 && !st.navigated
    ensures StatusInv(st)
  {
    Status(false, "", 0, false)
  }

  /** The loading flag is only up while a request is in flight. */
  ghost predicate StatusInv(st: Status) {
    st.isLoading ==> st.pendingPosts > 0
  }

  /** handleSubmit up to its `await`. */
  function Submit(st: Status, complete: bool, webhookConfigured: bool): Status {
    var started := st.(isLoading := true, error := "");
    if !complete then started.(error := MissingFields, isLoading := false)
    else if !webhookConfigured then started.(error := InternalError, isLoading := false)
    else started.(pendingPosts := st.pendingPosts + 1)
  }

  /** The awaited request settles: `ok` navigates, anything else sets the failure
      message; the `finally` clears the loading flag. */
  function Settle(st: Status, response: Response): Status {
    if st.pendingPosts == 0 then st
    else
      var done := st.(pendingPosts := st.pendingPosts - 1, isLoading := false);
      if response == OkResponse then done.(navigated := true)
      else done.(error := SubmitFailed)
  }

  // ---------------------------------------------------------------- properties

  lemma SubmitPreservesInv(st: Status, complete: bool, webhookConfigured: bool)
    requires StatusInv(st)
    ensures StatusInv(Submit(st, complete, webhookConfigured))
  {
  }

  lemma SettlePreservesInv(st: Status, response: Response)
    requires StatusInv(st)
    ensures StatusInv(Settle(st, response))
  {
  }

  /** A POST is issued exactly when the form is complete and the webhook URL is set.
      An incomplete form is refused first, whatever the URL; then a missing URL. A
      refused submit ends with the loading flag down and its message shown; an issued
      one leaves the loading flag up and the error blank until it settles. Navigation
      never happens here. */
  lemma SubmitOutcome(st: Status, complete: bool, webhookConfigured: bool)
    ensures var r := Submit(st, complete, webhookConfigured);
            && (r.pendingPosts == st.pendingPosts + 1 <==> complete && webhookConfigured)
            && (!(complete && webhookConfigured) ==> r.pendingPosts == st.pendingPosts)
            && (!complete ==> !r.isLoading && r.error == MissingFields)
            && (complete && !webhookConfigured ==> !r.isLoading && r.error == InternalError)
            && (complete && webhookConfigured ==> r.isLoading && r.error == "")
            && r.navigated == st.navigated
  {
  }

  /** Settling an issued request always lowers the loading flag; it navigates exactly
      on an `ok` response, and otherwise shows the failure message. */
  lemma SettleOutcome(st: Status, response: Response)
    requires st.pendingPosts > 0
    ensures var r := Settle(st, response);
            && !r.isLoading
            && r.pendingPosts == st.pendingPosts - 1
            && (r.navigated <==> st.navigated || response == OkResponse)
            && (response == OkResponse ==> r.error == st.error)
            && (response != OkResponse ==> r.error == SubmitFailed)
  {
  }

  /** With nothing in flight, a settle changes nothing. */
  lemma SettleWithoutRequest(st: Status, response: Response)
    requires st.pendingPosts == 0
    ensures Settle(st, response) == st
  {
  }

  /** A whole submit from an idle form, the request (if any) settled: loading is down
      in every case, the form navigates exactly when everything went right, and the
      error is blank exactly then. */
  lemma HandleSubmitOutcome(st: Status, complete: bool, webhookConfigured: bool, response: Response)
    requires st.pendingPosts == 0 && !st.navigated
    ensures var r := Settle(Submit(st, complete, webhookConfigured), response);
            && !r.isLoading
            && r.pendingPosts == 0
            && (r.navigated <==> complete && webhookConfigured && response == OkResponse)
            && (r.error == "" <==> r.navigated)
            && (!complete ==> r.error == MissingFields)
            && (complete && !webhookConfigured ==> r.error == InternalError)
            && (complete && webhookConfigured && response != OkResponse ==> r.error == SubmitFailed)
  {
    SubmitOutcome(st, complete, webhookConfigured);
    var s1 := Submit(st, complete, webhookConfigured);
    if complete && webhookConfigured {
      SettleOutcome(s1, response);
    } else {
      SettleWithoutRequest(s1, response);
    }
  }

  /** Once nothing is in flight, the loading flag is down. */
  lemma IdleMeansNotLoading(st: Status)
    requires StatusInv(st) && st.pendingPosts == 0
    ensures !st.isLoading
  {
  }
}
