/** The earlier call prompt of components/FloatingBar.tsx: the same countdown as the
    call-invitation widget, with a Call button that posts to a webhook and a Cancel
    button. As in module AgentBar, the state is a record, each callback a transition
    function, and the class `FloatingBarWidget` performs those transitions in place. */
module FloatingBar {
  import opened Wrappers
  import TimeFormat

  const CountdownStart: int := 360

  datatype Floating = Floating(
    visible: bool,
    timeLeft: int,
    isCalling: bool,
    revealPending: bool,   // the one-shot 7-second timer has not fired yet
    pendingPosts: nat)     // webhook requests issued by handleCall and not yet settled

  datatype Event =
    | RevealTimer
    | CountdownTick
    | CallClick(webhookConfigured: bool)
    | PostSettled
    | CancelClick

  function Init(): (s: Floating)
    ensures !s.visible && s.timeLeft == CountdownStart && !s.isCalling && s.revealPending
    ensures Inv(s) && View(s).None?
  {
    Floating(false, CountdownStart, false, true, 0)
  }

  ghost predicate Inv(s: Floating) {
    && 0 <= s.timeLeft <= CountdownStart
    && (s.revealPending ==> !s.visible && s.timeLeft == CountdownStart)
    && (s.timeLeft == 0 ==> !s.visible)
    && (s.isCalling ==> s.pendingPosts > 0)
  }

  /** The 7-second timeout. The sound it starts is a fresh, untracked audio element. */
  function Reveal(s: Floating): Floating {
    if !s.revealPending then s else s.(visible := true, revealPending := false)
  }

  /** The effect on `timeLeft`: hide once it is 0. */
  function HideAtZero(s: Floating): Floating {
    if s.timeLeft == 0 then s.(visible := false) else s
  }

  /** One second of the interval, which runs only while visible with time left. */
  function Countdown(s: Floating): Floating {
    if !(s.visible && s.timeLeft > 0) then s
    else HideAtZero(s.(timeLeft := s.timeLeft - 1))
  }

  /** handleCall up to its `await`. Without a webhook URL the `throw` is caught and the
      `finally` runs before anything is awaited, so `isCalling` is set and cleared in
      the same handler; otherwise the request is in flight and `isCalling` is true. */
  function Call(s: Floating, webhookConfigured: bool): Floating {
    var calling := s.(isCalling := true);
    if !webhookConfigured then calling.(isCalling := false)
    else calling.(pendingPosts := s.pendingPosts + 1)
  }

  /** A webhook request settles (response read, or fetch/parse error): the `finally`
      clears `isCalling`. */
  function PostSettledStep(s: Floating): Floating {
    if s.pendingPosts == 0 then s
    else s.(isCalling := false, pendingPosts := s.pendingPosts - 1)
  }

  /** The Cancel button. */
  function Cancel(s: Floating): Floating {
    s.(visible := false)
  }

  function Step(s: Floating, e: Event): Floating {
    match e
    case RevealTimer => Reveal(s)
    case CountdownTick => Countdown(s)
    case CallClick(configured) => Call(s, configured)
    case PostSettled => PostSettledStep(s)
    case CancelClick => Cancel(s)
  }

  function Run(s: Floating, es: seq<Event>): Floating
    decreases |es|
  {
    if es == [] then s else Run(Step(s, es[0]), es[1..])
  }

  datatype Panel = Panel(callLabel: string, callEnabled: bool, countdown: string)

  /** Nothing while hidden; otherwise the Call button and the countdown. */
  function View(s: Floating): Option<Panel> {
    if !s.visible then None
    else Some(Panel(if s.isCalling then "Calling..." else "Call", !s.isCalling,
                    TimeFormat.FormatTime(s.timeLeft)))
  }

  // ---------------------------------------------------------------- properties

  lemma StepPreservesInv(s: Floating, e: Event)
    requires Inv(s)
    ensures Inv(Step(s, e))
  {
  }

  lemma {:induction false} RunPreservesInv(s: Floating, es: seq<Event>)
    requires Inv(s)
    ensures Inv(Run(s, es))
    decreases |es|
  {
    if es != [] {
      StepPreservesInv(s, es[0]);
      RunPreservesInv(Step(s, es[0]), es[1..]);
    }
  }

  /** From mount, the countdown stays within [0, 360] and the bar is hidden at 0. */
  lemma Reachable(es: seq<Event>)
    ensures var s := Run(Init(), es);
            0 <= s.timeLeft <= CountdownStart && (s.timeLeft == 0 ==> !s.visible)
  {
    RunPreservesInv(Init(), es);
  }

  /** The reveal shows the bar once and is spent afterwards. */
  lemma RevealSpec(s: Floating)
    ensures s.revealPending ==> Reveal(s).visible && !Reveal(s).revealPending
    ensures !s.revealPending ==> Reveal(s) == s
  {
  }

  /** Only a pending reveal makes the bar visible. */
  lemma OnlyRevealShows(s: Floating, e: Event)
    requires !s.visible && Step(s, e).visible
    ensures e == RevealTimer && s.revealPending
  {
  }

  /** Once the reveal has fired, a hidden bar never shows again. */
  lemma {:induction false} HiddenForGood(s: Floating, es: seq<Event>)
    requires !s.revealPending && !s.visible
    ensures !Run(s, es).visible
    decreases |es|
  {
    if es != [] {
      var t := Step(s, es[0]);
      if t.visible {
        OnlyRevealShows(s, es[0]);
      }
      HiddenForGood(t, es[1..]);
    }
  }

  /** A tick takes one second off while visible with time left and does nothing
      otherwise; the tick that reaches 0 hides the bar. */
  lemma CountdownSpec(s: Floating)
    requires Inv(s)
    ensures s.visible && s.timeLeft > 0 ==> Countdown(s).timeLeft == s.timeLeft - 1
    ensures !(s.visible && s.timeLeft > 0) ==> Countdown(s) == s
    ensures Countdown(s).timeLeft >= 0
    ensures Countdown(s).visible <==> s.visible && s.timeLeft > 1
    ensures Countdown(s).isCalling == s.isCalling
  {
  }

  /** Cancel hides the bar and keeps `timeLeft` and `isCalling`. */
  lemma CancelSpec(s: Floating)
    ensures !Cancel(s).visible
    ensures Cancel(s).timeLeft == s.timeLeft && Cancel(s).isCalling == s.isCalling
    ensures Cancel(s).(visible := s.visible) == s
  {
  }

  /** handleCall leaves `isCalling` false once it is over, on every path: no URL, a
      response, or an error. While a request is in flight `isCalling` is true. */
  lemma HandleCallBracket(s: Floating, configured: bool)
    ensures !configured ==> !Call(s, configured).isCalling
    ensures configured ==> Call(s, configured).isCalling
    ensures configured ==> !PostSettledStep(Call(s, configured)).isCalling
    ensures Call(s, configured).visible == s.visible
    ensures Call(s, configured).timeLeft == s.timeLeft
  {
  }

  /** The visible countdown always has two digits after its colon. */
  lemma ViewSpec(s: Floating)
    requires Inv(s)
    ensures View(s).None? <==> !s.visible
    ensures View(s).Some? ==>
              TimeFormat.ParseTime(View(s).value.countdown) == Some(s.timeLeft as nat)
              && (View(s).value.callEnabled <==> !s.isCalling)
  {
    if s.visible {
      TimeFormat.FormatTimeRoundTrip(s.timeLeft);
    }
  }

  class FloatingBarWidget {
    var visible: bool
    var timeLeft: int
    var isCalling: bool
    var revealPending: bool
    var pendingPosts: nat

    ghost function State(): Floating
      reads this
    {
      Floating(visible, timeLeft, isCalling, revealPending, pendingPosts)
    }

    ghost predicate Valid()
      reads this
    {
      Inv(State())
    }

    constructor ()
      ensures Valid() && State() == Init()
    {
      visible, timeLeft, isCalling := false, CountdownStart, false;
      revealPending, pendingPosts := true, 0;
    }

    method OnRevealTimer()
      requires Valid()
      modifies this
      ensures Valid() && State() == Reveal(old(State()))
    {
      if revealPending {
        revealPending := false;
        visible := true;
      }
    }

    method OnCountdownTick()
      requires Valid()
      modifies this
      ensures Valid() && State() == Countdown(old(State()))
      ensures timeLeft >= 0
    {
      if !(visible && timeLeft > 0) {
        return;
      }
      timeLeft := timeLeft - 1;
      if timeLeft == 0 {
        visible := false;
      }
    }

    /** handleCall up to its `await`. */
    method HandleCall(webhookConfigured: bool)
      requires Valid()
      modifies this
      ensures Valid() && State() == Call(old(State()), webhookConfigured)
    {
      isCalling := true;
      if !webhookConfigured {
        isCalling := false;
        return;
      }
      pendingPosts := pendingPosts + 1;
    }

    method OnPostSettled()
      requires Valid()
      modifies this
      ensures Valid() && State() == PostSettledStep(old(State()))
    {
      if pendingPosts > 0 {
        pendingPosts := pendingPosts - 1;
        isCalling := false;
      }
    }

    method OnCancel()
      requires Valid()
      modifies this
      ensures Valid() && State() == Cancel(old(State()))
      ensures !visible && timeLeft == old(timeLeft) && isCalling == old(isCalling)
    {
      visible := false;
    }
  }
}
