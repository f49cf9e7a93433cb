/** The call-invitation widget of app/DialWiseAgentBar.tsx.

    The widget's React state, the ringing audio element and the in-flight voice-call
    start requests are gathered in one record, `Bar`. Every timer callback, button
    handler and SDK event is a transition function on `Bar`; the class
    `AgentBarWidget` at the end holds the same state in fields and its methods are
    proved to perform exactly those transitions. A timer that is not running, or a
    start request that does not exist, cannot fire: the corresponding transition is
    then the identity. */
module AgentBar {
  import opened Wrappers
  import TimeFormat

  /** Seconds on the countdown when the widget mounts (six minutes). */
  const CountdownStart: int := 360

  /** The looping ring tone element: whether it is paused and its playback position. */
  datatype Cue = Cue(paused: bool, position: nat)

  datatype Bar = Bar(
    visible: bool,
    timeLeft: int,
    isCalling: bool,
    isConnected: bool,
    callDuration: int,
    sdkReady: bool,         // the SDK script has loaded and `vapiInstance` is set
    isAudioPlaying: bool,
    cue: Cue,
    revealPending: bool,    // the one-shot reveal timer has not fired yet
    pendingStarts: nat)     // `start` calls whose promise has not settled

  /** What can happen to a mounted widget. */
  datatype Event =
    | ScriptLoaded
    | RevealTimer(playFails: bool)
    | CountdownTick
    | CallTimerTick
    | AnswerClick
    | StartSettledEvent(ok: bool)
    | DeclineClick
    | CallStartEvent
    | CallEndEvent
    | MediaClock(position: nat)

  /** The state right after mount: hidden, six minutes left, nothing playing. */
  function Init(): (s: Bar)
    ensures !s.visible && s.timeLeft == CountdownStart && !s.isCalling && !s.isConnected
    ensures s.callDuration == 0 && !s.isAudioPlaying && s.revealPending
    ensures Inv(s) && !Rendered(s)
  {
    Bar(false, CountdownStart, false, false, 0, false, false, Cue(true, 0), true, 0)
  }

  /** The component returns null while the bar is not visible. */
  predicate Rendered(s: Bar) {
    s.visible
  }

  /** The Answer button is disabled while dialing or connected. */
  predicate AnswerEnabled(s: Bar) {
    Rendered(s) && !(s.isCalling || s.isConnected)
  }

  /** The ring tone is silent: paused, rewound and flagged as not playing. */
  predicate Silent(s: Bar) {
    !s.isAudioPlaying && s.cue.paused && s.cue.position == 0
  }

  /** What holds in every state the widget can reach. */
  ghost predicate Inv(s: Bar) {
    && 0 <= s.timeLeft <= CountdownStart
    && s.callDuration >= 0
    && (s.isCalling ==> s.pendingStarts > 0)
    && (s.revealPending ==> !s.visible && s.timeLeft == CountdownStart)
    && (s.isAudioPlaying <==> !s.cue.paused)
    && (s.isAudioPlaying ==> s.visible)
    && (s.timeLeft == 0 ==> !s.visible)
  }

  // ---------------------------------------------------------------- transitions

  /** stopVibrationSound: pause, rewind, clear the flag. */
  function StopSound(s: Bar): Bar {
    s.(isAudioPlaying := false, cue := Cue(true, 0))
  }

  /** playVibrationSound: nothing when already playing; otherwise the element plays and
      the flag is set, or the play promise rejects and the flag is (re)set to false. */
  function PlaySound(s: Bar, playFails: bool): Bar {
    if s.isAudioPlaying then s
    else if playFails then s.(isAudioPlaying := false)
    else s.(isAudioPlaying := true, cue := s.cue.(paused := false))
  }

  /** The 7-second timeout: show the bar and try to ring. */
  function Reveal(s: Bar, playFails: bool): Bar {
    if !s.revealPending then s
    else PlaySound(s.(visible := true, revealPending := false), playFails)
  }

  /** The effect on `timeLeft`: once it is 0, hide the bar and silence the ring. */
  function HideAtZero(s: Bar): Bar {
    if s.timeLeft == 0 then StopSound(s.(visible := false)) else s
  }

  /** One second of countdown; the interval only runs while visible with time left. */
  function Countdown(s: Bar): Bar {
    if !(s.visible && s.timeLeft > 0) then s
    else HideAtZero(s.(timeLeft := s.timeLeft - 1))
  }

  /** One second of the call-duration interval, which only runs while connected. */
  function CallTick(s: Bar): Bar {
    if s.isConnected then s.(callDuration := s.callDuration + 1) else s
  }

  /** handleStartCall up to its `await`: nothing without an SDK instance; otherwise
      mark dialing, silence the ring and issue `start`. */
  function StartCall(s: Bar): Bar {
    if !s.sdkReady then s
    else StopSound(s.(isCalling := true, pendingStarts := s.pendingStarts + 1))
  }

  /** One pending `start` settles: on success the widget is connected; in both cases
      the `finally` clears `isCalling`. */
  function StartSettled(s: Bar, ok: bool): Bar {
    if s.pendingStarts == 0 then s
    else s.(isConnected := s.isConnected || ok, isCalling := false,
            pendingStarts := s.pendingStarts - 1)
  }

  /** handleEndCall. The SDK's `stop` has no effect on this state. */
  function EndCall(s: Bar): Bar {
    StopSound(s.(isCalling := false, isConnected := false, visible := false))
  }

  /** The SDK's `call-start` event. */
  function CallStarted(s: Bar): Bar {
    StopSound(s.(isConnected := true))
  }

  /** The SDK's `call-end` event. */
  function CallEnded(s: Bar): Bar {
    s.(isConnected := false, callDuration := 0)
  }

  /** The script's `onload`: the SDK instance becomes available. */
  function Loaded(s: Bar): Bar {
    s.(sdkReady := true)
  }

  /** The host's media clock moves the playback position of a playing element. */
  function MediaProgress(s: Bar, position: nat): Bar {
    if s.cue.paused then s else s.(cue := s.cue.(position := position))
  }

  function Step(s: Bar, e: Event): Bar {
    match e
    case ScriptLoaded => Loaded(s)
    case RevealTimer(playFails) => Reveal(s, playFails)
    case CountdownTick => Countdown(s)
    case CallTimerTick => CallTick(s)
    case AnswerClick => StartCall(s)
    case StartSettledEvent(ok) => StartSettled(s, ok)
    case DeclineClick => EndCall(s)
    case CallStartEvent => CallStarted(s)
    case CallEndEvent => CallEnded(s)
    case MediaClock(position) => MediaProgress(s, position)
  }

  function Run(s: Bar, es: seq<Event>): Bar
    decreases |es|
  {
    if es == [] then s else Run(Step(s, es[0]), es[1..])
  }

  // ---------------------------------------------------------------- rendering

  datatype Panel = Panel(
    elapsed: Option<string>,   // shown only while connected
    answerLabel: string,
    answerEnabled: bool,
    declineLabel: string,
    countdown: string)

  /** What the component renders: nothing while hidden, otherwise the panel. */
  function View(s: Bar): Option<Panel> {
    if !s.visible then None
    else Some(Panel(
      if s.isConnected then Some(TimeFormat.FormatTime(s.callDuration)) else None,
      if s.isConnected then "" else if s.isCalling then "..." else "Answer",
      !(s.isCalling || s.isConnected),
      if s.isConnected then "" else "Decline",
      TimeFormat.FormatTime(s.timeLeft)))
  }

  // ---------------------------------------------------------------- properties

  lemma StepPreservesInv(s: Bar, e: Event)
    requires Inv(s)
    ensures Inv(Step(s, e))
  {
  }

  /** Every state reachable from mount satisfies the invariant. */
  lemma {:induction false} RunPreservesInv(s: Bar, es: seq<Event>)
    requires Inv(s)
    ensures Inv(Run(s, es))
    decreases |es|
  {
    if es != [] {
      StepPreservesInv(s, es[0]);
      RunPreservesInv(Step(s, es[0]), es[1..]);
    }
  }

  /** From mount, whatever happens, the countdown stays within [0, 360], the ring only
      plays while the bar is shown and the bar is hidden once the countdown is at 0. */
  lemma Reachable(es: seq<Event>)
    ensures var s := Run(Init(), es);
            0 <= s.timeLeft <= CountdownStart && s.callDuration >= 0
            && (s.isAudioPlaying ==> s.visible) && (s.timeLeft == 0 ==> !s.visible)
  {
    RunPreservesInv(Init(), es);
  }

  lemma {:induction false} RunAppend(s: Bar, a: seq<Event>, b: seq<Event>)
    ensures Run(s, a + b) == Run(Run(s, a), b)
    decreases |a|
  {
    if a != [] {
      assert (a + b)[0] == a[0];
      assert (a + b)[1..] == a[1..] + b;
      RunAppend(Step(s, a[0]), a[1..], b);
    } else {
      assert a + b == b;
    }
  }

  /** Playing is a no-op while already playing; otherwise the flag ends up true exactly
      when the play succeeded, and only the audio changes. */
  lemma PlaySoundSpec(s: Bar, playFails: bool)
    ensures s.isAudioPlaying ==> PlaySound(s, playFails) == s
    ensures !s.isAudioPlaying ==>
              (PlaySound(s, playFails).isAudioPlaying <==> !playFails)
              && (playFails ==> PlaySound(s, playFails).cue == s.cue)
              && (!playFails ==> !PlaySound(s, playFails).cue.paused)
    ensures PlaySound(s, playFails).(isAudioPlaying := s.isAudioPlaying, cue := s.cue) == s
  {
  }

  /** Stopping leaves the ring silent and changes nothing else. */
  lemma StopSoundSpec(s: Bar)
    ensures Silent(StopSound(s))
    ensures StopSound(s).(isAudioPlaying := s.isAudioPlaying, cue := s.cue) == s
  {
  }

  /** The reveal shows the bar once; the ring plays exactly when `play` succeeds; a
      second firing is impossible (the timer is spent). */
  lemma RevealSpec(s: Bar, playFails: bool)
    requires Inv(s)
    ensures s.revealPending ==>
              Reveal(s, playFails).visible && !Reveal(s, playFails).revealPending
              && (Reveal(s, playFails).isAudioPlaying <==> !playFails)
    ensures !s.revealPending ==> Reveal(s, playFails) == s
  {
  }

  /** A countdown tick takes exactly one second off while the bar is visible with time
      left, and does nothing otherwise; the count never goes below 0. */
  lemma CountdownSpec(s: Bar)
    requires Inv(s)
    ensures s.visible && s.timeLeft > 0 ==> Countdown(s).timeLeft == s.timeLeft - 1
    ensures !(s.visible && s.timeLeft > 0) ==> Countdown(s) == s
    ensures Countdown(s).timeLeft >= 0
    ensures Countdown(s).(visible := s.visible, timeLeft := s.timeLeft,
                          isAudioPlaying := s.isAudioPlaying, cue := s.cue) == s
  {
  }

  /** The tick that reaches 0 hides the bar and silences the ring; earlier ticks keep
      the bar shown. */
  lemma HideAtZeroSpec(s: Bar)
    requires s.visible && s.timeLeft > 0
    ensures s.timeLeft == 1 ==> !Countdown(s).visible && Silent(Countdown(s))
    ensures s.timeLeft > 1 ==> Countdown(s).visible && Countdown(s).cue == s.cue
  {
  }

  /** Left alone from a visible state with `n` seconds left, `n` ticks end hidden and
      silent with the countdown at 0. */
  lemma {:induction false} CountdownExpires(s: Bar, n: nat)
    requires Inv(s) && s.visible && s.timeLeft == n && n > 0
    ensures var r := Run(s, seq(n, _ => CountdownTick));
            r.timeLeft == 0 && !r.visible && Silent(r)
    decreases n
  {
    var ticks := seq(n, _ => CountdownTick);
    assert ticks[0] == CountdownTick;
    assert ticks[1..] == seq(n - 1, _ => CountdownTick);
    var t := Countdown(s);
    StepPreservesInv(s, CountdownTick);
    if n == 1 {
      assert Run(t, ticks[1..]) == t;
    } else {
      CountdownExpires(t, n - 1);
    }
  }

  /** Mount, reveal, and 360 seconds without interaction: hidden and silent. */
  lemma IgnoredInvitationExpires(playFails: bool)
    ensures var r := Run(Init(), [RevealTimer(playFails)] + seq(CountdownStart, _ => CountdownTick));
            !r.visible && Silent(r) && r.timeLeft == 0
  {
    var s := Reveal(Init(), playFails);
    RunAppend(Init(), [RevealTimer(playFails)], seq(CountdownStart, _ => CountdownTick));
    assert Run(Init(), [RevealTimer(playFails)]) == s by {
      assert [RevealTimer(playFails)][1..] == [];
    }
    StepPreservesInv(Init(), RevealTimer(playFails));
    CountdownExpires(s, CountdownStart as nat);
  }

  /** Only the reveal timer makes the bar visible, and only while it is pending. */
  lemma OnlyRevealShows(s: Bar, e: Event)
    requires !s.visible && Step(s, e).visible
    ensures e.RevealTimer? && s.revealPending
  {
  }

  /** Once the reveal has fired and the bar is hidden, it stays hidden. */
  lemma {:induction false} HiddenForGood(s: Bar, es: seq<Event>)
    requires !s.revealPending && !s.visible
    ensures !Run(s, es).visible
    decreases |es|
  {
    if es != [] {
      var t := Step(s, es[0]);
      assert !t.revealPending;
      if t.visible {
        OnlyRevealShows(s, es[0]);
      }
      HiddenForGood(t, es[1..]);
    }
  }

  /** Answering without an SDK instance changes nothing; with one it dials and
      silences the ring without touching the connection or visibility. */
  lemma StartCallSpec(s: Bar)
    ensures !s.sdkReady ==> StartCall(s) == s
    ensures s.sdkReady ==>
              StartCall(s).isCalling && Silent(StartCall(s))
              && StartCall(s).isConnected == s.isConnected
              && StartCall(s).visible == s.visible
              && StartCall(s).pendingStarts == s.pendingStarts + 1
  {
  }

  /** When a start settles, `isCalling` is false; success connects, failure leaves the
      connection as it was. */
  lemma StartSettledSpec(s: Bar, ok: bool)
    requires s.pendingStarts > 0
    ensures !StartSettled(s, ok).isCalling
    ensures ok ==> StartSettled(s, ok).isConnected
    ensures !ok ==> StartSettled(s, ok).isConnected == s.isConnected
    ensures StartSettled(s, ok).visible == s.visible && StartSettled(s, ok).timeLeft == s.timeLeft
  {
  }

  /** Pressing Answer with an SDK instance and letting the start settle: not dialing,
      ring silenced, connected exactly when it succeeded or already was. */
  lemma AnswerOutcome(s: Bar, ok: bool)
    requires s.sdkReady
    ensures var r := StartSettled(StartCall(s), ok);
            !r.isCalling && Silent(r) && (r.isConnected <==> ok || s.isConnected)
            && r.visible == s.visible
  {
  }

  /** Decline/End: not dialing, not connected, hidden, silent; twice is once. */
  lemma EndCallSpec(s: Bar)
    ensures var r := EndCall(s);
            !r.isCalling && !r.isConnected && !r.visible && Silent(r)
            && r.timeLeft == s.timeLeft && r.callDuration == s.callDuration
    ensures EndCall(EndCall(s)) == EndCall(s)
  {
  }

  /** `call-start` connects and silences; `call-end` disconnects and zeroes the timer. */
  lemma SdkEventsSpec(s: Bar)
    ensures CallStarted(s).isConnected && Silent(CallStarted(s))
    ensures CallStarted(s).visible == s.visible && CallStarted(s).isCalling == s.isCalling
    ensures !CallEnded(s).isConnected && CallEnded(s).callDuration == 0
    ensures CallEnded(s).(isConnected := s.isConnected, callDuration := s.callDuration) == s
  {
  }

  /** The call timer adds one second per tick while connected, nothing otherwise. */
  lemma CallTickSpec(s: Bar)
    ensures CallTick(s).callDuration == s.callDuration + (if s.isConnected then 1 else 0)
    ensures CallTick(s).(callDuration := s.callDuration) == s
  {
  }

  /** While disconnected, any number of call-timer ticks leave the state alone. */
  lemma {:induction false} NoTicksWhileDisconnected(s: Bar, n: nat)
    requires !s.isConnected
    ensures Run(s, seq(n, _ => CallTimerTick)) == s
    decreases n
  {
    if n > 0 {
      var ticks := seq(n, _ => CallTimerTick);
      assert ticks[0] == CallTimerTick;
      assert ticks[1..] == seq(n - 1, _ => CallTimerTick);
      NoTicksWhileDisconnected(s, n - 1);
    }
  }

  /** Disconnected by `call-end` after `k` seconds: duration back to 0 and it stays 0
      under further ticks. */
  lemma CallEndResetsDuration(s: Bar, n: nat)
    ensures Run(CallEnded(s), seq(n, _ => CallTimerTick)).callDuration == 0
  {
    NoTicksWhileDisconnected(CallEnded(s), n);
  }

  /** The rendered panel: nothing while hidden; otherwise the countdown in `M:SS`,
      which reads back as the seconds left, and the elapsed time only while connected. */
  lemma ViewSpec(s: Bar)
    requires Inv(s)
    ensures View(s).None? <==> !s.visible
    ensures View(s).Some? ==>
              TimeFormat.ParseTime(View(s).value.countdown) == Some(s.timeLeft as nat)
              && (View(s).value.elapsed.Some? <==> s.isConnected)
              && (View(s).value.answerEnabled <==> AnswerEnabled(s))
  {
    if s.visible {
      TimeFormat.FormatTimeRoundTrip(s.timeLeft);
    }
  }

  // ---------------------------------------------------------------- scenarios

  /** A start that resolves after Decline is not cancelled: the widget ends up
      connected although the bar is hidden. */
  lemma LateStartAfterDecline()
    ensures var r := Run(Init(), [ScriptLoaded, RevealTimer(false), AnswerClick, DeclineClick,
                                  StartSettledEvent(true)]);
            r.isConnected && !r.visible && !r.isCalling
  {
  }

  /** `isCalling` and `isConnected` can hold together: `call-start` arrives before the
      `start` promise settles. */
  lemma CallingWhileConnected()
    ensures var r := Run(Init(), [ScriptLoaded, RevealTimer(false), AnswerClick, CallStartEvent]);
            r.isCalling && r.isConnected
  {
  }

  /** Decline does not reset the elapsed call time; only `call-end` does. */
  lemma DeclineKeepsDuration()
    ensures var r := Run(Init(), [ScriptLoaded, CallStartEvent, CallTimerTick, DeclineClick]);
            !r.isConnected && r.callDuration == 1
  {
  }

  /** The widget object: the same state held in fields, updated in place. */
  class AgentBarWidget {
    var visible: bool
    var timeLeft: int
    var isCalling: bool
    var isConnected: bool
    var callDuration: int
    var sdkReady: bool
    var isAudioPlaying: bool
    var audioPaused: bool
    var audioPosition: nat
    var revealPending: bool
    var pendingStarts: nat

    ghost function State(): Bar
      reads this
    {
      Bar(visible, timeLeft, isCalling, isConnected, callDuration, sdkReady,
          isAudioPlaying, Cue(audioPaused, audioPosition), revealPending, pendingStarts)
    }

    ghost predicate Valid()
      reads this
    {
      Inv(State())
    }

    /** Mount: the initial state, the audio element created (paused, at 0, looping). */
    constructor ()
      ensures Valid() && State() == Init()
    {
      visible, timeLeft, isCalling, isConnected, callDuration := false, CountdownStart, false, false, 0;
      sdkReady, isAudioPlaying, audioPaused, audioPosition := false, false, true, 0;
      revealPending, pendingStarts := true, 0;
    }

    method StopVibrationSound()
      modifies this
      ensures State() == StopSound(old(State()))
    {
      audioPaused := true;
      audioPosition := 0;
      isAudioPlaying := false;
    }

    method PlayVibrationSound(playFails: bool)
      modifies this
      ensures State() == PlaySound(old(State()), playFails)
    {
      if isAudioPlaying {
        return;
      }
      if playFails {
        isAudioPlaying := false;
      } else {
        audioPaused := false;
        isAudioPlaying := true;
      }
    }

    method OnScriptLoaded()
      requires Valid()
      modifies this
      ensures Valid() && State() == Loaded(old(State()))
    {
      sdkReady := true;
    }

    method OnRevealTimer(playFails: bool)
      requires Valid()
      modifies this
      ensures Valid() && State() == Reveal(old(State()), playFails)
      ensures old(revealPending) ==> visible && (isAudioPlaying <==> !playFails)
    {
      if !revealPending {
        return;
      }
      revealPending := false;
      visible := true;
      PlayVibrationSound(playFails);
    }

    /** The effect that watches `timeLeft`. */
    method HideWhenExpired()
      modifies this
      ensures State() == HideAtZero(old(State()))
    {
      if timeLeft == 0 {
        visible := false;
        StopVibrationSound();
      }
    }

    method OnCountdownTick()
      requires Valid()
      modifies this
      ensures Valid() && State() == Countdown(old(State()))
      ensures timeLeft >= 0
    {
      if !visible || timeLeft <= 0 {
        return;
      }
      timeLeft := timeLeft - 1;
      HideWhenExpired();
      StepPreservesInv(old(State()), CountdownTick);
    }

    method OnCallTimerTick()
      requires Valid()
      modifies this
      ensures Valid() && State() == CallTick(old(State()))
    {
      if isConnected {
        callDuration := callDuration + 1;
      }
    }

    /** handleStartCall up to its `await`. No check on the assistant id, and no guard
        against a start already in flight. */
    method HandleStartCall()
      requires Valid()
      modifies this
      ensures Valid() && State() == StartCall(old(State()))
    {
      if !sdkReady {
        return;
      }
      isCalling := true;
      pendingStarts := pendingStarts + 1;
      StopVibrationSound();
    }

    /** The continuation of handleStartCall when its `start` promise settles. */
    method OnStartSettled(ok: bool)
      requires Valid()
      modifies this
      ensures Valid() && State() == StartSettled(old(State()), ok)
      ensures old(pendingStarts) > 0 ==> !isCalling
    {
      if pendingStarts == 0 {
        return;
      }
      pendingStarts := pendingStarts - 1;
      if ok {
        isConnected := true;
      }
      isCalling := false;
    }

    method HandleEndCall()
      requires Valid()
      modifies this
      ensures Valid() && State() == EndCall(old(State()))
      ensures !isCalling && !isConnected && !visible && !isAudioPlaying
    {
      isCalling := false;
      isConnected := false;
      visible := false;
      StopVibrationSound();
    }

    method OnCallStart()
      requires Valid()
      modifies this
      ensures Valid() && State() == CallStarted(old(State()))
    {
      isConnected := true;
      StopVibrationSound();
    }

    method OnCallEnd()
      requires Valid()
      modifies this
      ensures Valid() && State() == CallEnded(old(State()))
    {
      isConnected := false;
      callDuration := 0;
    }

    method OnMediaClock(position: nat)
      requires Valid()
      modifies this
      ensures Valid() && State() == MediaProgress(old(State()), position)
    {
      if !audioPaused {
        audioPosition := position;
      }
    }
  }

  /** Scenario C: a failed start leaves the bar visible, not dialing, not connected. */
  method FailedStartScenario(w: AgentBarWidget) returns (visible: bool, calling: bool, connected: bool)
    requires w.Valid() && w.State() == Init()
    modifies w
    ensures visible && !calling && !connected
  {
    w.OnScriptLoaded();
    w.OnRevealTimer(true);
    w.HandleStartCall();
    w.OnStartSettled(false);
    visible, calling, connected := w.visible, w.isCalling, w.isConnected;
  }
}
