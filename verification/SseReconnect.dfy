/**
  The event-stream connection of the dashboard (Web/app.js, startSSE, and the retry button of Web/ux_conn.js): an
  EventSource, reconnect timers, a stale-check interval, and a retry delay that doubles on failure.
 */
module SseReconnect {
  import opened Common

  const FIRST_DELAY: nat := 1000
  const LAST_DELAY: nat := 15000

  /**
    `source` is the page's current EventSource, `open` every one that was created and not closed. `timers` holds
    the pending reconnect timers with the delay each was set to, `intervals` the running stale checks. `banner` says
    whether the connectivity banner is shown, and with it the button `Retry now`. `badge` says whether the status
    badge is on the page: setSystemBadge does nothing without it.
   */
  datatype Stream = Stream(
    badge: bool, banner: bool, source: Option<nat>, open: set<nat>, nextSource: nat, retryDelay: nat,
    timers: map<nat, nat>, nextTimer: nat,
    staleTimer: Option<nat>, intervals: set<nat>, nextInterval: nat)

  function BeforeStart(badge: bool): Stream {
    Stream(badge, false, None, {}, 0, FIRST_DELAY, map[], 0, None, {}, 0)
  }

  /** startSSE: whatever timers are pending stay so. */
  function Start(s: Stream): Stream {
    var closed := if s.source.Some? then s.open - {s.source.value} else s.open;
    s.(source := Some(s.nextSource), open := closed + {s.nextSource}, nextSource := s.nextSource + 1,
       retryDelay := if s.badge then FIRST_DELAY else s.retryDelay)
  }

  /** `SnapshotArrived` and `SnapshotFailed` stand for every request that tells the banner about the connection. */
  datatype Event =
    | Opened(source: nat)
    | Data(source: nat)
    | Heartbeat(source: nat)
    | Failed(source: nat)
    | Reconnect(timer: nat)
    | StaleCheck(interval: nat, stale: bool)
    | SnapshotArrived
    | SnapshotFailed
    | Retry

  /** A closed EventSource delivers nothing more; the button is there while the banner is. */
  predicate Enabled(s: Stream, e: Event) {
    match e
    case Reconnect(t) => t in s.timers
    case StaleCheck(i, _) => i in s.intervals
    case SnapshotArrived => true
    case SnapshotFailed => true
    case Retry => s.banner
    case _ => e.source in s.open
  }

  function OnOpen(s: Stream): Stream {
    s.(banner := false, retryDelay := FIRST_DELAY,
       staleTimer := Some(s.nextInterval),
       intervals := (if s.staleTimer.Some? then s.intervals - {s.staleTimer.value} else s.intervals) + {s.nextInterval},
       nextInterval := s.nextInterval + 1)
  }

  function OnError(s: Stream): Stream {
    if s.source.None? then s.(banner := true)
    else s.(banner := true, open := s.open - {s.source.value}, source := None,
            timers := s.timers[s.nextTimer := Min(s.retryDelay, LAST_DELAY)], nextTimer := s.nextTimer + 1,
            retryDelay := Min(s.retryDelay * 2, LAST_DELAY))
  }

  function Step(s: Stream, e: Event): Stream
    requires Enabled(s, e)
  {
    match e
    case Opened(_) => OnOpen(s)
    case Data(_) => s.(banner := false, retryDelay := FIRST_DELAY)
    case Heartbeat(_) => s.(banner := false)
    case Failed(_) => OnError(s)
    case Reconnect(t) =>
      var fired := s.(timers := s.timers - {t});
      if s.source.None? then Start(fired) else fired
    case StaleCheck(_, stale) => s.(banner := s.banner || (s.source.Some? && stale))
    case SnapshotArrived => s.(banner := false)
    case SnapshotFailed => s.(banner := true)  // setSystemBadge('disconnected') touches the badge only
    case Retry => Start(s)
  }

  /** The stream after startup and then the events, if each was possible when it came. */
  ghost function After(badge: bool, es: seq<Event>): Option<Stream> {
    if es == [] then Some(Start(BeforeStart(badge)))
    else
      var before := After(badge, es[..|es| - 1]);
      if before.Some? && Enabled(before.value, es[|es| - 1]) then Some(Step(before.value, es[|es| - 1])) else None
  }

  lemma Next(badge: bool, es: seq<Event>, e: Event)
    ensures After(badge, es + [e]) == if After(badge, es).Some? && Enabled(After(badge, es).value, e)
                                      then Some(Step(After(badge, es).value, e)) else None
  {
    assert (es + [e])[..|es|] == es;
    hide Step, Enabled;
  }

  // ---------------------------------------------------------------- what every run keeps

  /**
    No EventSource is open but the current one; without one an attempt is pending, the newest timer's at that; every
    delay is within 1 and 15 seconds; the stale check that is remembered is the only one.
   */
  ghost predicate Kept(s: Stream) {
    && s.open == (if s.source.Some? then {s.source.value} else {})
    && (s.source.Some? ==> s.source.value < s.nextSource)
    && (s.source.None? ==> s.nextTimer > 0 && s.nextTimer - 1 in s.timers)
    && (forall t :: t in s.timers ==> t < s.nextTimer && FIRST_DELAY <= s.timers[t] <= LAST_DELAY)
    && FIRST_DELAY <= s.retryDelay <= LAST_DELAY
    && s.intervals == (if s.staleTimer.Some? then {s.staleTimer.value} else {})
  }

  lemma StepKeeps(s: Stream, e: Event)
    requires Kept(s) && Enabled(s, e)
    ensures Kept(Step(s, e)) && Step(s, e).badge == s.badge
  { }

  /**
    Over every run, retried or not: at most one EventSource is open, and never neither one nor a pending attempt; at
    most one stale check runs; every delay is within 1 and 15 seconds.
   */
  lemma {:induction false} NeverGivesUpNorDoubles(badge: bool, es: seq<Event>)
    requires After(badge, es).Some?
    ensures var s := After(badge, es).value;
      && Kept(s) && s.badge == badge
      && |s.open| == (if s.source.Some? then 1 else 0) && (s.source.None? ==> s.timers != map[])
      && |s.intervals| <= 1
      && forall t :: t in s.timers ==> 1000 <= s.timers[t] <= 15000
  {
    if es != [] {
      NeverGivesUpNorDoubles(badge, es[..|es| - 1]);
      StepKeeps(After(badge, es[..|es| - 1]).value, es[|es| - 1]);
      hide Step, Enabled;
    }
  }

  /** How many EventSources the run has created: one at startup, one by each retry and each timer that found none. */
  ghost function Created(badge: bool, es: seq<Event>): nat
    requires After(badge, es).Some?
  {
    if es == [] then 1
    else
      var front, e := es[..|es| - 1], es[|es| - 1];
      Created(badge, front)
      + if e.Retry? || (e.Reconnect? && After(badge, front).value.source.None?) then 1 else 0
  }

  /** How often the stream has opened. */
  ghost function Openings(es: seq<Event>): nat {
    if es == [] then 0 else Openings(es[..|es| - 1]) + if es[|es| - 1].Opened? then 1 else 0
  }

  ghost predicate NewestOnes(s: Stream, sources: nat, openings: nat) {
    && s.nextSource == sources && s.nextInterval == openings
    && (s.source.Some? ==> s.source.value + 1 == sources)
    && (if openings == 0 then s.staleTimer.None? else s.staleTimer == Some(openings - 1))
  }

  /** The current EventSource is the newest of all, and the running stale check belongs to the last opening. */
  lemma {:induction false} TheNewestIsCurrent(badge: bool, es: seq<Event>)
    requires After(badge, es).Some?
    ensures NewestOnes(After(badge, es).value, Created(badge, es), Openings(es))
  {
    if es != [] { TheNewestIsCurrent(badge, es[..|es| - 1]); }
  }

  // ---------------------------------------------------------------- one connection or one attempt

  /** Exactly one of a current EventSource and one pending reconnect timer. */
  ghost predicate ExactlyOne(s: Stream) {
    |s.timers| == if s.source.Some? then 0 else 1
  }

  /** The connection and the attempts to get one, all told. */
  function Connections(s: Stream): nat {
    |s.timers| + if s.source.Some? then 1 else 0
  }

  /** A retry while no EventSource is current adds one; a timer that fires while one is current takes one away. */
  function Change(s: Stream, e: Event): int {
    if e.Retry? && s.source.None? then 1 else if e.Reconnect? && s.source.Some? then -1 else 0
  }

  lemma StepChanges(s: Stream, e: Event)
    requires Kept(s) && Enabled(s, e)
    ensures Connections(Step(s, e)) == Connections(s) + Change(s, e)
  {
    match e
    case Reconnect(t) => assert s.timers.Keys - {t} == (s.timers - {t}).Keys;
    case Failed(_) => assert s.nextTimer !in s.timers;
    case _ =>
  }

  /** The retries out of turn so far, less the timers that have fired in vain. */
  ghost function Surplus(badge: bool, es: seq<Event>): int
    requires After(badge, es).Some?
  {
    if es == [] then 0
    else Surplus(badge, es[..|es| - 1]) + Change(After(badge, es[..|es| - 1]).value, es[|es| - 1])
  }

  /** Over every run: one connection or attempt, and one more for each retry out of turn not yet made up for. */
  lemma {:induction false} TimersAreAccountedFor(badge: bool, es: seq<Event>)
    requires After(badge, es).Some?
    ensures Connections(After(badge, es).value) == 1 + Surplus(badge, es)
    ensures ExactlyOne(After(badge, es).value) <==> Surplus(badge, es) == 0
  {
    hide Step, Enabled, Kept, Change;
    if es != [] {
      var front, e := es[..|es| - 1], es[|es| - 1];
      TimersAreAccountedFor(badge, front);
      NeverGivesUpNorDoubles(badge, front);
      StepChanges(After(badge, front).value, e);
    }
  }

  ghost predicate AlwaysExactlyOne(badge: bool, es: seq<Event>)
    requires After(badge, es).Some?
  {
    ExactlyOne(After(badge, es).value) && (es == [] || AlwaysExactlyOne(badge, es[..|es| - 1]))
  }

  /** The button has only been pressed while an EventSource was current. */
  ghost predicate RetriedInTurn(badge: bool, es: seq<Event>)
    requires After(badge, es).Some?
  {
    es == [] ||
    (RetriedInTurn(badge, es[..|es| - 1]) && (es[|es| - 1].Retry? ==> After(badge, es[..|es| - 1]).value.source.Some?))
  }

  /** At every moment of a run there is exactly one of the two if and only if every retry came in turn. */
  lemma {:induction false} OneConnectionOrOneAttemptIffRetriedInTurn(badge: bool, es: seq<Event>)
    requires After(badge, es).Some?
    ensures AlwaysExactlyOne(badge, es) <==> RetriedInTurn(badge, es)
    ensures RetriedInTurn(badge, es) ==> ExactlyOne(After(badge, es).value)
  {
    hide Step, Enabled, Kept;
    if es != [] {
      var front, e := es[..|es| - 1], es[|es| - 1];
      OneConnectionOrOneAttemptIffRetriedInTurn(badge, front);
      NeverGivesUpNorDoubles(badge, front);
      StepChanges(After(badge, front).value, e);
      if RetriedInTurn(badge, front) { NoTimerBesideASource(After(badge, front).value, e); }
    }
  }

  lemma NoTimerBesideASource(s: Stream, e: Event)
    requires ExactlyOne(s) && Enabled(s, e)
    ensures e.Reconnect? ==> s.source.None?
  { }

  /**
    For instance: the stream fails, which shows the button and arms a timer; the button connects and leaves the timer
    pending; and when the new connection fails too, two timers are.
   */
  lemma RetryDoublesUp(badge: bool)
    ensures var es := [Failed(0)] + [Retry];
      && After(badge, es).Some? && After(badge, es).value.source.Some? && |After(badge, es).value.timers| == 1
      && After(badge, es + [Failed(1)]).Some? && After(badge, es + [Failed(1)]).value.source.None?
      && |After(badge, es + [Failed(1)]).value.timers| == 2
  {
    var es := [Failed(0)] + [Retry];
    assert Impatient(0) == [] && [] + [Failed(0)] == [Failed(0)];
    assert Impatient(1) == es;
    TimersPileUp(badge, 1);
    Next(badge, es, Failed(1));
    hide After, Impatient, Step, Enabled;
    FailureAddsATimer(After(badge, es).value, 1);
    hide PiledUp;
  }

  lemma FailureAddsATimer(s: Stream, n: nat)
    requires PiledUp(s, n)
    ensures s.source.Some? && |s.timers| == n && Enabled(s, Failed(n))
    ensures Step(s, Failed(n)).source.None? && |Step(s, Failed(n)).timers| == n + 1
  {
    assert s.nextTimer !in s.timers;
  }

  /** Failing and retrying over and over: n failures leave n timers pending beside the connection. */
  ghost function Impatient(n: nat): seq<Event> {
    if n == 0 then [] else Impatient(n - 1) + [Failed(n - 1)] + [Retry]
  }

  /** Connected by the n-th source after the first, with n timers pending. */
  ghost predicate PiledUp(s: Stream, n: nat) {
    Kept(s) && s.source == Some(n) && s.nextSource == n + 1 && |s.timers| == n
  }

  lemma {:induction false} TimersPileUp(badge: bool, n: nat)
    ensures After(badge, Impatient(n)).Some? && PiledUp(After(badge, Impatient(n)).value, n)
  {
    hide Step, Enabled, PiledUp;
    if n == 0 {
      Starts(badge);
    } else {
      var es := Impatient(n - 1);
      assert Impatient(n) == es + [Failed(n - 1)] + [Retry];
      TimersPileUp(badge, n - 1);
      Next(badge, es, Failed(n - 1));
      Next(badge, es + [Failed(n - 1)], Retry);
      hide After, Impatient;
      FailThenRetry(After(badge, es).value, n - 1);
    }
  }

  lemma Starts(badge: bool)
    ensures PiledUp(Start(BeforeStart(badge)), 0)
  { }

  lemma FailThenRetry(s: Stream, n: nat)
    requires PiledUp(s, n)
    ensures Enabled(s, Failed(n)) && Enabled(Step(s, Failed(n)), Retry)
    ensures PiledUp(Step(Step(s, Failed(n)), Retry), n + 1)
  {
    assert s.nextTimer !in s.timers;
  }

  // ---------------------------------------------------------------- the backoff

  /** How many connection attempts have failed in a row since the stream last opened or delivered data. */
  ghost function FailuresInARow(es: seq<Event>): nat {
    if es == [] then 0
    else
      match es[|es| - 1]
      case Failed(_) => FailuresInARow(es[..|es| - 1]) + 1
      case Opened(_) => 0
      case Data(_) => 0
      case _ => FailuresInARow(es[..|es| - 1])
  }

  /** 1000, 2000, 4000, 8000, 15000, 15000, ... */
  function Backoff(failures: nat): (d: nat)
    ensures 1000 <= d <= 15000
  {
    if failures == 0 then 1000 else Min(Backoff(failures - 1) * 2, 15000)
  }

  /** The delays set so far, in order: the t-th failure sets timer t. */
  ghost function DelaysSet(es: seq<Event>): seq<nat> {
    if es == [] then []
    else
      var front := es[..|es| - 1];
      if es[|es| - 1].Failed? then DelaysSet(front) + [Backoff(FailuresInARow(front))] else DelaysSet(front)
  }

  /** What the history says of the delays of a stream without the badge. */
  ghost predicate BackedOff(s: Stream, es: seq<Event>) {
    && s.retryDelay == Backoff(FailuresInARow(es))
    && s.nextTimer == |DelaysSet(es)|
    && (forall t :: t in s.timers ==> t < s.nextTimer && s.timers[t] == DelaysSet(es)[t])
    && (s.source.None? ==> FailuresInARow(es) > 0 && s.nextTimer > 0
                           && DelaysSet(es)[s.nextTimer - 1] == Backoff(FailuresInARow(es) - 1))
  }

  lemma StepBacksOff(s: Stream, es: seq<Event>, e: Event)
    requires Kept(s) && !s.badge && BackedOff(s, es) && Enabled(s, e)
    ensures BackedOff(Step(s, e), es + [e])
  {
    assert (es + [e])[..|es|] == es;
    var n := FailuresInARow(es);
    assert Backoff(n + 1) == Min(Backoff(n) * 2, LAST_DELAY);
    hide Backoff;
  }

  /** While nothing is connected the newest timer is pending, with the delay for the failures before the last. */
  ghost predicate NewestIsPending(s: Stream, es: seq<Event>) {
    s.source.None? ==>
      && s.nextTimer > 0 && s.nextTimer - 1 in s.timers && FailuresInARow(es) > 0
      && s.timers[s.nextTimer - 1] == Backoff(FailuresInARow(es) - 1)
  }

  lemma BackedOffIsPending(s: Stream, es: seq<Event>)
    requires Kept(s) && BackedOff(s, es)
    ensures NewestIsPending(s, es)
  {
    hide Backoff, DelaysSet, FailuresInARow;
  }

  /**
    Without the badge the delays are the bounded exponential that the comments announce: each timer waits as the
    failures in a row before its own ask for, and while nothing is connected the newest one is pending.
   */
  lemma {:induction false} WithoutBadgeItBacksOff(es: seq<Event>)
    requires After(false, es).Some?
    ensures BackedOff(After(false, es).value, es) && NewestIsPending(After(false, es).value, es)
  {
    hide Step, Enabled, Kept, BackedOff, NewestIsPending;
    NeverGivesUpNorDoubles(false, es);
    if es == [] {
      StartsBackedOff();
    } else {
      var front, e := es[..|es| - 1], es[|es| - 1];
      WithoutBadgeItBacksOff(front);
      NeverGivesUpNorDoubles(false, front);
      StepBacksOff(After(false, front).value, front, e);
      assert es == front + [e];
    }
    BackedOffIsPending(After(false, es).value, es);
  }

  lemma StartsBackedOff()
    ensures BackedOff(Start(BeforeStart(false)), [])
  { }

  /**
    With the badge, as the page has it, the backoff never happens: startSSE announces `connecting`, which resets
    the delay, so every reconnect ever scheduled waits 1000 ms however often the attempts fail.
   */
  lemma {:induction false} WithBadgeEveryDelayIsTheFirst(es: seq<Event>)
    requires After(true, es).Some?
    ensures OnlyFirstDelays(After(true, es).value)
  {
    hide Step, Enabled, Kept, OnlyFirstDelays;
    if es == [] {
      StartsWithFirstDelay();
    } else {
      var front, e := es[..|es| - 1], es[|es| - 1];
      WithBadgeEveryDelayIsTheFirst(front);
      NeverGivesUpNorDoubles(true, front);
      StepKeepsFirstDelays(After(true, front).value, e);
    }
  }

  ghost predicate OnlyFirstDelays(s: Stream) {
    && (s.source.Some? ==> s.retryDelay == 1000)
    && forall t :: t in s.timers ==> s.timers[t] == 1000
  }

  lemma StartsWithFirstDelay()
    ensures OnlyFirstDelays(Start(BeforeStart(true)))
  { }

  lemma StepKeepsFirstDelays(s: Stream, e: Event)
    requires s.badge && OnlyFirstDelays(s) && Enabled(s, e)
    ensures OnlyFirstDelays(Step(s, e))
  { }

  // ---------------------------------------------------------------- the banner

  /** Whether the last event that says anything about the connection says that it is lost or stale. */
  ghost function LastWord(badge: bool, es: seq<Event>): bool
    requires After(badge, es).Some?
  {
    if es == [] then false
    else
      var front := es[..|es| - 1];
      match es[|es| - 1]
      case Failed(_) => true
      case SnapshotFailed => true
      case StaleCheck(_, stale) => (stale && After(badge, front).value.source.Some?) || LastWord(badge, front)
      case Reconnect(_) => LastWord(badge, front)
      case Retry => LastWord(badge, front)
      case _ => false
  }

  /** Every run: the banner, and with it the button, is shown exactly then. */
  lemma {:induction false} BannerIsTheLastWord(badge: bool, es: seq<Event>)
    requires After(badge, es).Some?
    ensures After(badge, es).value.banner <==> LastWord(badge, es)
  {
    if es != [] { BannerIsTheLastWord(badge, es[..|es| - 1]); }
  }

  // ---------------------------------------------------------------- the page's globals

  class LiveStream {
    const badge: bool
    var banner: bool
    var eventSource: Option<nat>
    var open: set<nat>
    var nextSource: nat
    var sseRetryDelay: nat
    var timers: map<nat, nat>
    var nextTimer: nat
    var sseStaleTimer: Option<nat>
    var intervals: set<nat>
    var nextInterval: nat

    function View(): Stream
      reads this
    {
      Stream(badge, banner, eventSource, open, nextSource, sseRetryDelay, timers, nextTimer,
             sseStaleTimer, intervals, nextInterval)
    }

    constructor (badge: bool)
      ensures View() == BeforeStart(badge)
    {
      this.badge, banner := badge, false;
      eventSource, open, nextSource, sseRetryDelay := None, {}, 0, FIRST_DELAY;
      timers, nextTimer, sseStaleTimer, intervals, nextInterval := map[], 0, None, {}, 0;
    }

    method SetSystemBadge(connecting: bool)
      modifies this`sseRetryDelay
      ensures sseRetryDelay == if badge && connecting then FIRST_DELAY else old(sseRetryDelay)
    {
      if !badge { return; }
      if connecting { sseRetryDelay := 1000; }
    }

    method StartSSE()
      modifies this
      ensures View() == Start(old(View()))
    {
      if eventSource.Some? {
        open := open - {eventSource.value};
        eventSource := None;
      }
      SetSystemBadge(true);
      eventSource := Some(nextSource);
      open := open + {nextSource};
      nextSource := nextSource + 1;
    }

    method OnOpen(source: nat)
      requires source in open
      modifies this
      ensures View() == Step(old(View()), Opened(source))
    {
      banner := false;
      sseRetryDelay := 1000;
      if sseStaleTimer.Some? { intervals := intervals - {sseStaleTimer.value}; }
      sseStaleTimer := Some(nextInterval);
      intervals := intervals + {nextInterval};
      nextInterval := nextInterval + 1;
    }

    method OnError(source: nat)
      requires source in open
      modifies this
      ensures View() == Step(old(View()), Failed(source))
    {
      SetSystemBadge(false);
      banner := true;
      if eventSource.Some? {
        open := open - {eventSource.value};
        eventSource := None;
        var delay := Min(sseRetryDelay, 15000);
        sseRetryDelay := Min(sseRetryDelay * 2, 15000);
        timers := timers[nextTimer := delay];
        nextTimer := nextTimer + 1;
      }
    }

    method OnReconnectTimer(timer: nat)
      requires timer in timers
      modifies this
      ensures View() == Step(old(View()), Reconnect(timer))
    {
      timers := timers - {timer};
      if eventSource.None? { StartSSE(); }
    }

    /** sseStaleCheck, as far as it concerns the banner. */
    method OnStaleCheck(interval: nat, stale: bool)
      requires interval in intervals
      modifies this`banner
      ensures View() == Step(old(View()), StaleCheck(interval, stale))
    {
      if eventSource.None? { return; }
      if stale { banner := true; }
    }

    /** The click handler of `Retry now`; the snapshot it also asks for arrives or fails later. */
    method OnRetry()
      requires banner
      modifies this
      ensures View() == Step(old(View()), Retry)
    {
      StartSSE();
    }
  }
}
