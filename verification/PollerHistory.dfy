/**
  What the polling engine is by its history, over every run: what each record holds, when its next poll is due, and
  when a poll goes out. Nothing here asks a run to be free of manual refreshes or of an isEmptyFn that throws.
 */
module PollerHistory {
  import opened Common
  import opened ApiClient
  import opened PollingEngine
  import opened PollerLiveness

  // ---------------------------------------------------------------- the retry delay

  /** The interval doubled k times. */
  function Doubled(interval: nat, k: nat): nat {
    if k == 0 then interval else 2 * Doubled(interval, k - 1)
  }

  lemma TwiceTheProduct(a: nat, b: nat)
    ensures a * (2 * b) == 2 * (a * b)
  { }

  lemma {:induction false} DoubledIsPower(interval: nat, k: nat)
    ensures Doubled(interval, k) == interval * Pow2(k)
  {
    if k > 0 {
      DoubledIsPower(interval, k - 1);
      TwiceTheProduct(interval, Pow2(k - 1));
    }
  }

  lemma {:induction false} DoubledGrows(interval: nat, j: nat, k: nat)
    requires j <= k
    ensures Doubled(interval, j) <= Doubled(interval, k)
  {
    if j < k { DoubledGrows(interval, j, k - 1); }
  }

  /** The interval when all is well, and with every failure twice the delay before, up to the cap. */
  lemma DelayDoublesUpToTheCap(o: Opts, k: nat)
    ensures Delay(o, 0) == o.intervalMs
    ensures Delay(o, k + 1) == Min(2 * Delay(o, k), o.backoffMaxMs)
    ensures Delay(o, k + 1) == Min(Doubled(o.intervalMs, k + 1), o.backoffMaxMs)
  {
    DoubledIsPower(o.intervalMs, k);
    DoubledIsPower(o.intervalMs, k + 1);
  }

  /** The cap is in force from the first streak on whose doubled interval reaches it. */
  lemma CapIsReachedWhenDoublingReachesIt(o: Opts, k: nat)
    requires k > 0
    ensures Delay(o, k) == o.backoffMaxMs <==> Doubled(o.intervalMs, k) >= o.backoffMaxMs
    ensures Delay(o, k) == o.backoffMaxMs ==> Delay(o, k + 1) == o.backoffMaxMs
  {
    DelayDoublesUpToTheCap(o, k - 1);
    DelayDoublesUpToTheCap(o, k);
    hide Delay;
  }

  /** With the defaults: 15 s, 30 s, and 60 s from the second failure on. */
  lemma DefaultsBackOff(k: nat)
    ensures Delay(DEFAULTS, k) == if k == 0 then 15000 else if k == 1 then 30000 else 60000
    decreases k
  {
    DelayDoublesUpToTheCap(DEFAULTS, 0);
    if k >= 2 {
      DelayDoublesUpToTheCap(DEFAULTS, k - 1);
      DefaultsBackOff(k - 1);
    }
    hide Delay;
  }

  // ---------------------------------------------------------------- records by history

  /** What a record remembers of its polls. */
  datatype Memory = Memory(streak: nat, okAt: nat, empty: bool, data: Option<int>)

  const NOTHING_YET := Memory(0, 0, false, None)

  /** What a poll that ends in a reply at time `now` makes of it. */
  function Recall(m: Memory, reply: Reply, verdict: Verdict, now: nat): Memory {
    match (reply, verdict)
    case (Failure(_), _) => m.(streak := m.streak + 1)
    case (Success(_, body), Says(empty)) => Memory(0, now, empty, Some(body))
    case (Success(_, _), Threw) => m.(streak := 1, okAt := now)
  }

  /** The memory of record r by the history of the run. */
  ghost function History(s0: State, es: seq<Event>, r: nat): Memory
    requires Run(s0, es).Some?
  {
    if es == [] then NOTHING_YET
    else
      var front, e := es[..|es| - 1], es[|es| - 1];
      var s := Run(s0, front).value;
      match e
      case Refresh(q) => if q == r then History(s0, front, r).(streak := 0) else History(s0, front, r)
      case Settle(f, verdict) =>
        if s.flights[f].owner == r
        then Recall(History(s0, front, r), s.client.requests[s.flights[f].request].reply.value, verdict, s.now)
        else History(s0, front, r)
      case _ => History(s0, front, r)
  }

  function MemoryOf(rec: Record): Memory {
    Memory(rec.errorStreak, rec.lastOkAt, rec.lastEmpty, rec.data)
  }

  ghost predicate Remembers(s: State, r: nat, m: Memory) {
    if r < |s.records| then MemoryOf(s.records[r]) == m else m == NOTHING_YET
  }

  lemma TickForgetsNothing(s: State, q: nat, r: nat, m: Memory)
    requires q < |s.records| && Remembers(s, r, m)
    ensures Remembers(Tick(s, q), r, m) && Remembers(Schedule(s, q), r, m)
  {
    hide Delay, CacheKey, Ask, Target;
  }

  lemma EnlistingIsNew(s: State, key: string, url: string, opts: Opts, r: nat, m: Memory)
    requires Remembers(s, r, m)
    ensures Remembers(Enlisted(s, key, url, opts), r, m)
  { }

  lemma RefreshClearsTheStreak(s: State, q: nat, r: nat, m: Memory)
    requires q < |s.records| && Remembers(s, r, m)
    ensures Remembers(Pardoned(s, q), r, if q == r then m.(streak := 0) else m)
  { }

  lemma LandingIsRecalled(s: State, f: nat, verdict: Verdict, r: nat, m: Memory)
    requires Enabled(s, Settle(f, verdict)) && Remembers(s, r, m)
    ensures var reply := s.client.requests[s.flights[f].request].reply.value;
            Remembers(Landed(s, f, verdict), r, if s.flights[f].owner == r then Recall(m, reply, verdict, s.now) else m)
  { }

  lemma ForgettingKeepsTheMemory(s: State, key: string, r: nat, m: Memory)
    requires Enabled(s, Untrack(key)) && key in s.tracked && Remembers(s, r, m)
    ensures Remembers(Forget(s, key), r, m)
  { }

  lemma SettlingIsRecalled(s: State, f: nat, verdict: Verdict, r: nat, m: Memory)
    requires Enabled(s, Settle(f, verdict)) && Remembers(s, r, m)
    ensures var reply := s.client.requests[s.flights[f].request].reply.value;
            Remembers(SettleFlight(s, f, verdict), r,
                      if s.flights[f].owner == r then Recall(m, reply, verdict, s.now) else m)
  {
    LandingIsRecalled(s, f, verdict, r, m);
    var t, q := Landed(s, f, verdict), s.flights[f].owner;
    LandedFrame(s, f, verdict);
    var n := if q == r then Recall(m, s.client.requests[s.flights[f].request].reply.value, verdict, s.now) else m;
    TickForgetsNothing(t, q, r, n);
    hide Remembers, Schedule, Recall, Digest;
  }

  /** Every run: streak, time of the last success, emptiness and data are those of the history. */
  lemma {:induction false} RecordsAreHistory(s0: State, es: seq<Event>, r: nat)
    requires Initial(s0) && Run(s0, es).Some?
    ensures Remembers(Run(s0, es).value, r, History(s0, es, r))
  {
    if es != [] {
      var front, e := es[..|es| - 1], es[|es| - 1];
      var s, m := Run(s0, front).value, History(s0, front, r);
      RecordsAreHistory(s0, front, r);
      hide Remembers, Tick, SettleFlight, Forget, Recall, Answer, Ask;
      match e {
        case Track(key, url, opts) =>
          if key !in s.tracked {
            EnlistingIsNew(s, key, url, opts, r, m);
            TickForgetsNothing(Enlisted(s, key, url, opts), |s.records|, r, m);
          }
        case Untrack(key) => if key in s.tracked { ForgettingKeepsTheMemory(s, key, r, m); }
        case Refresh(q) =>
          RefreshClearsTheStreak(s, q, r, m);
          TickForgetsNothing(Pardoned(s, q), q, r, if q == r then m.(streak := 0) else m);
        case Fire(t) =>
          SameRecords(s, s.(timers := s.timers - {t}), r, m);
          TickForgetsNothing(s.(timers := s.timers - {t}), s.timers[t].owner, r, m);
        case Settle(f, verdict) => SettlingIsRecalled(s, f, verdict, r, m);
        case _ => SameRecords(s, Step(s, e), r, m);
      }
    }
  }

  lemma SameRecords(s: State, t: State, r: nat, m: Memory)
    requires Remembers(s, r, m) && t.records == s.records
    ensures Remembers(t, r, m)
  { }

  // ---------------------------------------------------------------- who is tracked, by history

  /** A resource as it was tracked. */
  datatype Entry = Entry(key: string, url: string, opts: Opts)

  /** Every resource ever tracked anew, in order, and for each key tracked now which of them it is. */
  datatype Roll = Roll(entries: seq<Entry>, tracked: map<string, nat>)

  ghost function RollOf(es: seq<Event>): Roll {
    if es == [] then Roll([], map[])
    else
      var roll := RollOf(es[..|es| - 1]);
      match es[|es| - 1]
      case Track(key, url, opts) =>
        if key in roll.tracked then roll
        else Roll(roll.entries + [Entry(key, url, opts)], roll.tracked[key := |roll.entries|])
      case Untrack(key) => roll.(tracked := roll.tracked - {key})
      case _ => roll
  }

  /** Record r is that of entry r, and stopped unless it is tracked now. */
  ghost predicate OnTheRoll(s: State, roll: Roll) {
    && s.tracked == roll.tracked && |s.records| == |roll.entries|
    && (forall r :: 0 <= r < |s.records| ==>
          Entry(s.records[r].key, s.records[r].url, s.records[r].opts) == roll.entries[r])
  }

  lemma TickKeepsTheRoll(s: State, q: nat, roll: Roll)
    requires q < |s.records| && OnTheRoll(s, roll)
    ensures OnTheRoll(Tick(s, q), roll) && OnTheRoll(Schedule(s, q), roll)
  {
    hide Delay, CacheKey, Ask, Target;
  }

  lemma StepKeepsTheRoll(s: State, e: Event, es: seq<Event>)
    requires Enabled(s, e) && OnTheRoll(s, RollOf(es))
    ensures OnTheRoll(Step(s, e), RollOf(es + [e]))
  {
    assert (es + [e])[..|es|] == es && (es + [e])[|es|] == e;
    var roll := RollOf(es + [e]);
    hide Tick, Schedule, Digest, Answer, Ask;
    match e
    case Track(key, url, opts) =>
      if key !in s.tracked {
        assert OnTheRoll(Enlisted(s, key, url, opts), roll);
        TickKeepsTheRoll(Enlisted(s, key, url, opts), |s.records|, roll);
      }
    case Untrack(key) =>
      if key !in s.tracked { assert s.tracked - {key} == s.tracked; }
    case Refresh(q) =>
      assert OnTheRoll(Pardoned(s, q), roll);
      TickKeepsTheRoll(Pardoned(s, q), q, roll);
    case Fire(t) => TickKeepsTheRoll(s.(timers := s.timers - {t}), s.timers[t].owner, roll);
    case Settle(f, verdict) =>
      assert OnTheRoll(Landed(s, f, verdict), roll);
      TickKeepsTheRoll(Landed(s, f, verdict), s.flights[f].owner, roll);
    case _ =>
  }

  /**
    Every run: each record has the key, the URL and the options it was tracked with, the keys tracked are those tracked
    and not untracked since, and a record runs exactly as long as its key leads to it.
   */
  lemma {:induction false} TrackingIsHistory(s0: State, es: seq<Event>)
    requires Initial(s0) && Run(s0, es).Some?
    ensures var s, roll := Run(s0, es).value, RollOf(es);
      && OnTheRoll(s, roll)
      && forall r :: 0 <= r < |s.records| ==>
           (s.records[r].stopped <==> !(s.records[r].key in roll.tracked && roll.tracked[s.records[r].key] == r))
  {
    RollFollows(s0, es);
    RunsAreSound(s0, es);
    hide Run, RollOf, TimersOwned, FlightsKnown, Awaited, LoadingIsReal, Coherent;
  }

  lemma {:induction false} RollFollows(s0: State, es: seq<Event>)
    requires Initial(s0) && Run(s0, es).Some?
    ensures OnTheRoll(Run(s0, es).value, RollOf(es))
  {
    if es != [] {
      var front, e := es[..|es| - 1], es[|es| - 1];
      RollFollows(s0, front);
      assert es == front + [e];
      StepKeepsTheRoll(Run(s0, front).value, e, front);
      hide Step, Enabled, OnTheRoll, RollOf;
    }
  }

  // ---------------------------------------------------------------- when the next poll is due

  /** The one pending timer of record r is due at `due`. */
  ghost predicate NextPollDue(s: State, r: nat, due: nat) {
    && r < |s.records| && s.records[r].timer.Some? && s.records[r].timer.value in s.timers
    && s.timers[s.records[r].timer.value] == Timer(r, due)
  }

  /** The wait after k failures in a row. */
  function WaitAfter(o: Opts, k: nat): nat {
    if k == 0 then o.intervalMs else Min(Doubled(o.intervalMs, k), o.backoffMaxMs)
  }

  lemma ScheduledByStreak(s: State, r: nat)
    requires r < |s.records|
    ensures NextPollDue(Schedule(s, r), r, s.now + WaitAfter(s.records[r].opts, s.records[r].errorStreak))
    ensures Schedule(s, r).records[r].opts == s.records[r].opts && Schedule(s, r).now == s.now
  {
    var k := s.records[r].errorStreak;
    if k > 0 { DelayDoublesUpToTheCap(s.records[r].opts, k - 1); }
    hide Delay, Doubled;
  }

  lemma SettlingSchedules(s: State, f: nat, verdict: Verdict)
    requires Enabled(s, Settle(f, verdict)) && !s.records[s.flights[f].owner].stopped
    ensures var t, r := Step(s, Settle(f, verdict)), s.flights[f].owner;
      && r < |t.records| && t.records[r].opts == s.records[r].opts && !t.records[r].fetching
      && NextPollDue(t, r, s.now + WaitAfter(t.records[r].opts, t.records[r].errorStreak))
  {
    var t, r := Landed(s, f, verdict), s.flights[f].owner;
    assert t.now == s.now && t.records[r].opts == s.records[r].opts && !t.records[r].fetching;
    ScheduledByStreak(t, r);
    assert SettleFlight(s, f, verdict) == Schedule(t, r);
    assert Schedule(t, r).records[r].errorStreak == t.records[r].errorStreak;
    hide NextPollDue, WaitAfter, Landed, Delay;
  }

  /** Record r is next polled as its memory m asks, counted from `now`. */
  ghost predicate PolledByMemory(s: State, r: nat, m: Memory, now: nat) {
    r < |s.records| && NextPollDue(s, r, now + WaitAfter(s.records[r].opts, m.streak))
  }

  lemma SettlingObeysTheMemory(s: State, f: nat, verdict: Verdict, m: Memory)
    requires Enabled(s, Settle(f, verdict)) && !s.records[s.flights[f].owner].stopped
    requires Remembers(Step(s, Settle(f, verdict)), s.flights[f].owner, m)
    ensures PolledByMemory(Step(s, Settle(f, verdict)), s.flights[f].owner, m, s.now)
  {
    SettlingSchedules(s, f, verdict);
    StreakRemembered(Step(s, Settle(f, verdict)), s.flights[f].owner, m);
    hide Step, Remembers, NextPollDue, WaitAfter;
  }

  /**
    Every run: a poll of a running record that ends sets the next one to the interval times two to the power of the
    failures in a row, capped; to the interval itself after a success.
   */
  lemma NextPollFollowsTheHistory(s0: State, es: seq<Event>, f: nat, verdict: Verdict)
    requires Initial(s0) && Run(s0, es + [Settle(f, verdict)]).Some?
    ensures Run(s0, es).Some? && Enabled(Run(s0, es).value, Settle(f, verdict))
    ensures var s, all := Run(s0, es).value, es + [Settle(f, verdict)];
            var r := s.flights[f].owner;
            !s.records[r].stopped ==> PolledByMemory(Run(s0, all).value, r, History(s0, all, r), s.now)
  {
    LastStep(s0, es, Settle(f, verdict));
    hide Run, History, PolledByMemory, Step, Remembers;
    var s, all := Run(s0, es).value, es + [Settle(f, verdict)];
    RecordsAreHistory(s0, all, s.flights[f].owner);
    if !s.records[s.flights[f].owner].stopped {
      SettlingObeysTheMemory(s, f, verdict, History(s0, all, s.flights[f].owner));
    }
  }

  lemma LastStep(s0: State, es: seq<Event>, e: Event)
    requires Run(s0, es + [e]).Some?
    ensures Run(s0, es).Some? && Enabled(Run(s0, es).value, e)
    ensures Run(s0, es + [e]).value == Step(Run(s0, es).value, e)
  {
    assert (es + [e])[..|es|] == es && (es + [e])[|es|] == e;
    hide Step, Enabled;
  }

  lemma StreakRemembered(s: State, r: nat, m: Memory)
    requires Remembers(s, r, m) && r < |s.records|
    ensures s.records[r].errorStreak == m.streak
  { }

  // ---------------------------------------------------------------- what a tick does

  /** Whether the page is hidden, by the last change of visibility; and the time, by the waits. */
  ghost function HiddenSince(s0: State, es: seq<Event>): bool {
    if es == [] then s0.hidden
    else if es[|es| - 1].SetHidden? then es[|es| - 1].hidden
    else HiddenSince(s0, es[..|es| - 1])
  }

  ghost function Clock(s0: State, es: seq<Event>): nat {
    if es == [] then s0.now
    else Clock(s0, es[..|es| - 1]) + if es[|es| - 1].Wait? then es[|es| - 1].ms else 0
  }

  lemma StepKeepsTime(s: State, e: Event)
    requires Enabled(s, e)
    ensures Step(s, e).hidden == (if e.SetHidden? then e.hidden else s.hidden)
    ensures Step(s, e).now == s.now + if e.Wait? then e.ms else 0
  {
    hide Delay, CacheKey, Ask, Target, Digest, Answer;
  }

  /** Every run: only changes of visibility hide or show the page, and only waiting takes time. */
  lemma {:induction false} PageIsHistory(s0: State, es: seq<Event>)
    requires Run(s0, es).Some?
    ensures Run(s0, es).value.hidden == HiddenSince(s0, es) && Run(s0, es).value.now == Clock(s0, es)
  {
    if es != [] {
      PageIsHistory(s0, es[..|es| - 1]);
      StepKeepsTime(Run(s0, es[..|es| - 1]).value, es[|es| - 1]);
      hide Step, Enabled;
    }
  }

  /** The record that an event makes tick, if it is not untracked. */
  function Ticks(s: State, e: Event): Option<nat>
    requires Enabled(s, e)
  {
    match e
    case Track(key, _, _) => if key in s.tracked then None else Some(|s.records|)
    case Refresh(r) => if s.records[r].stopped then None else Some(r)
    case Fire(t) => if s.records[s.timers[t].owner].stopped then None else Some(s.timers[t].owner)
    case _ => None
  }

  /** A poll of record r has gone out: it waits, LOADING, for an outstanding GET of the record's own URL. */
  ghost predicate PollGoesOut(s: State, t: State, r: nat) {
    && r < |t.records| && t.records[r].fetching
    && t.flights.Keys == s.flights.Keys + {s.nextFlight} && PollOf(t, t.flights[s.nextFlight], r)
    && Outstanding(t.client, t.flights[s.nextFlight].request)
    && t.timers == s.timers
  }

  /** Nothing goes out; the next poll is due after the usual wait. */
  ghost predicate PollPutOff(s: State, t: State, r: nat) {
    && t.client == s.client && t.flights == s.flights
    && r < |t.records| && NextPollDue(t, r, s.now + WaitAfter(t.records[r].opts, t.records[r].errorStreak))
  }

  lemma TickAsksUnlessHidden(s: State, r: nat)
    requires r < |s.records| && !s.records[r].stopped && Coherent(s.client)
    ensures s.hidden ==> PollPutOff(s, Tick(s, r), r)
    ensures !s.hidden ==> PollGoesOut(s, Tick(s, r), r)
    ensures Tick(s, r).now == s.now
  {
    if s.hidden {
      ScheduledByStreak(s, r);
      hide NextPollDue, WaitAfter, Delay;
    } else {
      LaunchedFlight(s, r);
      AskKeepsCoherent(s.client, true, CacheKey(s.records[r].url, "GET", s.records[r].url));
      hide CacheKey, Coherent, PollOf, Ask, Target;
    }
  }

  /** The state right before the tick: the timer has gone off, the record has been made or pardoned. */
  function AboutToTick(s: State, e: Event): State
    requires Enabled(s, e) && Ticks(s, e).Some?
  {
    match e
    case Track(key, url, opts) => Enlisted(s, key, url, opts)
    case Refresh(r) => Pardoned(s, r)
    case Fire(t) => s.(timers := s.timers - {t})
  }

  lemma StepTicks(s: State, e: Event)
    requires Enabled(s, e) && Ticks(s, e).Some?
    ensures var u, r := AboutToTick(s, e), Ticks(s, e).value;
      && r < |u.records| && !u.records[r].stopped && u.client == s.client && u.flights == s.flights
      && u.nextFlight == s.nextFlight && u.hidden == s.hidden && u.now == s.now && Step(s, e) == Tick(u, r)
  {
    hide Tick;
  }

  /**
    Every run: tracking a resource, refreshing it, and a timer of it going off each send a poll out at once if the page
    is visible; if it is hidden nothing goes out and the poll is put off.
   */
  lemma PollsGoOutUnlessHidden(s0: State, es: seq<Event>, e: Event)
    requires Initial(s0) && Run(s0, es).Some? && Enabled(Run(s0, es).value, e) && Ticks(Run(s0, es).value, e).Some?
    ensures var s := Run(s0, es).value;
            var t, r := Step(s, e), Ticks(s, e).value;
            if s.hidden then PollPutOff(s, t, r) else PollGoesOut(AboutToTick(s, e), t, r)
  {
    var s := Run(s0, es).value;
    RunsAreSound(s0, es);
    CoherentInSound(s);
    StepTicks(s, e);
    TickAsksUnlessHidden(AboutToTick(s, e), Ticks(s, e).value);
    hide Run, Tick, PollGoesOut, NextPollDue, AboutToTick, Coherent, Sound, Step, WaitAfter, Ticks;
  }

  /** What is shown of a record with memory m: a poll under way comes first, then whether one ever succeeded. */
  ghost predicate ShowsMemory(phase: Phase, fetching: bool, m: Memory, o: Opts, now: nat) {
    && (phase == LOADING <==> fetching)
    && (!fetching ==>
          && (phase == ERROR <==> m.okAt == 0)
          && (m.okAt > 0 ==>
                && (phase == STALE <==> (now - m.okAt) as real > o.intervalMs as real * o.staleFactor)
                && (phase != STALE ==> phase == if m.empty then EMPTY_ else READY)))
  }

  /** Every run: the phase of a record is that of its history. */
  lemma PhaseIsHistory(s0: State, es: seq<Event>, r: nat)
    requires Initial(s0) && Run(s0, es).Some? && r < |Run(s0, es).value.records|
    ensures var s := Run(s0, es).value;
            ShowsMemory(ComputeState(s.records[r], s.now), s.records[r].fetching, History(s0, es, r),
                        s.records[r].opts, s.now)
  {
    RecordsAreHistory(s0, es, r);
    hide Run, History;
  }
}
