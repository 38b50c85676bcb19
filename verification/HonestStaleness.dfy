/** Honest staleness: when repeated polls have failed, no settled snapshot still claims READY or EMPTY. */
module HonestStaleness {
  import opened Common
  import opened ApiClient
  import opened PollingEngine
  import opened PollerLiveness
  import PollerHistory

  /** Event e neither refreshes record r by hand nor lets its isEmptyFn throw. */
  ghost predicate Calm(s: State, e: Event, r: nat) {
    && e != Refresh(r)
    && (e.Settle? && e.flight in s.flights && s.flights[e.flight].owner == r ==> e.verdict.Says?)
  }

  ghost predicate CalmRun(s0: State, es: seq<Event>, r: nat)
    requires Run(s0, es).Some?
  {
    es == [] || (CalmRun(s0, es[..|es| - 1], r) && Calm(Run(s0, es[..|es| - 1]).value, es[|es| - 1], r))
  }

  /** How many polls of record r have failed, by the history of the run, since its last successful one. */
  ghost function FailedSinceOk(s0: State, es: seq<Event>, r: nat): nat
    requires Run(s0, es).Some?
  {
    if es == [] then 0
    else
      var front, e := es[..|es| - 1], es[|es| - 1];
      var s := Run(s0, front).value;
      if e.Settle? && s.flights[e.flight].owner == r then
        if s.client.requests[s.flights[e.flight].request].reply.value.Success? then 0
        else FailedSinceOk(s0, front, r) + 1
      else FailedSinceOk(s0, front, r)
  }

  // ---------------------------------------------------------------- the timed invariant

  /** The least age of the last success when the next poll goes out, after `streak` failures. */
  function NextPollAge(o: Opts, streak: nat): nat {
    if streak == 0 then o.intervalMs else o.intervalMs + Min(2 * o.intervalMs, o.backoffMaxMs)
  }

  ghost predicate AgeMatchesStreak(r: Record, now: nat) {
    && r.lastOkAt <= now
    && (r.lastOkAt > 0 && r.errorStreak >= 1 ==> now >= r.lastOkAt + r.opts.intervalMs)
    && (r.lastOkAt > 0 && r.errorStreak >= 2 ==> now >= r.lastOkAt + NextPollAge(r.opts, 1))
  }

  /** Nothing is under way for record r. */
  ghost predicate Idle(s: State, r: nat) {
    && (forall t :: t in s.timers ==> s.timers[t].owner != r)
    && (forall f :: f in s.flights ==> s.flights[f].owner != r)
  }

  /** One thing at a time is under way for record r, and never earlier than its last success allows. */
  ghost predicate Timed(s: State, r: nat) {
    r < |s.records| ==>
      && s.now > 0 && AgeMatchesStreak(s.records[r], s.now)
      && (forall t, f :: t in s.timers && f in s.flights && s.timers[t].owner == r ==> s.flights[f].owner != r)
      && (forall f, g ::
            f in s.flights && g in s.flights && s.flights[f].owner == r && s.flights[g].owner == r ==> f == g)
      && (s.records[r].lastOkAt > 0 ==>
            && (forall t :: t in s.timers && s.timers[t].owner == r ==>
                  s.timers[t].due >= s.records[r].lastOkAt + NextPollAge(s.records[r].opts, s.records[r].errorStreak))
            && (forall f :: f in s.flights && s.flights[f].owner == r ==>
                  s.now >= s.records[r].lastOkAt + NextPollAge(s.records[r].opts, s.records[r].errorStreak)))
  }

  ghost predicate Due(s: State, r: nat)
    requires r < |s.records|
  {
    s.records[r].lastOkAt > 0 ==>
      s.now >= s.records[r].lastOkAt + NextPollAge(s.records[r].opts, s.records[r].errorStreak)
  }

  lemma TickOfAnother(s: State, q: nat, r: nat)
    requires Timed(s, r) && q < |s.records| && q != r
    ensures Timed(Schedule(s, q), r) && Timed(Tick(s, q), r)
  {
    hide Delay, CacheKey, Ask, Target;
  }

  lemma TickWhenDue(s: State, r: nat)
    requires r < |s.records| && Idle(s, r) && s.now > 0 && AgeMatchesStreak(s.records[r], s.now) && Due(s, r)
    ensures Timed(Tick(s, r), r)
  {
    hide Delay, CacheKey, Ask, Target;
  }

  lemma ScheduleAfterPoll(s: State, r: nat)
    requires r < |s.records| && Idle(s, r) && s.now > 0 && AgeMatchesStreak(s.records[r], s.now)
    requires s.records[r].errorStreak == 0 ==> s.records[r].lastOkAt == s.now || s.records[r].lastOkAt == 0
    ensures Timed(Schedule(s, r), r)
  {
    if s.records[r].errorStreak > 0 { DoubledAtLeast(s.records[r].opts, s.records[r].errorStreak); }
    var d := Delay(s.records[r].opts, s.records[r].errorStreak);
    assert s.records[r].errorStreak == 0 ==> d == s.records[r].opts.intervalMs;
    hide Delay;
  }

  lemma IdleIsTimed(s: State, r: nat)
    requires r < |s.records| && Idle(s, r) && s.now > 0 && AgeMatchesStreak(s.records[r], s.now)
    ensures Timed(s, r)
  { }

  lemma LandingIsIdle(s: State, f: nat, verdict: Verdict)
    requires Enabled(s, Settle(f, verdict)) && Timed(s, s.flights[f].owner)
    ensures Idle(Landed(s, f, verdict), s.flights[f].owner)
  { }

  lemma LandingKeepsAge(s: State, f: nat, verdict: Verdict)
    requires Enabled(s, Settle(f, verdict)) && Timed(s, s.flights[f].owner) && verdict.Says?
    ensures var t, r := Landed(s, f, verdict), s.flights[f].owner;
            && AgeMatchesStreak(t.records[r], s.now)
            && (t.records[r].errorStreak == 0 ==> t.records[r].lastOkAt == s.now)
  { }

  lemma LandingOfAnother(s: State, f: nat, verdict: Verdict, r: nat)
    requires Enabled(s, Settle(f, verdict)) && Timed(s, r) && s.flights[f].owner != r
    ensures Timed(Landed(s, f, verdict), r)
  {
    hide Digest;
  }

  lemma SettleKeepsTimed(s: State, f: nat, verdict: Verdict, r: nat)
    requires Enabled(s, Settle(f, verdict)) && Timed(s, r) && Calm(s, Settle(f, verdict), r)
    ensures Timed(SettleFlight(s, f, verdict), r)
  {
    hide Timed, Idle, Schedule, AgeMatchesStreak, Digest;
    var t, q := Landed(s, f, verdict), s.flights[f].owner;
    LandedFrame(s, f, verdict);
    if q != r {
      LandingOfAnother(s, f, verdict, r);
      if !s.records[q].stopped { TickOfAnother(t, q, r); }
    } else {
      LandingIsIdle(s, f, verdict);
      LandingKeepsAge(s, f, verdict);
      TimedClock(s, r);
      if s.records[r].stopped { IdleIsTimed(t, r); } else { ScheduleAfterPoll(t, r); }
    }
  }

  lemma TimedClock(s: State, r: nat)
    requires Timed(s, r) && r < |s.records|
    ensures s.now > 0
  { }

  lemma FiredIsDue(s: State, t: nat)
    requires TimersOwned(s) && Enabled(s, Fire(t)) && Timed(s, s.timers[t].owner)
    ensures var u, r := s.(timers := s.timers - {t}), s.timers[t].owner;
            Idle(u, r) && u.now > 0 && AgeMatchesStreak(u.records[r], u.now) && Due(u, r)
  {
    hide NextPollAge;
  }

  lemma FireKeepsTimed(s: State, t: nat, r: nat)
    requires TimersOwned(s) && Enabled(s, Fire(t)) && Timed(s, r)
    ensures Timed(Step(s, Fire(t)), r)
  {
    hide TimersOwned, AgeMatchesStreak, Idle, Tick, Due;
    var u := s.(timers := s.timers - {t});
    if s.timers[t].owner != r {
      FewerTimersTimed(s, t, r);
      hide Timed;
      TickOfAnother(u, s.timers[t].owner, r);
    } else {
      hide Timed;
      FiredIsDue(s, t);
      TickWhenDue(u, r);
    }
  }

  lemma FewerTimersTimed(s: State, t: nat, r: nat)
    requires Timed(s, r)
    ensures Timed(s.(timers := s.timers - {t}), r)
  { }

  lemma EnlistedTimed(s: State, key: string, url: string, opts: Opts, r: nat)
    requires Timed(s, r) && r != |s.records|
    ensures Timed(Enlisted(s, key, url, opts), r)
  { }

  lemma EnlistedIdle(s: State, key: string, url: string, opts: Opts)
    requires TimersOwned(s) && FlightsKnown(s)
    ensures Idle(Enlisted(s, key, url, opts), |s.records|)
  {
    hide CacheKey;
  }

  lemma TrackKeepsTimed(s: State, key: string, url: string, opts: Opts, r: nat)
    requires TimersOwned(s) && FlightsKnown(s) && Timed(s, r) && s.now > 0
    ensures Timed(Step(s, Track(key, url, opts)), r)
  {
    hide TimersOwned, FlightsKnown, Timed, Tick, Idle;
    if key !in s.tracked {
      var t := Enlisted(s, key, url, opts);
      if r != |s.records| {
        EnlistedTimed(s, key, url, opts, r);
        TickOfAnother(t, |s.records|, r);
      } else {
        EnlistedIdle(s, key, url, opts);
        TickWhenDue(t, r);
      }
    }
  }

  lemma RefreshKeepsTimed(s: State, q: nat, r: nat)
    requires Timed(s, r) && q < |s.records| && q != r
    ensures Timed(Step(s, Refresh(q)), r)
  {
    var t := Pardoned(s, q);
    assert Timed(t, r);
    hide Timed, Tick, Schedule;
    TickOfAnother(t, q, r);
  }

  lemma StepKeepsTimed(s: State, e: Event, r: nat)
    requires Sound(s) && s.now > 0 && Timed(s, r) && Enabled(s, e) && Calm(s, e, r)
    ensures Timed(Step(s, e), r)
  {
    assert TimersOwned(s) && FlightsKnown(s);
    hide Timed, Sound, TimersOwned, FlightsKnown, Step, Calm;
    match e
    case Track(key, url, opts) => TrackKeepsTimed(s, key, url, opts, r);
    case Refresh(q) => assert q != r by { CalmIsNoRefresh(s, q, r); } RefreshKeepsTimed(s, q, r);
    case Fire(t) => FireKeepsTimed(s, t, r);
    case Settle(f, verdict) => SettleKeepsTimed(s, f, verdict, r);
    case Wait(ms) => WaitKeepsTimed(s, ms, r);
    case Untrack(key) => UntrackKeepsTimed(s, key, r);
    case SetHidden(_) => PassiveKeepsTimed(s, e, r);
    case NetworkAnswer(_, _) => PassiveKeepsTimed(s, e, r);
    case OtherCall(_, _) => PassiveKeepsTimed(s, e, r);
  }

  lemma WaitKeepsTimed(s: State, ms: nat, r: nat)
    requires Timed(s, r)
    ensures Timed(Step(s, Wait(ms)), r)
  { }

  lemma CalmIsNoRefresh(s: State, q: nat, r: nat)
    requires Calm(s, Refresh(q), r)
    ensures q != r
  { }

  lemma PassiveKeepsTimed(s: State, e: Event, r: nat)
    requires Timed(s, r) && Enabled(s, e) && (e.SetHidden? || e.NetworkAnswer? || e.OtherCall?)
    ensures Timed(Step(s, e), r)
  { }

  lemma UntrackKeepsTimed(s: State, key: string, r: nat)
    requires Timed(s, r) && Enabled(s, Untrack(key))
    ensures Timed(Step(s, Untrack(key)), r)
  { }

  lemma {:induction false} RunsAreTimed(s0: State, es: seq<Event>, r: nat)
    requires Initial(s0) && Run(s0, es).Some? && CalmRun(s0, es, r)
    ensures Run(s0, es).value.now > 0 && Timed(Run(s0, es).value, r)
  {
    if es != [] {
      var front := es[..|es| - 1];
      var s := Run(s0, front).value;
      RunsAreTimed(s0, front, r);
      RunsAreSound(s0, front);
      StepKeepsTimed(s, es[|es| - 1], r);
      ClockRuns(s, es[|es| - 1]);
      hide Step, Timed, Sound, Enabled;
    }
  }

  lemma ClockRuns(s: State, e: Event)
    requires Enabled(s, e)
    ensures Step(s, e).now >= s.now
  { }

  // ---------------------------------------------------------------- the streak is the history

  lemma TickKeepsStreaks(s: State, q: nat, r: nat)
    requires q < |s.records| && r < |s.records|
    ensures r < |Tick(s, q).records| && r < |Schedule(s, q).records|
    ensures Tick(s, q).records[r].errorStreak == s.records[r].errorStreak == Schedule(s, q).records[r].errorStreak
    ensures Tick(s, q).records[r].lastOkAt == s.records[r].lastOkAt == Schedule(s, q).records[r].lastOkAt
  {
    hide Delay, CacheKey, Ask, Target;
  }

  lemma StreakStep(s: State, e: Event, r: nat)
    requires Enabled(s, e) && Calm(s, e, r) && r < |s.records|
    requires !(e.Settle? && s.flights[e.flight].owner == r)
    ensures r < |Step(s, e).records|
    ensures Step(s, e).records[r].errorStreak == s.records[r].errorStreak
    ensures Step(s, e).records[r].lastOkAt == s.records[r].lastOkAt
  {
    hide Tick, Schedule, Digest, Answer, Ask;
    match e
    case Track(key, url, opts) =>
      if key !in s.tracked { TickKeepsStreaks(Enlisted(s, key, url, opts), |s.records|, r); }
    case Refresh(q) => TickKeepsStreaks(Pardoned(s, q), q, r);
    case Fire(t) => TickKeepsStreaks(s.(timers := s.timers - {t}), s.timers[t].owner, r);
    case Settle(f, verdict) => TickKeepsStreaks(Landed(s, f, verdict), s.flights[f].owner, r);
    case _ =>
  }

  lemma NewRecordStreak(s: State, e: Event, r: nat)
    requires Sound(s) && Enabled(s, e) && r >= |s.records| && r < |Step(s, e).records|
    ensures Step(s, e).records[r].errorStreak == 0 && !(e.Settle? && s.flights[e.flight].owner == r)
  {
    hide Sound, Delay, CacheKey, Ask, Answer, Target;
  }

  lemma SettleStreak(s: State, e: Event, r: nat)
    requires Enabled(s, e) && Calm(s, e, r) && e.Settle? && s.flights[e.flight].owner == r
    ensures r < |Step(s, e).records| && Step(s, e).records[r].errorStreak ==
              if s.client.requests[s.flights[e.flight].request].reply.value.Success? then 0
              else s.records[r].errorStreak + 1
  {
    hide Delay;
  }

  lemma {:induction false} StreakCountsFailures(s0: State, es: seq<Event>, r: nat)
    requires Initial(s0) && Run(s0, es).Some? && CalmRun(s0, es, r)
    ensures r < |Run(s0, es).value.records| ==> Run(s0, es).value.records[r].errorStreak == FailedSinceOk(s0, es, r)
    ensures r >= |Run(s0, es).value.records| ==> FailedSinceOk(s0, es, r) == 0
  {
    if es != [] {
      var front, e := es[..|es| - 1], es[|es| - 1];
      var s := Run(s0, front).value;
      StreakCountsFailures(s0, front, r);
      RunsAreSound(s0, front);
      RecordsOnlyGrow(s, e);
      hide Sound, Step, Enabled;
      if e.Settle? && s.flights[e.flight].owner == r {
        SettleStreak(s, e, r);
      } else if r < |s.records| {
        StreakStep(s, e, r);
      } else if r < |Step(s, e).records| {
        NewRecordStreak(s, e, r);
      }
    }
  }

  /** In an undisturbed run that is the streak by which PollerHistory sets the next poll. */
  lemma StreakSetsTheNextPoll(s0: State, es: seq<Event>, r: nat)
    requires Initial(s0) && Run(s0, es).Some? && CalmRun(s0, es, r)
    ensures PollerHistory.History(s0, es, r).streak == FailedSinceOk(s0, es, r)
  {
    StreakCountsFailures(s0, es, r);
    PollerHistory.RecordsAreHistory(s0, es, r);
    hide Run, CalmRun, FailedSinceOk;
  }

  lemma RecordsOnlyGrow(s: State, e: Event)
    requires Enabled(s, e)
    ensures |s.records| <= |Step(s, e).records|
    ensures e.Settle? ==> e.flight in s.flights && s.flights[e.flight].owner < |s.records|
    ensures e.Settle? ==> s.flights[e.flight].request < |s.client.requests|
                          && s.client.requests[s.flights[e.flight].request].reply.Some?
  {
    hide Delay, CacheKey, Ask, Answer, Target;
  }

  // ---------------------------------------------------------------- the theorem

  /** A reachable settled record with options `o` whose last two polls or more have failed, undisturbed. */
  ghost predicate FailingTwice(s0: State, es: seq<Event>, r: nat, o: Opts) {
    && Initial(s0) && Run(s0, es).Some? && CalmRun(s0, es, r) && FailedSinceOk(s0, es, r) >= 2
    && r < |Run(s0, es).value.records|
    && Run(s0, es).value.records[r].opts == o && !Run(s0, es).value.records[r].fetching
  }

  /** Whatever happens to the other records: after two failed polls in a row this one is never shown as good. */
  ghost predicate HonestFor(o: Opts) {
    forall s0, es, r: nat :: FailingTwice(s0, es, r, o) ==>
      Truthful(Run(s0, es).value.records[r], Run(s0, es).value.now)
  }

  predicate Truthful(r: Record, now: nat) {
    ComputeState(r, now) == if r.lastOkAt == 0 then ERROR else STALE
  }

  /** The stale threshold is reached by the time the third poll after a success goes out. */
  predicate ThresholdInTime(o: Opts) {
    o.intervalMs as real * o.staleFactor < NextPollAge(o, 1) as real
  }

  lemma InTimeIsHonest(o: Opts)
    requires ThresholdInTime(o)
    ensures HonestFor(o)
  {
    forall s0, es, r: nat | FailingTwice(s0, es, r, o)
      ensures Truthful(Run(s0, es).value.records[r], Run(s0, es).value.now)
    {
      RunsAreTimed(s0, es, r);
      StreakCountsFailures(s0, es, r);
      OldEnoughIsStale(Run(s0, es).value, r);
      hide *;
    }
  }

  lemma OldEnoughIsStale(s: State, r: nat)
    requires r < |s.records| && Timed(s, r) && ThresholdInTime(s.records[r].opts)
    requires s.records[r].errorStreak >= 2 && !s.records[r].fetching
    ensures Truthful(s.records[r], s.now)
  { }

  /** A successful poll shows at once, as what isEmptyFn says; if that throws, it shows but counts as a failure. */
  lemma SuccessShowsAtOnce(r: Record, status: int, body: int, verdict: Verdict, now: nat)
    requires now > 0 && r.opts.staleFactor >= 0.0
    ensures var d := Digest(r, Success(status, body), verdict, now);
      && (verdict.Says? ==> ComputeState(d, now) == (if verdict.empty then EMPTY_ else READY) && d.errorStreak == 0
                             && d.data == Some(body))
      && (verdict.Threw? ==> ComputeState(d, now) == (if r.lastEmpty then EMPTY_ else READY) && d.errorStreak == 1
                              && d.data == r.data)
  {
    assert r.opts.intervalMs as real * r.opts.staleFactor >= 0.0;
  }

  // ---------------------------------------------------------------- the converse, by a run

  lemma Extend(s0: State, es: seq<Event>, s: State, e: Event, r: nat)
    requires Run(s0, es) == Some(s) && CalmRun(s0, es, r) && Enabled(s, e) && Calm(s, e, r)
    ensures Run(s0, es + [e]) == Some(Step(s, e)) && CalmRun(s0, es + [e], r)
    ensures FailedSinceOk(s0, es + [e], r) ==
              if e.Settle? && s.flights[e.flight].owner == r then
                if s.client.requests[s.flights[e.flight].request].reply.value.Success? then 0
                else FailedSinceOk(s0, es, r) + 1
              else FailedSinceOk(s0, es, r)
  {
    assert (es + [e])[..|es|] == es;
    hide Step, Enabled, Calm;
  }

  /** One record, waiting for one timer, with nothing else going on. */
  function Waiting(now: nat, rec: Record, timer: nat, due: nat, nextFlight: nat, requests: seq<Request>,
                   streak: nat): State
  {
    State(now, false, [rec.(timer := Some(timer), fetching := false)], map[rec.key := 0],
          map[timer := Timer(0, due)], timer + 1, map[], nextFlight, Client(map[], requests, streak))
  }

  /** The same record with its poll in flight. */
  function Polling(now: nat, rec: Record, nextTimer: nat, flight: nat, requests: seq<Request>, streak: nat): State {
    State(now, false, [rec.(fetching := true)], map[rec.key := 0], map[], nextTimer,
          map[flight := Flight(0, |requests|)], flight + 1,
          Client(map[CacheKey(rec.url, "GET", rec.url) := |requests|],
                 requests + [Request(true, CacheKey(rec.url, "GET", rec.url), None)], streak))
  }

  lemma FiresIntoPolling(now: nat, rec: Record, timer: nat, due: nat, nf: nat, requests: seq<Request>, streak: nat)
    requires due <= now && !rec.stopped
    ensures var s := Waiting(now, rec, timer, due, nf, requests, streak);
            Enabled(s, Fire(timer))
            && Step(s, Fire(timer)) == Polling(now, rec.(timer := Some(timer)), timer + 1, nf, requests, streak)
  {
    var s := Waiting(now, rec, timer, due, nf, requests, streak);
    hide CacheKey;
    assert s.timers - {timer} == map[];
    assert Step(s, Fire(timer)).records == [rec.(timer := Some(timer), fetching := true)];
  }

  lemma AnsweredThenSettled(now: nat, rec: Record, nextTimer: nat, f: nat, requests: seq<Request>, streak: nat,
                            fetched: Fetched)
    requires !rec.stopped && (rec.timer.Some? ==> rec.timer.value < nextTimer)
    ensures var s := Polling(now, rec, nextTimer, f, requests, streak);
      && Enabled(s, NetworkAnswer(|requests|, fetched))
      && var t := Step(s, NetworkAnswer(|requests|, fetched));
         && t.records == s.records && t.flights == s.flights
         && Enabled(t, Settle(f, Says(false))) && t.flights[f].owner == 0
         && t.client.requests[t.flights[f].request].reply == Some(Interpret(fetched))
         && var d := Digest(rec, Interpret(fetched), Says(false), now);
            Step(t, Settle(f, Says(false))) ==
              Waiting(now, d, nextTimer, now + Delay(rec.opts, d.errorStreak), f + 1,
                      requests + [Request(true, CacheKey(rec.url, "GET", rec.url), Some(Interpret(fetched)))],
                      NextStreak(streak, fetched))
  {
    hide CacheKey, Delay, Interpret, NextStreak;
    var s := Polling(now, rec, nextTimer, f, requests, streak);
    var key := CacheKey(rec.url, "GET", rec.url);
    var t := Step(s, NetworkAnswer(|requests|, fetched));
    assert t.client.inflight == map[];
    assert t.client.requests == requests + [Request(true, key, Some(Interpret(fetched)))];
    var u := Landed(t, f, Says(false));
    assert u.flights == map[];
    assert u.records == [Digest(rec, Interpret(fetched), Says(false), now)];
    assert Schedule(u, 0).timers == map[nextTimer := Timer(0, now + Delay(rec.opts, u.records[0].errorStreak))];
    assert Schedule(u, 0).records == [u.records[0].(timer := Some(nextTimer))];
  }

  lemma TracksIntoPolling(key: string, url: string, o: Opts)
    ensures var s0 := State(1, false, [], map[], map[], 0, map[], 0, EMPTY);
            Initial(s0) && Step(s0, Track(key, url, o)) == Polling(1, NewRecord(key, url, o), 0, 0, [], 0)
  {
    hide CacheKey;
    var s0 := State(1, false, [], map[], map[], 0, map[], 0, EMPTY);
    assert Enlisted(s0, key, url, o).records == [NewRecord(key, url, o)];
    assert Enlisted(s0, key, url, o).tracked == map[key := 0];
    assert Launch(Enlisted(s0, key, url, o), 0).records == [NewRecord(key, url, o).(fetching := true)];
  }

  /** A poll of record 0 that is in flight is answered and settles. */
  lemma PollEnds(s0: State, es: seq<Event>, now: nat, rec: Record, nextTimer: nat, f: nat, requests: seq<Request>,
                 streak: nat, fetched: Fetched)
    returns (es': seq<Event>, requests': seq<Request>, streak': nat)
    requires !rec.stopped && (rec.timer.Some? ==> rec.timer.value < nextTimer)
    requires Run(s0, es) == Some(Polling(now, rec, nextTimer, f, requests, streak)) && CalmRun(s0, es, 0)
    ensures var d := Digest(rec, Interpret(fetched), Says(false), now);
            Run(s0, es') ==
              Some(Waiting(now, d, nextTimer, now + Delay(rec.opts, d.errorStreak), f + 1, requests', streak'))
    ensures CalmRun(s0, es', 0)
    ensures FailedSinceOk(s0, es', 0) == if Interpret(fetched).Success? then 0 else FailedSinceOk(s0, es, 0) + 1
  {
    AnsweredThenSettled(now, rec, nextTimer, f, requests, streak, fetched);
    var s := Polling(now, rec, nextTimer, f, requests, streak);
    var answer := NetworkAnswer(|requests|, fetched);
    var t := Step(s, answer);
    requests' := requests + [Request(true, CacheKey(rec.url, "GET", rec.url), Some(Interpret(fetched)))];
    streak' := NextStreak(streak, fetched);
    assert Calm(s, answer, 0) && Calm(t, Settle(f, Says(false)), 0);
    hide Step, Enabled, Digest, Waiting, Polling, Calm, Interpret, NextStreak, CacheKey, Run;
    Extend(s0, es, s, answer, 0);
    Extend(s0, es + [answer], t, Settle(f, Says(false)), 0);
    es' := es + [answer] + [Settle(f, Says(false))];
  }

  /** The timer of record 0 runs out, its poll goes out and the network is unreachable. */
  lemma PollFails(s0: State, es: seq<Event>, now: nat, rec: Record, timer: nat, due: nat, nf: nat,
                  requests: seq<Request>, streak: nat)
    returns (es': seq<Event>, requests': seq<Request>, streak': nat)
    requires !rec.stopped && now <= due
    requires Run(s0, es) == Some(Waiting(now, rec, timer, due, nf, requests, streak)) && CalmRun(s0, es, 0)
    ensures Run(s0, es') ==
              Some(Waiting(due, rec.(errorStreak := rec.errorStreak + 1), timer + 1,
                           due + Delay(rec.opts, rec.errorStreak + 1), nf + 1, requests', streak'))
    ensures CalmRun(s0, es', 0) && FailedSinceOk(s0, es', 0) == FailedSinceOk(s0, es, 0) + 1
  {
    hide Run, CalmRun, FailedSinceOk, Step, Enabled, Calm, Delay, Polling, Waiting, CacheKey, Digest, Initial;
    var s, t := Waiting(now, rec, timer, due, nf, requests, streak),
                Waiting(due, rec, timer, due, nf, requests, streak);
    var wait, fire := Wait(due - now), Fire(timer);
    WaitsForTimer(now, rec, timer, due, nf, requests, streak);
    FiresIntoPolling(due, rec, timer, due, nf, requests, streak);
    AlwaysCalm(s, wait, 0);
    AlwaysCalm(t, fire, 0);
    Extend(s0, es, s, wait, 0);
    Extend(s0, es + [wait], t, fire, 0);
    es', requests', streak' :=
      PollEnds(s0, es + [wait] + [fire], due, rec.(timer := Some(timer)), timer + 1, nf, requests, streak, Unreachable);
    WaitingAfterFailure(rec, timer, due, timer + 1, due + Delay(rec.opts, rec.errorStreak + 1), nf + 1,
                        requests', streak');
  }

  lemma AlwaysCalm(s: State, e: Event, r: nat)
    requires !e.Refresh? && !e.Settle?
    ensures Calm(s, e, r)
  { }

  lemma WaitsForTimer(now: nat, rec: Record, timer: nat, due: nat, nf: nat, requests: seq<Request>, streak: nat)
    requires now <= due
    ensures var s := Waiting(now, rec, timer, due, nf, requests, streak);
            Enabled(s, Wait(due - now))
            && Step(s, Wait(due - now)) == Waiting(due, rec, timer, due, nf, requests, streak)
  { }

  lemma WaitingAfterFailure(rec: Record, oldTimer: nat, now: nat, timer: nat, due: nat, nf: nat,
                            requests: seq<Request>, streak: nat)
    ensures var d := Digest(rec.(timer := Some(oldTimer)), Interpret(Unreachable), Says(false), now);
            d.errorStreak == rec.errorStreak + 1 && Waiting(now, d, timer, due, nf, requests, streak)
            == Waiting(now, rec.(errorStreak := rec.errorStreak + 1), timer, due, nf, requests, streak)
  { }

  /** Success at time 1, then two failures as fast as the schedule allows: age interval + min(2 * interval, cap). */
  lemma FastestTwoFailures(o: Opts) returns (s0: State, es: seq<Event>)
    ensures FailingTwice(s0, es, 0, o)
    ensures var s := Run(s0, es).value;
            |s.records| > 0 && s.records[0].lastOkAt == 1 && !s.records[0].lastEmpty && s.now == 1 + NextPollAge(o, 1)
  {
    s0, es := FirstPoll(o);
    var rec := NewRecord("k", "u", o);
    hide Run, CalmRun, FailedSinceOk, Step, Enabled, Polling, Waiting, Initial, Delay;
    var requests, streak;
    es, requests, streak := PollEnds(s0, es, 1, rec, 0, 0, [], 0, Responded(200, 0));
    var d := Digest(rec, Interpret(Responded(200, 0)), Says(false), 1);
    DelaysAre(o);
    var t1 := 1 + o.intervalMs;
    var t2 := t1 + Delay(o, 1);
    es, requests, streak := PollFails(s0, es, 1, d, 0, t1, 1, requests, streak);
    es, requests, streak := PollFails(s0, es, t1, d.(errorStreak := 1), 1, t2, 2, requests, streak);
    WaitingShows(t2, d.(errorStreak := 2), 2, t2 + Delay(o, 2), 3, requests, streak);
  }

  lemma DelaysAre(o: Opts)
    ensures Delay(o, 0) == o.intervalMs && Delay(o, 1) == Min(2 * o.intervalMs, o.backoffMaxMs)
  {
    DoubledAtLeast(o, 1);
  }

  lemma FirstPoll(o: Opts) returns (s0: State, es: seq<Event>)
    ensures Initial(s0) && Run(s0, es) == Some(Polling(1, NewRecord("k", "u", o), 0, 0, [], 0)) && CalmRun(s0, es, 0)
    ensures FailedSinceOk(s0, es, 0) == 0
  {
    s0 := State(1, false, [], map[], map[], 0, map[], 0, EMPTY);
    TracksIntoPolling("k", "u", o);
    AlwaysCalm(s0, Track("k", "u", o), 0);
    hide Step, Polling, Calm;
    Extend(s0, [], s0, Track("k", "u", o), 0);
    es := [] + [Track("k", "u", o)];
  }

  lemma WaitingShows(now: nat, rec: Record, timer: nat, due: nat, nf: nat, requests: seq<Request>, streak: nat)
    ensures var s := Waiting(now, rec, timer, due, nf, requests, streak);
            s.now == now && s.records == [rec.(timer := Some(timer), fetching := false)]
  { }

  /**
    Honest staleness holds for a set of options exactly when staleFactor intervals pass before the poll that
    follows a failed retry can come back, which the defaults grant: 2.5 < 3.
   */
  lemma HonestExactlyWhenInTime(o: Opts)
    ensures HonestFor(o) <==> ThresholdInTime(o)
    ensures ThresholdInTime(DEFAULTS)
    ensures o.intervalMs > 0 && 2 * o.intervalMs <= o.backoffMaxMs ==> (ThresholdInTime(o) <==> o.staleFactor < 3.0)
  {
    hide Truthful, Run, HonestFor;
    DefaultsInTime(o);
    if ThresholdInTime(o) {
      InTimeIsHonest(o);
    } else {
      LateMisleads(o);
    }
  }

  lemma DefaultsInTime(o: Opts)
    ensures ThresholdInTime(DEFAULTS)
    ensures o.intervalMs > 0 && 2 * o.intervalMs <= o.backoffMaxMs ==> (ThresholdInTime(o) <==> o.staleFactor < 3.0)
  {
    var i := o.intervalMs as real;
    if o.intervalMs > 0 {
      if o.staleFactor < 3.0 {
        assert i * o.staleFactor < i * 3.0;
      } else {
        assert i * o.staleFactor >= i * 3.0;
      }
    }
  }

  lemma LateMisleads(o: Opts)
    requires !ThresholdInTime(o)
    ensures !HonestFor(o)
  {
    hide Run, FailingTwice;
    var s0, es := FastestTwoFailures(o);
    RecordOfRun(s0, es, o);
    var s := Run(s0, es).value;
    TooYoungIsReady(s.records[0], s.now, o);
    assert FailingTwice(s0, es, 0, o) && !Truthful(s.records[0], s.now);
  }

  lemma RecordOfRun(s0: State, es: seq<Event>, o: Opts)
    requires FailingTwice(s0, es, 0, o)
    ensures Run(s0, es).Some? && |Run(s0, es).value.records| > 0
    ensures Run(s0, es).value.records[0].opts == o && !Run(s0, es).value.records[0].fetching
  { }

  lemma TooYoungIsReady(r: Record, now: nat, o: Opts)
    requires r.opts == o && !ThresholdInTime(o) && r.lastOkAt == 1 && !r.lastEmpty && !r.fetching
    requires now == 1 + NextPollAge(o, 1)
    ensures ComputeState(r, now) == READY && !Truthful(r, now)
  { }
}
