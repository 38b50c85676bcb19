/** The poller never dies and never doubles: what every interleaving of its events keeps. */
module PollerLiveness {
  import opened Common
  import opened ApiClient
  import opened PollingEngine

  ghost predicate HasTimer(s: State, r: nat)
    requires r < |s.records|
  {
    s.records[r].timer.Some? && s.records[r].timer.value in s.timers
  }

  ghost predicate HasFlight(s: State, r: nat) {
    exists f :: f in s.flights && s.flights[f].owner == r
  }

  /** A pending timer is the one its owner remembers, and no two records remember the same handle. */
  ghost predicate TimersOwned(s: State) {
    && (forall t :: t in s.timers ==>
          s.timers[t].owner < |s.records| && s.records[s.timers[t].owner].timer == Some(t)
          && !s.records[s.timers[t].owner].stopped)
    && (forall r :: 0 <= r < |s.records| && s.records[r].timer.Some? ==> s.records[r].timer.value < s.nextTimer)
    && (forall q, r :: 0 <= q < |s.records| && 0 <= r < |s.records| && q != r && s.records[q].timer.Some? ==>
          s.records[q].timer != s.records[r].timer)
  }

  ghost predicate FlightsKnown(s: State) {
    forall f :: f in s.flights ==>
      && f < s.nextFlight && s.flights[f].owner < |s.records| && s.flights[f].request < |s.client.requests|
      && s.client.requests[s.flights[f].request].isGet
      && s.client.requests[s.flights[f].request].key
         == CacheKey(s.records[s.flights[f].owner].url, "GET", s.records[s.flights[f].owner].url)
  }

  /** The registry and the running records are in one-to-one correspondence. */
  ghost predicate RegistryExact(s: State) {
    && (forall k :: k in s.tracked ==>
          s.tracked[k] < |s.records| && s.records[s.tracked[k]].key == k && !s.records[s.tracked[k]].stopped)
    && (forall r :: 0 <= r < |s.records| && !s.records[r].stopped ==>
          s.records[r].key in s.tracked && s.tracked[s.records[r].key] == r)
  }

  /** Every running record, `except` one at most, has something that will wake it. */
  ghost predicate Awaited(s: State, except: int) {
    forall r :: 0 <= r < |s.records| && r != except && !s.records[r].stopped ==> HasTimer(s, r) || HasFlight(s, r)
  }

  /** LOADING is never shown with nothing on its way. */
  ghost predicate LoadingIsReal(s: State) {
    forall r :: 0 <= r < |s.records| && s.records[r].fetching ==> HasFlight(s, r)
  }

  ghost predicate SoundBut(s: State, except: int) {
    && TimersOwned(s) && FlightsKnown(s) && RegistryExact(s) && Awaited(s, except) && LoadingIsReal(s)
    && Coherent(s.client)
  }

  ghost predicate Sound(s: State) {
    SoundBut(s, -1)
  }

  // ---------------------------------------------------------------- framing, one part at a time

  ghost predicate SameIdentities(s: State, t: State) {
    && |s.records| == |t.records|
    && forall r :: 0 <= r < |s.records| ==>
         t.records[r].key == s.records[r].key && t.records[r].url == s.records[r].url
         && t.records[r].stopped == s.records[r].stopped
  }

  lemma KeepRegistry(s: State, t: State)
    requires RegistryExact(s) && SameIdentities(s, t) && t.tracked == s.tracked
    ensures RegistryExact(t)
  { }

  ghost predicate SameRequests(c: Client, d: Client) {
    && |c.requests| <= |d.requests|
    && forall id :: 0 <= id < |c.requests| ==>
         d.requests[id].isGet == c.requests[id].isGet && d.requests[id].key == c.requests[id].key
  }

  lemma KeepFlights(s: State, t: State)
    requires FlightsKnown(s) && SameIdentities(s, t) && SameRequests(s.client, t.client) && s.nextFlight <= t.nextFlight
    requires forall f :: f in t.flights ==> f in s.flights && t.flights[f] == s.flights[f]
    ensures FlightsKnown(t)
  {
    hide CacheKey;
  }

  lemma KeepAwaited(s: State, t: State, x: int, y: int)
    requires Awaited(s, x)
    requires |t.records| == |s.records| || (|t.records| == |s.records| + 1 && y == |s.records|)
    requires forall q :: 0 <= q < |s.records| && s.records[q].stopped ==> t.records[q].stopped
    requires forall q :: 0 <= q < |s.records| && q != x && q != y && HasTimer(s, q) ==> HasTimer(t, q)
    requires forall q :: q != x && q != y && HasFlight(s, q) ==> HasFlight(t, q)
    requires 0 <= x < |s.records| && x != y ==> t.records[x].stopped || HasTimer(t, x) || HasFlight(t, x)
    ensures Awaited(t, y)
  {
    hide HasTimer, HasFlight;
  }

  lemma SameFlights(s: State, t: State)
    requires forall f :: f in s.flights ==> f in t.flights && t.flights[f] == s.flights[f]
    ensures forall q :: HasFlight(s, q) ==> HasFlight(t, q)
  {
    forall q | HasFlight(s, q) ensures HasFlight(t, q) {
      var f :| f in s.flights && s.flights[f].owner == q;
      assert f in t.flights && t.flights[f].owner == q;
    }
  }

  lemma KeepLoading(s: State, t: State)
    requires LoadingIsReal(s) && |t.records| == |s.records|
    requires forall q :: 0 <= q < |s.records| && t.records[q].fetching ==> s.records[q].fetching || HasFlight(t, q)
    requires forall q :: HasFlight(s, q) ==> HasFlight(t, q)
    ensures LoadingIsReal(t)
  {
    hide HasFlight;
  }

  // ---------------------------------------------------------------- the two ways a tick ends

  lemma ScheduleKeepsTimers(s: State, r: nat)
    requires TimersOwned(s) && r < |s.records| && !s.records[r].stopped
    ensures TimersOwned(Schedule(s, r)) && HasTimer(Schedule(s, r), r)
    ensures forall q :: 0 <= q < |s.records| && q != r && HasTimer(s, q) ==> HasTimer(Schedule(s, r), q)
  { }

  lemma ScheduleKeepsSound(s: State, r: nat)
    requires r < |s.records| && SoundBut(s, r) && !s.records[r].stopped
    ensures Sound(Schedule(s, r))
  {
    var t := Schedule(s, r);
    ScheduleKeepsTimers(s, r);
    assert SameIdentities(s, t);
    assert SameRequests(s.client, t.client);
    hide TimersOwned, RegistryExact, FlightsKnown, Awaited, LoadingIsReal, HasTimer, HasFlight, Delay, Coherent;
    SameFlights(s, t);
    KeepRegistry(s, t);
    KeepFlights(s, t);
    KeepAwaited(s, t, r, -1);
    KeepLoading(s, t);
  }

  lemma LaunchKeepsFlights(s: State, r: nat)
    requires r < |s.records| && FlightsKnown(s) && Coherent(s.client)
    ensures FlightsKnown(Launch(s, r)) && Coherent(Launch(s, r).client)
    ensures HasFlight(Launch(s, r), r) && forall q :: HasFlight(s, q) ==> HasFlight(Launch(s, r), q)
  {
    var t := Launch(s, r);
    LaunchedFlight(s, r);
    hide Coherent, CacheKey, Launch, Ask, Target, HasFlight;
    FlightJoins(s, t, r);
    SameFlights(s, t);
  }

  /** The flight that a launch adds, and that it adds nothing else. */
  lemma LaunchedFlight(s: State, r: nat)
    requires r < |s.records| && Coherent(s.client)
    ensures var t := Launch(s, r);
      && Coherent(t.client) && SameRequests(s.client, t.client) && SameIdentities(s, t)
      && t.nextFlight == s.nextFlight + 1 && s.nextFlight in t.flights && PollOf(t, t.flights[s.nextFlight], r)
      && t.flights == s.flights[s.nextFlight := t.flights[s.nextFlight]]
  {
    hide CacheKey;
    AskKeepsCoherent(s.client, true, CacheKey(s.records[r].url, "GET", s.records[r].url));
    hide Coherent;
  }

  /** Flight `f` of record r waits for a GET of the record's URL. */
  ghost predicate PollOf(s: State, f: Flight, r: nat) {
    && f.owner == r < |s.records| && f.request < |s.client.requests| && s.client.requests[f.request].isGet
    && s.client.requests[f.request].key == CacheKey(s.records[r].url, "GET", s.records[r].url)
  }

  lemma FlightJoins(s: State, t: State, r: nat)
    requires FlightsKnown(s) && SameIdentities(s, t) && SameRequests(s.client, t.client)
    requires t.nextFlight == s.nextFlight + 1 && s.nextFlight in t.flights && PollOf(t, t.flights[s.nextFlight], r)
    requires t.flights == s.flights[s.nextFlight := t.flights[s.nextFlight]]
    ensures FlightsKnown(t) && HasFlight(t, r)
    ensures forall f :: f in s.flights ==> f in t.flights && t.flights[f] == s.flights[f]
  {
    hide CacheKey;
    KeepFlights(s, t.(flights := s.flights));
  }

  lemma KeepTimers(s: State, t: State)
    requires TimersOwned(s) && SameIdentities(s, t) && t.timers == s.timers && t.nextTimer == s.nextTimer
    requires forall q :: 0 <= q < |s.records| ==> t.records[q].timer == s.records[q].timer
    ensures TimersOwned(t) && forall q :: 0 <= q < |s.records| && HasTimer(s, q) ==> HasTimer(t, q)
  { }

  lemma LaunchFrame(s: State, r: nat)
    requires r < |s.records|
    ensures var t := Launch(s, r);
            && SameIdentities(s, t) && t.timers == s.timers && t.tracked == s.tracked && t.nextTimer == s.nextTimer
            && (forall q :: 0 <= q < |s.records| ==> t.records[q].timer == s.records[q].timer)
            && (forall q :: 0 <= q < |s.records| && q != r ==> t.records[q].fetching == s.records[q].fetching)
  { }

  lemma LaunchKeepsSound(s: State, r: nat)
    requires r < |s.records| && SoundBut(s, r)
    ensures Sound(Launch(s, r))
  {
    hide TimersOwned, RegistryExact, FlightsKnown, Awaited, LoadingIsReal, HasTimer, HasFlight, Launch, Coherent;
    var t := Launch(s, r);
    LaunchKeepsFlights(s, r);
    LaunchFrame(s, r);
    KeepTimers(s, t);
    KeepRegistry(s, t);
    KeepAwaited(s, t, r, -1);
    KeepLoading(s, t);
  }

  lemma TickKeepsSound(s: State, r: nat)
    requires r < |s.records| && SoundBut(s, r)
    ensures Sound(Tick(s, r))
  {
    hide TimersOwned, FlightsKnown, RegistryExact, LoadingIsReal, Schedule, Launch, Coherent, HasTimer, HasFlight;
    if s.records[r].stopped {
    } else if s.hidden {
      ScheduleKeepsSound(s, r);
    } else {
      LaunchKeepsSound(s, r);
    }
  }

  // ---------------------------------------------------------------- every event

  lemma FireKeepsTimers(s: State, t: nat)
    requires TimersOwned(s) && Enabled(s, Fire(t))
    ensures var u, r := s.(timers := s.timers - {t}), s.timers[t].owner;
            TimersOwned(u) && forall q :: 0 <= q < |s.records| && q != r && HasTimer(s, q) ==> HasTimer(u, q)
  { }

  lemma FireIsSoundBut(s: State, t: nat)
    requires Sound(s) && Enabled(s, Fire(t))
    ensures SoundBut(s.(timers := s.timers - {t}), s.timers[t].owner)
  {
    var u, r := s.(timers := s.timers - {t}), s.timers[t].owner;
    assert SameIdentities(s, u) && SameRequests(s.client, u.client);
    hide RegistryExact, FlightsKnown, Awaited, LoadingIsReal, HasFlight, Coherent, TimersOwned, HasTimer;
    hide SameIdentities, SameRequests;
    FireKeepsTimers(s, t);
    SameFlights(s, u);
    KeepRegistry(s, u);
    KeepFlights(s, u);
    KeepAwaited(s, u, -1, r);
    KeepLoading(s, u);
  }

  function Enlisted(s: State, key: string, url: string, opts: Opts): State {
    s.(records := s.records + [NewRecord(key, url, opts)], tracked := s.tracked[key := |s.records|])
  }

  lemma EnlistKeepsParts(s: State, key: string, url: string, opts: Opts)
    requires key !in s.tracked
    ensures TimersOwned(s) ==> TimersOwned(Enlisted(s, key, url, opts))
    ensures RegistryExact(s) ==> RegistryExact(Enlisted(s, key, url, opts))
    ensures forall q :: 0 <= q < |s.records| && HasTimer(s, q) ==> HasTimer(Enlisted(s, key, url, opts), q)
  { }

  lemma EnlistKeepsFlights(s: State, key: string, url: string, opts: Opts)
    requires FlightsKnown(s)
    ensures FlightsKnown(Enlisted(s, key, url, opts))
  {
    hide CacheKey;
  }

  lemma EnlistIsSoundBut(s: State, key: string, url: string, opts: Opts)
    requires Sound(s) && key !in s.tracked
    ensures SoundBut(Enlisted(s, key, url, opts), |s.records|)
  {
    hide RegistryExact, FlightsKnown, Awaited, HasFlight, Coherent, TimersOwned, HasTimer;
    var t := Enlisted(s, key, url, opts);
    EnlistKeepsParts(s, key, url, opts);
    EnlistKeepsFlights(s, key, url, opts);
    SameFlights(s, t);
    KeepAwaited(s, t, -1, |s.records|);
  }

  lemma ForgetKeepsParts(s: State, key: string)
    requires key in s.tracked && TimersOwned(s) && RegistryExact(s)
    ensures TimersOwned(Forget(s, key)) && RegistryExact(Forget(s, key))
    ensures forall q :: 0 <= q < |s.records| && q != s.tracked[key] && HasTimer(s, q) ==> HasTimer(Forget(s, key), q)
  { }

  lemma ForgetKeepsFlights(s: State, key: string)
    requires key in s.tracked && s.tracked[key] < |s.records| && FlightsKnown(s)
    ensures FlightsKnown(Forget(s, key))
  {
    hide CacheKey;
  }

  /** Untracking stops the record for good: its timer is gone, and only a running record is ever scheduled. */
  lemma ForgetKeepsSound(s: State, key: string)
    requires Sound(s) && key in s.tracked
    ensures Sound(Forget(s, key))
  {
    hide FlightsKnown, Awaited, HasFlight, Coherent, TimersOwned, HasTimer;
    var r, t := s.tracked[key], Forget(s, key);
    ForgetKeepsParts(s, key);
    ForgetKeepsFlights(s, key);
    hide RegistryExact;
    SameFlights(s, t);
    KeepAwaited(s, t, r, -1) by { StrongerAwaited(s, -1, r); }
  }

  lemma StrongerAwaited(s: State, x: int, y: int)
    requires Awaited(s, x) && x == -1
    ensures Awaited(s, y)
  {
    hide HasTimer, HasFlight;
  }

  /** The state in which flight `f` has landed and its record digested the reply. */
  function Landed(s: State, f: nat, verdict: Verdict): State
    requires Enabled(s, Settle(f, verdict))
  {
    s.(flights := s.flights - {f},
       records := s.records[s.flights[f].owner :=
         Digest(s.records[s.flights[f].owner], s.client.requests[s.flights[f].request].reply.value, verdict, s.now)])
  }

  lemma LandedFrame(s: State, f: nat, verdict: Verdict)
    requires Enabled(s, Settle(f, verdict))
    ensures var t, r := Landed(s, f, verdict), s.flights[f].owner;
            && SameIdentities(s, t) && SameRequests(s.client, t.client) && !t.records[r].fetching
            && (forall q :: 0 <= q < |s.records| ==> t.records[q].timer == s.records[q].timer)
            && (forall q :: 0 <= q < |s.records| && q != r ==> t.records[q].fetching == s.records[q].fetching)
  { }

  lemma LandedFlights(s: State, f: nat, verdict: Verdict)
    requires Enabled(s, Settle(f, verdict))
    ensures forall q :: q != s.flights[f].owner && HasFlight(s, q) ==> HasFlight(Landed(s, f, verdict), q)
  {
    forall q | q != s.flights[f].owner && HasFlight(s, q) ensures HasFlight(Landed(s, f, verdict), q) {
      var g :| g in s.flights && s.flights[g].owner == q;
      assert g in Landed(s, f, verdict).flights;
    }
  }

  lemma LandedIsSoundBut(s: State, f: nat, verdict: Verdict)
    requires Sound(s) && Enabled(s, Settle(f, verdict))
    ensures SoundBut(Landed(s, f, verdict), s.flights[f].owner)
  {
    var t, r := Landed(s, f, verdict), s.flights[f].owner;
    LandedFrame(s, f, verdict);
    LandedFlights(s, f, verdict);
    assert t.flights == s.flights - {f} && t.client == s.client && t.timers == s.timers && t.nextTimer == s.nextTimer
           && t.nextFlight == s.nextFlight && t.tracked == s.tracked;
    hide RegistryExact, FlightsKnown, Awaited, HasFlight, Coherent, TimersOwned, HasTimer, Landed;
    KeepTimers(s, t);
    KeepRegistry(s, t);
    KeepFlights(s, t);
    KeepAwaited(s, t, -1, r);
    KeepLoadingOfOthers(s, t, r);
  }

  lemma KeepLoadingOfOthers(s: State, t: State, r: nat)
    requires LoadingIsReal(s) && |t.records| == |s.records| && r < |s.records| && !t.records[r].fetching
    requires forall q :: 0 <= q < |s.records| && q != r ==> t.records[q].fetching == s.records[q].fetching
    requires forall q :: q != r && HasFlight(s, q) ==> HasFlight(t, q)
    ensures LoadingIsReal(t)
  {
    hide HasFlight;
  }

  lemma SettleKeepsSound(s: State, f: nat, verdict: Verdict)
    requires Sound(s) && Enabled(s, Settle(f, verdict))
    ensures Sound(SettleFlight(s, f, verdict))
  {
    hide SoundBut, HasTimer, HasFlight, Schedule;
    var t, r := Landed(s, f, verdict), s.flights[f].owner;
    LandedIsSoundBut(s, f, verdict);
    LandedFrame(s, f, verdict);
    if s.records[r].stopped {
      StoppedNeedsNothing(t, r);
    } else {
      ScheduleKeepsSound(t, r);
    }
  }

  lemma StoppedNeedsNothing(s: State, r: nat)
    requires r < |s.records| && SoundBut(s, r) && s.records[r].stopped
    ensures Sound(s)
  {
    hide TimersOwned, HasTimer, HasFlight, FlightsKnown, Coherent, RegistryExact, LoadingIsReal;
  }

  /** Events that touch neither records, timers nor flights. */
  lemma PassiveKeepsSound(s: State, t: State)
    requires Sound(s) && t.records == s.records && t.tracked == s.tracked && t.timers == s.timers
    requires t.nextTimer == s.nextTimer && t.flights == s.flights && t.nextFlight == s.nextFlight
    requires SameRequests(s.client, t.client) && Coherent(t.client)
    ensures Sound(t)
  {
    assert SameIdentities(s, t);
    hide RegistryExact, FlightsKnown, Awaited, HasFlight, Coherent, TimersOwned, HasTimer, SameIdentities, SameRequests;
    KeepTimers(s, t);
    KeepRegistry(s, t);
    SameFlights(s, t);
    KeepFlights(s, t);
    KeepAwaited(s, t, -1, -1);
    KeepLoading(s, t);
  }

  function Pardoned(s: State, r: nat): State
    requires r < |s.records|
  {
    s.(records := s.records[r := s.records[r].(errorStreak := 0)])
  }

  lemma PardonFrame(s: State, r: nat)
    requires r < |s.records|
    ensures var t := Pardoned(s, r);
            && SameIdentities(s, t) && SameRequests(s.client, t.client) && t == s.(records := t.records)
            && (forall q :: 0 <= q < |s.records| ==> t.records[q].timer == s.records[q].timer)
            && (forall q :: 0 <= q < |s.records| ==> t.records[q].fetching == s.records[q].fetching)
  { }

  lemma PardonIsSoundBut(s: State, r: nat)
    requires Sound(s) && r < |s.records|
    ensures SoundBut(Pardoned(s, r), r)
  {
    var t := Pardoned(s, r);
    PardonFrame(s, r);
    hide Pardoned, RegistryExact, FlightsKnown, Awaited, HasFlight, Coherent, TimersOwned, HasTimer;
    KeepTimers(s, t);
    KeepRegistry(s, t);
    SameFlights(s, t);
    KeepFlights(s, t);
    KeepAwaited(s, t, -1, r);
    KeepLoading(s, t);
  }

  lemma CoherentInSound(s: State)
    requires Sound(s)
    ensures Coherent(s.client)
  { }

  lemma StepKeepsSound(s: State, e: Event)
    requires Sound(s) && Enabled(s, e)
    ensures Sound(Step(s, e))
  {
    hide SoundBut, Schedule, Launch, Coherent, Tick, SettleFlight, Forget;
    CoherentInSound(s);
    match e
    case Wait(ms) => PassiveKeepsSound(s, Step(s, e));
    case SetHidden(h) => PassiveKeepsSound(s, Step(s, e));
    case Track(key, url, opts) =>
      if key !in s.tracked {
        EnlistIsSoundBut(s, key, url, opts);
        TickKeepsSound(Enlisted(s, key, url, opts), |s.records|);
      }
    case Untrack(key) => if key in s.tracked { ForgetKeepsSound(s, key); }
    case Refresh(r) =>
      PardonIsSoundBut(s, r);
      TickKeepsSound(Pardoned(s, r), r);
    case Fire(t) =>
      FireIsSoundBut(s, t);
      TickKeepsSound(s.(timers := s.timers - {t}), s.timers[t].owner);
    case NetworkAnswer(q, fetched) =>
      AnswerKeepsCoherent(s.client, q, fetched);
      PassiveKeepsSound(s, Step(s, e));
    case Settle(f, verdict) => SettleKeepsSound(s, f, verdict);
    case OtherCall(isGet, key) =>
      AskKeepsCoherent(s.client, isGet, key);
      PassiveKeepsSound(s, Step(s, e));
  }

  lemma {:induction false} RunsAreSound(s0: State, es: seq<Event>)
    requires Initial(s0) && Run(s0, es).Some?
    ensures Sound(Run(s0, es).value)
  {
    hide SoundBut, Step, Enabled;
    if es == [] {
      InitialIsSound(s0);
    } else {
      RunsAreSound(s0, es[..|es| - 1]);
      StepKeepsSound(Run(s0, es[..|es| - 1]).value, es[|es| - 1]);
    }
  }

  lemma InitialIsSound(s: State)
    requires Initial(s)
    ensures Sound(s)
  { }

  // ---------------------------------------------------------------- what that says of every run

  ghost predicate RunsAs(s: State, r: nat, key: string) {
    r < |s.records| && !s.records[r].stopped && s.records[r].key == key
  }

  /** At most one pending timer each, none once untracked; always one, or a request on its way, while tracked. */
  lemma NeverDiesNeverDoubles(s0: State, es: seq<Event>)
    requires Initial(s0) && Run(s0, es).Some?
    ensures var s := Run(s0, es).value;
      && (forall t, u :: t in s.timers && u in s.timers && s.timers[t].owner == s.timers[u].owner ==> t == u)
      && (forall t :: t in s.timers ==> s.timers[t].owner < |s.records| && !s.records[s.timers[t].owner].stopped)
      && (forall r :: 0 <= r < |s.records| && (!s.records[r].stopped || s.records[r].fetching) ==>
            HasFlight(s, r) || (!s.records[r].fetching && exists t :: t in s.timers && s.timers[t].owner == r))
      && (forall q, r, k :: RunsAs(s, q, k) && RunsAs(s, r, k) ==> q == r)
      && (forall k :: k in s.tracked <==> exists r :: RunsAs(s, r, k))
  {
    RunsAreSound(s0, es);
    var s := Run(s0, es).value;
    hide FlightsKnown, Coherent, HasFlight, Run;
    forall r | 0 <= r < |s.records| && (!s.records[r].stopped || s.records[r].fetching)
      ensures HasFlight(s, r) || (!s.records[r].fetching && exists t :: t in s.timers && s.timers[t].owner == r)
    {
      if !HasFlight(s, r) {
        var t := s.records[r].timer.value;
        assert HasTimer(s, r) && t in s.timers && s.timers[t].owner < |s.records|;
        assert s.records[s.timers[t].owner].timer == s.records[r].timer;
      }
    }
    forall k | k in s.tracked ensures exists r :: RunsAs(s, r, k) {
      assert RunsAs(s, s.tracked[k], k);
    }
  }

  lemma StepKeepsStopped(s: State, e: Event, r: nat)
    requires Enabled(s, e) && r < |s.records| && s.records[r].stopped
    ensures r < |Step(s, e).records| && Step(s, e).records[r].stopped
  { }

  /** Untracking is final: the record never runs again, so with the lemma above it never holds a timer again. */
  lemma {:induction false} UntrackedForever(s0: State, es: seq<Event>, n: nat, r: nat)
    requires n <= |es| && Run(s0, es).Some? && Run(s0, es[..n]).Some?
    requires r < |Run(s0, es[..n]).value.records| && Run(s0, es[..n]).value.records[r].stopped
    ensures r < |Run(s0, es).value.records| && Run(s0, es).value.records[r].stopped
  {
    if n == |es| {
      assert es[..n] == es;
    } else {
      var front := es[..|es| - 1];
      assert front[..n] == es[..n];
      UntrackedForever(s0, front, n, r);
      StepKeepsStopped(Run(s0, front).value, es[|es| - 1], r);
      hide Step, Enabled;
    }
  }

  /** Flight f is a poll of `url` whose request has not been answered yet. */
  ghost predicate WaitsFor(s: State, f: nat, url: string) {
    && f in s.flights && s.flights[f].owner < |s.records| && s.records[s.flights[f].owner].url == url
    && Outstanding(s.client, s.flights[f].request)
  }

  /**
    However refreshes and polls overlap, one network GET per key is outstanding at most; ticks of the same URL that
    are still waiting wait for the same request; and the dedup map is empty when no GET is outstanding.
   */
  lemma PollsShareOneRequest(s0: State, es: seq<Event>)
    requires Initial(s0) && Run(s0, es).Some?
    ensures var s := Run(s0, es).value;
      && (forall i, j, key :: OutstandingGet(s.client, i, key) && OutstandingGet(s.client, j, key) ==> i == j)
      && ((forall i, key :: !OutstandingGet(s.client, i, key)) <==> s.client.inflight == map[])
      && (forall f, g, url ::
            WaitsFor(s, f, url) && WaitsFor(s, g, url) ==> s.flights[f].request == s.flights[g].request)
  {
    RunsAreSound(s0, es);
    var s := Run(s0, es).value;
    hide TimersOwned, RegistryExact, Awaited, LoadingIsReal, Run, CacheKey;
    if s.client.inflight != map[] {
      var k :| k in s.client.inflight;
      assert OutstandingGet(s.client, s.client.inflight[k], k);
    }
  }

  // ---------------------------------------------------------------- the retry delay

  lemma {:induction false} Pow2Grows(k: nat)
    ensures Pow2(k + 1) == 2 * Pow2(k)
  { }

  lemma DelayStep(o: Opts, k: nat)
    requires k >= 1
    ensures Delay(o, k) <= Delay(o, k + 1)
  {
    Pow2Grows(k);
    assert o.intervalMs * (2 * Pow2(k)) == o.intervalMs * Pow2(k) + o.intervalMs * Pow2(k);
  }

  lemma DoubledAtLeast(o: Opts, k: nat)
    requires k >= 1
    ensures Delay(o, k) >= Min(2 * o.intervalMs, o.backoffMaxMs)
    ensures Delay(o, 1) == Min(2 * o.intervalMs, o.backoffMaxMs)
  {
    assert Pow2(1) == 2 * Pow2(0);
    if k > 1 {
      DoubledAtLeast(o, k - 1);
      DelayStep(o, k - 1);
    }
  }

  /** The delay stays within [interval, cap] and never shrinks as failures add up: exactly when interval <= cap. */
  lemma DelayIsMonotoneIffCapped(o: Opts)
    ensures (forall k: nat :: o.intervalMs <= Delay(o, k) <= o.backoffMaxMs && Delay(o, k) <= Delay(o, k + 1))
            <==> o.intervalMs <= o.backoffMaxMs
  {
    assert o.intervalMs > o.backoffMaxMs ==> !(Delay(o, 0) <= o.backoffMaxMs);
    if o.intervalMs <= o.backoffMaxMs {
      forall k: nat ensures o.intervalMs <= Delay(o, k) <= o.backoffMaxMs && Delay(o, k) <= Delay(o, k + 1) {
        DoubledAtLeast(o, k + 1);
        if k >= 1 { DoubledAtLeast(o, k); DelayStep(o, k); }
        DelayCapped(o, k);
      }
    }
  }

  lemma DelayCapped(o: Opts, k: nat)
    requires o.intervalMs <= o.backoffMaxMs
    ensures Delay(o, k) <= o.backoffMaxMs
  { }
}
