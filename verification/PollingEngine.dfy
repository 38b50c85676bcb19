/**
  The polling engine of the Control Center (Web/cc_state.js) over the deduplicating client, as a timed state
  machine. Every `await` ends a step: a tick that starts a request leaves a flight behind, the network answers
  the request in a step of its own, and each waiting tick settles in yet another.
 */
module PollingEngine {
  import opened Common
  import opened ApiClient

  // ---------------------------------------------------------------- state

  datatype Opts = Opts(intervalMs: nat, backoffMaxMs: nat, staleFactor: real)

  const DEFAULTS := Opts(15000, 60000, 2.5)

  datatype Phase = LOADING | ERROR | STALE | EMPTY_ | READY

  /** One tracked view-model. `timer` is the last handle it was given, which may have fired or been cleared. */
  datatype Record = Record(
    key: string, url: string, opts: Opts,
    fetching: bool, lastOkAt: nat, lastEmpty: bool, errorStreak: nat,
    timer: Option<nat>, stopped: bool, data: Option<int>)

  datatype Timer = Timer(owner: nat, due: nat)

  datatype Flight = Flight(owner: nat, request: nat)

  /** `records` lists every record ever created; untracked ones live on while handles and flights refer to them. */
  datatype State = State(
    now: nat, hidden: bool,
    records: seq<Record>, tracked: map<string, nat>,
    timers: map<nat, Timer>, nextTimer: nat,
    flights: map<nat, Flight>, nextFlight: nat,
    client: Client)

  // The clock reads milliseconds since 1970, so it starts well above the 0 that means `never`.
  predicate Initial(s: State) {
    s.now > 0 && s.records == [] && s.tracked == map[] && s.timers == map[] && s.flights == map[] && s.client == EMPTY
  }

  function ComputeState(r: Record, now: nat): Phase {
    if r.fetching then LOADING
    else if r.lastOkAt == 0 then ERROR
    else if (now - r.lastOkAt) as real > r.opts.intervalMs as real * r.opts.staleFactor then STALE
    else if r.lastEmpty then EMPTY_
    else READY
  }

  function Pow2(k: nat): (p: nat)
    ensures p >= 1
  {
    if k == 0 then 1 else 2 * Pow2(k - 1)
  }

  function Delay(o: Opts, streak: nat): nat {
    if streak > 0 then Min(o.intervalMs * Pow2(streak), o.backoffMaxMs) else o.intervalMs
  }

  // ---------------------------------------------------------------- steps

  function ClearTimer(s: State, r: nat): map<nat, Timer>
    requires r < |s.records|
  {
    if s.records[r].timer.Some? then s.timers - {s.records[r].timer.value} else s.timers
  }

  function Schedule(s: State, r: nat): State
    requires r < |s.records|
  {
    var due := s.now + Delay(s.records[r].opts, s.records[r].errorStreak);
    s.(timers := ClearTimer(s, r)[s.nextTimer := Timer(r, due)],
       nextTimer := s.nextTimer + 1,
       records := s.records[r := s.records[r].(timer := Some(s.nextTimer))])
  }

  /** The part of a tick before its `await`. */
  function Launch(s: State, r: nat): State
    requires r < |s.records|
  {
    s.(records := s.records[r := s.records[r].(fetching := true)],
       client := Ask(s.client, true, CacheKey(s.records[r].url, "GET", s.records[r].url)),
       flights := s.flights[s.nextFlight :=
         Flight(r, Target(s.client, true, CacheKey(s.records[r].url, "GET", s.records[r].url)))],
       nextFlight := s.nextFlight + 1)
  }

  function Tick(s: State, r: nat): State
    requires r < |s.records|
  {
    if s.records[r].stopped then s
    else if s.hidden then Schedule(s, r)
    else Launch(s, r)
  }

  /** What isEmptyFn says of a body; it may throw. */
  datatype Verdict = Threw | Says(empty: bool)

  /** The record after its poll has been answered, before it is rescheduled. */
  function Digest(r: Record, reply: Reply, verdict: Verdict, now: nat): Record {
    match reply
    case Failure(_) => r.(errorStreak := r.errorStreak + 1, fetching := false)
    case Success(_, body) =>
      match verdict
      case Threw => r.(errorStreak := 1, lastOkAt := now, fetching := false)
      case Says(empty) =>
        r.(errorStreak := 0, lastOkAt := now, lastEmpty := empty, data := Some(body), fetching := false)
  }

  function NewRecord(key: string, url: string, opts: Opts): Record {
    Record(key, url, opts, false, 0, false, 0, None, false, None)
  }

  datatype Event =
    | Wait(ms: nat)
    | SetHidden(hidden: bool)
    | Track(key: string, url: string, opts: Opts)
    | Untrack(key: string)
    | Refresh(record: nat)
    | Fire(timer: nat)
    | NetworkAnswer(request: nat, fetched: Fetched)
    | Settle(flight: nat, verdict: Verdict)
    | OtherCall(isGet: bool, key: string)

  predicate Enabled(s: State, e: Event) {
    match e
    case Untrack(key) => key in s.tracked ==> s.tracked[key] < |s.records|
    case Refresh(r) => r < |s.records|
    case Fire(t) => t in s.timers && s.timers[t].due <= s.now && s.timers[t].owner < |s.records|
    case NetworkAnswer(q, _) => Outstanding(s.client, q)
    case Settle(f, _) =>
      f in s.flights && s.flights[f].owner < |s.records| && s.flights[f].request < |s.client.requests|
      && s.client.requests[s.flights[f].request].reply.Some?
    case _ => true
  }

  function Forget(s: State, key: string): State
    requires key in s.tracked && s.tracked[key] < |s.records|
  {
    var r := s.tracked[key];
    s.(records := s.records[r := s.records[r].(stopped := true)],
       timers := ClearTimer(s, r),
       tracked := s.tracked - {key})
  }

  function SettleFlight(s: State, f: nat, verdict: Verdict): State
    requires Enabled(s, Settle(f, verdict))
  {
    var r := s.flights[f].owner;
    var reply := s.client.requests[s.flights[f].request].reply.value;
    var t := s.(flights := s.flights - {f}, records := s.records[r := Digest(s.records[r], reply, verdict, s.now)]);
    if s.records[r].stopped then t else Schedule(t, r)
  }

  function Step(s: State, e: Event): State
    requires Enabled(s, e)
  {
    match e
    case Wait(ms) => s.(now := s.now + ms)
    case SetHidden(h) => s.(hidden := h)
    case Track(key, url, opts) =>
      if key in s.tracked then s
      else Tick(s.(records := s.records + [NewRecord(key, url, opts)], tracked := s.tracked[key := |s.records|]),
                |s.records|)
    case Untrack(key) => if key in s.tracked then Forget(s, key) else s
    case Refresh(r) => Tick(s.(records := s.records[r := s.records[r].(errorStreak := 0)]), r)
    case Fire(t) => Tick(s.(timers := s.timers - {t}), s.timers[t].owner)
    case NetworkAnswer(q, f) => s.(client := Answer(s.client, q, f))
    case Settle(f, verdict) => SettleFlight(s, f, verdict)
    case OtherCall(isGet, key) => s.(client := Ask(s.client, isGet, key))
  }

  /** The state after the events, if each was possible when it came. */
  ghost function Run(s0: State, es: seq<Event>): Option<State> {
    if es == [] then Some(s0)
    else
      var before := Run(s0, es[..|es| - 1]);
      if before.Some? && Enabled(before.value, es[|es| - 1]) then Some(Step(before.value, es[|es| - 1])) else None
  }
}
