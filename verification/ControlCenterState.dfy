/**
  The objects of Web/cc_state.js: resource records mutated in place, the registry, and the run-time's timer queue
  and pending promises. Every method is proved to take the step of the machine in PollingEngine.
 */
module ControlCenterState {
  import opened Common
  import opened ApiClient
  import opened PollingEngine

  class Resource {
    const id: nat  // creation order, the record's name in the machine
    const key: string
    const url: string
    const opts: Opts
    var fetching: bool
    var lastOkAt: nat
    var lastEmpty: bool
    var errorStreak: nat
    var timer: Option<nat>
    var stopped: bool
    var data: Option<int>

    constructor (id: nat, key: string, url: string, opts: Opts)
      ensures this.id == id && View() == NewRecord(key, url, opts)
    {
      this.id, this.key, this.url, this.opts := id, key, url, opts;
      fetching, lastOkAt, lastEmpty, errorStreak, timer, stopped, data := false, 0, false, 0, None, false, None;
    }

    ghost function View(): Record
      reads this
    {
      Record(key, url, opts, fetching, lastOkAt, lastEmpty, errorStreak, timer, stopped, data)
    }

    /** computeState(r), which only reads. */
    method Phase(now: nat) returns (phase: Phase)
      requires lastOkAt <= now
      ensures phase == ComputeState(View(), now)
    {
      if fetching { return LOADING; }
      if lastOkAt == 0 { return ERROR; }
      var age := now - lastOkAt;
      if age as real > opts.intervalMs as real * opts.staleFactor { return STALE; }
      if lastEmpty { return EMPTY_; }
      return READY;
    }

    /** The try block of tick(r) after its await, and the first line of its finally. */
    method Absorb(reply: Reply, verdict: Verdict, now: nat)
      modifies this
      ensures View() == Digest(old(View()), reply, verdict, now)
    {
      match reply {
        case Success(_, body) =>
          errorStreak := 0;
          lastOkAt := now;
          match verdict {
            case Threw =>
              errorStreak := errorStreak + 1;
            case Says(empty) =>
              lastEmpty := empty;
              data := Some(body);
          }
        case Failure(_) =>
          errorStreak := errorStreak + 1;
      }
      fetching := false;
    }
  }

  /** The registry by record name; names are constant, so this reads no heap. */
  ghost function Registry(resources: map<string, Resource>): map<string, nat> {
    map k | k in resources :: resources[k].id
  }

  lemma RegistryLookup(resources: map<string, Resource>, key: string)
    ensures key in Registry(resources) <==> key in resources
    ensures key in resources ==> Registry(resources)[key] == resources[key].id
    ensures Registry(resources - {key}) == Registry(resources) - {key}
  { }

  lemma RegistryAdds(resources: map<string, Resource>, key: string, r: Resource)
    ensures Registry(resources[key := r]) == Registry(resources)[key := r.id]
  { }

  class Engine {
    var now: nat
    var hidden: bool
    var all: seq<Resource>  // every record ever created: timers, promises and handles keep them reachable
    var resources: map<string, Resource>
    var timers: map<nat, Timer>
    var nextTimer: nat
    var flights: map<nat, Flight>
    var nextFlight: nat
    const api: ApiClient

    ghost predicate Valid()
      reads this`all, this`resources
    {
      && (forall i :: 0 <= i < |all| ==> all[i].id == i)
      && (forall k :: k in resources ==> Known(resources[k]))
    }

    ghost predicate Known(r: Resource)
      reads this`all
    {
      r.id < |all| && all[r.id] == r
    }

    ghost function Records(): (rs: seq<Record>)
      reads this, all
      ensures |rs| == |all| && forall i :: 0 <= i < |all| ==> rs[i] == all[i].View()
    {
      seq(|all|, i requires 0 <= i < |all| reads this, all => all[i].View())
    }

    /** Writing to the fields of one record changes that record in the view and no other. */
    twostate lemma OneRecordWritten(r: Resource)
      requires Valid() && Known(r) && all == old(all)
      requires forall i :: 0 <= i < |all| && all[i] != r ==> unchanged(all[i])
      ensures Records() == old(Records())[r.id := r.View()]
    {
      forall i | 0 <= i < |all| ensures Records()[i] == old(Records())[r.id := r.View()][i] {
        if i != r.id { assert all[i].id != r.id; }
      }
    }

    ghost function View(): State
      reads this, all, api
    {
      State(now, hidden, Records(), Registry(resources), timers, nextTimer, flights, nextFlight, api.View())
    }

    constructor (now: nat, api: ApiClient)
      requires now > 0 && api.View() == EMPTY
      ensures Valid() && Initial(View()) && this.api == api
    {
      this.now, this.hidden, this.api := now, false, api;
      all, resources, timers, nextTimer, flights, nextFlight := [], map[], map[], 0, map[], 0;
    }

    method Schedule(r: Resource)
      requires Valid() && Known(r)
      modifies this`timers, this`nextTimer, r`timer
      ensures Valid() && View() == PollingEngine.Schedule(old(View()), r.id)
    {
      assert r.id < |all| && all[r.id] == r;
      hide Records, Registry, Valid, Known;
      ghost var s := View();
      if r.timer.Some? { timers := timers - {r.timer.value}; }
      var delay := if r.errorStreak > 0 then Min(r.opts.intervalMs * Pow2(r.errorStreak), r.opts.backoffMaxMs)
                   else r.opts.intervalMs;
      timers := timers[nextTimer := Timer(r.id, now + delay)];
      r.timer := Some(nextTimer);
      nextTimer := nextTimer + 1;
      OneRecordWritten(r);
    }

    /** tick(r) up to its await: the request is sent and a flight is left waiting for it. */
    method Tick(r: Resource)
      requires Valid() && Known(r)
      modifies this`timers, this`nextTimer, this`flights, this`nextFlight, r`timer, r`fetching, api
      ensures Valid() && View() == PollingEngine.Tick(old(View()), r.id)
    {
      assert r.id < |all| && all[r.id] == r;
      hide Records, Registry, Valid, Known;
      hide PollingEngine.Schedule, Ask, Target, CacheKey;
      ghost var s := View();
      if r.stopped { return; }
      if hidden {
        Schedule(r);
        return;
      }
      r.fetching := true;
      OneRecordWritten(r);
      var request := api.Send(r.url, "GET", r.url);
      flights := flights[nextFlight := Flight(r.id, request)];
      nextFlight := nextFlight + 1;
    }

    method Track(key: string, url: string, opts: Opts) returns (r: Resource)
      requires Valid()
      modifies this, api
      ensures Valid() && View() == Step(old(View()), Event.Track(key, url, opts))
      ensures key in resources && resources[key] == r && (key in old(resources) ==> r == old(resources[key]))
    {
      RegistryLookup(resources, key);
      hide Records, Registry, PollingEngine.Tick, SettleFlight, Ask, Answer;
      if key in resources { return resources[key]; }
      ghost var s := View();
      r := new Resource(|all|, key, url, opts);
      all := all + [r];
      resources := resources[key := r];
      assert View().records == s.records + [NewRecord(key, url, opts)];
      RegistryAdds(old(resources), key, r);
      Tick(r);
    }

    method Untrack(key: string)
      requires Valid()
      modifies this`timers, this`resources, if key in resources then {resources[key]} else {}
      ensures Valid() && key !in resources && View() == Step(old(View()), Event.Untrack(key))
    {
      hide Records, Registry;
      hide PollingEngine.Tick, SettleFlight, Ask, Answer, CacheKey;
      RegistryLookup(resources, key);
      if key !in resources { return; }
      ghost var s := View();
      var r := resources[key];
      r.stopped := true;
      if r.timer.Some? { timers := timers - {r.timer.value}; }
      resources := resources - {key};
      OneRecordWritten(r);
    }

    /** The refresh() of a handle, which may outlive the tracking of its record. */
    method Refresh(r: Resource)
      requires Valid() && Known(r)
      modifies this`timers, this`nextTimer, this`flights, this`nextFlight, r, api
      ensures Valid() && View() == Step(old(View()), Event.Refresh(r.id))
    {
      hide Records, Registry;
      ghost var s := View();
      r.errorStreak := 0;
      OneRecordWritten(r);
      Tick(r);
    }

    method Fire(timer: nat)
      requires Valid() && Enabled(View(), Event.Fire(timer))
      modifies this`timers, this`nextTimer, this`flights, this`nextFlight, all, api
      ensures Valid() && View() == Step(old(View()), Event.Fire(timer))
    {
      var r := all[timers[timer].owner];
      assert r.id == timers[timer].owner && Known(r);
      hide Records, Registry, Valid, Known, PollingEngine.Tick, SettleFlight, Ask, Answer;
      timers := timers - {timer};
      assert Records() == old(Records());
      Tick(r);
    }

    /** tick(r) after its await. */
    method Settle(flight: nat, verdict: Verdict)
      requires Valid() && Enabled(View(), Event.Settle(flight, verdict))
      modifies this`timers, this`nextTimer, this`flights, all
      ensures Valid() && View() == Step(old(View()), Event.Settle(flight, verdict))
    {
      hide Records, Registry;
      hide PollingEngine.Tick, PollingEngine.Schedule, Ask, Answer;
      ghost var s := View();
      var r := all[flights[flight].owner];
      var reply := api.requests[flights[flight].request].reply.value;
      flights := flights - {flight};
      r.Absorb(reply, verdict, now);
      OneRecordWritten(r);
      if !r.stopped { Schedule(r); }
    }
  }
}
