/** Polls that share a request: over every run of the engine they digest one and the same reply, in whatever order. */
module PollerSharing {
  import opened Common
  import opened ApiClient
  import opened PollingEngine
  import opened PollerLiveness

  /** Later states know all earlier requests and replies, and a flight can land but never changes or comes back. */
  ghost predicate Later(s: State, t: State) {
    && Extends(s.client, t.client)
    && s.nextFlight <= t.nextFlight
    && forall f :: f in t.flights && f < s.nextFlight ==> f in s.flights && t.flights[f] == s.flights[f]
  }

  lemma LaterIsTransitive(s: State, t: State, u: State)
    requires Later(s, t) && Later(t, u)
    ensures Later(s, u)
  { }

  lemma TickIsLater(s: State, r: nat)
    requires r < |s.records|
    ensures Later(s, Tick(s, r))
  {
    hide CacheKey, Delay;
  }

  lemma StepIsLater(s: State, e: Event)
    requires Enabled(s, e)
    ensures Later(s, Step(s, e))
  {
    hide Tick, Digest, Delay;
    match e
    case Track(key, url, opts) => if key !in s.tracked { TickIsLater(Enlisted(s, key, url, opts), |s.records|); }
    case Refresh(r) => TickIsLater(Pardoned(s, r), r);
    case Fire(t) => TickIsLater(s.(timers := s.timers - {t}), s.timers[t].owner);
    case _ =>
  }

  lemma {:induction false} RunsAreLater(s0: State, es: seq<Event>, n: nat)
    requires n <= |es| && Run(s0, es).Some?
    ensures Run(s0, es[..n]).Some? && Later(Run(s0, es[..n]).value, Run(s0, es).value)
  {
    if n == |es| {
      assert es[..n] == es;
    } else {
      var front := es[..|es| - 1];
      RunsAreLater(s0, front, n);
      assert front[..n] == es[..n];
      StepIsLater(Run(s0, front).value, es[|es| - 1]);
      LaterIsTransitive(Run(s0, es[..n]).value, Run(s0, front).value, Run(s0, es).value);
      hide Step, Enabled, Later;
    }
  }

  lemma RunBetween(s0: State, es: seq<Event>, n: nat, m: nat)
    requires n <= m <= |es| && Run(s0, es).Some?
    ensures Run(s0, es[..n]).Some? && Run(s0, es[..m]).Some?
    ensures Later(Run(s0, es[..n]).value, Run(s0, es[..m]).value)
  {
    RunsAreLater(s0, es, m);
    RunsAreLater(s0, es[..m], n);
    assert es[..m][..n] == es[..n];
    hide Later;
  }

  /** Event i makes record r digest the reply; what else changes in the record is its timer. */
  ghost predicate Digests(s0: State, es: seq<Event>, i: nat, r: nat, verdict: Verdict, reply: Reply)
    requires i < |es| && Run(s0, es[..i]).Some? && Run(s0, es[..i + 1]).Some?
  {
    var s, t := Run(s0, es[..i]).value, Run(s0, es[..i + 1]).value;
    && r < |s.records| && r < |t.records|
    && t.records[r].(timer := None) == Digest(s.records[r], reply, verdict, s.now).(timer := None)
  }

  lemma SettlingDigests(s: State, f: nat, verdict: Verdict)
    requires Enabled(s, Settle(f, verdict))
    ensures var t, r := Step(s, Settle(f, verdict)), s.flights[f].owner;
      && r < |t.records|
      && t.records[r].(timer := None) ==
         Digest(s.records[r], s.client.requests[s.flights[f].request].reply.value, verdict, s.now).(timer := None)
  {
    hide Delay;
  }

  lemma RunStep(s0: State, es: seq<Event>, i: nat)
    requires i < |es| && Run(s0, es).Some?
    ensures Run(s0, es[..i]).Some? && Enabled(Run(s0, es[..i]).value, es[i])
    ensures Run(s0, es[..i + 1]) == Some(Step(Run(s0, es[..i]).value, es[i]))
  {
    RunsAreLater(s0, es, i + 1);
    assert es[..i + 1][..i] == es[..i] && es[..i + 1][i] == es[i] && |es[..i + 1]| == i + 1;
    hide Step, Enabled, Later;
  }

  lemma StillTheSameFlight(s0: State, es: seq<Event>, n: nat, i: nat, f: nat, verdict: Verdict)
    requires Initial(s0) && Run(s0, es).Some? && n <= i <= |es|
    requires Run(s0, es[..n]).Some? && f in Run(s0, es[..n]).value.flights
    requires Run(s0, es[..i]).Some? && Enabled(Run(s0, es[..i]).value, Settle(f, verdict))
    ensures f in Run(s0, es[..i]).value.flights
    ensures Run(s0, es[..i]).value.flights[f] == Run(s0, es[..n]).value.flights[f]
  {
    RunBetween(s0, es, n, i);
    RunsAreSound(s0, es[..n]);
    hide Run;
  }

  lemma OwnerKnown(s: State, f: nat, verdict: Verdict)
    requires Enabled(s, Settle(f, verdict))
    ensures f in s.flights && s.flights[f].owner < |s.records|
  { }

  lemma ReplyIsFinal(s: State, t: State, f: nat, verdict: Verdict)
    requires Enabled(s, Settle(f, verdict)) && Later(s, t)
    ensures f in s.flights && s.flights[f].request < |s.client.requests| <= |t.client.requests|
    ensures s.client.requests[s.flights[f].request].reply.Some?
    ensures t.client.requests[s.flights[f].request].reply == s.client.requests[s.flights[f].request].reply
  { }

  /** The poll that event i settles reads the reply that its request has at the end of the run. */
  lemma SettlesWithTheFinalReply(s0: State, es: seq<Event>, n: nat, i: nat, f: nat, verdict: Verdict)
    requires Initial(s0) && Run(s0, es).Some? && n <= i < |es| && es[i] == Settle(f, verdict)
    requires Run(s0, es[..n]).Some? && f in Run(s0, es[..n]).value.flights
    ensures Run(s0, es[..i]).Some? && Run(s0, es[..i + 1]).Some?
    ensures var flight, final := Run(s0, es[..n]).value.flights[f], Run(s0, es).value.client;
      && flight.request < |final.requests| && final.requests[flight.request].reply.Some?
      && Digests(s0, es, i, flight.owner, verdict, final.requests[flight.request].reply.value)
  {
    hide Run, Step, Digest, Later, Enabled;
    RunsAreLater(s0, es, i);
    RunStep(s0, es, i);
    StillTheSameFlight(s0, es, n, i, f, verdict);
    OwnerKnown(Run(s0, es[..i]).value, f, verdict);
    SettlingDigests(Run(s0, es[..i]).value, f, verdict);
    ReplyIsFinal(Run(s0, es[..i]).value, Run(s0, es).value, f, verdict);
  }

  /**
    Two polls under way at moment n and joined to one request digest the same reply, whenever and in whatever order
    they are settled, and whatever happens in between.
   */
  lemma SharedPollsDigestOneReply(s0: State, es: seq<Event>, n: nat, i: nat, f: nat, v: Verdict,
                                  j: nat, g: nat, w: Verdict)
    requires Initial(s0) && Run(s0, es).Some? && n <= i < |es| && n <= j < |es|
    requires es[i] == Settle(f, v) && es[j] == Settle(g, w)
    requires Run(s0, es[..n]).Some? && f in Run(s0, es[..n]).value.flights && g in Run(s0, es[..n]).value.flights
    requires Run(s0, es[..n]).value.flights[f].request == Run(s0, es[..n]).value.flights[g].request
    ensures Run(s0, es[..i]).Some? && Run(s0, es[..i + 1]).Some? && Run(s0, es[..j]).Some? && Run(s0, es[..j + 1]).Some?
    ensures var flights := Run(s0, es[..n]).value.flights;
      exists reply :: Digests(s0, es, i, flights[f].owner, v, reply) && Digests(s0, es, j, flights[g].owner, w, reply)
  {
    SettlesWithTheFinalReply(s0, es, n, i, f, v);
    SettlesWithTheFinalReply(s0, es, n, j, g, w);
    hide Digests, Run;
  }

  /**
    Every run: two polls that are still waiting, of resources with a URL, wait for the same request if and only if
    their URLs are the same.
   */
  lemma WaitingPollsShareIffSameUrl(s0: State, es: seq<Event>, f: nat, g: nat, url: string, other: string)
    requires Initial(s0) && Run(s0, es).Some? && url != "" && other != ""
    requires WaitsFor(Run(s0, es).value, f, url) && WaitsFor(Run(s0, es).value, g, other)
    ensures var flights := Run(s0, es).value.flights; flights[f].request == flights[g].request <==> url == other
  {
    var s := Run(s0, es).value;
    PollsShareOneRequest(s0, es);
    RunsAreSound(s0, es);
    WaitsForItsUrl(s, f, url);
    WaitsForItsUrl(s, g, other);
    hide Run, Sound, CacheKey;
  }

  lemma WaitsForItsUrl(s: State, f: nat, url: string)
    requires Sound(s) && WaitsFor(s, f, url) && url != ""
    ensures s.flights[f].request < |s.client.requests| && s.client.requests[s.flights[f].request].isGet
    ensures s.client.requests[s.flights[f].request].key == url
  {
    KeyIsUnderTheCallersControl(url, "GET", url);
  }

  /** Every run: other callers of the client share its GETs, and have a request of their own for anything else. */
  lemma OtherCallersShareGetsToo(s0: State, es: seq<Event>, isGet: bool, key: string)
    requires Initial(s0) && Run(s0, es).Some?
    ensures var s := Run(s0, es).value;
            var t := Step(s, OtherCall(isGet, key));
      && t == s.(client := t.client)
      && (if isGet && exists id :: OutstandingGet(s.client, id, key) then t.client == s.client
          else t.client.requests == s.client.requests + [Request(isGet, key, None)])
  {
    var s := Run(s0, es).value;
    RunsAreSound(s0, es);
    CoherentInSound(s);
    hide Run, Sound;
    if isGet && key in s.client.inflight { assert OutstandingGet(s.client, s.client.inflight[key], key); }
  }
}
