/**
  The live snapshot of the dashboard (Web/app.js): one authoritative object that REST and `state` events replace
  and `tick` events overlay, guarded by a version number against duplicates and late arrivals.
 */
module LiveFeed {
  import opened Common

  // ---------------------------------------------------------------- payloads

  /** The JSON values that the merge looks into; everything else is an opaque atom. */
  datatype Json = Undefined | Null | Atom(id: int, truthy: bool) | Obj(fields: map<string, Json>)

  type Fields = map<string, Json>

  /** A decoded event: its state_version (None when null or absent) and its other fields. */
  datatype Payload = Payload(version: Option<int>, fields: Fields)

  predicate Nullish(j: Json) {
    j.Undefined? || j.Null?
  }

  predicate Truthy(j: Json) {
    match j
    case Atom(_, truthy) => truthy
    case Obj(_) => true
    case _ => false
  }

  /** Property access; atoms answer undefined. */
  function Get(j: Json, name: string): Json {
    if j.Obj? && name in j.fields then j.fields[name] else Undefined
  }

  function Field(f: Fields, name: string): Json {
    if name in f then f[name] else Undefined
  }

  const FALSE := Atom(0, false)
  const TRUE := Atom(1, true)

  function Either(j: Json, first: string, second: string): Json {
    if !Nullish(Get(j, first)) then Get(j, first) else Get(j, second)
  }

  function FillIn(f: Fields, name: string, v: Json): Fields {
    if Nullish(Field(f, name)) && !Nullish(v) then f[name := v] else f
  }

  function Flattened(f: Fields): Fields {
    var strat := Field(f, "strategy");
    FillIn(FillIn(FillIn(f, "ai_decision", Get(strat, "decision")), "ai_reason", Get(strat, "reason")),
           "ai_confidence", Get(Field(f, "model"), "confidence"))
  }

  /** The flat fields that handleIncomingLiveTick derives from `strategy` and `model`, in place, before all else. */
  function Enrich(f: Fields): Fields {
    var mod := Field(f, "model");
    var g := Flattened(f);
    var p := Get(mod, "probabilities");
    if !Truthy(Field(g, "probs")) && Truthy(p) then
      g["probs" := Obj(map[
        "available" := if Truthy(Get(mod, "probabilities_available")) then TRUE else FALSE,
        "no_trade" := Either(p, "no_trade", "NO_TRADE"),
        "buy" := Either(p, "buy", "BUY_MARKET"),
        "sell" := Either(p, "sell", "SELL_MARKET"),
        "wait" := Either(p, "wait", "WAIT")])]
    else g
  }

  function Enriched(p: Payload): Payload {
    p.(fields := Enrich(p.fields))
  }

  /** Enrichment adds flat fields where they are missing; it overwrites nothing that says something, and never twice. */
  lemma EnrichOnlyFillsGaps(f: Fields, name: string)
    ensures name in f ==> name in Enrich(f)
    ensures name in f && (if name == "probs" then Truthy(f[name]) else !Nullish(f[name])) ==> Enrich(f)[name] == f[name]
    ensures name !in {"ai_decision", "ai_reason", "ai_confidence", "probs"} ==> (name in Enrich(f) <==> name in f)
    ensures name in f && name !in {"ai_decision", "ai_reason", "ai_confidence", "probs"} ==> Enrich(f)[name] == f[name]
  { }

  /** Where `model` and `strategy` say something, the four derived fields are never left blank. */
  lemma EnrichFillsTheGaps(f: Fields)
    ensures !Nullish(Get(Field(f, "strategy"), "decision")) ==> !Nullish(Field(Enrich(f), "ai_decision"))
    ensures !Nullish(Get(Field(f, "strategy"), "reason")) ==> !Nullish(Field(Enrich(f), "ai_reason"))
    ensures !Nullish(Get(Field(f, "model"), "confidence")) ==> !Nullish(Field(Enrich(f), "ai_confidence"))
    ensures Truthy(Get(Field(f, "model"), "probabilities")) ==> Truthy(Field(Enrich(f), "probs"))
  { }

  // ---------------------------------------------------------------- the feed

  datatype Feed = Feed(version: Option<int>, view: Option<Payload>, paused: bool)

  /** Object.assign({}, view, payload). */
  function Overlay(view: Payload, p: Payload): Payload {
    Payload(if p.version.Some? then p.version else view.version, view.fields + p.fields)
  }

  /** handleIncomingLiveTick, as far as it touches the snapshot. */
  function Merge(s: Feed, p: Payload, isSnapshot: bool): Feed {
    if s.paused then s
    else if isSnapshot || s.view.None? then s.(view := Some(Enriched(p)))
    else s.(view := Some(Overlay(s.view.value, Enriched(p))))
  }

  predicate Drops(last: Option<int>, p: Payload) {
    p.version.Some? && last.Some? && p.version.value <= last.value
  }

  datatype Event =
    | Tick(payload: Payload)
    | StateEvent(payload: Payload)
    | Message(payload: Payload)
    | Rest(payload: Payload)
    | TogglePause
    | Garbled

  function OnTick(s: Feed, p: Payload): Feed {
    if Drops(s.version, p) then s
    else Merge(s.(version := if p.version.Some? then p.version else s.version), p, false)
  }

  function Step(s: Feed, e: Event): Feed {
    match e
    case Tick(p) => OnTick(s, p)
    // The snapshot is assigned before the pause is looked at, and is the very object that is enriched in place.
    case StateEvent(p) =>
      Merge(s.(version := if p.version.Some? then p.version else s.version, view := Some(Enriched(p))), p, true)
    case Message(p) => Merge(s.(version := if p.version.Some? then p.version else s.version), p, false)
    case Rest(p) => Merge(s.(version := if p.version.Some? then p.version else s.version), p, true)
    case TogglePause => s.(paused := !s.paused)
    case Garbled => s
  }

  /** A feed with nothing shown yet, and the feed right after a full snapshot. */
  const NOTHING := Feed(None, None, false)

  ghost function AfterTicks(s: Feed, ts: seq<Payload>): Feed {
    if ts == [] then s else OnTick(AfterTicks(s, ts[..|ts| - 1]), ts[|ts| - 1])
  }

  // ---------------------------------------------------------------- what a tick shows of strategy and model

  /** A property of a section of the payload; undefined when the section is missing or no object. */
  function Of(f: Fields, section: string, name: string): Json {
    if section in f && f[section].Obj? && name in f[section].fields then f[section].fields[name] else Undefined
  }

  /** The view's field is the payload's own if that says something, else the section's if that does, else as it came. */
  ghost predicate FilledFrom(view: Fields, f: Fields, name: string, section: string, field: string) {
    if name in f && f[name] != Undefined && f[name] != Null then name in view && view[name] == f[name]
    else if Of(f, section, field) != Undefined && Of(f, section, field) != Null
      then name in view && view[name] == Of(f, section, field)
    else name in f ==> name in view && view[name] == f[name]
  }

  /** The probability by its lower-case name, or by its upper-case one where that is null or undefined. */
  ghost predicate ByEitherName(out: Json, probabilities: Json, lower: string, upper: string) {
    var has := probabilities.Obj? && lower in probabilities.fields
               && probabilities.fields[lower] != Undefined && probabilities.fields[lower] != Null;
    if has then out == probabilities.fields[lower]
    else if probabilities.Obj? && upper in probabilities.fields then out == probabilities.fields[upper]
    else out == Undefined
  }

  ghost predicate IsTruthy(j: Json) {
    j.Obj? || (j.Atom? && j.truthy)
  }

  /** The payload's own `probs` if truthy; else, from the model's probabilities if those are, the five of its fields. */
  ghost predicate ProbsFilled(view: Fields, f: Fields) {
    if "probs" in f && IsTruthy(f["probs"]) then "probs" in view && view["probs"] == f["probs"]
    else if IsTruthy(Of(f, "model", "probabilities")) then
      && "probs" in view && view["probs"].Obj?
      && var probs, source := view["probs"].fields, Of(f, "model", "probabilities");
         && probs.Keys == {"available", "no_trade", "buy", "sell", "wait"}
         && probs["available"] == (if IsTruthy(Of(f, "model", "probabilities_available")) then TRUE else FALSE)
         && (IsTruthy(probs["available"]) <==> IsTruthy(Of(f, "model", "probabilities_available")))
         && ByEitherName(probs["buy"], source, "buy", "BUY_MARKET")
         && ByEitherName(probs["sell"], source, "sell", "SELL_MARKET")
         && ByEitherName(probs["wait"], source, "wait", "WAIT")
         && ByEitherName(probs["no_trade"], source, "no_trade", "NO_TRADE")
    else "probs" in f ==> "probs" in view && view["probs"] == f["probs"]
  }

  lemma GetIsOf(f: Fields, section: string, name: string)
    ensures Get(Field(f, section), name) == Of(f, section, name)
  { }

  lemma EnrichFillsFrom(f: Fields)
    ensures FilledFrom(Enrich(f), f, "ai_decision", "strategy", "decision")
    ensures FilledFrom(Enrich(f), f, "ai_reason", "strategy", "reason")
    ensures FilledFrom(Enrich(f), f, "ai_confidence", "model", "confidence")
  {
    GetIsOf(f, "strategy", "decision");
    GetIsOf(f, "strategy", "reason");
    GetIsOf(f, "model", "confidence");
    hide Get, Of;
    ProbsApart(f, "ai_decision");
    ProbsApart(f, "ai_reason");
    ProbsApart(f, "ai_confidence");
    hide Enrich;
    var v, w := Of(f, "strategy", "decision"), Of(f, "strategy", "reason");
    var g := FillIn(f, "ai_decision", v);
    var h := FillIn(g, "ai_reason", w);
    FillInAt(f, "ai_decision", v, "ai_decision");
    FillInAt(f, "ai_decision", v, "ai_reason");
    FillInAt(f, "ai_decision", v, "ai_confidence");
    FillInAt(g, "ai_reason", w, "ai_decision");
    FillInAt(g, "ai_reason", w, "ai_reason");
    FillInAt(g, "ai_reason", w, "ai_confidence");
    FillInAt(h, "ai_confidence", Of(f, "model", "confidence"), "ai_decision");
    FillInAt(h, "ai_confidence", Of(f, "model", "confidence"), "ai_reason");
    FillInAt(h, "ai_confidence", Of(f, "model", "confidence"), "ai_confidence");
    assert Flattened(f) == FillIn(h, "ai_confidence", Of(f, "model", "confidence"));
    hide FillIn, Flattened;
  }

  lemma ProbsApart(f: Fields, name: string)
    requires name != "probs"
    ensures name in Enrich(f) <==> name in Flattened(f)
    ensures name in Enrich(f) ==> Enrich(f)[name] == Flattened(f)[name]
  {
    hide Flattened, Either;
  }

  lemma FillInAt(f: Fields, name: string, v: Json, at: string)
    ensures at != name ==> (at in FillIn(f, name, v) <==> at in f)
    ensures at != name && at in f ==> FillIn(f, name, v)[at] == f[at]
    ensures name in f && f[name] != Undefined && f[name] != Null ==>
              name in FillIn(f, name, v) && FillIn(f, name, v)[name] == f[name]
    ensures !(name in f && f[name] != Undefined && f[name] != Null) ==>
              if v != Undefined && v != Null then name in FillIn(f, name, v) && FillIn(f, name, v)[name] == v
              else FillIn(f, name, v) == f
  { }

  lemma EitherByName(p: Json, lower: string, upper: string)
    ensures ByEitherName(Either(p, lower, upper), p, lower, upper)
  { }

  lemma EnrichFillsProbs(f: Fields)
    ensures ProbsFilled(Enrich(f), f)
  {
    var p := Of(f, "model", "probabilities");
    GetIsOf(f, "model", "probabilities");
    GetIsOf(f, "model", "probabilities_available");
    EitherByName(p, "no_trade", "NO_TRADE");
    EitherByName(p, "buy", "BUY_MARKET");
    EitherByName(p, "sell", "SELL_MARKET");
    EitherByName(p, "wait", "WAIT");
    hide Get, Of, Either, ByEitherName;
  }

  /**
    After a tick that is delivered unpaused and not dropped, the view shows what the tick's strategy and model say: the
    three flat fields and the probabilities by name; its other fields as they came; and the tick's version.
   */
  lemma DeliveredTickIsShown(s: Feed, p: Payload)
    requires !s.paused && !Drops(s.version, p)
    ensures OnTick(s, p).view.Some?
    ensures var view := OnTick(s, p).view.value;
      && FilledFrom(view.fields, p.fields, "ai_decision", "strategy", "decision")
      && FilledFrom(view.fields, p.fields, "ai_reason", "strategy", "reason")
      && FilledFrom(view.fields, p.fields, "ai_confidence", "model", "confidence")
      && ProbsFilled(view.fields, p.fields)
      && (forall name :: name in p.fields && name !in {"ai_decision", "ai_reason", "ai_confidence", "probs"} ==>
            name in view.fields && view.fields[name] == p.fields[name])
      && (p.version.Some? ==> view.version == p.version && OnTick(s, p).version == p.version)
  {
    EnrichFillsFrom(p.fields);
    EnrichFillsProbs(p.fields);
    forall name | name in p.fields && name !in {"ai_decision", "ai_reason", "ai_confidence", "probs"}
      ensures name in Enrich(p.fields) && Enrich(p.fields)[name] == p.fields[name]
    {
      EnrichOnlyFillsGaps(p.fields, name);
    }
    hide Enrich, Of, ByEitherName, IsTruthy;
    assert forall name :: name in Enrich(p.fields) ==>
      name in OnTick(s, p).view.value.fields && OnTick(s, p).view.value.fields[name] == Enrich(p.fields)[name];
  }

  // ---------------------------------------------------------------- the specification

  /** Tick i is news: unversioned, or with a version above the snapshot's and above that of every tick before it. */
  ghost predicate IsNews(base: Option<int>, ts: seq<Payload>, i: nat)
    requires i < |ts|
  {
    ts[i].version.Some? ==>
      && (base.Some? ==> ts[i].version.value > base.value)
      && forall j :: 0 <= j < i && ts[j].version.Some? ==> ts[i].version.value > ts[j].version.value
  }

  /** The snapshot overlaid by the news, in delivery order. */
  ghost function Overlaid(base: Option<int>, view: Payload, ts: seq<Payload>, n: nat): Payload
    requires n <= |ts|
  {
    if n == 0 then view
    else if IsNews(base, ts, n - 1) then Overlay(Overlaid(base, view, ts, n - 1), Enriched(ts[n - 1]))
    else Overlaid(base, view, ts, n - 1)
  }

  /** `v` is the largest of the base version and the first n tick versions, if there is any. */
  ghost predicate IsRunningMax(v: Option<int>, base: Option<int>, ts: seq<Payload>, n: nat)
    requires n <= |ts|
  {
    && (base.Some? ==> v.Some? && v.value >= base.value)
    && (forall j :: 0 <= j < n && ts[j].version.Some? ==> v.Some? && v.value >= ts[j].version.value)
    && (v.Some? ==> v == base || exists j :: 0 <= j < n && ts[j].version == v)
  }

  function VersionAfter(v: Option<int>, p: Payload): Option<int> {
    if Drops(v, p) || p.version.None? then v else p.version
  }

  lemma VersionAfterTick(s: Feed, p: Payload)
    ensures OnTick(s, p).version == VersionAfter(s.version, p) && OnTick(s, p).paused == s.paused
  {
    hide Enriched, Overlay;
  }

  lemma RunningMaxStep(v: Option<int>, base: Option<int>, ts: seq<Payload>, n: nat)
    requires n < |ts| && IsRunningMax(v, base, ts, n)
    ensures IsRunningMax(VersionAfter(v, ts[n]), base, ts, n + 1)
  { }

  lemma {:induction false} TicksTrackTheMaximum(s: Feed, ts: seq<Payload>, n: nat)
    requires n <= |ts|
    ensures IsRunningMax(AfterTicks(s, ts[..n]).version, s.version, ts, n)
    ensures AfterTicks(s, ts[..n]).paused == s.paused
  {
    if n > 0 {
      TicksTrackTheMaximum(s, ts, n - 1);
      assert ts[..n][..n - 1] == ts[..n - 1] && ts[..n][n - 1] == ts[n - 1];
      VersionAfterTick(AfterTicks(s, ts[..n - 1]), ts[n - 1]);
      RunningMaxStep(AfterTicks(s, ts[..n - 1]).version, s.version, ts, n - 1);
      hide OnTick, IsRunningMax, VersionAfter;
    }
  }

  lemma GuardFindsTheNews(s: Feed, ts: seq<Payload>, n: nat)
    requires n < |ts|
    ensures Drops(AfterTicks(s, ts[..n]).version, ts[n]) <==> !IsNews(s.version, ts, n)
  {
    TicksTrackTheMaximum(s, ts, n);
  }

  /** The one-number guard does what the specification asks of the whole history. */
  lemma {:induction false} MergeMeetsSpec(s: Feed, ts: seq<Payload>, n: nat)
    requires n <= |ts| && !s.paused && s.view.Some?
    ensures AfterTicks(s, ts[..n]).view == Some(Overlaid(s.version, s.view.value, ts, n))
  {
    if n == 0 {
      assert ts[..0] == [];
    } else {
      MergeMeetsSpec(s, ts, n - 1);
      GuardFindsTheNews(s, ts, n - 1);
      TicksTrackTheMaximum(s, ts, n - 1);
      assert ts[..n][..n - 1] == ts[..n - 1] && ts[..n][n - 1] == ts[n - 1];
      hide Enriched, Overlay, IsNews, Drops, IsRunningMax;
    }
  }

  function Lookup(f: Fields, name: string): Option<Json> {
    if name in f then Some(f[name]) else None
  }

  /** Tick i is news and supplies the field. */
  ghost predicate Writes(base: Option<int>, ts: seq<Payload>, i: nat, name: string)
    requires i < |ts|
  {
    IsNews(base, ts, i) && Lookup(Enriched(ts[i]).fields, name).Some?
  }

  /** The last of the first n ticks to write the field. */
  ghost function LastWriter(base: Option<int>, ts: seq<Payload>, n: nat, name: string): (w: Option<nat>)
    requires n <= |ts|
    ensures w.Some? ==> w.value < n && Writes(base, ts, w.value, name)
    ensures forall i :: (if w.Some? then w.value + 1 else 0) <= i < n ==> !Writes(base, ts, i, name)
  {
    if n == 0 then None
    else if Writes(base, ts, n - 1, name) then Some(n - 1)
    else LastWriter(base, ts, n - 1, name)
  }

  /** Every field of the view comes from the last news that has it, or else from the snapshot. */
  lemma {:induction false} FieldComesFromLastWriter(base: Option<int>, view: Payload, ts: seq<Payload>, n: nat,
                                                    name: string)
    requires n <= |ts|
    ensures Lookup(Overlaid(base, view, ts, n).fields, name) ==
              var w := LastWriter(base, ts, n, name);
              if w.Some? then Lookup(Enriched(ts[w.value]).fields, name) else Lookup(view.fields, name)
  {
    hide Enriched, IsNews;
    if n > 0 {
      FieldComesFromLastWriter(base, view, ts, n - 1, name);
    }
  }

  // ---------------------------------------------------------------- what follows for delivery

  lemma OneMoreTick(s: Feed, ts: seq<Payload>, p: Payload)
    ensures AfterTicks(s, ts + [p]) == OnTick(AfterTicks(s, ts), p)
  {
    assert (ts + [p])[..|ts|] == ts;
    hide OnTick;
  }

  lemma {:induction false} TicksCompose(s: Feed, ts: seq<Payload>, us: seq<Payload>)
    ensures AfterTicks(s, ts + us) == AfterTicks(AfterTicks(s, ts), us)
  {
    if us == [] {
      assert ts + us == ts;
    } else {
      hide OnTick;
      var init, last := us[..|us| - 1], us[|us| - 1];
      TicksCompose(s, ts, init);
      OneMoreTick(s, ts + init, last);
      assert ts + us == ts + init + [last];
    }
  }

  /** A duplicate, or a tick no newer than an earlier one or than the snapshot, changes nothing wherever it comes. */
  lemma LateTickIsNoOp(s: Feed, before: seq<Payload>, late: Payload, after: seq<Payload>)
    requires late.version.Some?
    requires || (s.version.Some? && late.version.value <= s.version.value)
             || exists j ::
                  0 <= j < |before| && before[j].version.Some? && late.version.value <= before[j].version.value
    ensures AfterTicks(s, before + [late] + after) == AfterTicks(s, before + after)
  {
    TicksTrackTheMaximum(s, before, |before|);
    assert before[..|before|] == before;
    TicksCompose(s, before, [late]);
    assert [late][..0] == [];
    assert AfterTicks(AfterTicks(s, before), [late]) == OnTick(AfterTicks(s, before), late);
    TicksCompose(s, before + [late], after);
    TicksCompose(s, before, after);
    hide Merge;
  }

  /** A `state` event replaces the view even while paused; the same snapshot by REST does not. */
  lemma StateEventIgnoresPause(s: Feed, p: Payload)
    requires s.paused
    ensures Step(s, StateEvent(p)).view == Some(Enriched(p))
    ensures Step(s, Rest(p)).view == s.view && Step(s, Rest(p)).version == Step(s, StateEvent(p)).version
  { }

  // ---------------------------------------------------------------- the page's globals

  class LiveUi {
    var lastSnapshotVersion: Option<int>
    var liveUiSnapshot: Option<Payload>
    var uiPaused: bool

    function View(): Feed
      reads this
    {
      Feed(lastSnapshotVersion, liveUiSnapshot, uiPaused)
    }

    constructor ()
      ensures View() == NOTHING
    {
      lastSnapshotVersion, liveUiSnapshot, uiPaused := None, None, false;
    }

    method HandleIncomingLiveTick(payload: Payload, isSnapshot: bool)
      modifies this`liveUiSnapshot
      ensures View() == Merge(old(View()), payload, isSnapshot)
    {
      var enriched := Enriched(payload);
      if uiPaused { return; }
      if isSnapshot {
        liveUiSnapshot := Some(enriched);
      } else if liveUiSnapshot.Some? {
        liveUiSnapshot := Some(Overlay(liveUiSnapshot.value, enriched));
      } else {
        liveUiSnapshot := Some(enriched);
      }
    }

    method OnTickEvent(data: Payload)
      modifies this
      ensures View() == Step(old(View()), Tick(data))
    {
      var v := data.version;
      if v.Some? && lastSnapshotVersion.Some? && v.value <= lastSnapshotVersion.value { return; }
      if v.Some? { lastSnapshotVersion := v; }
      HandleIncomingLiveTick(data, false);
    }

    method OnStateEvent(data: Payload)
      modifies this
      ensures View() == Step(old(View()), StateEvent(data))
    {
      if data.version.Some? { lastSnapshotVersion := data.version; }
      liveUiSnapshot := Some(Enriched(data));
      HandleIncomingLiveTick(data, true);
    }

    method OnMessage(data: Payload)
      modifies this
      ensures View() == Step(old(View()), Message(data))
    {
      if data.version.Some? { lastSnapshotVersion := data.version; }
      HandleIncomingLiveTick(data, false);
    }

    method OnSystemSnapshot(data: Payload)
      modifies this
      ensures View() == Step(old(View()), Rest(data))
    {
      lastSnapshotVersion := if data.version.Some? then data.version else lastSnapshotVersion;
      HandleIncomingLiveTick(data, true);
    }
  }
}
