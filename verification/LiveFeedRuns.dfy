/**
  Whole runs of the live feed: every kind of event in any order, with the page paused and resumed at will. What the
  version and the view are after such a run, when the version never falls, and when pausing loses nothing.
 */
module LiveFeedRuns {
  import opened Common
  import opened LiveFeed

  ghost function After(s: Feed, es: seq<Event>): Feed {
    if es == [] then s else Step(After(s, es[..|es| - 1]), es[|es| - 1])
  }

  /** The payload of an event that sets the version without looking at the one in force. */
  predicate Unguarded(e: Event) {
    e.StateEvent? || e.Message? || e.Rest?
  }

  predicate Carries(e: Event) {
    e.Tick? || Unguarded(e)
  }

  function Version(e: Event): Option<int> {
    if Carries(e) then e.payload.version else None
  }

  // ---------------------------------------------------------------- version and pause, by the history

  /** The version in force after n events: the last unguarded one, or the largest tick version since if that is more. */
  ghost function InForce(base: Option<int>, es: seq<Event>, n: nat): Option<int>
    requires n <= |es|
  {
    if n == 0 then base
    else
      var was, v := InForce(base, es, n - 1), Version(es[n - 1]);
      if v.None? || (es[n - 1].Tick? && AtMost(v, was)) then was else v
  }

  /** Nothing is below every version. */
  predicate AtMost(v: Option<int>, w: Option<int>) {
    v.None? || (w.Some? && v.value <= w.value)
  }

  /** Paused after n events: an odd number of presses of the button, or an even one if paused to begin with. */
  ghost function PausedAt(paused: bool, es: seq<Event>, n: nat): bool
    requires n <= |es|
  {
    if n == 0 then paused else PausedAt(paused, es, n - 1) != es[n - 1].TogglePause?
  }

  lemma Prefix(es: seq<Event>, n: nat)
    requires 0 < n <= |es|
    ensures es[..n][..n - 1] == es[..n - 1] && es[..n][n - 1] == es[n - 1] && es[..n] != []
  { }

  /** The machine's version and pause flag are what the history says. */
  lemma {:induction false} VersionAndPause(s: Feed, es: seq<Event>, n: nat)
    requires n <= |es|
    ensures After(s, es[..n]).version == InForce(s.version, es, n)
    ensures After(s, es[..n]).paused == PausedAt(s.paused, es, n)
  {
    if n > 0 {
      VersionAndPause(s, es, n - 1);
      Prefix(es, n);
      hide Enriched, Overlay;
    }
  }

  /** The runs of ticks alone are among these runs. */
  lemma {:induction false} TicksAreARun(s: Feed, ts: seq<Payload>)
    ensures AfterTicks(s, ts) == After(s, seq(|ts|, i requires 0 <= i < |ts| => Tick(ts[i])))
  {
    if ts != [] {
      var init := ts[..|ts| - 1];
      TicksAreARun(s, init);
      var es := seq(|ts|, i requires 0 <= i < |ts| => Tick(ts[i]));
      assert es[..|es| - 1] == seq(|init|, i requires 0 <= i < |init| => Tick(init[i]));
      hide OnTick;
    }
  }

  lemma Appended(s: Feed, es: seq<Event>, e: Event)
    ensures After(s, es + [e]) == Step(After(s, es), e)
  {
    assert (es + [e])[..|es|] == es;
    hide Step;
  }

  lemma {:induction false} Composes(s: Feed, es: seq<Event>, fs: seq<Event>)
    ensures After(s, es + fs) == After(After(s, es), fs)
  {
    if fs == [] {
      assert es + fs == es;
    } else {
      hide Step;
      var init, last := fs[..|fs| - 1], fs[|fs| - 1];
      Composes(s, es, init);
      Appended(s, es + init, last);
      assert es + fs == es + init + [last];
    }
  }

  /** A tick no newer than the version in force changes nothing, whatever comes before and after it. */
  lemma StaleTickIsNoOp(s: Feed, before: seq<Event>, late: Payload, after: seq<Event>)
    requires late.version.Some? && AtMost(late.version, InForce(s.version, before, |before|))
    ensures After(s, before + [Tick(late)] + after) == After(s, before + after)
  {
    VersionAndPause(s, before, |before|);
    assert before[..|before|] == before && [Tick(late)][..0] == [];
    Composes(s, before, [Tick(late)]);
    assert After(After(s, before), [Tick(late)]) == Step(After(s, before), Tick(late)) == After(s, before);
    Composes(s, before + [Tick(late)], after);
    Composes(s, before, after);
    hide After, InForce;
  }

  // ---------------------------------------------------------------- when the version never falls

  /** From one moment to any later one the version does not go down. */
  ghost predicate NeverFalls(s: Feed, es: seq<Event>) {
    forall i, j :: 0 <= i <= j <= |es| ==> AtMost(After(s, es[..i]).version, After(s, es[..j]).version)
  }

  /** Event i is versioned, unguarded, and older than the first version or one delivered before it. */
  ghost predicate IsLate(base: Option<int>, es: seq<Event>, i: nat)
    requires i < |es|
  {
    && Unguarded(es[i]) && Version(es[i]).Some?
    && (!AtMost(base, Version(es[i])) || exists j :: 0 <= j < i && !AtMost(Version(es[j]), Version(es[i])))
  }

  ghost predicate NoneLate(base: Option<int>, es: seq<Event>, n: nat)
    requires n <= |es|
  {
    forall i :: 0 <= i < n ==> !IsLate(base, es, i)
  }

  /** `v` is the largest of the base version and the first n delivered versions. */
  ghost predicate IsMaximum(v: Option<int>, base: Option<int>, es: seq<Event>, n: nat)
    requires n <= |es|
  {
    && AtMost(base, v) && (forall j :: 0 <= j < n ==> AtMost(Version(es[j]), v))
    && (v == base || exists j :: 0 <= j < n && Version(es[j]) == v)
  }

  lemma {:induction false} InForceIsMaximum(base: Option<int>, es: seq<Event>, n: nat)
    requires n <= |es| && NoneLate(base, es, n)
    ensures IsMaximum(InForce(base, es, n), base, es, n)
    ensures forall i :: 0 <= i <= n ==> AtMost(InForce(base, es, i), InForce(base, es, n))
  {
    if n > 0 {
      InForceIsMaximum(base, es, n - 1);
      assert !IsLate(base, es, n - 1);
    }
  }

  lemma {:induction false} FirstLateOneFalls(base: Option<int>, es: seq<Event>, n: nat) returns (i: nat)
    requires n <= |es| && !NoneLate(base, es, n)
    ensures i < n && !AtMost(InForce(base, es, i), InForce(base, es, i + 1))
  {
    if NoneLate(base, es, n - 1) {
      InForceIsMaximum(base, es, n - 1);
      i := n - 1;
    } else {
      i := FirstLateOneFalls(base, es, n - 1);
    }
  }

  /** Over a whole run the version never falls exactly when no unguarded event comes later than a newer version. */
  lemma VersionNeverFallsIffNoneLate(s: Feed, es: seq<Event>)
    ensures NeverFalls(s, es) <==> NoneLate(s.version, es, |es|)
  {
    forall n: nat | n <= |es| ensures After(s, es[..n]).version == InForce(s.version, es, n) {
      VersionAndPause(s, es, n);
    }
    hide After;
    if NoneLate(s.version, es, |es|) {
      forall i, j | 0 <= i <= j <= |es| ensures AtMost(After(s, es[..i]).version, After(s, es[..j]).version) {
        InForceIsMaximum(s.version, es, j);
      }
    } else {
      var i := FirstLateOneFalls(s.version, es, |es|);
      assert !AtMost(After(s, es[..i]).version, After(s, es[..i + 1]).version);
    }
  }

  /** For instance: a REST snapshot overtaken by a tick takes the version back, and the tick's duplicate gets in. */
  lemma SnapshotsMayGoBack()
    ensures var es := [Rest(Payload(Some(1), map[])), Tick(Payload(Some(3), map[])), Rest(Payload(Some(2), map[]))];
            After(NOTHING, es[..2]).version == Some(3) && After(NOTHING, es).version == Some(2)
            && !Drops(After(NOTHING, es).version, es[1].payload)
  {
    var es := [Rest(Payload(Some(1), map[])), Tick(Payload(Some(3), map[])), Rest(Payload(Some(2), map[]))];
    VersionAndPause(NOTHING, es, 2);
    VersionAndPause(NOTHING, es, 3);
    assert es[..3] == es;
    hide After;
  }

  // ---------------------------------------------------------------- the view after any run

  /** Event i replaces the whole view: a `state` event always, a REST snapshot unless the page is paused. */
  ghost predicate Replaces(s: Feed, es: seq<Event>, i: nat): (b: bool)
    requires i < |es|
    ensures b ==> Carries(es[i])
  {
    es[i].StateEvent? || (es[i].Rest? && !PausedAt(s.paused, es, i))
  }

  /** Event i is a message, or a tick above the version in force. */
  ghost predicate Overlays(s: Feed, es: seq<Event>, i: nat): (b: bool)
    requires i < |es|
    ensures b ==> Carries(es[i])
  {
    es[i].Message? || (es[i].Tick? && !Drops(InForce(s.version, es, i), es[i].payload))
  }

  /** The last of the first n events to replace the view. */
  ghost function LastReplacement(s: Feed, es: seq<Event>, n: nat): (r: Option<nat>)
    requires n <= |es|
    ensures r.Some? ==> r.value < n && Replaces(s, es, r.value)
    ensures forall i :: (if r.Some? then r.value + 1 else 0) <= i < n ==> !Replaces(s, es, i)
  {
    if n == 0 then None else if Replaces(s, es, n - 1) then Some(n - 1) else LastReplacement(s, es, n - 1)
  }

  ghost predicate Heard(s: Feed, es: seq<Event>, i: nat): (b: bool)
    requires i < |es|
    ensures b ==> Carries(es[i])
  {
    Overlays(s, es, i) && !PausedAt(s.paused, es, i)
  }

  /** The payloads from event `from` on, up to n, that overlay the view, in order of delivery. */
  ghost function Overlaying(s: Feed, es: seq<Event>, from: nat, n: nat): seq<Payload>
    requires from <= n <= |es|
  {
    if n == from then []
    else Overlaying(s, es, from, n - 1) + if Heard(s, es, n - 1) then [es[n - 1].payload] else []
  }

  ghost function OverlayAll(view: Option<Payload>, ps: seq<Payload>): Option<Payload> {
    if ps == [] then view
    else
      var below, top := OverlayAll(view, ps[..|ps| - 1]), Enriched(ps[|ps| - 1]);
      Some(if below.Some? then Overlay(below.value, top) else top)
  }

  /** The last full replacement, overlaid by what was delivered unpaused since; with none, the view there was. */
  ghost function Shown(s: Feed, es: seq<Event>, n: nat): Option<Payload>
    requires n <= |es|
  {
    var r := LastReplacement(s, es, n);
    if r.Some? then OverlayAll(Some(Enriched(es[r.value].payload)), Overlaying(s, es, r.value + 1, n))
    else OverlayAll(s.view, Overlaying(s, es, 0, n))
  }

  function Under(view: Option<Payload>, p: Payload): Option<Payload> {
    Some(if view.Some? then Overlay(view.value, Enriched(p)) else Enriched(p))
  }

  lemma OverlayOneMore(view: Option<Payload>, ps: seq<Payload>, p: Payload)
    ensures OverlayAll(view, ps + [p]) == Under(OverlayAll(view, ps), p)
  {
    assert (ps + [p])[..|ps|] == ps;
  }

  /** How the specification goes on from one event to the next. */
  lemma ShownStep(s: Feed, es: seq<Event>, n: nat)
    requires n < |es|
    ensures Shown(s, es, n + 1) ==
            if Replaces(s, es, n) then Some(Enriched(es[n].payload))
            else if Heard(s, es, n) then Under(Shown(s, es, n), es[n].payload)
            else Shown(s, es, n)
  {
    hide Replaces, Heard, Enriched, Under;
    var r := LastReplacement(s, es, n);
    if !Replaces(s, es, n) {
      var from := if r.Some? then r.value + 1 else 0;
      var view := if r.Some? then Some(Enriched(es[r.value].payload)) else s.view;
      if Heard(s, es, n) {
        OverlayOneMore(view, Overlaying(s, es, from, n), es[n].payload);
      } else {
        assert Overlaying(s, es, from, n + 1) == Overlaying(s, es, from, n);
      }
      hide OverlayAll;
    }
  }

  /** What one event does to the view. */
  lemma StepShows(s: Feed, es: seq<Event>, n: nat)
    requires n < |es|
    ensures var f, g := After(s, es[..n]), After(s, es[..n + 1]);
            g.view ==
            if Replaces(s, es, n) then Some(Enriched(es[n].payload))
            else if Heard(s, es, n) then Under(f.view, es[n].payload)
            else f.view
  {
    VersionAndPause(s, es, n);
    Prefix(es, n + 1);
    hide Enriched, Overlay;
  }

  /** Every run: the view is the last full replacement, overlaid by the messages and news delivered unpaused since. */
  lemma {:induction false} ViewOfEveryRun(s: Feed, es: seq<Event>, n: nat)
    requires n <= |es|
    ensures After(s, es[..n]).view == Shown(s, es, n)
  {
    if n > 0 {
      ViewOfEveryRun(s, es, n - 1);
      StepShows(s, es, n - 1);
      ShownStep(s, es, n - 1);
      hide After, Shown, Enriched, Under, Replaces, Heard;
    } else {
      hide Enriched;
    }
  }

  // ---------------------------------------------------------------- when pausing loses nothing

  function Running(s: Feed): Feed {
    s.(paused := false)
  }

  /** The same deliveries with the pause button left alone: each press becomes an event that does nothing. */
  function NeverPaused(es: seq<Event>): (fs: seq<Event>)
    ensures |fs| == |es|
  {
    seq(|es|, i requires 0 <= i < |es| => if es[i].TogglePause? then Garbled else es[i])
  }

  /** Event i would have reached the view, had the page not been paused. */
  ghost predicate Lost(s: Feed, es: seq<Event>, i: nat)
    requires i < |es|
  {
    PausedAt(s.paused, es, i) && (es[i].Rest? || Overlays(s, es, i))
  }

  /** Whatever was lost to a pause has been followed by a full snapshot that reached the view. */
  ghost predicate MadeGood(s: Feed, es: seq<Event>, n: nat)
    requires n <= |es|
  {
    forall i :: 0 <= i < n && Lost(s, es, i) ==> exists j :: i < j < n && Replaces(s, es, j)
  }

  /** The last loss that no full snapshot has made good. */
  ghost function OpenLoss(s: Feed, es: seq<Event>, n: nat): (i: Option<nat>)
    requires n <= |es|
    ensures i.None? <==> MadeGood(s, es, n)
    ensures i.Some? ==> i.value < n && Lost(s, es, i.value)
    ensures i.Some? ==> forall j :: i.value < j < n ==> !Lost(s, es, j) && !Replaces(s, es, j)
  {
    if n == 0 then None
    else if Replaces(s, es, n - 1) then None
    else if Lost(s, es, n - 1) then Some(n - 1)
    else OpenLoss(s, es, n - 1)
  }

  lemma {:induction false} NeverPausedHistory(s: Feed, es: seq<Event>, n: nat)
    requires n <= |es|
    ensures InForce(s.version, NeverPaused(es), n) == InForce(s.version, es, n)
    ensures !PausedAt(false, NeverPaused(es), n)
  {
    if n > 0 { NeverPausedHistory(s, es, n - 1); }
  }

  /** What one event does to the view when the button is left alone. */
  lemma NeverPausedShows(s: Feed, es: seq<Event>, n: nat)
    requires n < |es|
    ensures var fs := NeverPaused(es); var f, g := After(Running(s), fs[..n]), After(Running(s), fs[..n + 1]);
            g.view ==
            if es[n].StateEvent? || es[n].Rest? then Some(Enriched(es[n].payload))
            else if Overlays(s, es, n) then Under(f.view, es[n].payload)
            else f.view
  {
    StepShows(Running(s), NeverPaused(es), n);
    NeverPausedHistory(s, es, n);
    hide After, Enriched, Under, InForce, PausedAt, Drops;
  }

  /** As long as every loss has been made good, the view is the one that would be there without the pauses. */
  lemma {:induction false} MadeGoodMeansUnharmed(s: Feed, es: seq<Event>, n: nat)
    requires n <= |es| && MadeGood(s, es, n)
    ensures After(s, es[..n]).view == After(Running(s), NeverPaused(es)[..n]).view
  {
    if n > 0 {
      StepShows(s, es, n - 1);
      NeverPausedShows(s, es, n - 1);
      if !Replaces(s, es, n - 1) {
        assert OpenLoss(s, es, n).None? && !Lost(s, es, n - 1);
        MadeGoodMeansUnharmed(s, es, n - 1);
      }
      hide After, Enriched, Under, InForce, PausedAt, Drops, MadeGood;
    }
  }

  // A loss that is left open shows for some contents of the same deliveries: let only the lost payload have a field.

  function WithFields(e: Event, fields: Fields): Event {
    if Carries(e) then e.(payload := Payload(e.payload.version, fields)) else e
  }

  /** The same events with the same versions; what else the payloads say is free. */
  ghost predicate SameDeliveries(es: seq<Event>, fs: seq<Event>) {
    |es| == |fs| && forall i :: 0 <= i < |es| ==> WithFields(es[i], map[]) == WithFields(fs[i], map[])
  }

  /** Event i alone carries a field `x`. */
  function Marked(es: seq<Event>, i: nat, mark: Json): (fs: seq<Event>)
    ensures |fs| == |es|
  {
    seq(|es|, k requires 0 <= k < |es| => WithFields(es[k], if k == i then map["x" := mark] else map[]))
  }

  lemma {:induction false} SameHistory(s: Feed, es: seq<Event>, fs: seq<Event>, n: nat)
    requires SameDeliveries(es, fs) && n <= |es|
    ensures InForce(s.version, fs, n) == InForce(s.version, es, n)
    ensures PausedAt(s.paused, fs, n) == PausedAt(s.paused, es, n)
  {
    if n > 0 {
      SameHistory(s, es, fs, n - 1);
      assert WithFields(es[n - 1], map[]) == WithFields(fs[n - 1], map[]);
    }
  }

  lemma SameFate(s: Feed, es: seq<Event>, fs: seq<Event>, i: nat)
    requires SameDeliveries(es, fs) && i < |es|
    ensures Replaces(s, fs, i) == Replaces(s, es, i) && Overlays(s, fs, i) == Overlays(s, es, i)
    ensures Lost(s, fs, i) == Lost(s, es, i)
  {
    SameHistory(s, es, fs, i);
    assert WithFields(es[i], map[]) == WithFields(fs[i], map[]);
    hide InForce, PausedAt;
  }

  ghost predicate Shows(view: Option<Payload>, mark: Json) {
    view.Some? && Lookup(view.value.fields, "x") == Some(mark)
  }

  /** Enrichment leaves marked and blank payloads alone; the mark comes with the one and stays under the other. */
  lemma MarkUnder(view: Option<Payload>, v: Option<int>, mark: Json)
    ensures Shows(Under(view, Payload(v, map["x" := mark])), mark)
    ensures Shows(Some(Enriched(Payload(v, map["x" := mark]))), mark)
    ensures Shows(Under(view, Payload(v, map[])), mark) == Shows(view, mark)
    ensures !Shows(Some(Enriched(Payload(v, map[]))), mark)
  {
    assert Enriched(Payload(v, map[])) == Payload(v, map[]);
    assert Enriched(Payload(v, map["x" := mark])) == Payload(v, map["x" := mark]);
    hide Enriched;
  }

  lemma MarkedFate(s: Feed, es: seq<Event>, i: nat, mark: Json, k: nat)
    requires i < |es| && k < |es|
    ensures var fs := Marked(es, i, mark);
      && SameDeliveries(es, fs)
      && Replaces(s, fs, k) == Replaces(s, es, k) && Overlays(s, fs, k) == Overlays(s, es, k)
      && Lost(s, fs, k) == Lost(s, es, k)
      && (Carries(es[k]) ==>
            Carries(fs[k]) && fs[k].payload == Payload(Version(es[k]), if k == i then map["x" := mark] else map[]))
      && (fs[k].StateEvent? <==> es[k].StateEvent?) && (fs[k].Rest? <==> es[k].Rest?)
  {
    var fs := Marked(es, i, mark);
    assert SameDeliveries(es, fs);
    SameFate(s, es, fs, k);
    hide Replaces, Overlays, Lost, SameDeliveries;
  }

  lemma LostOrKept(s: Feed, es: seq<Event>, k: nat)
    requires k < |es|
    ensures Lost(s, es, k) ==> es[k].Rest? || Overlays(s, es, k)
    ensures !Lost(s, es, k) && !Replaces(s, es, k) ==> !es[k].StateEvent? && !es[k].Rest?
  {
    hide Overlays, PausedAt;
  }

  lemma MarkStep(s: Feed, es: seq<Event>, i: nat, mark: Json, k: nat)
    requires i <= k < |es|
    requires if k == i then Lost(s, es, i) else !Lost(s, es, k) && !Replaces(s, es, k)
    requires k > i ==> Shows(After(Running(s), NeverPaused(Marked(es, i, mark))[..k]).view, mark)
    ensures Shows(After(Running(s), NeverPaused(Marked(es, i, mark))[..k + 1]).view, mark)
  {
    hide Lost, Replaces, After, Enriched, Overlays, PausedAt, Under, Shows, Marked, NeverPaused, SameDeliveries;
    var fs := Marked(es, i, mark);
    MarkedFate(s, es, i, mark, k);
    LostOrKept(s, es, k);
    NeverPausedShows(s, fs, k);
    MarkUnder(After(Running(s), NeverPaused(fs)[..k]).view, Version(es[k]), mark);
  }

  /** Without the pauses the mark reaches the view and stays, as nothing later replaces the view. */
  lemma {:induction false} MarkStays(s: Feed, es: seq<Event>, i: nat, mark: Json, n: nat)
    requires i < n <= |es| && Lost(s, es, i)
    requires forall j :: i < j < n ==> !Lost(s, es, j) && !Replaces(s, es, j)
    ensures Shows(After(Running(s), NeverPaused(Marked(es, i, mark))[..n]).view, mark)
  {
    hide Lost, Replaces, After, Shows, Marked, NeverPaused;
    if n - 1 > i { MarkStays(s, es, i, mark, n - 1); }
    MarkStep(s, es, i, mark, n - 1);
  }

  /** With the pauses it never reaches the view. */
  lemma {:induction false} MarkNeverComes(s: Feed, es: seq<Event>, i: nat, mark: Json, n: nat)
    requires n <= |es| && i < |es| && Lost(s, es, i) && !Replaces(s, es, i) && !Shows(s.view, mark)
    ensures !Shows(After(s, Marked(es, i, mark)[..n]).view, mark)
  {
    hide Enriched, Overlays, PausedAt, Under, Shows, Marked, SameDeliveries, Replaces;
    if n > 0 {
      var fs := Marked(es, i, mark);
      MarkedFate(s, es, i, mark, n - 1);
      StepShows(s, fs, n - 1);
      MarkUnder(After(s, fs[..n - 1]).view, Version(es[n - 1]), mark);
      MarkNeverComes(s, es, i, mark, n - 1);
      hide After, Lost;
      if n - 1 == i { LostIsNotHeard(s, fs, i); }
      hide Heard;
    }
  }

  lemma LostIsNotHeard(s: Feed, es: seq<Event>, i: nat)
    requires i < |es| && Lost(s, es, i)
    ensures !Heard(s, es, i)
  { }

  function OtherThan(j: Option<Json>): (mark: Json)
    ensures j != Some(mark)
  {
    if j == Some(TRUE) then FALSE else TRUE
  }

  /** The views with and without the pauses agree, whatever the payloads say. */
  ghost predicate Harmless(s: Feed, es: seq<Event>) {
    forall fs :: SameDeliveries(es, fs) ==> After(s, fs).view == After(Running(s), NeverPaused(fs)).view
  }

  lemma MadeGoodIsHarmless(s: Feed, es: seq<Event>)
    requires MadeGood(s, es, |es|)
    ensures Harmless(s, es)
  {
    forall fs | SameDeliveries(es, fs) ensures After(s, fs).view == After(Running(s), NeverPaused(fs)).view {
      forall i | 0 <= i < |es| ensures Lost(s, fs, i) == Lost(s, es, i) && Replaces(s, fs, i) == Replaces(s, es, i) {
        SameFate(s, es, fs, i);
      }
      hide Lost, Replaces, After, SameDeliveries;
      assert MadeGood(s, fs, |fs|);
      MadeGoodMeansUnharmed(s, fs, |fs|);
      assert fs[..|fs|] == fs && NeverPaused(fs)[..|fs|] == NeverPaused(fs);
    }
  }

  lemma OpenLossShows(s: Feed, es: seq<Event>)
    requires !MadeGood(s, es, |es|)
    ensures !Harmless(s, es)
  {
    var i := OpenLoss(s, es, |es|).value;
    var mark := OtherThan(if s.view.Some? then Lookup(s.view.value.fields, "x") else None);
    var fs := Marked(es, i, mark);
    MarkedFate(s, es, i, mark, i);
    assert !Replaces(s, es, i);
    hide MadeGood, Lost, Replaces, After, SameDeliveries;
    MarkStays(s, es, i, mark, |es|);
    MarkNeverComes(s, es, i, mark, |es|);
    assert fs[..|fs|] == fs && NeverPaused(fs)[..|fs|] == NeverPaused(fs);
    hide Shows;
    assert After(s, fs).view != After(Running(s), NeverPaused(fs)).view;
  }

  /**
    Pausing is harmless exactly when everything it lost was followed by a full snapshot that reached the view: a
    `state` event, or a REST snapshot while running.
   */
  lemma PausesAreHarmlessIffMadeGood(s: Feed, es: seq<Event>)
    ensures Harmless(s, es) <==> MadeGood(s, es, |es|)
  {
    hide Harmless;
    if MadeGood(s, es, |es|) { MadeGoodIsHarmless(s, es); } else { OpenLossShows(s, es); }
  }

  /** For instance: a tick during a pause moves the version on; its content is not shown, nor let in a second time. */
  lemma PauseLosesTicks(price: Json)
    ensures var tick := Tick(Payload(Some(2), map["price" := price]));
            var es := [Rest(Payload(Some(1), map[])), TogglePause, tick, TogglePause, tick];
            !MadeGood(NOTHING, es, 5) && After(NOTHING, es).version == Some(2)
            && After(NOTHING, es).view == Some(Payload(Some(1), map[]))
  {
    var tick := Tick(Payload(Some(2), map["price" := price]));
    var es := [Rest(Payload(Some(1), map[])), TogglePause, tick, TogglePause, tick];
    var shown := Some(Payload(Some(1), map[]));
    assert Enriched(Payload(Some(1), map[])) == Payload(Some(1), map[]);
    assert es[..5] == es && es[..0] == [];
    OneMore(NOTHING, es, 0);
    OneMore(NOTHING, es, 1);
    OneMore(NOTHING, es, 2);
    OneMore(NOTHING, es, 3);
    OneMore(NOTHING, es, 4);
    hide After;
    assert After(NOTHING, es[..2]) == Feed(Some(1), shown, true);
    assert After(NOTHING, es[..4]) == Feed(Some(2), shown, false);
    VersionAndPause(NOTHING, es, 2);
    hide InForce, PausedAt;
    assert Lost(NOTHING, es, 2);
    VersionAndPause(NOTHING, es, 3);
    VersionAndPause(NOTHING, es, 4);
    assert !Replaces(NOTHING, es, 3) && !Replaces(NOTHING, es, 4);
  }

  lemma OneMore(s: Feed, es: seq<Event>, n: nat)
    requires n < |es|
    ensures After(s, es[..n + 1]) == Step(After(s, es[..n]), es[n])
  {
    Prefix(es, n + 1);
  }
}
