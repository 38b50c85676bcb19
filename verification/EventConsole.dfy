/**
  The debug console of the Command Center (Web/command_center_console.js): a bounded event log whose filtered rows
  are kept up to date one event at a time and rebuilt from the log when a filter changes.
 */
module EventConsole {
  import opened Common

  // ---------------------------------------------------------------- events and filters

  /** A classified event; `time` is its parsed timestamp, `generation` its text or "?" when it has none. */
  datatype Ev = Ev(severity: string, cls: string, strategy: string, generation: string, time: Option<int>)

  /** The filter controls; "ALL" and "" and None are unbounded. Times are parsed, None also when not parsable. */
  datatype Filters = Filters(
    severity: string, family: string, strategy: string, eventType: string, generation: string,
    timeFrom: Option<int>, timeTo: Option<int>)

  const NO_FILTER := Filters("ALL", "ALL", "", "ALL", "ALL", None, None)
  const MAX_EVENTS: nat := 5000

  function FamilyOf(cls: string): string {
    if cls in {"RESEARCH_FAILURE", "VALIDATION_FAILURE", "WALK_FORWARD_FAILURE", "OOS_FAILURE", "DATA_FAILURE"}
    then "EVALUATION_PROGRESS"
    else if cls == "GENERATION_COMPLETED" then "GENERATION_EVENT"
    else if cls == "LIFECYCLE_TRANSITION" then "CANDIDATE_LIFECYCLE"
    else if cls == "EXPECTED_REJECTION" then "VALIDATION_RESULT"
    else "SYSTEM_RECOVERY"
  }

  /** toUpperCase on ASCII letters. */
  function Upper(s: string): string {
    if s == "" then ""
    else [if 'a' <= s[0] <= 'z' then s[0] - 'a' + 'A' else s[0]] + Upper(s[1..])
  }

  function SeverityOf(cls: string): string {
    if cls in {"RESEARCH_FAILURE", "VALIDATION_FAILURE", "WALK_FORWARD_FAILURE", "OOS_FAILURE", "DATA_FAILURE",
               "SYSTEM_ERROR"}
    then "ERROR"
    else if cls in {"STALE_RUN_RECOVERY", "GENERATION_COMPLETED", "LIFECYCLE_TRANSITION"} then "INFO"
    else if cls == "EXPECTED_REJECTION" then "WARN"
    else Upper(cls)
  }

  function EffectiveSeverity(ev: Ev): string {
    if ev.severity != "" then Upper(ev.severity) else SeverityOf(ev.cls)
  }

  /** An event of unknown time is kept. */
  predicate WithinTimeRange(f: Filters, ev: Ev) {
    ev.time.Some? ==>
      (f.timeFrom.Some? ==> ev.time.value >= f.timeFrom.value) && (f.timeTo.Some? ==> ev.time.value <= f.timeTo.value)
  }

  predicate Matches(f: Filters, ev: Ev) {
    && (f.severity != "ALL" ==> EffectiveSeverity(ev) == Upper(f.severity) || ev.cls == f.severity)
    && (f.family != "ALL" ==> FamilyOf(ev.cls) == f.family)
    && (f.eventType != "ALL" ==> ev.cls == f.eventType)
    && (f.strategy != "" ==> Upper(ev.strategy) == Upper(f.strategy))
    && (f.generation != "ALL" ==> ev.generation == f.generation)
    && WithinTimeRange(f, ev)
  }

  /** Releasing any control shows at least as much, and with all released everything is shown. */
  lemma LooserFiltersShowMore(f: Filters, ev: Ev)
    ensures Matches(NO_FILTER, ev)
    ensures Matches(f, ev) ==>
      && Matches(f.(severity := "ALL"), ev) && Matches(f.(family := "ALL"), ev) && Matches(f.(eventType := "ALL"), ev)
      && Matches(f.(strategy := ""), ev) && Matches(f.(generation := "ALL"), ev)
      && Matches(f.(timeFrom := None), ev) && Matches(f.(timeTo := None), ev)
  {
    hide Upper, EffectiveSeverity;
  }

  // ---------------------------------------------------------------- what each control hides

  lemma {:induction false} UpperAt(s: string, i: nat)
    requires i < |s|
    ensures |Upper(s)| == |s|
    ensures Upper(s)[i] == if 'a' <= s[i] <= 'z' then s[i] - 'a' + 'A' else s[i]
  {
    if |s| > 1 { UpperAt(s[1..], if i > 0 then i - 1 else 0); }
  }

  /** The ten classes, with their canonical severity and their family. */
  const CLASSES: map<string, (string, string)> := map[
    "RESEARCH_FAILURE" := ("ERROR", "EVALUATION_PROGRESS"),
    "VALIDATION_FAILURE" := ("ERROR", "EVALUATION_PROGRESS"),
    "WALK_FORWARD_FAILURE" := ("ERROR", "EVALUATION_PROGRESS"),
    "OOS_FAILURE" := ("ERROR", "EVALUATION_PROGRESS"),
    "DATA_FAILURE" := ("ERROR", "EVALUATION_PROGRESS"),
    "SYSTEM_ERROR" := ("ERROR", "SYSTEM_RECOVERY"),
    "STALE_RUN_RECOVERY" := ("INFO", "SYSTEM_RECOVERY"),
    "GENERATION_COMPLETED" := ("INFO", "GENERATION_EVENT"),
    "LIFECYCLE_TRANSITION" := ("INFO", "CANDIDATE_LIFECYCLE"),
    "EXPECTED_REJECTION" := ("WARN", "VALIDATION_RESULT")]

  /** Event `ev` has severity `sev`: the one it states, or else that of its class, or else the class itself. */
  ghost predicate HasSeverity(ev: Ev, sev: string) {
    if ev.severity != "" then sev == Upper(ev.severity)
    else if ev.cls in CLASSES then sev == CLASSES[ev.cls].0
    else sev == Upper(ev.cls)
  }

  ghost predicate HasFamily(ev: Ev, family: string) {
    if ev.cls in CLASSES then family == CLASSES[ev.cls].1 else family == "SYSTEM_RECOVERY"
  }

  /** Some control hides the event. */
  ghost predicate HiddenBy(f: Filters, ev: Ev) {
    || (f.severity != "ALL" && !HasSeverity(ev, Upper(f.severity)) && ev.cls != f.severity)
    || (f.family != "ALL" && !HasFamily(ev, f.family))
    || (f.eventType != "ALL" && ev.cls != f.eventType)
    || (f.strategy != "" && Upper(ev.strategy) != Upper(f.strategy))
    || (f.generation != "ALL" && ev.generation != f.generation)
    || (f.timeFrom.Some? && ev.time.Some? && ev.time.value < f.timeFrom.value)
    || (f.timeTo.Some? && ev.time.Some? && ev.time.value > f.timeTo.value)
  }

  lemma ClassTable(cls: string)
    ensures FamilyOf(cls) == if cls in CLASSES then CLASSES[cls].1 else "SYSTEM_RECOVERY"
    ensures SeverityOf(cls) == if cls in CLASSES then CLASSES[cls].0 else Upper(cls)
  {
    hide Upper;
  }

  lemma MatchesUnlessHidden(f: Filters, ev: Ev)
    ensures Matches(f, ev) <==> !HiddenBy(f, ev)
  {
    ClassTable(ev.cls);
    hide Upper, FamilyOf, SeverityOf;
    hide CLASSES;
  }

  ghost function Filtered(f: Filters, evs: seq<Ev>): seq<Ev> {
    if evs == [] then []
    else Filtered(f, evs[..|evs| - 1]) + if Matches(f, evs[|evs| - 1]) then [evs[|evs| - 1]] else []
  }

  lemma {:induction false} FilteredConcat(f: Filters, a: seq<Ev>, b: seq<Ev>)
    ensures Filtered(f, a + b) == Filtered(f, a) + Filtered(f, b)
  {
    hide Matches;
    if b == [] {
      assert a + b == a;
    } else {
      var front, last := b[..|b| - 1], b[|b| - 1];
      FilteredConcat(f, a, front);
      FilteredStep(f, a + front, last);
      FilteredStep(f, front, last);
      assert a + b == (a + front) + [last] && b == front + [last];
      hide Filtered;
      Associative(Filtered(f, a), Filtered(f, front), if Matches(f, last) then [last] else []);
    }
  }

  lemma Associative(a: seq<Ev>, b: seq<Ev>, c: seq<Ev>)
    ensures (a + b) + c == a + (b + c)
  { }

  // ---------------------------------------------------------------- the console

  datatype Log = Log(events: seq<Ev>, rows: seq<Ev>, filters: Filters, paused: bool, autoScroll: bool, liveTail: bool)

  const EMPTY_LOG := Log([], [], NO_FILTER, false, true, true)

  function Retained(events: seq<Ev>): seq<Ev> {
    if |events| > MAX_EVENTS then events[1..] else events
  }

  function Add(s: Log, ev: Ev): Log {
    if s.paused then s
    else s.(events := Retained(s.events + [ev]),
            rows := if !Matches(s.filters, ev) then s.rows else if s.liveTail then s.rows + [ev] else [ev] + s.rows)
  }

  ghost function Rebuild(s: Log, f: Filters): Log {
    s.(filters := f, rows := Filtered(f, s.events))
  }

  datatype Op =
    | AddOp(ev: Ev)
    | ApplyFilters(filters: Filters)
    | Clear
    | TogglePause
    | SetAutoScroll(on: bool)
    | JumpToLive
    | Scrolled(atBottom: bool)

  ghost function Do(s: Log, op: Op): Log {
    match op
    case AddOp(ev) => Add(s, ev)
    case ApplyFilters(f) => Rebuild(s, f)
    case Clear => s.(events := [], rows := [])
    case TogglePause => s.(paused := !s.paused)
    case SetAutoScroll(on) => s.(autoScroll := on, liveTail := on || s.liveTail)
    case JumpToLive => s.(liveTail := true)
    case Scrolled(atBottom) => s.(liveTail := atBottom)
  }

  ghost function After(ops: seq<Op>): Log {
    if ops == [] then EMPTY_LOG else Do(After(ops[..|ops| - 1]), ops[|ops| - 1])
  }

  // ---------------------------------------------------------------- the history

  /** Every event accepted since the last clear, oldest first. */
  ghost function Accepted(ops: seq<Op>): seq<Ev> {
    if ops == [] then []
    else
      var front := ops[..|ops| - 1];
      match ops[|ops| - 1]
      case AddOp(ev) => if After(front).paused then Accepted(front) else Accepted(front) + [ev]
      case Clear => []
      case _ => Accepted(front)
  }

  /** What the rows were made from: the log at the last rebuild or clear, and everything accepted since. */
  ghost function RowSource(ops: seq<Op>): seq<Ev> {
    if ops == [] then []
    else
      var front := ops[..|ops| - 1];
      match ops[|ops| - 1]
      case AddOp(ev) => if After(front).paused then RowSource(front) else RowSource(front) + [ev]
      case ApplyFilters(_) => After(front).events
      case Clear => []
      case _ => RowSource(front)
  }

  /** No row has been put in front of the others since the rows were last rebuilt or cleared. */
  ghost predicate FollowedTail(ops: seq<Op>) {
    ops == [] ||
    match ops[|ops| - 1]
    case ApplyFilters(_) => true
    case Clear => true
    case AddOp(_) =>
      && FollowedTail(ops[..|ops| - 1])
      && (After(ops[..|ops| - 1]).paused || After(ops[..|ops| - 1]).liveTail)
    case _ => FollowedTail(ops[..|ops| - 1])
  }

  /** The newest at most 5000. */
  ghost function Newest(evs: seq<Ev>): seq<Ev> {
    if |evs| > 5000 then evs[|evs| - 5000..] else evs
  }

  lemma NewestStep(evs: seq<Ev>, ev: Ev)
    ensures Retained(Newest(evs) + [ev]) == Newest(evs + [ev])
  { }

  /** `events` is always the newest at most 5000 accepted events since the last clear, in order. */
  lemma {:induction false} EventsAreTheNewest(ops: seq<Op>)
    ensures After(ops).events == Newest(Accepted(ops))
  {
    hide Matches, Newest, Retained, Filtered;
    if ops == [] {
      assert Newest([]) == [] by { NothingNewest(); }
    } else {
      var front := ops[..|ops| - 1];
      EventsAreTheNewest(front);
      match ops[|ops| - 1] {
        case AddOp(ev) => NewestStep(Accepted(front), ev);
        case Clear => NothingNewest();
        case _ =>
      }
    }
  }

  lemma NothingNewest()
    ensures Newest([]) == []
  { }

  /** `b` ends with `a`. */
  ghost predicate EndsWith(b: seq<Ev>, a: seq<Ev>) {
    |a| <= |b| && b[|b| - |a|..] == a
  }

  lemma EndsWithStep(b: seq<Ev>, a: seq<Ev>, ev: Ev)
    requires EndsWith(b, a)
    ensures EndsWith(b + [ev], Retained(a + [ev]))
  { }

  lemma {:induction false} RowSourceEndsWithTheLog(ops: seq<Op>)
    ensures EndsWith(RowSource(ops), After(ops).events)
  {
    hide Matches, Retained, Filtered;
    if ops != [] {
      var front := ops[..|ops| - 1];
      RowSourceEndsWithTheLog(front);
      if ops[|ops| - 1].AddOp? {
        hide EndsWith;
        EndsWithStep(RowSource(front), After(front).events, ops[|ops| - 1].ev);
      }
    }
  }

  // ---------------------------------------------------------------- the incremental view

  lemma FilteredStep(f: Filters, evs: seq<Ev>, ev: Ev)
    ensures Filtered(f, evs + [ev]) == Filtered(f, evs) + if Matches(f, ev) then [ev] else []
  {
    assert (evs + [ev])[..|evs|] == evs;
    hide Matches;
  }

  lemma {:induction false} FollowedRows(ops: seq<Op>)
    requires FollowedTail(ops)
    ensures After(ops).rows == Filtered(After(ops).filters, RowSource(ops))
  {
    hide Matches, Retained;
    if ops != [] {
      var front, op := ops[..|ops| - 1], ops[|ops| - 1];
      if !op.ApplyFilters? && !op.Clear? {
        FollowedRows(front);
        if op.AddOp? { FilteredStep(After(front).filters, RowSource(front), op.ev); }
      }
    }
  }

  /** The rows that a rebuild with the filters in force would show. */
  ghost function Rebuilt(s: Log): seq<Ev> {
    Do(s, ApplyFilters(s.filters)).rows
  }

  /** The source events that the log no longer holds. */
  ghost function Evicted(ops: seq<Op>): seq<Ev> {
    RowSourceEndsWithTheLog(ops);
    RowSource(ops)[..|RowSource(ops)| - |After(ops).events|]
  }

  /**
    While the tail is followed the rows on screen are the matching evicted events and then exactly the rebuild:
    the rebuild is a suffix of the screen, and all of it precisely when no matching event has been evicted.
   */
  lemma FollowedViewRefinesRebuild(ops: seq<Op>)
    requires FollowedTail(ops)
    ensures var s := After(ops);
            && s.rows == Filtered(s.filters, Evicted(ops)) + Rebuilt(s)
            && (s.rows == Rebuilt(s) <==> Filtered(s.filters, Evicted(ops)) == [])
            && (|RowSource(ops)| <= 5000 ==> s.rows == Rebuilt(s))
  {
    hide Filtered, RowSource, FollowedTail, After, Matches, Evicted;
    var s := After(ops);
    FollowedRows(ops);
    SourceSplits(ops);
    FilteredConcat(s.filters, Evicted(ops), s.events);
    if |RowSource(ops)| <= MAX_EVENTS {
      NothingEvictedYet(ops);
    }
  }

  lemma SourceSplits(ops: seq<Op>)
    ensures RowSource(ops) == Evicted(ops) + After(ops).events
  {
    RowSourceEndsWithTheLog(ops);
    hide RowSource, After;
  }

  lemma {:induction false} NothingEvictedYet(ops: seq<Op>)
    requires |RowSource(ops)| <= 5000
    ensures After(ops).events == RowSource(ops)
  {
    hide Matches, Filtered;
    if ops != [] {
      var op := ops[|ops| - 1];
      if !op.ApplyFilters? && !op.Clear? { NothingEvictedYet(ops[..|ops| - 1]); }
    }
  }

  /** Scrolled away or not, the screen holds each matching source event as often as it occurred: none is ever lost. */
  lemma {:induction false} NoMatchingRowIsLost(ops: seq<Op>)
    ensures multiset(After(ops).rows) == multiset(Filtered(After(ops).filters, RowSource(ops)))
  {
    hide Matches, Retained, Filtered;
    if ops == [] {
      FilteredNothing(EMPTY_LOG.filters);
    } else {
      var front, op := ops[..|ops| - 1], ops[|ops| - 1];
      if op.Clear? {
        FilteredNothing(After(front).filters);
      } else if !op.ApplyFilters? {
        NoMatchingRowIsLost(front);
        if op.AddOp? {
          FilteredStep(After(front).filters, RowSource(front), op.ev);
          EitherEnd(After(front).rows, Filtered(After(front).filters, RowSource(front)), op.ev);
        }
      }
    }
  }

  lemma FilteredNothing(f: Filters)
    ensures Filtered(f, []) == []
  { }

  lemma EitherEnd(rows: seq<Ev>, fs: seq<Ev>, ev: Ev)
    requires multiset(rows) == multiset(fs)
    ensures multiset([ev] + rows) == multiset(fs + [ev]) == multiset(rows + [ev])
    ensures fs + [] == fs
  { }

  lemma {:induction false} FilteredIn(f: Filters, evs: seq<Ev>, ev: Ev)
    ensures ev in Filtered(f, evs) <==> ev in evs && Matches(f, ev)
  {
    hide Matches;
    if evs != [] {
      var front, last := evs[..|evs| - 1], evs[|evs| - 1];
      FilteredIn(f, front, ev);
      assert evs == front + [last];
    }
  }

  /**
    Every run: an event has a row exactly when it was accepted since the log the rows were last rebuilt from, or was in
    that log, and no control hides it.
   */
  lemma RowsAreWhatNoControlHides(ops: seq<Op>, ev: Ev)
    ensures ev in After(ops).rows <==> ev in RowSource(ops) && !HiddenBy(After(ops).filters, ev)
  {
    NoMatchingRowIsLost(ops);
    FilteredIn(After(ops).filters, RowSource(ops), ev);
    MatchesUnlessHidden(After(ops).filters, ev);
    hide After, RowSource, Matches, HiddenBy, Filtered;
    assert ev in After(ops).rows <==> multiset(After(ops).rows)[ev] > 0;
    assert ev in Filtered(After(ops).filters, RowSource(ops))
           <==> multiset(Filtered(After(ops).filters, RowSource(ops)))[ev] > 0;
  }

  /** The controls by the history: the filters last applied, the parity of the pauses, and the last word on the tail. */
  ghost function FiltersSet(ops: seq<Op>): Filters {
    if ops == [] then NO_FILTER
    else
      match ops[|ops| - 1]
      case ApplyFilters(f) => f
      case _ => FiltersSet(ops[..|ops| - 1])
  }

  ghost function PausedBy(ops: seq<Op>): bool {
    ops != [] && PausedBy(ops[..|ops| - 1]) != ops[|ops| - 1].TogglePause?
  }

  ghost function FollowsTail(ops: seq<Op>): bool {
    ops == [] ||
    match ops[|ops| - 1]
    case JumpToLive => true
    case SetAutoScroll(on) => on || FollowsTail(ops[..|ops| - 1])
    case Scrolled(atBottom) => atBottom
    case _ => FollowsTail(ops[..|ops| - 1])
  }

  ghost function AutoScrolls(ops: seq<Op>): bool {
    ops == [] || (if ops[|ops| - 1].SetAutoScroll? then ops[|ops| - 1].on else AutoScrolls(ops[..|ops| - 1]))
  }

  lemma {:induction false} ControlsAreHistory(ops: seq<Op>)
    ensures After(ops).filters == FiltersSet(ops)
    ensures After(ops).paused == PausedBy(ops)
    ensures After(ops).liveTail == FollowsTail(ops)
    ensures After(ops).autoScroll == AutoScrolls(ops)
  {
    hide Matches, Filtered, Retained;
    if ops != [] { ControlsAreHistory(ops[..|ops| - 1]); }
  }

  // ---------------------------------------------------------------- replaying a frame

  /** A frame of the time machine: the log cleared, then fed one event after the other. */
  ghost function Replayed(s: Log, frame: seq<Ev>): Log {
    if frame == [] then Do(s, Clear) else Add(Replayed(s, frame[..|frame| - 1]), frame[|frame| - 1])
  }

  ghost function Reversed(evs: seq<Ev>): seq<Ev> {
    if evs == [] then [] else [evs[|evs| - 1]] + Reversed(evs[..|evs| - 1])
  }

  /**
    A paused console shows nothing of the frame. Otherwise the log holds the frame's newest events, and the rows show
    all its matching ones: in order when the tail is followed, newest first when it is not.
   */
  ghost predicate ShowsFrame(s: Log, t: Log, frame: seq<Ev>) {
    && t == s.(events := t.events, rows := t.rows)
    && (if s.paused then t.events == [] && t.rows == []
        else t.events == Newest(frame)
             && t.rows == if s.liveTail then Filtered(s.filters, frame) else Reversed(Filtered(s.filters, frame)))
  }

  lemma ClearedShowsNothing(s: Log)
    ensures ShowsFrame(s, Do(s, Clear), [])
  {
    hide Add, Matches, Newest;
    NothingNewest();
    FilteredNothing(s.filters);
  }

  lemma AddedToFrame(s: Log, t: Log, front: seq<Ev>, ev: Ev)
    requires ShowsFrame(s, t, front)
    ensures ShowsFrame(s, Add(t, ev), front + [ev])
  {
    hide Matches, Newest, Retained, Filtered, Reversed;
    if !s.paused {
      NewestStep(front, ev);
      FilteredStep(s.filters, front, ev);
      ReversedStep(Filtered(s.filters, front), ev);
    }
  }

  lemma {:induction false} ReplayShowsTheFrame(s: Log, frame: seq<Ev>)
    ensures ShowsFrame(s, Replayed(s, frame), frame)
  {
    hide Add, ShowsFrame, Do;
    if frame == [] {
      ClearedShowsNothing(s);
    } else {
      var front, ev := frame[..|frame| - 1], frame[|frame| - 1];
      ReplayShowsTheFrame(s, front);
      AddedToFrame(s, Replayed(s, front), front, ev);
      assert frame == front + [ev];
    }
  }

  lemma ReversedStep(evs: seq<Ev>, ev: Ev)
    ensures Reversed(evs + [ev]) == [ev] + Reversed(evs) && evs + [] == evs
  {
    assert (evs + [ev])[..|evs|] == evs;
  }

  // ---------------------------------------------------------------- the console object

  class Console {
    var events: seq<Ev>
    var rows: seq<Ev>
    var filters: Filters
    var paused: bool
    var autoScroll: bool
    var liveTail: bool

    function View(): Log
      reads this
    {
      Log(events, rows, filters, paused, autoScroll, liveTail)
    }

    constructor ()
      ensures View() == EMPTY_LOG
    {
      events, rows, filters, paused, autoScroll, liveTail := [], [], NO_FILTER, false, true, true;
    }

    method AddEvent(ev: Ev)
      modifies this`events, this`rows
      ensures View() == Do(old(View()), AddOp(ev))
    {
      if paused { return; }
      events := events + [ev];
      if |events| > MAX_EVENTS { events := events[1..]; }
      if Matches(filters, ev) {
        rows := if !liveTail then [ev] + rows else rows + [ev];
      }
    }

    method Apply(fromControls: Filters)
      modifies this`filters, this`rows
      ensures View() == Do(old(View()), ApplyFilters(fromControls))
    {
      hide Matches;
      filters := fromControls;
      rows := [];
      for i := 0 to |events|
        invariant rows == Filtered(filters, events[..i]) && filters == fromControls
      {
        FilteredStep(filters, events[..i], events[i]);
        assert events[..i + 1] == events[..i] + [events[i]];
        if Matches(filters, events[i]) { rows := rows + [events[i]]; }
      }
      assert events[..|events|] == events;
    }

    method ClearAll()
      modifies this`events, this`rows
      ensures View() == Do(old(View()), Clear)
    {
      events, rows := [], [];
    }

    /** A replayed frame: the console is cleared and then fed the frame's events. */
    method PushFrame(frame: seq<Ev>)
      modifies this`events, this`rows
      ensures View() == Replayed(old(View()), frame)
    {
      hide Add;
      ClearAll();
      for i := 0 to |frame|
        invariant View() == Replayed(old(View()), frame[..i])
      {
        assert frame[..i + 1][..i] == frame[..i];
        AddEvent(frame[i]);
      }
      assert frame[..|frame|] == frame;
    }

    method DetectTailScroll(atBottom: bool)
      modifies this`liveTail
      ensures View() == Do(old(View()), Scrolled(atBottom))
    {
      if !atBottom && liveTail {
        liveTail := false;
      } else if atBottom && !liveTail {
        liveTail := true;
      }
    }
  }
}
