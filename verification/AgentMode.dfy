/** Agent Mode of the incident center (Web/app.js): automatic, deduplicated, budgeted traces of open incidents. */
module AgentMode {
  import opened Common

  datatype AgentState = TRACING | FAILED | ANALYZING | TASK_READY

  /**
    An incident as a load delivers it. `open` and `severe` are what the shared model says of its status and
    severity (CRITICAL, HIGH or MEDIUM); `agentState` is a state already attached to the object.
   */
  datatype Incident = Incident(id: string, open: bool, severe: bool, agentState: Option<AgentState>)

  /** `pending` lists the traces sent and not answered; `sent` every trace request of the session, in order. */
  datatype Session = Session(
    incidents: seq<Incident>, loaded: bool, agentMode: bool,
    processed: map<string, AgentState>, pending: set<string>, sent: seq<string>)

  const BUDGET: nat := 5
  const FRESH := Session([], false, false, map[], {}, [])

  // ---------------------------------------------------------------- steps

  predicate Eligible(s: Session, inc: Incident) {
    inc.open && inc.severe && inc.id !in s.processed && inc.agentState.None?
  }

  /** The ids of the eligible incidents, in list order. */
  function EligibleIds(s: Session, incidents: seq<Incident>): seq<string> {
    if incidents == [] then []
    else
      EligibleIds(s, incidents[..|incidents| - 1])
      + if Eligible(s, incidents[|incidents| - 1]) then [incidents[|incidents| - 1].id] else []
  }

  /** refreshAgentPillFor: the first incident with this id shows its state. */
  function WithPill(incidents: seq<Incident>, id: string, st: AgentState): seq<Incident> {
    if incidents == [] then []
    else if incidents[0].id == id then [incidents[0].(agentState := Some(st))] + incidents[1..]
    else [incidents[0]] + WithPill(incidents[1..], id, st)
  }

  /** agentTraceIncident up to the answer of its request. */
  function StartTrace(s: Session, id: string): Session {
    if id in s.processed then s
    else s.(processed := s.processed[id := TRACING], incidents := WithPill(s.incidents, id, TRACING),
            pending := s.pending + {id}, sent := s.sent + [id])
  }

  function StartTraces(s: Session, ids: seq<string>): Session {
    if ids == [] then s else StartTrace(StartTraces(s, ids[..|ids| - 1]), ids[|ids| - 1])
  }

  function Slots(s: Session): nat {
    if BUDGET > |s.processed| then BUDGET - |s.processed| else 0
  }

  function Take(ids: seq<string>, n: nat): seq<string> {
    if n <= |ids| then ids[..n] else ids
  }

  function AutoTrace(s: Session): Session {
    StartTraces(s, Take(EligibleIds(s, s.incidents), Slots(s)))
  }

  /** What a load attaches to its incidents from the states already tracked. */
  function Attach(processed: map<string, AgentState>, incidents: seq<Incident>): seq<Incident> {
    seq(|incidents|, i requires 0 <= i < |incidents| =>
      if incidents[i].id in processed then incidents[i].(agentState := Some(processed[incidents[i].id]))
      else incidents[i])
  }

  datatype TraceReply = Refused | Partial | Resolved

  function Outcome(reply: TraceReply): AgentState {
    match reply
    case Refused => FAILED
    case Partial => ANALYZING
    case Resolved => TASK_READY
  }

  datatype Event = Load(incidents: seq<Incident>) | Toggle | Traced(id: string, reply: TraceReply)

  predicate Enabled(s: Session, e: Event) {
    e.Traced? ==> e.id in s.pending
  }

  function Step(s: Session, e: Event): Session
    requires Enabled(s, e)
  {
    match e
    case Load(incidents) =>
      var t := s.(incidents := Attach(s.processed, incidents), loaded := true);
      if s.agentMode then AutoTrace(t) else t
    case Toggle =>
      var t := s.(agentMode := !s.agentMode);
      if t.agentMode && t.loaded then AutoTrace(t) else t
    case Traced(id, reply) =>
      s.(processed := s.processed[id := Outcome(reply)], pending := s.pending - {id},
         incidents := WithPill(s.incidents, id, Outcome(reply)))
  }

  ghost function After(es: seq<Event>): Option<Session> {
    if es == [] then Some(FRESH)
    else
      var before := After(es[..|es| - 1]);
      if before.Some? && Enabled(before.value, es[|es| - 1]) then Some(Step(before.value, es[|es| - 1])) else None
  }

  // ---------------------------------------------------------------- invariant

  ghost predicate Distinct(ids: seq<string>) {
    forall i, j :: 0 <= i < j < |ids| ==> ids[i] != ids[j]
  }

  /** The requests sent are the incidents processed, once each, at most five; the unanswered ones are TRACING. */
  ghost predicate Accounted(s: Session) {
    && Distinct(s.sent) && |s.sent| == |s.processed| <= BUDGET
    && (forall id :: id in s.sent <==> id in s.processed)
    && (forall id :: id in s.pending <==> id in s.processed && s.processed[id] == TRACING)
  }

  /** Where one incident can go from one moment to a later one. */
  predicate MayBecome(before: Option<AgentState>, after: Option<AgentState>) {
    match before
    case None => true
    case Some(TRACING) => after.Some?
    case Some(_) => after == before
  }

  function StateOf(s: Session, id: string): Option<AgentState> {
    if id in s.processed then Some(s.processed[id]) else None
  }

  ghost predicate Progress(s: Session, t: Session) {
    && s.sent <= t.sent
    && forall id :: MayBecome(StateOf(s, id), StateOf(t, id))
  }

  lemma ProgressIsTransitive(s: Session, t: Session, u: Session)
    ensures Progress(s, t) && Progress(t, u) ==> Progress(s, u)
  { }

  lemma TraceKeepsAccounted(s: Session, id: string)
    requires Accounted(s) && |s.processed| < BUDGET
    ensures var t := StartTrace(s, id); Accounted(t) && Progress(s, t) && |t.processed| <= |s.processed| + 1
  {
    hide WithPill;
    if id !in s.processed {
      SentAppends(s.sent, id);
      assert id !in s.sent;
      hide Distinct;
      assert |s.processed[id := TRACING]| == |s.processed| + 1;
    }
  }

  lemma SentAppends(sent: seq<string>, id: string)
    ensures sent <= sent + [id]
    ensures forall x :: x in sent + [id] <==> x in sent || x == id
    ensures Distinct(sent) && id !in sent ==> Distinct(sent + [id])
  { }

  lemma {:induction false} TracesKeepAccounted(s: Session, ids: seq<string>)
    requires Accounted(s) && |ids| + |s.processed| <= BUDGET
    ensures var t := StartTraces(s, ids); Accounted(t) && Progress(s, t) && |t.processed| <= |s.processed| + |ids|
  {
    if ids != [] {
      var t := StartTraces(s, ids[..|ids| - 1]);
      TracesKeepAccounted(s, ids[..|ids| - 1]);
      TraceKeepsAccounted(t, ids[|ids| - 1]);
      ProgressIsTransitive(s, t, StartTraces(s, ids));
      hide StartTrace, Accounted, Progress;
    }
  }

  lemma AutoTraceKeepsAccounted(s: Session)
    requires Accounted(s)
    ensures Accounted(AutoTrace(s)) && Progress(s, AutoTrace(s))
  {
    TracesKeepAccounted(s, Take(EligibleIds(s, s.incidents), Slots(s)));
    hide EligibleIds, StartTraces;
  }

  lemma AnswerKeepsAccounted(s: Session, id: string, reply: TraceReply)
    requires Accounted(s) && id in s.pending
    ensures var t := Step(s, Traced(id, reply)); Accounted(t) && Progress(s, t)
  {
    hide WithPill, Distinct;
    var t := Step(s, Traced(id, reply));
    assert t.processed.Keys == s.processed.Keys;
    assert |t.processed| == |t.processed.Keys| && |s.processed| == |s.processed.Keys|;
  }

  lemma StepKeepsAccounted(s: Session, e: Event)
    requires Accounted(s) && Enabled(s, e)
    ensures Accounted(Step(s, e)) && Progress(s, Step(s, e))
  {
    hide AutoTrace, WithPill, Attach;
    match e
    case Load(incidents) => AutoTraceKeepsAccounted(s.(incidents := Attach(s.processed, incidents), loaded := true));
    case Toggle => AutoTraceKeepsAccounted(s.(agentMode := !s.agentMode));
    case Traced(id, reply) => AnswerKeepsAccounted(s, id, reply);
  }

  // ---------------------------------------------------------------- whole sessions

  /** At most five traces are ever sent, no incident is traced twice, and unanswered means TRACING. */
  lemma {:induction false} AtMostFiveTracesEachOnce(es: seq<Event>)
    requires After(es).Some?
    ensures Accounted(After(es).value)
    ensures |After(es).value.sent| <= 5 && Distinct(After(es).value.sent)
  {
    if es != [] {
      AtMostFiveTracesEachOnce(es[..|es| - 1]);
      StepKeepsAccounted(After(es[..|es| - 1]).value, es[|es| - 1]);
      hide Step, Enabled;
    } else {
      assert FRESH.processed == map[];
    }
  }

  /** From TRACING an incident moves to one of FAILED, ANALYZING and TASK_READY, and there it stays for good. */
  lemma {:induction false} OutcomesAreFinal(es: seq<Event>, n: nat)
    requires n <= |es| && After(es).Some? && After(es[..n]).Some?
    ensures Progress(After(es[..n]).value, After(es).value)
  {
    if n == |es| {
      assert es[..n] == es;
    } else {
      var front := es[..|es| - 1];
      assert front[..n] == es[..n];
      OutcomesAreFinal(front, n);
      AtMostFiveTracesEachOnce(front);
      StepKeepsAccounted(After(front).value, es[|es| - 1]);
      hide Step, Enabled, Accounted;
    }
  }

  /** What a step adds to the incidents processed is TRACING. */
  lemma StepStartsWithTracing(s: Session, e: Event, id: string)
    requires Accounted(s) && Enabled(s, e) && id !in s.processed && id in Step(s, e).processed
    ensures Step(s, e).processed[id] == TRACING
  {
    hide WithPill, Attach, EligibleIds, Distinct;
    match e
    case Load(incidents) =>
      var t := s.(incidents := Attach(s.processed, incidents), loaded := true);
      TracesStartWithTracing(t, Take(EligibleIds(t, t.incidents), Slots(t)), id);
    case Toggle =>
      var t := s.(agentMode := !s.agentMode);
      TracesStartWithTracing(t, Take(EligibleIds(t, t.incidents), Slots(t)), id);
    case Traced(_, _) =>
  }

  lemma {:induction false} TracesStartWithTracing(s: Session, ids: seq<string>, id: string)
    requires id !in s.processed
    ensures id in StartTraces(s, ids).processed ==> StartTraces(s, ids).processed[id] == TRACING
  {
    hide WithPill;
    if ids != [] { TracesStartWithTracing(s, ids[..|ids| - 1], id); }
  }

  /** Every incident an agent has ever processed was first untouched and then TRACING, at some moment of the session. */
  lemma {:induction false} EveryIncidentStartsTracing(es: seq<Event>, id: string) returns (k: nat)
    requires After(es).Some? && id in After(es).value.processed
    ensures k < |es| && After(es[..k]).Some? && After(es[..k + 1]).Some?
    ensures id !in After(es[..k]).value.processed
    ensures StateOf(After(es[..k + 1]).value, id) == Some(TRACING)
  {
    var front := es[..|es| - 1];
    assert es[..|es|] == es;
    if id in After(front).value.processed {
      k := EveryIncidentStartsTracing(front, id);
      assert front[..k] == es[..k] && front[..k + 1] == es[..k + 1];
    } else {
      k := |es| - 1;
      AtMostFiveTracesEachOnce(front);
      StepStartsWithTracing(After(front).value, es[|es| - 1], id);
      hide Step, Enabled, Accounted;
    }
  }

  // ---------------------------------------------------------------- the budget is used

  lemma {:induction false} EligibleIdsAreEligible(s: Session, incidents: seq<Incident>)
    ensures forall x :: x in EligibleIds(s, incidents) <==>
              exists i :: 0 <= i < |incidents| && incidents[i].id == x && Eligible(s, incidents[i])
    ensures (forall i, j :: 0 <= i < j < |incidents| ==> incidents[i].id != incidents[j].id) ==>
              Distinct(EligibleIds(s, incidents))
  {
    if incidents != [] {
      var front, last := incidents[..|incidents| - 1], incidents[|incidents| - 1];
      EligibleIdsAreEligible(s, front);
      hide Eligible;
      forall x ensures x in EligibleIds(s, incidents) <==>
                       exists i :: 0 <= i < |incidents| && incidents[i].id == x && Eligible(s, incidents[i]) {
        if x in EligibleIds(s, front) {
          var i :| 0 <= i < |front| && front[i].id == x && Eligible(s, front[i]);
          assert incidents[i] == front[i];
        }
        if i :| 0 <= i < |incidents| && incidents[i].id == x && Eligible(s, incidents[i]) {
          if i < |front| { assert front[i] == incidents[i]; }
        }
      }
      if forall i, j :: 0 <= i < j < |incidents| ==> incidents[i].id != incidents[j].id {
        assert forall i :: 0 <= i < |front| ==> front[i] == incidents[i] && front[i].id != last.id;
        assert forall i, j :: 0 <= i < j < |front| ==> front[i].id != front[j].id;
        SentAppends(EligibleIds(s, front), last.id);
      }
    }
  }

  lemma {:induction false} DistinctTracesAllStart(s: Session, ids: seq<string>)
    requires Distinct(ids) && forall i :: 0 <= i < |ids| ==> ids[i] !in s.processed
    ensures |StartTraces(s, ids).processed| == |s.processed| + |ids|
    ensures forall x :: x in StartTraces(s, ids).processed <==> x in s.processed || x in ids
  {
    hide StartTrace, Distinct;
    if ids != [] {
      var front, last := ids[..|ids| - 1], ids[|ids| - 1];
      DistinctFront(ids);
      DistinctTracesAllStart(s, front);
      FreshTrace(StartTraces(s, front), last);
    }
  }

  lemma DistinctFront(ids: seq<string>)
    requires Distinct(ids) && ids != []
    ensures Distinct(ids[..|ids| - 1]) && ids[|ids| - 1] !in ids[..|ids| - 1]
    ensures forall x :: x in ids <==> x in ids[..|ids| - 1] || x == ids[|ids| - 1]
  {
    assert ids == ids[..|ids| - 1] + [ids[|ids| - 1]];
  }

  lemma FreshTrace(s: Session, id: string)
    requires id !in s.processed
    ensures |StartTrace(s, id).processed| == |s.processed| + 1
    ensures forall x :: x in StartTrace(s, id).processed <==> x in s.processed || x == id
  {
    hide WithPill;
  }

  /** Distinct incidents have distinct eligible ids, all of them untouched, and none is left out. */
  lemma DistinctEligibleIds(s: Session)
    requires forall i, j :: 0 <= i < j < |s.incidents| ==> s.incidents[i].id != s.incidents[j].id
    ensures var ids := EligibleIds(s, s.incidents);
      && Distinct(ids) && (forall x :: x in ids ==> x !in s.processed)
      && forall i :: 0 <= i < |s.incidents| && Eligible(s, s.incidents[i]) ==> s.incidents[i].id in ids
  {
    EligibleIdsAreEligible(s, s.incidents);
    hide EligibleIds, Distinct;
  }

  lemma FirstFew(ids: seq<string>, n: nat)
    requires Distinct(ids)
    ensures Distinct(Take(ids, n)) && forall x :: x in Take(ids, n) ==> x in ids
  { }

  /** With distinct incident ids, a pass either spends the whole budget or leaves no eligible incident untraced. */
  lemma AutoTraceIsWorkConserving(s: Session)
    requires Accounted(s) && forall i, j :: 0 <= i < j < |s.incidents| ==> s.incidents[i].id != s.incidents[j].id
    ensures var t := AutoTrace(s);
            || |t.processed| == 5
            || forall i :: 0 <= i < |s.incidents| && Eligible(s, s.incidents[i]) ==> s.incidents[i].id in t.processed
  {
    assert |s.processed| <= BUDGET;
    hide EligibleIds, Accounted, Eligible, StartTraces;
    var ids := EligibleIds(s, s.incidents);
    DistinctEligibleIds(s);
    var chosen := Take(ids, Slots(s));
    FirstFew(ids, Slots(s));
    DistinctTracesAllStart(s, chosen);
    hide Distinct;
    if |ids| <= Slots(s) {
      assert chosen == ids;
      forall i | 0 <= i < |s.incidents| && Eligible(s, s.incidents[i])
        ensures s.incidents[i].id in AutoTrace(s).processed
      {
        assert s.incidents[i].id in ids;
      }
    }
  }

  lemma {:induction false} TracesTouchOnlyTheirIds(s: Session, ids: seq<string>)
    ensures forall x :: x in StartTraces(s, ids).processed && x !in s.processed ==> x in ids
  {
    hide WithPill;
    if ids != [] {
      TracesTouchOnlyTheirIds(s, ids[..|ids| - 1]);
    }
  }

  /** A pass traces open, severe, untouched incidents of the list and nothing else. */
  lemma OnlyEligibleIncidentsAreTraced(s: Session, id: string)
    requires id in AutoTrace(s).processed && id !in s.processed
    ensures exists i :: 0 <= i < |s.incidents| && s.incidents[i].id == id
                        && s.incidents[i].open && s.incidents[i].severe && s.incidents[i].agentState.None?
  {
    var ids := EligibleIds(s, s.incidents);
    EligibleIdsAreEligible(s, s.incidents);
    TracesTouchOnlyTheirIds(s, Take(ids, Slots(s)));
    hide EligibleIds, StartTraces;
    assert id in ids;
    var i :| 0 <= i < |s.incidents| && s.incidents[i].id == id && Eligible(s, s.incidents[i]);
  }

  lemma FirstOfTail(incidents: seq<Incident>, id: string, i: nat)
    requires 0 < i < |incidents| && incidents[0].id != id
    ensures (forall j :: 0 <= j < i ==> incidents[j].id != id)
            <==> (forall j :: 0 <= j < i - 1 ==> incidents[1..][j].id != id)
  {
    forall j | 1 <= j < i ensures incidents[j] == incidents[1..][j - 1] { }
    forall j | 0 <= j < i - 1 ensures incidents[1..][j] == incidents[j + 1] { }
  }

  /** An incident that Agent Mode is for: open, severe, not traced yet and with no agent state of its own. */
  predicate Wanted(s: Session, inc: Incident) {
    inc.open && inc.severe && inc.id !in s.processed && inc.agentState == None
  }

  ghost predicate DistinctIncidents(incidents: seq<Incident>) {
    forall i, j :: 0 <= i < j < |incidents| ==> incidents[i].id != incidents[j].id
  }

  lemma WantedIsListed(s: Session, incidents: seq<Incident>, i: nat)
    requires i < |incidents| && Wanted(s, incidents[i])
    ensures incidents[i].id in EligibleIds(s, incidents)
  {
    EligibleIdsAreEligible(s, incidents);
    assert Eligible(s, incidents[i]);
    hide Eligible, EligibleIds, Wanted;
  }

  lemma OnlyListedIfInTheList(s: Session, incidents: seq<Incident>, id: string)
    requires id in EligibleIds(s, incidents)
    ensures exists i :: 0 <= i < |incidents| && incidents[i].id == id
  {
    EligibleIdsAreEligible(s, incidents);
    hide Eligible, EligibleIds;
    var i :| 0 <= i < |incidents| && incidents[i].id == id && Eligible(s, incidents[i]);
  }

  lemma {:induction false} EarlierIsListedEarlier(s: Session, incidents: seq<Incident>, i: nat, j: nat, k: nat)
    requires DistinctIncidents(incidents) && i < j < |incidents| && Wanted(s, incidents[i])
    requires k < |EligibleIds(s, incidents)| && EligibleIds(s, incidents)[k] == incidents[j].id
    ensures exists m :: 0 <= m < k && EligibleIds(s, incidents)[m] == incidents[i].id
    decreases |incidents|
  {
    hide Eligible, Wanted;
    var front := incidents[..|incidents| - 1];
    var fewer := EligibleIds(s, front);
    assert fewer <= EligibleIds(s, incidents) <= fewer + [incidents[|incidents| - 1].id];
    if k < |fewer| {
      OnlyListedIfInTheList(s, front, fewer[k]);
      EarlierIsListedEarlier(s, front, i, j, k);
    } else {
      WantedIsListed(s, front, i);
    }
  }

  lemma TakenComeFirst(s: Session, n: nat, i: nat, j: nat)
    requires DistinctIncidents(s.incidents) && i < j < |s.incidents| && Wanted(s, s.incidents[i])
    requires s.incidents[j].id in Take(EligibleIds(s, s.incidents), n)
    ensures s.incidents[i].id in Take(EligibleIds(s, s.incidents), n)
  {
    hide EligibleIds, DistinctIncidents, Wanted;
    var ids := EligibleIds(s, s.incidents);
    var k :| 0 <= k < |Take(ids, n)| && Take(ids, n)[k] == s.incidents[j].id;
    EarlierIsListedEarlier(s, s.incidents, i, j, k);
    var m :| 0 <= m < k && ids[m] == s.incidents[i].id;
    assert Take(ids, n)[m] == ids[m];
  }

  /** Passes go down the list: an incident that is wanted is traced before any that comes after it. */
  lemma PassGoesDownTheList(s: Session, i: nat, j: nat)
    requires DistinctIncidents(s.incidents) && i < j < |s.incidents| && Wanted(s, s.incidents[i])
    requires s.incidents[j].id !in s.processed && s.incidents[j].id in AutoTrace(s).processed
    ensures s.incidents[i].id in AutoTrace(s).processed
  {
    var ids := Take(EligibleIds(s, s.incidents), Slots(s));
    TracesTouchOnlyTheirIds(s, ids);
    TakenComeFirst(s, Slots(s), i, j);
    TracedAreProcessed(s, ids);
    hide EligibleIds, StartTraces, Take, DistinctIncidents, Wanted;
  }

  lemma {:induction false} TracedAreProcessed(s: Session, ids: seq<string>)
    ensures forall x :: x in ids ==> x in StartTraces(s, ids).processed
  {
    hide WithPill;
    if ids != [] {
      TracedAreProcessed(s, ids[..|ids| - 1]);
      assert ids == ids[..|ids| - 1] + [ids[|ids| - 1]];
    }
  }

  /** With distinct ids, a pass that does not use up the budget of five traces every wanted incident of the list. */
  lemma NoWantedIncidentIsLeft(s: Session, i: nat)
    requires Accounted(s) && DistinctIncidents(s.incidents)
    requires i < |s.incidents| && Wanted(s, s.incidents[i])
    ensures |AutoTrace(s).processed| == 5 || s.incidents[i].id in AutoTrace(s).processed
  {
    AutoTraceIsWorkConserving(s);
    assert Eligible(s, s.incidents[i]);
    hide AutoTrace, Accounted, Eligible;
  }

  /** A refusal fails the incident, a partial lineage keeps it in analysis, and with a whole one the task is ready. */
  lemma RepliesDecide(s: Session, id: string, reply: TraceReply)
    requires id in s.pending
    ensures var t := Step(s, Traced(id, reply));
      && id !in t.pending && id in t.processed
      && (reply == Refused ==> t.processed[id] == FAILED)
      && (reply == Partial ==> t.processed[id] == ANALYZING)
      && (reply == Resolved ==> t.processed[id] == TASK_READY)
      && t.incidents == WithPill(s.incidents, id, t.processed[id])
      && (forall x :: x != id ==> (x in t.processed <==> x in s.processed))
      && (forall x :: x != id && x in s.processed ==> t.processed[x] == s.processed[x])
  {
    hide WithPill;
  }

  /** Agent Mode by the history: on after an odd number of toggles; and lists have been loaded. */
  ghost function Toggles(es: seq<Event>): nat {
    if es == [] then 0 else Toggles(es[..|es| - 1]) + if es[|es| - 1].Toggle? then 1 else 0
  }

  ghost predicate AnyLoad(es: seq<Event>) {
    es != [] && (es[|es| - 1].Load? || AnyLoad(es[..|es| - 1]))
  }

  lemma {:induction false} TracesKeepTheMode(s: Session, ids: seq<string>)
    ensures var t := StartTraces(s, ids); t.agentMode == s.agentMode && t.loaded == s.loaded
  {
    hide WithPill;
    if ids != [] { TracesKeepTheMode(s, ids[..|ids| - 1]); }
  }

  lemma {:induction false} ModeIsHistory(es: seq<Event>)
    requires After(es).Some?
    ensures var s := After(es).value; (s.agentMode <==> Toggles(es) % 2 == 1) && (s.loaded <==> AnyLoad(es))
  {
    if es != [] {
      var front, e := es[..|es| - 1], es[|es| - 1];
      ModeIsHistory(front);
      StepSetsTheMode(After(front).value, e);
      ParityTurns(Toggles(front));
      hide Step, Enabled;
    }
  }

  lemma ParityTurns(n: nat)
    ensures (n + 1) % 2 == 1 <==> n % 2 != 1
  { }

  lemma StepSetsTheMode(s: Session, e: Event)
    requires Enabled(s, e)
    ensures Step(s, e).agentMode == (s.agentMode != e.Toggle?) && Step(s, e).loaded == (s.loaded || e.Load?)
  {
    hide WithPill, Attach, EligibleIds, StartTraces;
    match e
    case Load(incidents) =>
      var t := s.(incidents := Attach(s.processed, incidents), loaded := true);
      TracesKeepTheMode(t, Take(EligibleIds(t, t.incidents), Slots(t)));
    case Toggle =>
      var t := s.(agentMode := !s.agentMode);
      TracesKeepTheMode(t, Take(EligibleIds(t, t.incidents), Slots(t)));
    case Traced(_, _) =>
  }

  /** A pass is made exactly by a load while the mode is on and by switching it on with a list loaded. */
  lemma PassesAreMadeInAgentModeOnly(s: Session, e: Event)
    requires Enabled(s, e)
    ensures match e
            case Load(incidents) =>
              var t := s.(incidents := Attach(s.processed, incidents), loaded := true);
              Step(s, e) == (if s.agentMode then AutoTrace(t) else t)
            case Toggle =>
              if !s.agentMode && s.loaded then Step(s, e) == AutoTrace(s.(agentMode := true))
              else Step(s, e) == s.(agentMode := !s.agentMode)
            case Traced(_, _) => Step(s, e).sent == s.sent
  { }

  /** A load shows the states that are already known on its incidents and changes nothing else of them. */
  lemma LoadsShowKnownStates(processed: map<string, AgentState>, incidents: seq<Incident>, i: nat)
    requires i < |incidents|
    ensures |Attach(processed, incidents)| == |incidents|
    ensures var inc, shown := incidents[i], Attach(processed, incidents)[i];
      && shown.id == inc.id && shown.open == inc.open && shown.severe == inc.severe
      && shown.agentState == if inc.id in processed then Some(processed[inc.id]) else inc.agentState
  { }

  /** Refreshing a pill writes the state into the first incident with the id and leaves the list otherwise alone. */
  lemma {:induction false} PillIsWrittenOnce(incidents: seq<Incident>, id: string, st: AgentState, i: nat)
    requires i < |incidents|
    ensures |WithPill(incidents, id, st)| == |incidents|
    ensures WithPill(incidents, id, st)[i] ==
              if incidents[i].id == id && (forall j :: 0 <= j < i ==> incidents[j].id != id)
              then incidents[i].(agentState := Some(st)) else incidents[i]
  {
    if incidents[0].id != id {
      if i > 0 {
        PillIsWrittenOnce(incidents[1..], id, st, i - 1);
        FirstOfTail(incidents, id, i);
      } else if |incidents| > 1 {
        PillIsWrittenOnce(incidents[1..], id, st, 0);
      }
    }
  }

  // ---------------------------------------------------------------- what the list shows

  predicate FirstWithItsId(incidents: seq<Incident>, i: nat)
    requires i < |incidents|
  {
    forall j :: 0 <= j < i ==> incidents[j].id != incidents[i].id
  }

  /** The first incident of each id shows the agent state that is known of it. */
  ghost predicate PillsAreCurrent(s: Session) {
    forall i :: 0 <= i < |s.incidents| && FirstWithItsId(s.incidents, i) && s.incidents[i].id in s.processed ==>
      s.incidents[i].agentState == Some(s.processed[s.incidents[i].id])
  }

  lemma {:induction false} PillKeepsIds(incidents: seq<Incident>, id: string, st: AgentState, i: nat)
    requires i < |incidents|
    ensures |WithPill(incidents, id, st)| == |incidents| && WithPill(incidents, id, st)[i].id == incidents[i].id
  {
    PillIsWrittenOnce(incidents, id, st, i);
    hide WithPill;
  }

  /** Setting a state and its pill leaves all pills current. */
  lemma StateWithItsPill(s: Session, t: Session, id: string, st: AgentState)
    requires PillsAreCurrent(s) && t.processed == s.processed[id := st] && t.incidents == WithPill(s.incidents, id, st)
    ensures PillsAreCurrent(t)
  {
    forall i | 0 <= i < |t.incidents| && FirstWithItsId(t.incidents, i) && t.incidents[i].id in t.processed
      ensures t.incidents[i].agentState == Some(t.processed[t.incidents[i].id])
    {
      if s.incidents != [] { PillKeepsIds(s.incidents, id, st, 0); }
      forall j | 0 <= j <= i ensures t.incidents[j].id == s.incidents[j].id { PillKeepsIds(s.incidents, id, st, j); }
      PillIsWrittenOnce(s.incidents, id, st, i);
      hide WithPill;
    }
  }

  lemma {:induction false} TracesKeepPills(s: Session, ids: seq<string>)
    requires PillsAreCurrent(s)
    ensures PillsAreCurrent(StartTraces(s, ids))
  {
    hide WithPill, PillsAreCurrent;
    if ids != [] {
      var front, last := StartTraces(s, ids[..|ids| - 1]), ids[|ids| - 1];
      TracesKeepPills(s, ids[..|ids| - 1]);
      if last !in front.processed { StateWithItsPill(front, StartTrace(front, last), last, TRACING); }
    }
  }

  lemma StepKeepsPills(s: Session, e: Event)
    requires PillsAreCurrent(s) && Enabled(s, e)
    ensures PillsAreCurrent(Step(s, e))
  {
    match e
    case Load(incidents) =>
      var t := s.(incidents := Attach(s.processed, incidents), loaded := true);
      assert PillsAreCurrent(t);
      hide PillsAreCurrent, EligibleIds, StartTraces, Attach;
      TracesKeepPills(t, Take(EligibleIds(t, t.incidents), Slots(t)));
    case Toggle =>
      var t := s.(agentMode := !s.agentMode);
      assert PillsAreCurrent(t);
      hide PillsAreCurrent, EligibleIds, StartTraces;
      TracesKeepPills(t, Take(EligibleIds(t, t.incidents), Slots(t)));
    case Traced(id, reply) =>
      hide PillsAreCurrent, WithPill;
      StateWithItsPill(s, Step(s, e), id, Outcome(reply));
  }

  /** Every session: at the first place of each incident the list shows the agent state that is known. */
  lemma {:induction false} PillsStayCurrent(es: seq<Event>)
    requires After(es).Some?
    ensures PillsAreCurrent(After(es).value)
  {
    hide Step, Enabled;
    if es != [] {
      PillsStayCurrent(es[..|es| - 1]);
      StepKeepsPills(After(es[..|es| - 1]).value, es[|es| - 1]);
    }
  }

  // ---------------------------------------------------------------- the page's object

  class IncidentCenter {
    var incidents: seq<Incident>
    var loaded: bool
    var agentMode: bool
    var agentProcessed: map<string, AgentState>
    var pending: set<string>
    var sent: seq<string>

    function View(): Session
      reads this
    {
      Session(incidents, loaded, agentMode, agentProcessed, pending, sent)
    }

    constructor ()
      ensures View() == FRESH
    {
      incidents, loaded, agentMode, agentProcessed, pending, sent := [], false, false, map[], {}, [];
    }

    method AgentTraceIncident(id: string)
      modifies this
      ensures View() == StartTrace(old(View()), id)
    {
      if id in agentProcessed { return; }
      agentProcessed := agentProcessed[id := TRACING];
      incidents := WithPill(incidents, id, TRACING);
      pending, sent := pending + {id}, sent + [id];
    }

    method MaybeAutoTraceEligible()
      modifies this
      ensures View() == AutoTrace(old(View()))
    {
      hide StartTrace, Eligible;
      ghost var s := View();
      var eligible: seq<string> := [];
      for i := 0 to |incidents|
        invariant View() == s && eligible == EligibleIds(s, incidents[..i])
      {
        assert incidents[..i + 1][..i] == incidents[..i];
        if Eligible(View(), incidents[i]) { eligible := eligible + [incidents[i].id]; }
      }
      assert incidents[..|incidents|] == incidents;
      var active := |agentProcessed|;
      var chosen := Take(eligible, Max(0, BUDGET - active));
      for i := 0 to |chosen|
        invariant View() == StartTraces(s, chosen[..i])
      {
        assert chosen[..i + 1][..i] == chosen[..i];
        AgentTraceIncident(chosen[i]);
      }
      assert chosen[..|chosen|] == chosen;
    }

    method ToggleAgentMode()
      modifies this
      ensures View() == Step(old(View()), Toggle)
    {
      agentMode := !agentMode;
      if agentMode && loaded { MaybeAutoTraceEligible(); }
    }

    /** The accepted end of loadIncidents. */
    method Loaded(list: seq<Incident>)
      modifies this
      ensures View() == Step(old(View()), Load(list))
    {
      incidents := Attach(agentProcessed, list);
      loaded := true;
      if agentMode { MaybeAutoTraceEligible(); }
    }

    /** agentTraceIncident after its request has been answered. */
    method TraceAnswered(id: string, reply: TraceReply)
      requires id in pending
      modifies this
      ensures View() == Step(old(View()), Traced(id, reply))
    {
      agentProcessed := agentProcessed[id := Outcome(reply)];
      pending := pending - {id};
      incidents := WithPill(incidents, id, Outcome(reply));
    }
  }
}
