# Control Center: verified models

Dafny models of the browser-side logic of the NEXUS Control Center, with the DOM stripped away, and proofs of what
that logic guarantees. Prices, coordinates, speeds and frame times are `real`; versions, indices and milliseconds are
integers. One module per component:

| module | component |
|---|---|
| `ReportCurves` | curve renderer of the backtest report: observation scan, 249-bucket sampling, plotting, gap segments |
| `ApiClient` | the shared API client: one outstanding GET per key, connectivity streak |
| `PollingEngine`, `PollerLiveness`, `PollerSharing`, `PollerHistory`, `HonestStaleness`, `ControlCenterState` | the polling engine as a timed state machine over that client, its invariants, what joined polls read, its state by the history of the run, its staleness theorem, and its objects |
| `LiveFeed`, `LiveFeedRuns` | merge of snapshots and versioned ticks into the live view; whole runs with every kind of event and with pauses |
| `SseReconnect` | event-stream connection, reconnect timer, stale check |
| `AgentMode` | budgeted automatic incident traces |
| `SpatialLayout`, `SpatialLabels`, `SpatialMotion`, `SpatialCamera` | zone grid, label placement, node movement, camera |
| `EventConsole` | bounded event log with an incrementally maintained filtered view |
| `HtmlEscape` | the two HTML escapers |
| `TimeMachine` | historical playback |

A component that changes state step by step appears twice: as a machine on values (`State`, `Event`, `Step` and a
function giving the state after a whole sequence of events) and as a class whose methods update fields in place.
Every method is proved to take exactly the step of the machine; the theorems are about all event sequences of the
machine. Each `await` of the source ends a step, timers are a table of pending handles (so that "at most one" is a
theorem and not a type), and fetch outcomes, clocks, `isEmptyFn` verdicts and scroll positions come in with the events.

Where code and comments of the repository disagree, the model follows the code:

- The comments at Web/app.js:3365-3375 and 3697-3699 announce a bounded exponential reconnect. `startSSE` calls
  `setSystemBadge('connecting')`, which resets the delay whenever the badge is on the page (as it is in the shipped
  page), so every reconnect waits 1000 ms: `WithBadgeEveryDelayIsTheFirst`. The announced backoff is what happens
  without the badge: `WithoutBadgeItBacksOff`.
- The comment at Web/app.js:3697-3699 also rules out a reconnect storm. The banner's `Retry now` (Web/ux_conn.js:44-48)
  is on screen while a reconnect timer is pending, and `startSSE` does not clear that timer. One connection or one
  attempt is what there is exactly as long as the button is pressed only while an EventSource is current:
  `OneConnectionOrOneAttemptIffRetriedInTurn`, with `RetryDoublesUp` as the failing input and `TimersPileUp` for how
  far it goes.
- The header of Web/cc_state.js says a view turns STALE at twice the interval; the code uses `staleFactor`, 2.5 by
  default. The exact condition on the options under which failing polls are never shown as good is
  `HonestExactlyWhenInTime`.
- The comment at Web/app.js:3371-3373 promises a monotonic version guard. It covers `tick` events only; the version never
  falls exactly when no snapshot or default message is older than a version delivered before it:
  `VersionNeverFallsIffNoneLate`, with `SnapshotsMayGoBack` as the failing input.
- The comment at Web/app.js:3753 says that a pause prevents updates. It prevents them for good: the version moves on,
  so what arrives meanwhile is lost, and a `state` event gets through regardless. Pausing is harmless exactly when a
  full snapshot gets through after every loss: `PausesAreHarmlessIffMadeGood`, with `PauseLosesTicks` as the failing
  input.
- The wheel handler reads the cursor back with `screenToWorld` (Web/command_center_spatial.js:72-77), which is half a
  viewport off what `draw` and `worldToScreen` show (lines 65-70, 302-305). So a turn of the wheel keeps the point half
  a viewport right of and below the cursor, and the point under the cursor exactly when the zoom is already at its
  limit: `WheelKeepsThePointUnderTheCursorIffAtLimit`, with `FirstTurnSlipsAway` as the failing input. Picking a node
  by click reads the cursor back the same way: `ClickOnANodeMissesIt`.
- `init` attaches another set of mouse listeners each time (Web/command_center_spatial.js:79-87), and it runs on load
  and whenever the tab is opened (Web/command_center_ui.js:593-597, 624-627). So from the first opening on a turn of the
  wheel zooms several steps and a drag runs ahead of the cursor. They are right exactly with one listener:
  `TurnIsOneStepIffOneListener` and `DragFollowsTheCursorIffOneListener`, with `ReopenedViewDragsTwice` as the failing
  input.
- "Bounded retention" at Web/command_center_console.js:27 bounds the log, not the rows on screen, which keep evicted
  events until the next rebuild: `FollowedViewRefinesRebuild`.

## Model

| member | source | states |
|---|---|---|
| `ReportCurves.Scan` | Web/backtest_report_ui.js:173-187 | the scan yields the present observations with their gap numbers and the exact extremes of x and y |
| `ReportCurves.ScanIsExact` | Web/backtest_report_ui.js:173-187 | every present observation is kept, in source order, and `gap` counts the missing ones before it |
| `ReportCurves.ScanReadsTheSource` | Web/backtest_report_ui.js:177-183 | each point has the value and position its observation gives (a number its own and its index; an object the first of its value and position fields to say anything, a position only if finite), and every observation with a finite value gives a point |
| `ReportCurves.ReadingIsUnique` | Web/backtest_report_ui.js:178-180 | an observation gives at most one value and one position |
| `ReportCurves.BucketsAreEven` | Web/backtest_report_ui.js:198-199 | each bucket starts at its fraction of the interior, rounded down |
| `ReportCurves.BucketsPartition` | Web/backtest_report_ui.js:196-199 | the 249 buckets run from 1 to n - 1 without overlap and hold at least two points each |
| `ReportCurves.EachInteriorPointHasOneBucket` | Web/backtest_report_ui.js:197-199 | every interior point lies in exactly one bucket |
| `ReportCurves.LowIn` | Web/backtest_report_ui.js:200-204 | the low index is the first of the bucket's lowest points |
| `ReportCurves.HighIn` | Web/backtest_report_ui.js:200-204 | the high index is the first of the bucket's highest points |
| `ReportCurves.InteriorKept` | Web/backtest_report_ui.js:197-207 | after b buckets between b and 2b points are kept, strictly in order, all before the next bucket |
| `ReportCurves.SampleIsOrderedAndBounded` | Web/backtest_report_ui.js:191-209 | at most 500 displayed points, strictly increasing, from the first to the last; short series whole |
| `ReportCurves.EnvelopeSurvives` | Web/backtest_report_ui.js:191-209 | each point, dropped or not, lies between two displayed values of its own bucket |
| `ReportCurves.ExtremesAreDisplayed` | Web/backtest_report_ui.js:184-209 | the global minimum and maximum are among the displayed points |
| `ReportCurves.BucketCollapsesIffConstant` | Web/backtest_report_ui.js:205-206 | a bucket shows one point exactly when it is constant |
| `ReportCurves.Downsample` | Web/backtest_report_ui.js:193-209 | the sampling loop displays exactly the kept indices |
| `ReportCurves.NormalizeIsLinear` | Web/backtest_report_ui.js:211-215 | dividing by the scale first changes nothing: 0 at the minimum, 1 at the maximum, strictly increasing between |
| `ReportCurves.PlotIsLinear` | Web/backtest_report_ui.js:217-230 | a point is drawn at its linear position in the 340 x 60 box inside the padding, upwards for larger values |
| `ReportCurves.PlotStaysInsideAndKeepsOrder` | Web/backtest_report_ui.js:217-230 | every point is drawn inside the padded box, order is kept, extremes touch the edges |
| `ReportCurves.BuildSegments` | Web/backtest_report_ui.js:224-241 | segments concatenate to the displayed points, are non-empty, and are cut exactly where the gap number changes |
| `ReportCurves.SegmentsNeverBridge` | Web/backtest_report_ui.js:223-241 | inside a segment no source observation is missing; between adjacent segments one is |
| `ReportCurves.RenderCurve` | Web/backtest_report_ui.js:170-241 | fewer than two finite points draw nothing; otherwise all of the above holds of the drawn curve, each displayed point read off its own observation |
| `ApiClient.AskKeepsCoherent` | Web/api_client.js:53-56 | asking keeps the dedup map equal to the outstanding GETs and hands out an outstanding request of the right key |
| `ApiClient.AnswerKeepsCoherent` | Web/api_client.js:79-82 | an answer removes exactly its own entry |
| `ApiClient.AtMostOneGetPerKey` | Web/api_client.js:48-84 | in every run at most one GET per key is outstanding, and the map is empty iff none is |
| `ApiClient.JoinedCallersShareOneReply` | Web/api_client.js:53-84 | a joining caller issues nothing, waits for the same request, and reads the same final reply |
| `ApiClient.OthersIssueTheirOwn` | Web/api_client.js:54-83 | any other call issues one request of its own |
| `ApiClient.KeyIsUnderTheCallersControl` | Web/api_client.js:53-54 | an explicit key is the key, and no verb means GET |
| `ApiClient.JoinsOnlyItsOwnUrl` | Web/api_client.js:53-55 | without explicit keys a GET joins an outstanding one iff the URLs are equal |
| `ApiClient.AnswerTellsTheCaller` | Web/api_client.js:57-77 | callers read status and body of a 2xx answer as a success, any other status as a failure, status 0 for none |
| `ApiClient.RunsExtend` | Web/api_client.js:48-84 | replies are final and no request is forgotten |
| `ApiClient.StreakIsTheHistory` | Web/api_client.js:38-45 | the failure streak is the number of missing and 5xx answers since the last 2xx, other refusals ignored |
| `ApiClient.ApiClient.Send` | Web/api_client.js:48-84 | `request` takes the asking step |
| `ApiClient.ApiClient.Complete` | Web/api_client.js:57-81 | the end of a fetch takes the answering step |
| `PollerLiveness.ScheduleKeepsTimers` | Web/cc_state.js:59-65 | scheduling a running record leaves it a pending timer of its own and every other record the one it had |
| `PollerLiveness.ScheduleKeepsSound` | Web/cc_state.js:59-65 | a running record that nothing would wake is in order again, with the whole invariant, once it is scheduled |
| `PollerLiveness.LaunchKeepsFlights` | Web/cc_state.js:74-79 | a tick that fetches leaves a flight behind, and every flight waits for a GET of its own record's URL |
| `PollerLiveness.LaunchKeepsSound` | Web/cc_state.js:74-79 | and with it the whole invariant holds of a record that nothing else would wake |
| `PollerLiveness.ForgetKeepsSound` | Web/cc_state.js:139-145 | untracking keeps every part of the invariant |
| `PollerLiveness.StepKeepsSound` | Web/cc_state.js:59-145 | every event in any order keeps the invariant |
| `PollerLiveness.NeverDiesNeverDoubles` | Web/cc_state.js:59-145 | at most one pending timer per record, none once untracked, always a timer or a flight while tracked, one running record per key, LOADING only with a flight |
| `PollerLiveness.UntrackedForever` | Web/cc_state.js:68-68 | an untracked record stays untracked for the rest of the run |
| `PollerSharing.RunsAreLater` | Web/cc_state.js:67-107 | over any continuation replies are final, no request is forgotten, and a flight lands but never changes or returns |
| `PollerSharing.SharedPollsDigestOneReply` | Web/cc_state.js:78-106 | two polls joined to one request digest the same reply, whenever and in whatever order they settle |
| `PollerLiveness.PollsShareOneRequest` | Web/cc_state.js:79-79 | overlapping polls and refreshes have one network GET per key, and waiting polls of a URL wait for the same one |
| `PollerSharing.WaitingPollsShareIffSameUrl` | Web/cc_state.js:79-79 | in every run two waiting polls wait for the same request iff their URLs are the same |
| `PollerSharing.OtherCallersShareGetsToo` | Web/api_client.js:53-83 | other callers share an outstanding GET of their key and otherwise get a request of their own |
| `PollerHistory.DelayDoublesUpToTheCap` | Web/cc_state.js:61-63 | the delay is the interval, and with every failure twice the one before, up to the cap |
| `PollerHistory.CapIsReachedWhenDoublingReachesIt` | Web/cc_state.js:61-63 | the cap is in force exactly from the first streak whose doubled interval reaches it |
| `PollerHistory.DefaultsBackOff` | Web/cc_state.js:25-30 | by default 15 s, 30 s, and 60 s from the second failure on |
| `PollerHistory.RecordsAreHistory` | Web/cc_state.js:78-101 | in every run streak, last success, emptiness and data of a record are those of its polls and refreshes |
| `PollerHistory.NextPollFollowsTheHistory` | Web/cc_state.js:59-65 | in every run a poll that ends sets the next to the interval times two to the failures in a row, capped, or to the interval |
| `PollerHistory.TrackingIsHistory` | Web/cc_state.js:111-145 | in every run records have the key, URL and options they were tracked with, and run exactly while their key leads to them |
| `PollerHistory.PageIsHistory` | Web/cc_state.js:69-69 | only changes of visibility hide or show the page |
| `PollerHistory.PollsGoOutUnlessHidden` | Web/cc_state.js:67-79 | in every run tracking, refreshing and a timer send a poll out at once, waiting for a GET of the record's URL; on a hidden page nothing goes out and the poll is put off |
| `PollerHistory.PhaseIsHistory` | Web/cc_state.js:36-43 | in every run the phase is that of the history: LOADING first, then ERROR, STALE by age, EMPTY or READY |
| `PollerLiveness.DelayIsMonotoneIffCapped` | Web/cc_state.js:61-63 | the delay stays in [interval, cap] and never shrinks with failures, iff interval <= cap |
| `PollerLiveness.DoubledAtLeast` | Web/cc_state.js:61-63 | after any failure the delay is at least min(2 * interval, cap), with equality after the first |
| `HonestStaleness.StepKeepsTimed` | Web/cc_state.js:59-107 | one thing at a time is under way for an undisturbed record, never earlier than its last success and streak allow |
| `HonestStaleness.StreakCountsFailures` | Web/cc_state.js:82-96 | the error streak is the number of polls failed since the last success, by the history |
| `HonestStaleness.StreakSetsTheNextPoll` | Web/cc_state.js:59-65 | in an undisturbed run that count is the streak by which the next poll is set |
| `HonestStaleness.InTimeIsHonest` | Web/cc_state.js:36-43 | if interval * staleFactor < interval + min(2 * interval, cap), a settled record with two failed polls is STALE, or ERROR if it never succeeded |
| `HonestStaleness.FastestTwoFailures` | Web/cc_state.js:59-107 | a run that reaches two failures at exactly that age |
| `HonestStaleness.HonestExactlyWhenInTime` | Web/cc_state.js:25-43 | honest staleness holds for options iff that inequality holds; with 2 * interval <= cap that is staleFactor < 3, true of the defaults |
| `HonestStaleness.SuccessShowsAtOnce` | Web/cc_state.js:81-98 | a success shows as READY or EMPTY as isEmptyFn says; a throwing isEmptyFn leaves it shown but counted as a failure |
| `ControlCenterState.Resource.Phase` | Web/cc_state.js:36-43 | `computeState` |
| `ControlCenterState.Resource.Absorb` | Web/cc_state.js:78-101 | the record after its poll has been answered |
| `ControlCenterState.Engine.Schedule` | Web/cc_state.js:59-65 | takes the machine's scheduling step in place, touching one record |
| `ControlCenterState.Engine.Tick` | Web/cc_state.js:67-79 | takes the machine's tick step in place |
| `ControlCenterState.Engine.Track` | Web/cc_state.js:111-136 | takes the tracking step; a tracked key returns its existing record |
| `ControlCenterState.Engine.Untrack` | Web/cc_state.js:139-145 | takes the untracking step |
| `ControlCenterState.Engine.Refresh` | Web/cc_state.js:130-130 | takes the refresh step, also through a handle that outlived its record |
| `ControlCenterState.Engine.Fire` | Web/cc_state.js:64-64 | takes the timer step |
| `ControlCenterState.Engine.Settle` | Web/cc_state.js:78-106 | takes the settling step |
| `LiveFeed.EnrichOnlyFillsGaps` | Web/app.js:3734-3750 | enrichment touches four fields only and overwrites nothing that says something |
| `LiveFeed.EnrichFillsTheGaps` | Web/app.js:3734-3750 | and fills them whenever strategy and model can |
| `LiveFeed.DeliveredTickIsShown` | Web/app.js:3734-3781 | after a delivered tick the view has each flat field from `strategy` or `model` where the tick has none, each probability by its own lower- or upper-case name, `available` as the model says, all other fields as they came, and the tick's version |
| `LiveFeed.TicksTrackTheMaximum` | Web/app.js:3657-3667 | `lastSnapshotVersion` is the maximum of the snapshot's version and all tick versions so far |
| `LiveFeed.GuardFindsTheNews` | Web/app.js:3659-3665 | the guard drops exactly the ticks that are not strict new maxima of the whole history |
| `LiveFeed.MergeMeetsSpec` | Web/app.js:3641-3679 | unpaused, the view is the snapshot overlaid by exactly those ticks, in delivery order |
| `LiveFeed.FieldComesFromLastWriter` | Web/app.js:3767-3781 | each field of the view is that of the last such tick that has it, or else the snapshot's |
| `LiveFeed.LateTickIsNoOp` | Web/app.js:3655-3665 | a duplicate, or a tick no newer than an earlier one or than the snapshot, changes nothing anywhere in the stream |
| `LiveFeed.StateEventIgnoresPause` | Web/app.js:3605-3637 | a `state` event replaces the view even while paused, a REST snapshot does not |
| `LiveFeedRuns.TicksAreARun` | Web/app.js:3641-3679 | the tick-only streams of the rows above are runs of the whole machine, so what they state holds of those runs |
| `LiveFeedRuns.VersionAndPause` | Web/app.js:3585-3667 | in every run the version is the last unguarded one, or the largest tick version since if that is more; the pause flag is the parity of the presses |
| `LiveFeedRuns.VersionNeverFallsIffNoneLate` | Web/app.js:3371-3373 | over a whole run the version never falls iff no snapshot or default message is older than a version that was there before it |
| `LiveFeedRuns.SnapshotsMayGoBack` | Web/app.js:937-937 | a run in which a REST snapshot takes the version back and a tick's duplicate would get in again |
| `LiveFeedRuns.StaleTickIsNoOp` | Web/app.js:3655-3665 | a tick no newer than the version in force changes nothing, whatever events come before and after it |
| `LiveFeedRuns.ViewOfEveryRun` | Web/app.js:3575-3781 | in every run the view is the last full replacement, overlaid in order by the messages and news delivered unpaused since |
| `LiveFeedRuns.PausesAreHarmlessIffMadeGood` | Web/app.js:3753-3753 | pausing leaves the same view as never pausing, whatever the payloads say, iff every payload it lost was followed by a full snapshot that got through |
| `LiveFeedRuns.PauseLosesTicks` | Web/app.js:3667-3753 | a run in which a tick during a pause moves the version on and is neither shown nor let in a second time |
| `LiveFeed.LiveUi.HandleIncomingLiveTick` | Web/app.js:3733-3781 | takes the merge step |
| `LiveFeed.LiveUi.OnTickEvent` | Web/app.js:3641-3679 | takes the guarded tick step |
| `LiveFeed.LiveUi.OnStateEvent` | Web/app.js:3605-3637 | takes the `state` step |
| `LiveFeed.LiveUi.OnMessage` | Web/app.js:3575-3601 | takes the default message step |
| `LiveFeed.LiveUi.OnSystemSnapshot` | Web/app.js:933-945 | takes the REST snapshot step |
| `SseReconnect.StepKeeps` | Web/app.js:3517-3725 | every event, the retry button included, keeps what the next row says |
| `SseReconnect.NeverGivesUpNorDoubles` | Web/app.js:3517-3725 | in every run at most one EventSource is open, never neither one nor a pending attempt, at most one stale check, delays within 1000..15000 ms |
| `SseReconnect.TheNewestIsCurrent` | Web/app.js:3517-3551 | in every run the current EventSource is the newest one created, and the running stale check that of the last opening |
| `SseReconnect.BannerIsTheLastWord` | Web/ux_conn.js:99-125 | in every run the banner is shown iff the last word on the connection is that it is lost or stale |
| `SseReconnect.TimersAreAccountedFor` | Web/ux_conn.js:44-48 | in every run connection and pending timers number one, plus the retries pressed while nothing was connected, less the timers that fired while something was |
| `SseReconnect.OneConnectionOrOneAttemptIffRetriedInTurn` | Web/app.js:3517-3537 | at every moment of a run there is exactly one of a current EventSource and one pending timer iff every retry came while an EventSource was current |
| `SseReconnect.RetryDoublesUp` | Web/ux_conn.js:44-48 | a run that retries after a failure and ends, after a second failure, with two pending timers, badge or not |
| `SseReconnect.TimersPileUp` | Web/ux_conn.js:44-48 | n failures, each retried at once, leave n timers pending beside the connection |
| `SseReconnect.WithoutBadgeItBacksOff` | Web/app.js:3713-3715 | without the badge each timer waits 1000 ms doubled for every failure in a row before its own, capped at 15000, and while nothing is connected the newest one is pending |
| `SseReconnect.WithBadgeEveryDelayIsTheFirst` | Web/app.js:3482-3535 | with the badge every scheduled delay is 1000 ms |
| `SseReconnect.LiveStream.StartSSE` | Web/app.js:3517-3537 | takes the starting step |
| `SseReconnect.LiveStream.OnOpen` | Web/app.js:3541-3551 | takes the opening step |
| `SseReconnect.LiveStream.OnError` | Web/app.js:3695-3725 | takes the failing step |
| `SseReconnect.LiveStream.OnRetry` | Web/ux_conn.js:45-48 | takes the retry step |
| `SseReconnect.LiveStream.OnStaleCheck` | Web/app.js:3431-3455 | takes the stale-check step: a stale stream shows the banner |
| `SseReconnect.LiveStream.OnReconnectTimer` | Web/app.js:3717-3721 | takes the reconnect step |
| `AgentMode.AtMostFiveTracesEachOnce` | Web/app.js:12069-12085 | in every session at most five traces are sent, no incident twice, and unanswered means TRACING |
| `AgentMode.OutcomesAreFinal` | Web/app.js:12080-12102 | an incident goes from TRACING to one of FAILED, ANALYZING, TASK_READY and then never changes |
| `AgentMode.EveryIncidentStartsTracing` | Web/app.js:12080-12084 | every incident ever processed was untouched at one moment of the session and TRACING at the next |
| `AgentMode.AutoTraceIsWorkConserving` | Web/app.js:12069-12078 | with distinct ids a pass spends the budget or leaves no eligible incident |
| `AgentMode.NoWantedIncidentIsLeft` | Web/app.js:12056-12078 | with distinct ids a pass traces every open, severe, untraced incident unless the five traces are used up |
| `AgentMode.PassGoesDownTheList` | Web/app.js:12075-12077 | an incident that is wanted is traced before any that comes after it |
| `AgentMode.RepliesDecide` | Web/app.js:12087-12100 | a refusal makes it FAILED, a missing link ANALYZING, a whole lineage TASK_READY; no other incident changes |
| `AgentMode.ModeIsHistory` | Web/app.js:12113-12114 | the mode is on after an odd number of toggles |
| `AgentMode.PassesAreMadeInAgentModeOnly` | Web/app.js:11915-12122 | passes are made by loads while the mode is on and by switching it on with a list loaded, and only then |
| `AgentMode.LoadsShowKnownStates` | Web/app.js:11902-11906 | a load shows known states and changes nothing else |
| `AgentMode.PillsStayCurrent` | Web/app.js:12105-12111 | in every session the first incident of each id shows the state that is known of it |
| `AgentMode.OnlyEligibleIncidentsAreTraced` | Web/app.js:12056-12066 | only open, severe incidents without an agent state are traced |
| `AgentMode.PillIsWrittenOnce` | Web/app.js:12105-12111 | a refreshed pill changes the first incident of its id and nothing else |
| `AgentMode.IncidentCenter.AgentTraceIncident` | Web/app.js:12080-12086 | takes the tracing step with its dedup guard |
| `AgentMode.IncidentCenter.MaybeAutoTraceEligible` | Web/app.js:12069-12078 | takes one automatic pass |
| `AgentMode.IncidentCenter.ToggleAgentMode` | Web/app.js:12113-12126 | takes the toggle step |
| `AgentMode.IncidentCenter.Loaded` | Web/app.js:11900-11915 | takes the load step |
| `AgentMode.IncidentCenter.TraceAnswered` | Web/app.js:12087-12101 | takes the answer step |
| `SpatialLayout.Place` | Web/command_center_spatial.js:156-186 | counting and placing pass agree: every node gets the cell of its index among its zone's nodes |
| `SpatialLayout.RankIsLastPosition` | Web/command_center_spatial.js:152-171 | a zone's band is its last position in the order, 0 if unlisted |
| `SpatialLayout.CeilSqrt` | Web/command_center_spatial.js:178-178 | the least integer whose square reaches n |
| `SpatialLayout.Rem30IsRemainder` | Web/command_center_spatial.js:182-182 | the shift is x less whole thirties, with the sign of x, below 30 in size |
| `SpatialLayout.GridIsCentred` | Web/command_center_spatial.js:179-182 | mirrored columns cancel up to the nodes' own shifts |
| `SpatialLayout.GridIsFilledRowByRow` | Web/command_center_spatial.js:178-186 | the first node stands leftmost, 35 below its band's top; the next 90 further right, or 22 lower at the left when the row is full |
| `SpatialLayout.OwnShift` | Web/command_center_spatial.js:182-182 | a node's own x shifts it sideways by its remainder of thirty |
| `SpatialLayout.ColumnsAreTheRoot` | Web/command_center_spatial.js:178-178 | the columns are the square root rounded up, between 1 and 14 |
| `SpatialLayout.ZoneIsTheNodesOwn` | Web/command_center_spatial.js:170-170 | a node without a zone counts as DISCOVERED |
| `SpatialLayout.CellsApart` | Web/command_center_spatial.js:178-186 | different columns differ by more than 30, the same column means different rows |
| `SpatialLayout.NodesOfAZoneAreApart` | Web/command_center_spatial.js:156-186 | two nodes of one zone are at least 22 apart in the maximum norm, for any payload |
| `SpatialLayout.AllNodesAreApart` | Web/command_center_spatial.js:152-186 | with at most 30 nodes a zone and zones in bands of their own, any two nodes of the payload are at least 22 apart |
| `SpatialLayout.ListedZonesHaveOwnBands` | Web/command_center_spatial.js:152-171 | zones that are all listed are in bands of their own |
| `SpatialLayout.UnlistedZonesMayClump` | Web/command_center_spatial.js:171-171 | a node of an unlisted zone may be placed right on a node of the first listed zone |
| `SpatialLayout.BandHoldsThirty` | Web/command_center_spatial.js:154-186 | all nodes of a zone stay in its band iff there are at most 30 |
| `SpatialLayout.GridFitsItsWidthUpTo196` | Web/command_center_spatial.js:178-180 | the grid is no taller than wide iff it has at most 196 nodes |
| `SpatialLabels.DrawLabels` | Web/command_center_spatial.js:539-561 | a candidate is drawn iff it is selected or no earlier drawn label collides with it |
| `SpatialLabels.DrawnLabelsDoNotOverlap` | Web/command_center_spatial.js:550-560 | drawn labels are pairwise free of overlap unless one is selected; below the threshold only the selected one is drawn |
| `SpatialLabels.SelectedAndFreeLabelsAreDrawn` | Web/command_center_spatial.js:539-560 | the selected label is always drawn, and from zoom 1.35 on every label free of those drawn before |
| `SpatialLabels.SuppressedLabelsOverlapADrawnOne` | Web/command_center_spatial.js:550-560 | every suppressed label overlaps one drawn before it |
| `SpatialLabels.GreedyIsUnique` | Web/command_center_spatial.js:550-560 | no other set of labels has these properties |
| `SpatialLabels.CollidesIffBoxesOverlap` | Web/command_center_spatial.js:552-552 | the collision test holds iff the boxes share an interior point |
| `SpatialMotion.TelemetryNeverMovesANode` | Web/command_center_spatial.js:188-240 | runs that differ in evaluations only have the same targets, drawn positions, animations and trails throughout |
| `SpatialMotion.AnimationsEndAtTargets` | Web/command_center_spatial.js:206-223 | after every payload the animation of an id ends at the current target of the last node with it, and new ones set out only on a zone change |
| `SpatialMotion.EachIsLastIffIdsDistinct` | Web/command_center_spatial.js:206-223 | which covers every node of the payload iff the ids are distinct |
| `SpatialMotion.PayloadTreatsEveryNode` | Web/command_center_spatial.js:206-236 | a change of zone sends the node off now from where it stood and lengthens its trail; else an animation is turned to the target, anew if that changed; a new evaluation flashes it |
| `SpatialMotion.PayloadTouchesNoOtherId` | Web/command_center_spatial.js:206-236 | ids that are not in the payload keep animation, trail and flash |
| `SpatialMotion.PayloadShowsItsNodes` | Web/command_center_spatial.js:188-240 | the nodes afterwards are the payload's, in order, with zone, target and evaluation |
| `SpatialMotion.PayloadAfterAnyRun` | Web/command_center_spatial.js:144-241 | after any run a payload with distinct ids treats every node so and displays the nodes at their targets |
| `SpatialMotion.FrameAfterAnyRun` | Web/command_center_spatial.js:391-404 | after any run a frame draws every node by the animations there are and ends exactly the flashes that have expired |
| `SpatialMotion.PreviousIsTheLast` | Web/command_center_spatial.js:163-164 | the previous node of an id is the last displayed one that has it |
| `SpatialMotion.DrawnByTheEasing` | Web/command_center_spatial.js:392-404 | a node is drawn at the start of its animation, eased along it, and at its target 900 ms later |
| `SpatialMotion.FrameShowsEveryNode` | Web/command_center_spatial.js:391-404 | a frame draws every node by the animations there were and drops those that are over |
| `SpatialMotion.TrailsStayShort` | Web/command_center_spatial.js:213-215 | no trail exceeds twelve points in any run |
| `SpatialMotion.DrawnBetweenTheEnds` | Web/command_center_spatial.js:393-404 | a moving node is drawn at its target or between the ends of its animation, whichever way it moves |
| `SpatialMotion.SpatialView.PlaceOne` | Web/command_center_spatial.js:206-236 | takes the placing step of one node |
| `SpatialMotion.SpatialView.UpdateFromPayload` | Web/command_center_spatial.js:144-241 | takes the payload step |
| `SpatialMotion.SpatialView.DrawFrame` | Web/command_center_spatial.js:391-404 | takes the frame step |
| `SpatialCamera.EaseIsMonotone` | Web/command_center_spatial.js:114-116 | easing is monotone from 0 to 1 |
| `SpatialCamera.EaseIsCubic` | Web/command_center_spatial.js:114-116 | the easing is half the cube on the first half, turned about the middle on the second |
| `SpatialCamera.ZoomStaysInRange` | Web/command_center_spatial.js:101-131 | over every run without lagging frames the zoom stays in [0.15, 4] |
| `SpatialCamera.ZoomIsSafeIffFramesNeverLag` | Web/command_center_spatial.js:118-131 | runs whose frames may be dated up to d ms before their animation's start keep the zoom in range iff d <= 0 |
| `SpatialCamera.LaggingRunLeavesRange` | Web/command_center_spatial.js:101-131 | for every lag above 0 a run of three events from the home view that ends out of range |
| `SpatialCamera.DrawnAtInvertsTheDrawing` | Web/command_center_spatial.js:65-77 | drawing inverts `screenToWorld` taken half a viewport up and to the left |
| `SpatialCamera.WheelZoomsAboutAPointOffTheCursor` | Web/command_center_spatial.js:244-256 | however many listeners it reaches, a turn of the wheel leaves a drawn point where it is iff that is half a viewport beyond the cursor or the zoom is at its limit |
| `SpatialCamera.WheelKeepsWhatItReads` | Web/command_center_spatial.js:250-255 | what `screenToWorld` reads at the cursor is kept, and is what is drawn half a viewport beyond |
| `SpatialCamera.WheelKeepsThePointUnderTheCursorIffAtLimit` | Web/command_center_spatial.js:244-256 | the point drawn under the cursor stays there iff the zoom is already at the limit in that direction |
| `SpatialCamera.FirstTurnSlipsAway` | Web/command_center_spatial.js:244-256 | after one `init` the first turn over a corner of an 800 x 500 canvas moves the point there by 48 and 30 pixels, after two by 101.76 and 63.6 |
| `SpatialCamera.TurnsCompound` | Web/command_center_spatial.js:244-256 | a turn that reaches k listeners zooms by the k-th power of 1.12, as far as the limits let it |
| `SpatialCamera.TurnIsOneStepIffOneListener` | Web/command_center_spatial.js:79-87 | every turn is one step of 12%, whatever the view, iff there is one listener |
| `SpatialCamera.ClickReachesOffTheCursor` | Web/command_center_spatial.js:276-286 | a click reaches exactly the nodes drawn within 20 pixels of the place half a viewport beyond it |
| `SpatialCamera.ClickOnANodeMissesIt` | Web/command_center_spatial.js:276-286 | so a click right on a drawn node reaches it iff half the canvas diagonal is under 20 pixels, never at a width of 40 or more |
| `SpatialCamera.OneListenerFollowsTheCursor` | Web/command_center_spatial.js:264-273 | one listener that drags moves every drawn point by exactly the cursor's motion |
| `SpatialCamera.ListenersAreHistory` | Web/command_center_spatial.js:258-274 | there is a listener for each `init`; those present at the last press are dragging until the release, and agree on where the mouse was |
| `SpatialCamera.DragIsMultiplied` | Web/command_center_spatial.js:258-274 | after any run a motion of the mouse moves every drawn point by that motion times the number of dragging listeners |
| `SpatialCamera.HandsOnStopTheAnimation` | Web/command_center_spatial.js:255-271 | after any run a turn of the wheel stops an animation if there is a listener, a motion if one is dragging; stopped, the camera stays |
| `SpatialCamera.DragFollowsTheCursorIffOneListener` | Web/command_center_spatial.js:79-87 | after any run the drawing goes with the cursor, wherever that goes, iff exactly one listener is dragging |
| `SpatialCamera.ReopenedViewDragsTwice` | Web/command_center_ui.js:593-627 | a run of two `init`s, a press and a motion that moves the drawing twice as far |
| `SpatialCamera.AnimationArrives` | Web/command_center_spatial.js:118-126 | an animated move ends where the direct one would |
| `SpatialCamera.FrameFollowsTheEasing` | Web/command_center_spatial.js:118-131 | during its 420 ms an animation has covered the same eased share of x, y and zoom |
| `SpatialCamera.SetNowOrByAnimation` | Web/command_center_spatial.js:101-112 | a set camera is there at once, or sets out from where it is; the zoom is clamped to [0.15, 4] |
| `SpatialCamera.CameraControl.SetTo` | Web/command_center_spatial.js:101-112 | takes the set step |
| `SpatialCamera.CameraControl.StepCameraAnim` | Web/command_center_spatial.js:118-131 | takes the frame step |
| `SpatialCamera.CameraControl.Wheel` | Web/command_center_spatial.js:244-256 | takes the wheel step of one listener |
| `SpatialCamera.CameraControl.DragBy` | Web/command_center_spatial.js:264-273 | takes the drag step of one listener |
| `SpatialCamera.CameraControl.AttachControls` | Web/command_center_spatial.js:243-274 | adds one more listener |
| `SpatialCamera.CameraControl.DispatchWheel` | Web/command_center_spatial.js:244-256 | a turn of the wheel runs every listener's handler |
| `SpatialCamera.CameraControl.DispatchPress` | Web/command_center_spatial.js:259-262 | a press makes every listener drag from that place |
| `SpatialCamera.CameraControl.DispatchMove` | Web/command_center_spatial.js:264-273 | a motion runs every dragging listener's handler |
| `SpatialCamera.CameraControl.DispatchRelease` | Web/command_center_spatial.js:263-263 | a release ends every drag |
| `EventConsole.EventsAreTheNewest` | Web/command_center_console.js:236-241 | the log is the newest at most 5000 accepted events since the last clear, in order |
| `EventConsole.FollowedViewRefinesRebuild` | Web/command_center_console.js:236-264 | following the tail, the rows are the matching evicted events and then the rebuild; equal iff no matching event was evicted |
| `EventConsole.NoMatchingRowIsLost` | Web/command_center_console.js:232-246 | scrolled away or not, the rows hold every matching event since the last rebuild as often as it came |
| `EventConsole.LooserFiltersShowMore` | Web/command_center_console.js:182-192 | releasing a filter control shows at least as much, all released shows everything |
| `EventConsole.RowsAreWhatNoControlHides` | Web/command_center_console.js:146-192 | in every run an event has a row iff it is among those the rows were made from and no control hides it: severity, family, type, strategy, generation, or a time outside the bounds |
| `EventConsole.ClassTable` | Web/command_center_console.js:43-95 | severity and family of the ten classes |
| `EventConsole.ControlsAreHistory` | Web/command_center_console.js:296-333 | filters, pause, auto-scroll and tail are those of the last controls used |
| `EventConsole.Console.AddEvent` | Web/command_center_console.js:236-246 | takes the adding step |
| `EventConsole.Console.Apply` | Web/command_center_console.js:256-264 | takes the rebuild step |
| `EventConsole.Console.ClearAll` | Web/command_center_console.js:302-306 | takes the clearing step |
| `EventConsole.ReplayShowsTheFrame` | Web/command_center_console.js:434-439 | after a replayed frame the log holds its newest 5000 events and the rows all its matching ones, newest first unless the tail is followed; a paused console is left empty |
| `EventConsole.Console.PushFrame` | Web/command_center_console.js:434-439 | clears the console and adds the frame's events, in place |
| `EventConsole.Console.DetectTailScroll` | Web/command_center_console.js:322-333 | takes the scrolling step |
| `HtmlEscape.ChainIsOnePass` | Web/cc_components.js:61-65 | the five replacements, ampersand first, equal the one-pass map on every string |
| `HtmlEscape.EscapeRoundTrip` | Web/backtest_report_ui.js:5-7 | decoding restores the input of either escaper |
| `HtmlEscape.EscapeIsInjective` | Web/backtest_report_ui.js:5-7 | different inputs stay different under either escaper |
| `HtmlEscape.EntitiesAreThose` | Web/cc_components.js:61-65 | the five entities of both escapers; no value escapes to nothing |
| `HtmlEscape.EscapeIsPiecewise` | Web/backtest_report_ui.js:5-7 | both escape a string piece by piece |
| `HtmlEscape.PlainTextIsUnchanged` | Web/backtest_report_ui.js:5-7 | text without markup and ampersands passes unchanged |
| `HtmlEscape.EscapedIsInert` | Web/backtest_report_ui.js:5-7 | no markup character survives and every ampersand begins an entity |
| `HtmlEscape.AmpersandMustComeFirst` | Web/cc_components.js:63-64 | with the ampersand last the chain is right exactly on strings without markup |
| `TimeMachine.AtMostOneInterval` | Web/command_center_timemachine.js:86-110 | an interval is alive exactly while playing, and only one |
| `TimeMachine.CursorNeverRestsBeyondTheEnd` | Web/command_center_timemachine.js:80-103 | with the slider in range the cursor never rests above the end |
| `TimeMachine.AlwaysAtRestIffSliderInRange` | Web/command_center_timemachine.js:80-103 | throughout a run the bounds are in order and the cursor is not above the end iff slider and bounds deliver such values |
| `TimeMachine.PlayerIsHistory` | Web/command_center_timemachine.js:19-110 | in every run cursor, bounds, speed and playing are those of the history, a speed set while playing included |
| `TimeMachine.PlaysSteadily` | Web/command_center_timemachine.js:92-103 | after k ticks that fit the cursor has moved k steps |
| `TimeMachine.PlaybackTerminates` | Web/command_center_timemachine.js:92-98 | playback stops by itself after exactly floor((max - cursor) / (step * speed)) + 1 ticks, back at the start |
| `TimeMachine.Playback.Toggle` | Web/command_center_timemachine.js:86-110 | takes the toggle step |
| `TimeMachine.Playback.OnInterval` | Web/command_center_timemachine.js:92-98 | takes the interval step |
| `TimeMachine.Playback.ScrubTo` | Web/command_center_timemachine.js:80-84 | takes the scrub step |

## Left out

- Rendering: HTML, SVG and canvas output, CSS classes, toasts, dialogs, clipboard and translations.
- Transport: fetch, headers, request ids, abort signals and the kill timer of a poll; a timeout is one of the ways a request may end unreachable at any time.
- Floating point: all arithmetic is exact, so rounding of coordinates and of `toFixed` is not modelled.
- Listeners: they observe and do not call back into the engine; `error`, `fetchedAt` and `lastErrorAt` are copied out only and are not kept.
- `_reset` of the polling engine is a testing hook with the effect of untracking every key in turn, which the runs include.
- HonestStaleness.InTimeIsHonest: speaks of records that are not refreshed by hand and whose isEmptyFn does not throw, because a refresh polls at once and a throwing check counts a success as a failure.
- SpatialCamera.ZoomStaysInRange: speaks of runs without lagging frames, because with any lag it is false: ZoomIsSafeIffFramesNeverLag.
- Event times and filter times are parsed timestamps, upper-casing is ASCII only, and the substring classification of events is an input: string and date parsing add nothing to the log theorems.
- Incident status and severity are read through a shared model that is not part of this model; an incident carries the two verdicts.
- State versions are integers; JavaScript's comparison of other types is not modelled.
- `flattenCurves`, `computeBottleneck`, fit and focus of the camera, which of the nodes in reach a click selects, flash drawing, chart resync and the texts of the connectivity banner: single-pass code whose properties would only restate it.
- Node ids and incident ids are compared as strings; ids that collide with names on JavaScript's object prototype are not modelled.
