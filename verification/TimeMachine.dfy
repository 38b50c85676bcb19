/** Historical playback (Web/command_center_timemachine.js): a cursor moved by an interval until it passes the end. */
module TimeMachine {
  import opened Common

  /** Times are in milliseconds; `intervals` holds the intervals that are running. */
  datatype Player = Player(
    playing: bool, currentMs: real, minMs: real, maxMs: real, speed: real,
    timer: Option<nat>, intervals: set<nat>, nextInterval: nat)

  const STEP_MS: real := 3600000.0

  function Boot(now: real): Player {
    Player(false, 0.0, 0.0, now, 1.0, None, {}, 0)
  }

  function TogglePlay(p: Player): Player {
    if !p.playing then
      p.(playing := true, timer := Some(p.nextInterval), intervals := p.intervals + {p.nextInterval},
         nextInterval := p.nextInterval + 1)
    else
      p.(playing := false, intervals := if p.timer.Some? then p.intervals - {p.timer.value} else p.intervals)
  }

  /** One run of the interval's callback. */
  function Tick(p: Player): Player {
    var moved := p.(currentMs := p.currentMs + STEP_MS * p.speed);
    if moved.currentMs > moved.maxMs then TogglePlay(moved.(currentMs := moved.minMs)) else moved
  }

  datatype Event =
    | Toggle
    | Interval(id: nat)
    | Scrub(ms: real)
    | SetSpeed(speed: real)
    | Bounds(earliest: real, latest: real)

  predicate Enabled(p: Player, e: Event) {
    e.Interval? ==> e.id in p.intervals
  }

  function Step(p: Player, e: Event): Player
    requires Enabled(p, e)
  {
    match e
    case Toggle => TogglePlay(p)
    case Interval(_) => Tick(p)
    case Scrub(ms) => p.(currentMs := ms)
    case SetSpeed(s) => p.(speed := s)
    case Bounds(lo, hi) => p.(minMs := lo, maxMs := hi, currentMs := lo)
  }

  ghost function After(now: real, es: seq<Event>): Option<Player> {
    if es == [] then Some(Boot(now))
    else
      var before := After(now, es[..|es| - 1]);
      if before.Some? && Enabled(before.value, es[|es| - 1]) then Some(Step(before.value, es[|es| - 1])) else None
  }

  // ---------------------------------------------------------------- one interval

  ghost predicate OneInterval(p: Player) {
    if p.playing then p.timer.Some? && p.intervals == {p.timer.value} else p.intervals == {}
  }

  /** An interval is alive exactly while playing, and it is the only one. */
  lemma {:induction false} AtMostOneInterval(now: real, es: seq<Event>)
    requires After(now, es).Some?
    ensures OneInterval(After(now, es).value)
    ensures |After(now, es).value.intervals| == if After(now, es).value.playing then 1 else 0
  {
    if es != [] { AtMostOneInterval(now, es[..|es| - 1]); }
  }

  /** The slider keeps to its range, and the bounds are in order. */
  ghost predicate SliderInRange(now: real, es: seq<Event>)
    requires After(now, es).Some?
  {
    es == [] ||
    (SliderInRange(now, es[..|es| - 1]) &&
     match es[|es| - 1]
     case Scrub(ms) => ms <= After(now, es[..|es| - 1]).value.maxMs
     case Bounds(lo, hi) => lo <= hi
     case _ => true)
  }

  /** Whatever the speeds and toggles, the cursor never rests above the end. */
  lemma {:induction false} CursorNeverRestsBeyondTheEnd(now: real, es: seq<Event>)
    requires now >= 0.0 && After(now, es).Some? && SliderInRange(now, es)
    ensures var p := After(now, es).value; p.minMs <= p.maxMs && p.currentMs <= p.maxMs
  {
    if es != [] { CursorNeverRestsBeyondTheEnd(now, es[..|es| - 1]); }
  }

  predicate AtRest(p: Player) {
    p.minMs <= p.maxMs && p.currentMs <= p.maxMs
  }

  /** At every moment of the run the bounds are in order and the cursor is not above the end. */
  ghost predicate AlwaysAtRest(now: real, es: seq<Event>)
    requires After(now, es).Some?
  {
    AtRest(After(now, es).value) && (es == [] || AlwaysAtRest(now, es[..|es| - 1]))
  }

  /** That is so throughout a run exactly when the slider and the bounds it is given behave. */
  lemma {:induction false} AlwaysAtRestIffSliderInRange(now: real, es: seq<Event>)
    requires now >= 0.0 && After(now, es).Some?
    ensures AlwaysAtRest(now, es) <==> SliderInRange(now, es)
  {
    if es != [] { AlwaysAtRestIffSliderInRange(now, es[..|es| - 1]); }
    if SliderInRange(now, es) { CursorNeverRestsBeyondTheEnd(now, es); }
  }

  /** The settings of a player by the history: speed as last set, bounds as last fetched, playing on an odd toggle. */
  datatype Settings = Settings(playing: bool, minMs: real, maxMs: real, speed: real, currentMs: real)

  ghost function History(now: real, es: seq<Event>): Settings {
    if es == [] then Settings(false, 0.0, now, 1.0, 0.0)
    else
      var h := History(now, es[..|es| - 1]);
      match es[|es| - 1]
      case Toggle => h.(playing := !h.playing)
      case Scrub(ms) => h.(currentMs := ms)
      case SetSpeed(speed) => h.(speed := speed)
      case Bounds(lo, hi) => h.(minMs := lo, maxMs := hi, currentMs := lo)
      case Interval(_) =>
        // an hour on, times the speed in force; beyond the end, back to the start and no longer playing
        if h.currentMs + 3600000.0 * h.speed > h.maxMs then h.(currentMs := h.minMs, playing := false)
        else h.(currentMs := h.currentMs + 3600000.0 * h.speed)
  }

  /** Every run: the player is what its history says, a speed set while playing included. */
  lemma {:induction false} PlayerIsHistory(now: real, es: seq<Event>)
    requires After(now, es).Some?
    ensures var p := After(now, es).value;
            History(now, es) == Settings(p.playing, p.minMs, p.maxMs, p.speed, p.currentMs)
  {
    if es != [] {
      PlayerIsHistory(now, es[..|es| - 1]);
      AtMostOneInterval(now, es[..|es| - 1]);
    }
  }

  // ---------------------------------------------------------------- playback ends by itself

  ghost function Ticks(p: Player, k: nat): Player {
    if k == 0 then p else Tick(Ticks(p, k - 1))
  }

  /** How many cursor steps of length d fit into a span. */
  function StepsThatFit(span: real, d: real): int
    requires d > 0.0
  {
    (span / d).Floor
  }

  lemma Scaled(a: real, b: real, d: real)
    requires d > 0.0
    ensures a <= b <==> a * d <= b * d
  { }

  lemma FloorBounds(span: real, d: real, k: int)
    requires d > 0.0 && span >= 0.0
    ensures k <= StepsThatFit(span, d) <==> k as real * d <= span
    ensures StepsThatFit(span, d) >= 0
  {
    var q := span / d;
    assert q * d == span;
    Scaled(k as real, q, d);
    Scaled(0.0, q, d);
  }

  lemma NextStep(from: real, k: nat, d: real)
    requires k > 0
    ensures (from + (k - 1) as real * d) + d == from + k as real * d
  {
    assert (k - 1) as real == k as real - 1.0;
  }

  lemma {:induction false} PlaysSteadily(p: Player, k: nat, d: real)
    requires p.playing && d > 0.0 && d == 3600000.0 * p.speed && p.currentMs <= p.maxMs
    requires k <= StepsThatFit(p.maxMs - p.currentMs, d)
    ensures Ticks(p, k) == p.(currentMs := p.currentMs + k as real * d) && p.currentMs + k as real * d <= p.maxMs
  {
    hide StepsThatFit, Tick;
    FloorBounds(p.maxMs - p.currentMs, d, k);
    if k > 0 {
      PlaysSteadily(p, k - 1, d);
      MovesOn(Ticks(p, k - 1), d);
      NextStep(p.currentMs, k, d);
    }
  }

  lemma MovesOn(p: Player, d: real)
    requires p.playing && d == STEP_MS * p.speed
    ensures p.currentMs + d <= p.maxMs ==> Tick(p) == p.(currentMs := p.currentMs + d)
    ensures p.currentMs + d > p.maxMs ==> Tick(p) == TogglePlay(p.(currentMs := p.minMs))
  { }

  /** From a cursor within range at a steady positive speed, playback stops by itself after exactly floor + 1 ticks. */
  lemma PlaybackTerminates(p: Player, d: real)
    requires OneInterval(p) && p.playing && d > 0.0 && d == 3600000.0 * p.speed && p.currentMs <= p.maxMs
    ensures var n := StepsThatFit(p.maxMs - p.currentMs, d);
      && n >= 0
      && (forall k: nat :: k <= n ==> Ticks(p, k).playing && Ticks(p, k).currentMs <= p.maxMs)
      && var q := Ticks(p, n + 1); !q.playing && q.intervals == {} && q.currentMs == p.minMs
  {
    hide StepsThatFit, Tick;
    var n := StepsThatFit(p.maxMs - p.currentMs, d);
    FloorBounds(p.maxMs - p.currentMs, d, n + 1);
    forall k: nat | k <= n ensures Ticks(p, k).playing && Ticks(p, k).currentMs <= p.maxMs {
      PlaysSteadily(p, k, d);
    }
    PlaysSteadily(p, n, d);
    NextStep(p.currentMs, n + 1, d);
    MovesOn(Ticks(p, n), d);
  }

  // ---------------------------------------------------------------- the module's variables

  class Playback {
    var playing: bool
    var currentMs: real
    var minMs: real
    var maxMs: real
    var speedMultiplier: real
    var timer: Option<nat>
    var intervals: set<nat>
    var nextInterval: nat

    function View(): Player
      reads this
    {
      Player(playing, currentMs, minMs, maxMs, speedMultiplier, timer, intervals, nextInterval)
    }

    constructor (now: real)
      ensures View() == Boot(now)
    {
      playing, currentMs, minMs, maxMs, speedMultiplier := false, 0.0, 0.0, now, 1.0;
      timer, intervals, nextInterval := None, {}, 0;
    }

    method Toggle()
      modifies this
      ensures View() == TogglePlay(old(View()))
    {
      playing := !playing;
      if playing {
        timer := Some(nextInterval);
        intervals := intervals + {nextInterval};
        nextInterval := nextInterval + 1;
      } else {
        if timer.Some? { intervals := intervals - {timer.value}; }
      }
    }

    method OnInterval(id: nat)
      requires id in intervals
      modifies this
      ensures View() == Step(old(View()), Interval(id))
    {
      currentMs := currentMs + STEP_MS * speedMultiplier;
      if currentMs > maxMs {
        currentMs := minMs;
        Toggle();
      }
    }

    method ScrubTo(ms: real)
      modifies this`currentMs
      ensures View() == Step(old(View()), Scrub(ms))
    {
      currentMs := ms;
    }
  }
}
