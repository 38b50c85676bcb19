/** The camera of the spatial view (Web/command_center_spatial.js): set, animate, wheel, drag and frame steps. */
module SpatialCamera {
  import opened Common

  const MIN_ZOOM: real := 0.15
  const MAX_ZOOM: real := 4.0

  function Clamp(z: real): (r: real)
    ensures MIN_ZOOM <= r <= MAX_ZOOM && (MIN_ZOOM <= z <= MAX_ZOOM ==> r == z)
  {
    if z < MIN_ZOOM then MIN_ZOOM else if z > MAX_ZOOM then MAX_ZOOM else z
  }

  function Cube(t: real): real {
    t * t * t
  }

  function EaseInOutCubic(t: real): real {
    if t < 0.5 then 4.0 * Cube(t) else 1.0 - Cube(-2.0 * t + 2.0) / 2.0
  }

  // ---------------------------------------------------------------- easing

  lemma ProductMonotone(a: real, b: real, c: real, d: real)
    requires 0.0 <= a <= b && 0.0 <= c <= d
    ensures 0.0 <= a * c <= b * d
  {
    assert b * d - a * c == b * (d - c) + (b - a) * c;
  }

  lemma CubeMonotone(a: real, b: real)
    requires 0.0 <= a <= b
    ensures 0.0 <= Cube(a) <= Cube(b)
  {
    ProductMonotone(a, b, a, b);
    ProductMonotone(a * a, b * b, a, b);
  }

  lemma CubeOfEnds()
    ensures Cube(0.0) == 0.0 && Cube(0.5) == 0.125 && Cube(1.0) == 1.0
  { }

  /** Easing runs from 0 to 1 without ever going back. */
  lemma EaseIsMonotone(s: real, t: real)
    requires 0.0 <= s <= t <= 1.0
    ensures 0.0 <= EaseInOutCubic(s) <= EaseInOutCubic(t) <= 1.0
    ensures EaseInOutCubic(0.0) == 0.0 && EaseInOutCubic(1.0) == 1.0
  {
    hide Cube;
    CubeOfEnds();
    if s < 0.5 {
      CubeMonotone(s, 0.5);
    } else {
      CubeMonotone(-2.0 * s + 2.0, 1.0);
    }
    if t < 0.5 {
      CubeMonotone(s, t);
      CubeMonotone(t, 0.5);
    } else {
      CubeMonotone(-2.0 * t + 2.0, 1.0);
      if s >= 0.5 { CubeMonotone(-2.0 * t + 2.0, -2.0 * s + 2.0); }
    }
  }

  /** The curve: half the cube on the first half of the way, and the same turned about the middle on the second. */
  lemma EaseIsCubic(t: real)
    requires 0.0 <= t <= 1.0
    ensures EaseInOutCubic(t / 2.0) == t * t * t / 2.0
    ensures EaseInOutCubic(1.0 - t / 2.0) == 1.0 - t * t * t / 2.0
  {
    HalfCubed(t);
    assert -2.0 * (1.0 - t / 2.0) + 2.0 == t;
    if t == 1.0 { HalfCubed(1.0); }
  }

  lemma HalfCubed(t: real)
    ensures 4.0 * Cube(t / 2.0) == Cube(t) / 2.0
    ensures Cube(t) == t * t * t
  {
    var h := t / 2.0;
    assert t == 2.0 * h;
  }

  function Between(a: real, b: real, t: real): real {
    a + (b - a) * t
  }

  lemma BetweenIsConvex(a: real, b: real, t: real, lo: real, hi: real)
    requires lo <= a <= hi && lo <= b <= hi && 0.0 <= t <= 1.0
    ensures lo <= Between(a, b, t) <= hi
  {
    assert Between(a, b, t) - lo == (a - lo) * (1.0 - t) + (b - lo) * t;
    assert hi - Between(a, b, t) == (hi - a) * (1.0 - t) + (hi - b) * t;
    ProductMonotone(0.0, a - lo, 0.0, 1.0 - t);
    ProductMonotone(0.0, b - lo, 0.0, t);
    ProductMonotone(0.0, hi - a, 0.0, 1.0 - t);
    ProductMonotone(0.0, hi - b, 0.0, t);
  }

  // ---------------------------------------------------------------- the camera

  datatype Camera = Camera(x: real, y: real, zoom: real)

  datatype Anim = Anim(from: Camera, to: Camera, t0: real)

  const DURATION: real := 420.0

  datatype View = View(camera: Camera, anim: Option<Anim>)

  const HOME := View(Camera(0.0, 0.0, 1.0), None)

  /** What one call of attachControls keeps for its mouse listeners. */
  datatype Listener = Listener(dragging: bool, lastX: real, lastY: real)

  /** The camera, and one listener for every time the view has been initialised: none is ever removed. */
  datatype Desk = Desk(view: View, listeners: seq<Listener>)

  const BLANK := Desk(HOME, [])

  datatype Event =
    | Init
    | Set(x: real, y: real, zoom: real, animate: bool, now: real)
    | Wheel(up: bool, sx: real, sy: real)
    | Press(x: real, y: real)
    | Release
    | Move(x: real, y: real)
    | Frame(now: real)

  function SetCamera(v: View, x: real, y: real, zoom: real, animate: bool, now: real): View {
    if animate then v.(anim := Some(Anim(v.camera, Camera(x, y, Clamp(zoom)), now)))
    else v.(camera := Camera(x, y, Clamp(zoom)))
  }

  /** One coordinate of screenToWorld. */
  function Read(s: real, origin: real, zoom: real): real
    requires zoom != 0.0
  {
    s / zoom + origin
  }

  function ScreenToWorld(c: Camera, sx: real, sy: real): (real, real)
    requires c.zoom != 0.0
  {
    (Read(sx, c.x, c.zoom), Read(sy, c.y, c.zoom))
  }

  function OnWheel(v: View, up: bool, sx: real, sy: real): View
    requires v.camera.zoom != 0.0
  {
    var (wx, wy) := ScreenToWorld(v.camera, sx, sy);
    var zoom := Clamp(v.camera.zoom * if up then 1.12 else 1.0 / 1.12);
    View(Camera(wx - sx / zoom, wy - sy / zoom, zoom), None)
  }

  function OnDrag(v: View, dx: real, dy: real): View
    requires v.camera.zoom != 0.0
  {
    View(v.camera.(x := v.camera.x - dx / v.camera.zoom, y := v.camera.y - dy / v.camera.zoom), None)
  }

  /** One turn of the wheel reaches k listeners, one after the other. */
  function Turned(v: View, up: bool, sx: real, sy: real, k: nat): (r: View)
    requires v.camera.zoom != 0.0
    ensures r.camera.zoom != 0.0
  {
    if k == 0 then v else OnWheel(Turned(v, up, sx, sy, k - 1), up, sx, sy)
  }

  function Grabbed(ls: seq<Listener>, x: real, y: real): seq<Listener> {
    seq(|ls|, i requires 0 <= i < |ls| => Listener(true, x, y))
  }

  function LetGo(ls: seq<Listener>): seq<Listener> {
    seq(|ls|, i requires 0 <= i < |ls| => ls[i].(dragging := false))
  }

  function Followed(ls: seq<Listener>, x: real, y: real): seq<Listener> {
    seq(|ls|, i requires 0 <= i < |ls| => if ls[i].dragging then Listener(true, x, y) else ls[i])
  }

  /** One motion of the mouse to (x, y) reaches the first n listeners; each that drags moves the camera. */
  function Moved(v: View, ls: seq<Listener>, x: real, y: real, n: nat): (r: View)
    requires v.camera.zoom != 0.0 && n <= |ls|
    ensures r.camera.zoom == v.camera.zoom
  {
    if n == 0 then v
    else
      var before, l := Moved(v, ls, x, y, n - 1), ls[n - 1];
      if l.dragging then OnDrag(before, x - l.lastX, y - l.lastY) else before
  }

  function OnFrame(v: View, now: real): View {
    if v.anim.None? then v
    else
      var p := v.anim.value;
      var raw := (now - p.t0) / DURATION;
      if raw >= 1.0 then View(p.to, None)
      else
        var t := EaseInOutCubic(raw);
        v.(camera := Camera(Between(p.from.x, p.to.x, t), Between(p.from.y, p.to.y, t),
                            Between(p.from.zoom, p.to.zoom, t)))
  }

  predicate InRange(z: real) {
    MIN_ZOOM <= z <= MAX_ZOOM
  }

  predicate Bounded(v: View) {
    InRange(v.camera.zoom) && (v.anim.Some? ==> InRange(v.anim.value.from.zoom) && InRange(v.anim.value.to.zoom))
  }

  /** A frame is dated no more than `d` milliseconds before the start of the animation it advances. */
  predicate InTime(v: View, e: Event, d: real) {
    e.Frame? && v.anim.Some? ==> e.now >= v.anim.value.t0 - d
  }

  function Step(s: Desk, e: Event): Desk
    requires s.view.camera.zoom != 0.0
  {
    match e
    case Init => s.(listeners := s.listeners + [Listener(false, 0.0, 0.0)])
    case Set(x, y, zoom, animate, now) => s.(view := SetCamera(s.view, x, y, zoom, animate, now))
    case Wheel(up, sx, sy) => s.(view := Turned(s.view, up, sx, sy, |s.listeners|))
    case Press(x, y) => s.(listeners := Grabbed(s.listeners, x, y))
    case Release => s.(listeners := LetGo(s.listeners))
    case Move(x, y) => Desk(Moved(s.view, s.listeners, x, y, |s.listeners|), Followed(s.listeners, x, y))
    case Frame(now) => s.(view := OnFrame(s.view, now))
  }

  lemma {:induction false} TurnsKeepBounded(v: View, up: bool, sx: real, sy: real, k: nat)
    requires Bounded(v)
    ensures Bounded(Turned(v, up, sx, sy, k))
  {
    if k > 0 { TurnsKeepBounded(v, up, sx, sy, k - 1); }
  }

  lemma {:induction false} MotionKeepsBounded(v: View, ls: seq<Listener>, x: real, y: real, n: nat)
    requires Bounded(v) && n <= |ls|
    ensures Bounded(Moved(v, ls, x, y, n))
  {
    if n > 0 { MotionKeepsBounded(v, ls, x, y, n - 1); }
  }

  lemma FrameKeepsBounded(v: View, now: real)
    requires Bounded(v) && InTime(v, Frame(now), 0.0)
    ensures Bounded(OnFrame(v, now))
  {
    if v.anim.Some? {
      var p := v.anim.value;
      var raw := (now - p.t0) / DURATION;
      if raw < 1.0 {
        EaseIsMonotone(raw, 1.0);
        BetweenIsConvex(p.from.zoom, p.to.zoom, EaseInOutCubic(raw), MIN_ZOOM, MAX_ZOOM);
        hide EaseInOutCubic, Between;
      }
    }
  }

  /** What there is after the events; nothing once the handlers would have to divide by a zoom of zero. */
  ghost function After(es: seq<Event>): Option<Desk> {
    if es == [] then Some(BLANK)
    else
      var before := After(es[..|es| - 1]);
      if before.Some? && before.value.view.camera.zoom != 0.0 then Some(Step(before.value, es[|es| - 1])) else None
  }

  lemma Next(es: seq<Event>, e: Event)
    ensures After(es + [e]) == if After(es).Some? && After(es).value.view.camera.zoom != 0.0
                               then Some(Step(After(es).value, e)) else None
  {
    assert (es + [e])[..|es|] == es;
    hide Step;
  }

  /** No frame is dated more than `d` milliseconds before the start of the animation it advances. */
  ghost predicate Punctual(es: seq<Event>, d: real) {
    es == [] || (Punctual(es[..|es| - 1], d)
                 && (After(es[..|es| - 1]).Some? ==> InTime(After(es[..|es| - 1]).value.view, es[|es| - 1], d)))
  }

  /** Whatever is set, animated, wheeled, dragged and drawn in time, the zoom stays within [0.15, 4]. */
  lemma {:induction false} ZoomStaysInRange(es: seq<Event>)
    requires Punctual(es, 0.0)
    ensures After(es).Some? && Bounded(After(es).value.view)
  {
    if es != [] {
      ZoomStaysInRange(es[..|es| - 1]);
      var s := After(es[..|es| - 1]).value;
      match es[|es| - 1]
      case Frame(now) => FrameKeepsBounded(s.view, now);
      case Wheel(up, sx, sy) => TurnsKeepBounded(s.view, up, sx, sy, |s.listeners|);
      case Move(x, y) => MotionKeepsBounded(s.view, s.listeners, x, y, |s.listeners|);
      case _ =>
      hide OnFrame, Turned, Moved;
    }
  }

  lemma {:induction false} MorePunctual(es: seq<Event>, d: real, c: real)
    requires Punctual(es, d) && d <= c
    ensures Punctual(es, c)
  {
    if es != [] { MorePunctual(es[..|es| - 1], d, c); }
  }

  /** Zooming in from the lowest zoom at time `d`, with a frame dated 0: frame timestamps lag like this in practice. */
  function LaggingRun(d: real): seq<Event> {
    [Set(0.0, 0.0, MIN_ZOOM, false, 0.0), Set(0.0, 0.0, MAX_ZOOM, true, d), Frame(0.0)]
  }

  lemma Positive(a: real, b: real, c: real)
    requires a > 0.0 && b > 0.0 && c > 0.0
    ensures a * b * c > 0.0
  {
    assert a * b > 0.0;
  }

  lemma EaseUndershoots(u: real)
    requires u > 0.0
    ensures EaseInOutCubic(-u) < 0.0
  {
    Positive(u, u, u);
    assert Cube(-u) == -(u * u * u);
  }

  /** A frame any time before the start of its animation extrapolates: this run zooms out beyond the limit. */
  lemma LaggingRunLeavesRange(d: real)
    requires d > 0.0
    ensures Punctual(LaggingRun(d), d)
    ensures After(LaggingRun(d)).Some? && !InRange(After(LaggingRun(d)).value.view.camera.zoom)
  {
    var es := LaggingRun(d);
    assert es[..2] == [es[0], es[1]] && es[..2][..1] == [es[0]] && es[..2][..1][..0] == [];
    var low, high := Camera(0.0, 0.0, MIN_ZOOM), Camera(0.0, 0.0, MAX_ZOOM);
    assert After([es[0]]) == Some(Desk(View(low, None), []));
    assert After(es[..2]) == Some(Desk(View(low, Some(Anim(low, high, d))), []));
    assert Punctual([es[0]], d) && Punctual(es[..2], d);
    EaseUndershoots(d / DURATION);
    assert -d / DURATION == -(d / DURATION);
    hide EaseInOutCubic;
  }

  /** Over whole runs: the zoom is safe from frames that lag by up to `d` exactly when they must not lag at all. */
  lemma ZoomIsSafeIffFramesNeverLag(d: real)
    ensures (forall es :: Punctual(es, d) ==> After(es).Some? && InRange(After(es).value.view.camera.zoom))
            <==> d <= 0.0
  {
    if d > 0.0 {
      LaggingRunLeavesRange(d);
    } else {
      forall es | Punctual(es, d) ensures After(es).Some? && InRange(After(es).value.view.camera.zoom) {
        MorePunctual(es, d, 0.0);
        ZoomStaysInRange(es);
      }
    }
  }

  // ---------------------------------------------------------------- what stays where on the screen

  /** The canvas in CSS pixels. */
  datatype Viewport = Viewport(width: real, height: real)

  /** One coordinate of the drawing, with `h` half the viewport. */
  function Drawn(world: real, origin: real, zoom: real, h: real): real {
    (world - origin) * zoom + h
  }

  /** Where the world is drawn: half a viewport further right and down than screenToWorld reads it back. */
  function WorldToScreen(c: Camera, w: Viewport, wx: real, wy: real): (real, real) {
    (Drawn(wx, c.x, c.zoom, w.width / 2.0), Drawn(wy, c.y, c.zoom, w.height / 2.0))
  }

  /** The world point drawn at a place of the screen. */
  function DrawnAt(c: Camera, w: Viewport, sx: real, sy: real): (real, real)
    requires c.zoom != 0.0
  {
    ScreenToWorld(c, sx - w.width / 2.0, sy - w.height / 2.0)
  }

  lemma ReadInvertsDrawn(s: real, origin: real, zoom: real, h: real, world: real)
    requires zoom != 0.0
    ensures Read(s - h, origin, zoom) == world <==> Drawn(world, origin, zoom, h) == s
  {
    var q := (s - h) / zoom;
    assert q * zoom == s - h;
    if (world - origin) * zoom == s - h && q != world - origin { NoZeroDivisors(q - (world - origin), zoom); }
  }

  /** The two maps are inverse to each other. */
  lemma DrawnAtInvertsTheDrawing(c: Camera, w: Viewport, sx: real, sy: real, wx: real, wy: real)
    requires c.zoom != 0.0
    ensures DrawnAt(c, w, sx, sy) == (wx, wy) <==> WorldToScreen(c, w, wx, wy) == (sx, sy)
  {
    hide Read, Drawn;
    ReadInvertsDrawn(sx, c.x, c.zoom, w.width / 2.0, wx);
    ReadInvertsDrawn(sy, c.y, c.zoom, w.height / 2.0, wy);
  }

  /** The world point drawn at (px, py) before the camera changes from `c` to `d` is drawn there afterwards too. */
  predicate Stands(c: Camera, d: Camera, w: Viewport, px: real, py: real)
    requires c.zoom != 0.0
  {
    var (wx, wy) := DrawnAt(c, w, px, py);
    WorldToScreen(d, w, wx, wy) == (px, py)
  }

  /** The wheel turns towards a zoom limit that has been reached. */
  predicate AtLimit(zoom: real, up: bool) {
    zoom == if up then MAX_ZOOM else MIN_ZOOM
  }

  predicate Further(up: bool, z: real, y: real) {
    if up then y > z else y < z
  }

  /** However many listeners a turn reaches, it changes the zoom unless that is at its limit. */
  lemma {:induction false} TurnsChangeZoomUnlessAtLimit(v: View, up: bool, sx: real, sy: real, k: nat)
    requires Bounded(v)
    ensures Bounded(Turned(v, up, sx, sy, k))
    ensures var z, y := v.camera.zoom, Turned(v, up, sx, sy, k).camera.zoom;
            if k == 0 || AtLimit(z, up) then y == z else Further(up, z, y)
  {
    if k > 0 {
      TurnsChangeZoomUnlessAtLimit(v, up, sx, sy, k - 1);
      TurnChangesZoom(Turned(v, up, sx, sy, k - 1), up, sx, sy);
      hide OnWheel, Bounded;
    }
  }

  lemma TurnChangesZoom(v: View, up: bool, sx: real, sy: real)
    requires Bounded(v)
    ensures Bounded(OnWheel(v, up, sx, sy))
    ensures var z, y := v.camera.zoom, OnWheel(v, up, sx, sy).camera.zoom;
            if AtLimit(z, up) then y == z else Further(up, z, y)
  {
    hide Read;
  }

  /** One coordinate: what was drawn at p lands at its old place iff p is the centre h + s, or nothing is scaled. */
  lemma ScalingFixesItsCentre(x: real, z: real, x': real, y: real, s: real, h: real, p: real)
    requires z > 0.0 && y > 0.0 && x' == s / z + x - s / y
    ensures Drawn(Read(p - h, x, z), x', y, h) == p <==> p == s + h || z == y
  {
    var q, r, u := (p - h) / z, s / z, s / y;
    assert p - h == q * z && s == r * z && s == u * y;
    Expand(q, r, u, y);
    assert q + x - x' == q - r + u;
    assert (q - r) * (y - z) == (q - r) * y - (q - r) * z;
    assert (q - r) * z == p - h - s;
    if q != r && y != z { NoZeroDivisors(q - r, y - z); }
    if q == r { assert q * z == r * z; }
  }

  lemma Expand(q: real, r: real, u: real, y: real)
    ensures (q - r + u) * y == (q - r) * y + u * y
  { }

  lemma NoZeroDivisors(a: real, b: real)
    requires a != 0.0 && b != 0.0
    ensures a * b != 0.0
  { }

  lemma ZoomingAbout(c: Camera, d: Camera, w: Viewport, sx: real, sy: real, px: real, py: real)
    requires c.zoom > 0.0 && d.zoom > 0.0
    requires d.x == sx / c.zoom + c.x - sx / d.zoom && d.y == sy / c.zoom + c.y - sy / d.zoom
    ensures Stands(c, d, w, px, py) <==> c.zoom == d.zoom || (px == sx + w.width / 2.0 && py == sy + w.height / 2.0)
  {
    hide Read, Drawn;
    var h, k := w.width / 2.0, w.height / 2.0;
    ScalingFixesItsCentre(c.x, c.zoom, d.x, d.zoom, sx, h, px);
    ScalingFixesItsCentre(c.y, c.zoom, d.y, d.zoom, sy, k, py);
  }

  /** What a listener reads back with screenToWorld at the cursor, and aims to keep, is kept. */
  lemma {:induction false} WheelKeepsWhatItReads(v: View, up: bool, w: Viewport, sx: real, sy: real, k: nat)
    requires Bounded(v)
    ensures ScreenToWorld(Turned(v, up, sx, sy, k).camera, sx, sy) == ScreenToWorld(v.camera, sx, sy)
    ensures ScreenToWorld(v.camera, sx, sy) == DrawnAt(v.camera, w, sx + w.width / 2.0, sy + w.height / 2.0)
  {
    if k > 0 {
      WheelKeepsWhatItReads(v, up, w, sx, sy, k - 1);
      TurnKeepsTheReading(Turned(v, up, sx, sy, k - 1), up, sx, sy);
      hide OnWheel, ScreenToWorld, DrawnAt;
    }
  }

  lemma TurnKeepsTheReading(v: View, up: bool, sx: real, sy: real)
    requires v.camera.zoom != 0.0
    ensures ScreenToWorld(OnWheel(v, up, sx, sy).camera, sx, sy) == ScreenToWorld(v.camera, sx, sy)
  {
    hide Clamp;
  }

  /** A turn of the wheel leaves standing what is drawn half a viewport beyond the cursor, and nothing else. */
  lemma WheelZoomsAboutAPointOffTheCursor(v: View, up: bool, w: Viewport, sx: real, sy: real, k: nat,
                                          px: real, py: real)
    requires Bounded(v) && k > 0
    ensures Stands(v.camera, Turned(v, up, sx, sy, k).camera, w, px, py) <==>
              AtLimit(v.camera.zoom, up) || (px == sx + w.width / 2.0 && py == sy + w.height / 2.0)
  {
    TurnsChangeZoomUnlessAtLimit(v, up, sx, sy, k);
    WheelKeepsWhatItReads(v, up, w, sx, sy, k);
    var d := Turned(v, up, sx, sy, k).camera;
    assert d.zoom > 0.0 && v.camera.zoom > 0.0;
    hide AtLimit, Stands, Turned, DrawnAt, Bounded;
    ZoomingAbout(v.camera, d, w, sx, sy, px, py);
  }

  /** So the point under the cursor stays under it exactly when the zoom cannot go further that way. */
  lemma WheelKeepsThePointUnderTheCursorIffAtLimit(v: View, up: bool, w: Viewport, sx: real, sy: real, k: nat)
    requires Bounded(v) && k > 0 && w.width > 0.0 && w.height > 0.0
    ensures Stands(v.camera, Turned(v, up, sx, sy, k).camera, w, sx, sy) <==> AtLimit(v.camera.zoom, up)
  {
    WheelZoomsAboutAPointOffTheCursor(v, up, w, sx, sy, k, sx, sy);
  }

  /**
    For instance: one turn in the upper left corner of a fresh 800 x 500 canvas moves what was there by 48 and 30
    pixels, and by more than twice that once the view has been initialised again.
   */
  lemma FirstTurnSlipsAway()
    ensures var w, turn := Viewport(800.0, 500.0), Wheel(true, 0.0, 0.0);
            var (wx, wy) := DrawnAt(HOME.camera, w, 0.0, 0.0);
            var one, two := After([Init] + [turn]), After([Init] + [Init] + [turn]);
            && one.Some? && WorldToScreen(one.value.view.camera, w, wx, wy) == (-48.0, -30.0)
            && two.Some? && WorldToScreen(two.value.view.camera, w, wx, wy) == (-101.76, -63.6)
  {
    var turn := Wheel(true, 0.0, 0.0);
    assert [] + [Init] == [Init];
    Next([], Init);
    Next([Init], turn);
    Next([Init], Init);
    Next([Init] + [Init], turn);
    hide After;
    var once := OnWheel(HOME, true, 0.0, 0.0);
    assert once == View(Camera(0.0, 0.0, 1.12), None);
    assert OnWheel(once, true, 0.0, 0.0) == View(Camera(0.0, 0.0, 1.2544), None);
    assert Turned(HOME, true, 0.0, 0.0, 1) == once && Turned(HOME, true, 0.0, 0.0, 2) == OnWheel(once, true, 0.0, 0.0);
  }

  // ---------------------------------------------------------------- picking a node

  function Product(a: real, b: real): real {
    a * b
  }

  function Square(a: real): real {
    Product(a, a)
  }

  /** The click handler's test, with squares for the distances: the node at (nx, ny) is nearer than 20 / zoom. */
  predicate InReach(c: Camera, sx: real, sy: real, nx: real, ny: real)
    requires c.zoom != 0.0
  {
    var (wx, wy) := ScreenToWorld(c, sx, sy);
    Square(nx - wx) + Square(ny - wy) < Square(20.0 / c.zoom)
  }

  /** One coordinate: a distance in the world is the distance on the screen, off by half a viewport, over the zoom. */
  lemma ReadFromAfar(n: real, s: real, origin: real, zoom: real, h: real)
    requires zoom > 0.0
    ensures (n - Read(s, origin, zoom)) * zoom == Drawn(n, origin, zoom, h) - (s + h)
  {
    var q := s / zoom;
    assert q * zoom == s;
    Expand(n, origin, -q, zoom);
    assert n - (q + origin) == n - origin + -q && (-q) * zoom == -s;
  }

  lemma SquareOfProduct(a: real, z: real)
    ensures Square(a * z) == Square(a) * Square(z)
  {
    assert (a * z) * (a * z) == a * (z * (a * z));
    assert z * (a * z) == a * (z * z);
  }

  lemma Rescale(a: real, b: real, c: real, z: real)
    requires z > 0.0
    ensures Square(a) + Square(b) < Square(c) <==> Square(a * z) + Square(b * z) < Square(c * z)
  {
    SquareOfProduct(a, z);
    SquareOfProduct(b, z);
    SquareOfProduct(c, z);
    PositiveSquare(z);
    hide Square;
    SumScaled(Square(a), Square(b), Square(c), Square(z));
  }

  lemma PositiveSquare(z: real)
    requires z > 0.0
    ensures Square(z) > 0.0
  {
    PositiveProduct(z, z);
    hide Product;
  }

  lemma PositiveProduct(a: real, b: real)
    requires a > 0.0 && b > 0.0
    ensures Product(a, b) > 0.0
  { }

  lemma SumScaled(a: real, b: real, c: real, m: real)
    requires m > 0.0
    ensures a + b < c <==> a * m + b * m < c * m
  {
    assert a * m + b * m == (a + b) * m;
    if a + b < c { assert (c - (a + b)) * m > 0.0; } else { assert (a + b - c) * m >= 0.0; }
  }

  /** A click reaches the nodes drawn within 20 pixels of the place half a viewport beyond it. */
  lemma ClickReachesOffTheCursor(v: View, w: Viewport, sx: real, sy: real, nx: real, ny: real)
    requires Bounded(v)
    ensures InReach(v.camera, sx, sy, nx, ny) <==>
              var (px, py) := WorldToScreen(v.camera, w, nx, ny);
              Square(px - (sx + w.width / 2.0)) + Square(py - (sy + w.height / 2.0)) < Square(20.0)
  {
    var c := v.camera;
    assert c.zoom > 0.0 && (20.0 / c.zoom) * c.zoom == 20.0;
    hide Read, Drawn, Square, Bounded;
    ReadFromAfar(nx, sx, c.x, c.zoom, w.width / 2.0);
    ReadFromAfar(ny, sy, c.y, c.zoom, w.height / 2.0);
    Rescale(nx - Read(sx, c.x, c.zoom), ny - Read(sy, c.y, c.zoom), 20.0 / c.zoom, c.zoom);
  }

  /** So a click right on a drawn node reaches it only on a tiny canvas; the least there is, 400 x 300, is too wide. */
  lemma ClickOnANodeMissesIt(v: View, w: Viewport, nx: real, ny: real)
    requires Bounded(v)
    ensures var (px, py) := WorldToScreen(v.camera, w, nx, ny);
            InReach(v.camera, px, py, nx, ny) <==> Square(w.width / 2.0) + Square(w.height / 2.0) < Square(20.0)
    ensures w.width >= 40.0 ==> Square(w.width / 2.0) + Square(w.height / 2.0) >= Square(20.0)
  {
    hide InReach, Bounded, Drawn;
    var (px, py) := WorldToScreen(v.camera, w, nx, ny);
    ClickReachesOffTheCursor(v, w, px, py, nx, ny);
    SquareOfNegative(w.width / 2.0);
    SquareOfNegative(w.height / 2.0);
    hide Square;
    assert px - (px + w.width / 2.0) == -(w.width / 2.0) && py - (py + w.height / 2.0) == -(w.height / 2.0);
    if w.width >= 40.0 { FarSquare(w.width / 2.0); }
  }

  lemma SquareOfNegative(a: real)
    ensures Square(-a) == Square(a) >= 0.0
  {
    SquareIsPositive(a);
  }

  lemma FarSquare(a: real)
    requires a >= 20.0
    ensures Square(a) >= Square(20.0)
  {
    ProductMonotone(20.0, a, 20.0, a);
  }

  lemma SquareIsPositive(a: real)
    ensures Square(a) >= 0.0
  {
    var b := if a < 0.0 then -a else a;
    ProductMonotone(0.0, b, 0.0, b);
  }

  // ---------------------------------------------------------------- how far one turn zooms

  /** A zoom one step of the wheel further. */
  function Stepped(z: real, up: bool): real {
    if up then z * 1.12 else z / 1.12
  }

  /** A zoom k steps further: z times the k-th power of 1.12, or of its inverse. */
  function Scaled(z: real, up: bool, k: nat): real {
    if k == 0 then z else Stepped(Scaled(z, up, k - 1), up)
  }

  lemma {:induction false} ScaledAway(z: real, up: bool, k: nat)
    requires z > 0.0
    ensures Scaled(z, up, k) > 0.0
    ensures if up then Scaled(z, up, k) >= z else Scaled(z, up, k) <= z
    ensures up && k >= 1 ==> Scaled(z, up, k) >= 1.12 * z
    ensures up && k >= 2 ==> Scaled(z, up, k) >= 1.25 * z
  {
    if k > 0 { ScaledAway(z, up, k - 1); }
  }

  lemma ClampOnceOrTwice(a: real, up: bool)
    requires if up then a >= MIN_ZOOM else 0.0 < a <= MAX_ZOOM
    ensures Clamp(Stepped(Clamp(a), up)) == Clamp(Stepped(a, up))
  { }

  lemma TurnZoom(v: View, up: bool, sx: real, sy: real)
    requires v.camera.zoom != 0.0
    ensures OnWheel(v, up, sx, sy).camera.zoom == Clamp(Stepped(v.camera.zoom, up))
  { }

  /** A turn that reaches k listeners zooms by the k-th power of 1.12, or as far as the limit lets it. */
  lemma {:induction false} TurnsCompound(v: View, up: bool, sx: real, sy: real, k: nat)
    requires Bounded(v)
    ensures Turned(v, up, sx, sy, k).camera.zoom == Clamp(Scaled(v.camera.zoom, up, k))
  {
    assert MIN_ZOOM <= v.camera.zoom <= MAX_ZOOM;
    hide Clamp, Bounded, InRange, OnWheel, Stepped;
    if k > 0 {
      TurnsCompound(v, up, sx, sy, k - 1);
      TurnZoom(Turned(v, up, sx, sy, k - 1), up, sx, sy);
      ScaledAway(v.camera.zoom, up, k - 1);
      ClampOnceOrTwice(Scaled(v.camera.zoom, up, k - 1), up);
    }
  }

  /** Every turn is the one step of 12% it is meant to be, whatever the view, exactly with one listener. */
  lemma TurnIsOneStepIffOneListener(k: nat)
    ensures (forall v, up, sx, sy :: Bounded(v) ==>
               Turned(v, up, sx, sy, k).camera.zoom == Clamp(Stepped(v.camera.zoom, up)))
            <==> k == 1
  {
    if k == 1 {
      forall v, up, sx, sy | Bounded(v)
        ensures Turned(v, up, sx, sy, k).camera.zoom == Clamp(Stepped(v.camera.zoom, up))
      {
        assert Turned(v, up, sx, sy, 1) == OnWheel(v, up, sx, sy);
      }
    } else {
      TurnsCompound(HOME, true, 0.0, 0.0, k);
      ScaledAway(1.0, true, k);
      assert Scaled(1.0, true, 0) == 1.0;
      hide Scaled, Turned;
    }
  }

  // ---------------------------------------------------------------- dragging

  /** One listener that drags moves the whole drawing with the cursor. */
  lemma OneListenerFollowsTheCursor(v: View, w: Viewport, dx: real, dy: real, wx: real, wy: real)
    requires v.camera.zoom > 0.0
    ensures var (px, py) := WorldToScreen(v.camera, w, wx, wy);
            WorldToScreen(OnDrag(v, dx, dy).camera, w, wx, wy) == (px + dx, py + dy)
  {
    hide Drawn;
    DragShifts(v.camera.x, v.camera.zoom, dx, w.width / 2.0, wx);
    DragShifts(v.camera.y, v.camera.zoom, dy, w.height / 2.0, wy);
  }

  lemma DragShifts(x: real, z: real, d: real, h: real, world: real)
    requires z > 0.0
    ensures Drawn(world, x - d / z, z, h) == Drawn(world, x, z, h) + d
  {
    var q := d / z;
    assert q * z == d;
    Expand(world, x, q, z);
    assert world - (x - q) == world - x + q;
  }

  /** How many of the first n listeners are dragging. */
  function Held(ls: seq<Listener>, n: nat): nat
    requires n <= |ls|
  {
    if n == 0 then 0 else Held(ls, n - 1) + if ls[n - 1].dragging then 1 else 0
  }

  /** Those that are dragging have all last seen the mouse at the same place. */
  ghost predicate Agree(ls: seq<Listener>, x: real, y: real) {
    forall i :: 0 <= i < |ls| && ls[i].dragging ==> ls[i].lastX == x && ls[i].lastY == y
  }

  /** A place of the screen after h motions by (dx, dy). */
  function Shifted(p: (real, real), h: nat, dx: real, dy: real): (real, real) {
    (p.0 + Times(h, dx), p.1 + Times(h, dy))
  }

  function Times(h: nat, d: real): real {
    h as real * d
  }

  lemma ShiftedAgain(p: (real, real), h: nat, dx: real, dy: real)
    ensures Shifted(p, 0, dx, dy) == p && Shifted(p, 1, dx, dy) == (p.0 + dx, p.1 + dy)
    ensures Shifted(Shifted(p, h, dx, dy), 1, dx, dy) == Shifted(p, h + 1, dx, dy)
  {
    hide Times;
    OneMoreTime(h, dx);
    OneMoreTime(h, dy);
  }

  lemma OneMoreTime(h: nat, d: real)
    ensures Times(0, d) == 0.0 && Times(1, d) == d && Times(h, d) + d == Times(h + 1, d)
  {
    assert (h + 1) as real == h as real + 1.0;
  }

  lemma {:induction false} HeldListenersAddUp(v: View, ls: seq<Listener>, x: real, y: real, n: nat, at: (real, real),
                                              w: Viewport, wx: real, wy: real)
    requires v.camera.zoom > 0.0 && n <= |ls| && Agree(ls, at.0, at.1)
    ensures WorldToScreen(Moved(v, ls, x, y, n).camera, w, wx, wy) ==
              Shifted(WorldToScreen(v.camera, w, wx, wy), Held(ls, n), x - at.0, y - at.1)
  {
    hide WorldToScreen, OnDrag, Shifted;
    var p := WorldToScreen(v.camera, w, wx, wy);
    if n == 0 {
      ShiftedAgain(p, 0, x - at.0, y - at.1);
    } else {
      HeldListenersAddUp(v, ls, x, y, n - 1, at, w, wx, wy);
      if ls[n - 1].dragging {
        OneListenerFollowsTheCursor(Moved(v, ls, x, y, n - 1), w, x - at.0, y - at.1, wx, wy);
        ShiftedAgain(Shifted(p, Held(ls, n - 1), x - at.0, y - at.1), 0, x - at.0, y - at.1);
        ShiftedAgain(p, Held(ls, n - 1), x - at.0, y - at.1);
      }
    }
  }

  /** How often the view has been initialised. */
  ghost function Inits(es: seq<Event>): nat {
    if es == [] then 0 else Inits(es[..|es| - 1]) + if es[|es| - 1].Init? then 1 else 0
  }

  /** How many listeners drag: as many as there were at the last press, unless the button has been released since. */
  ghost function Dragging(es: seq<Event>): nat {
    if es == [] then 0
    else
      match es[|es| - 1]
      case Press(_, _) => Inits(es[..|es| - 1])
      case Release => 0
      case _ => Dragging(es[..|es| - 1])
  }

  /** Where the mouse was last seen. */
  ghost function LastSeen(es: seq<Event>): (real, real) {
    if es == [] then (0.0, 0.0)
    else
      match es[|es| - 1]
      case Press(x, y) => (x, y)
      case Move(x, y) => (x, y)
      case _ => LastSeen(es[..|es| - 1])
  }

  lemma {:induction false} SameHeld(ls: seq<Listener>, ms: seq<Listener>, n: nat)
    requires n <= |ls| && n <= |ms| && forall i :: 0 <= i < n ==> ls[i].dragging == ms[i].dragging
    ensures Held(ls, n) == Held(ms, n)
  {
    if n > 0 { SameHeld(ls, ms, n - 1); }
  }

  lemma {:induction false} AllHeld(ls: seq<Listener>, n: nat, dragging: bool)
    requires n <= |ls| && forall i :: 0 <= i < n ==> ls[i].dragging == dragging
    ensures Held(ls, n) == if dragging then n else 0
  {
    if n > 0 { AllHeld(ls, n - 1, dragging); }
  }

  /** The listeners by the history of the run. */
  lemma {:induction false} ListenersAreHistory(es: seq<Event>)
    requires After(es).Some?
    ensures var ls := After(es).value.listeners;
            |ls| == Inits(es) && Held(ls, |ls|) == Dragging(es) && Agree(ls, LastSeen(es).0, LastSeen(es).1)
  {
    hide OnFrame, Turned, Moved, SetCamera;
    if es != [] {
      ListenersAreHistory(es[..|es| - 1]);
      var was, ls := After(es[..|es| - 1]).value.listeners, After(es).value.listeners;
      match es[|es| - 1] {
        case Init => SameHeld(was, ls, |was|);
        case Press(_, _) => AllHeld(ls, |ls|, true);
        case Release => AllHeld(ls, |ls|, false);
        case Move(_, _) => SameHeld(was, ls, |ls|);
        case _ =>
      }
    }
  }

  /** After any run, a motion of the mouse moves every drawn point that many times over as listeners are dragging. */
  lemma DragIsMultiplied(es: seq<Event>, x: real, y: real, w: Viewport, wx: real, wy: real)
    requires Punctual(es, 0.0)
    ensures After(es).Some? && After(es + [Move(x, y)]).Some?
    ensures WorldToScreen(After(es + [Move(x, y)]).value.view.camera, w, wx, wy) ==
              Shifted(WorldToScreen(After(es).value.view.camera, w, wx, wy), Dragging(es),
                      x - LastSeen(es).0, y - LastSeen(es).1)
  {
    ZoomStaysInRange(es);
    ListenersAreHistory(es);
    Next(es, Move(x, y));
    hide After, Moved, WorldToScreen, Agree, Held, Shifted, Followed;
    var s := After(es).value;
    HeldListenersAddUp(s.view, s.listeners, x, y, |s.listeners|, LastSeen(es), w, wx, wy);
  }

  lemma {:induction false} MotionStopsTheAnimation(v: View, ls: seq<Listener>, x: real, y: real, n: nat)
    requires v.camera.zoom != 0.0 && n <= |ls|
    ensures Moved(v, ls, x, y, n).anim == if Held(ls, n) > 0 then None else v.anim
  {
    if n > 0 { MotionStopsTheAnimation(v, ls, x, y, n - 1); }
  }

  /**
    After any run, a turn of the wheel stops an animation if there is a listener, a motion of the mouse if one is
    dragging, and nothing else does but its end; once stopped, frames leave the camera where it is.
   */
  lemma HandsOnStopTheAnimation(es: seq<Event>, e: Event, now: real)
    requires After(es).Some? && After(es).value.view.camera.zoom != 0.0
    ensures var s, t := After(es).value, Step(After(es).value, e);
      && (e.Wheel? ==> t.view.anim == if Inits(es) > 0 then None else s.view.anim)
      && (e.Move? ==> t.view.anim == if Dragging(es) > 0 then None else s.view.anim)
      && (e.Init? || e.Press? || e.Release? ==> t.view == s.view)
      && (t.view.anim.None? ==> OnFrame(t.view, now) == t.view)
  {
    var s := After(es).value;
    ListenersAreHistory(es);
    if e.Move? { MotionStopsTheAnimation(s.view, s.listeners, e.x, e.y, |s.listeners|); }
    hide Moved, After, Inits, Dragging, Read, Clamp;
  }

  /** The next motion of the mouse to (x, y) moves the drawn point by just that motion. */
  ghost predicate Tracks(es: seq<Event>, x: real, y: real, w: Viewport, wx: real, wy: real) {
    && After(es).Some? && After(es + [Move(x, y)]).Some?
    && var (px, py) := WorldToScreen(After(es).value.view.camera, w, wx, wy);
       WorldToScreen(After(es + [Move(x, y)]).value.view.camera, w, wx, wy) ==
         (px + (x - LastSeen(es).0), py + (y - LastSeen(es).1))
  }

  /** So the drawing goes with the cursor, wherever that goes, exactly when one listener is dragging. */
  lemma DragFollowsTheCursorIffOneListener(es: seq<Event>, w: Viewport)
    requires Punctual(es, 0.0)
    ensures (forall x, y, wx, wy :: Tracks(es, x, y, w, wx, wy)) <==> Dragging(es) == 1
  {
    hide After, WorldToScreen, Dragging, LastSeen, Punctual;
    if Dragging(es) == 1 {
      forall x, y, wx, wy ensures Tracks(es, x, y, w, wx, wy) {
        DragIsMultiplied(es, x, y, w, wx, wy);
        ShiftedAgain(WorldToScreen(After(es).value.view.camera, w, wx, wy), 0,
                     x - LastSeen(es).0, y - LastSeen(es).1);
      }
    } else {
      var x := LastSeen(es).0 + 1.0;
      DragIsMultiplied(es, x, 0.0, w, 0.0, 0.0);
      assert !Tracks(es, x, 0.0, w, 0.0, 0.0);
    }
  }

  /** For instance: opening the tab initialises the loaded view a second time, and a drag moves it twice as far. */
  lemma ReopenedViewDragsTwice()
    ensures var es := [Init] + [Init] + [Press(0.0, 0.0)];
            && Punctual(es, 0.0) && Dragging(es) == 2
            && After(es + [Move(10.0, 5.0)]).Some?
            && After(es + [Move(10.0, 5.0)]).value.view.camera == Camera(-20.0, -10.0, 1.0)
  {
    var es := [Init] + [Init] + [Press(0.0, 0.0)];
    assert [] + [Init] == [Init];
    assert es[..2] == [Init] + [Init] && ([Init] + [Init])[..1] == [Init] && [Init][..0] == [];
    assert Inits([Init]) == 1 && Inits([Init] + [Init]) == 2;
    assert Punctual([Init], 0.0) && Punctual([Init] + [Init], 0.0);
    Next([], Init);
    Next([Init], Init);
    Next([Init] + [Init], Press(0.0, 0.0));
    Next(es, Move(10.0, 5.0));
    hide After, Punctual, Inits;
    var ls := After(es).value.listeners;
    assert ls == [Listener(true, 0.0, 0.0), Listener(true, 0.0, 0.0)];
    assert Moved(HOME, ls, 10.0, 5.0, 1) == View(Camera(-10.0, -5.0, 1.0), None);
    assert Moved(HOME, ls, 10.0, 5.0, 2) == View(Camera(-20.0, -10.0, 1.0), None);
  }

  /** Setting the camera moves it now, or sets out there from where it is; the zoom is clamped to [0.15, 4]. */
  lemma SetNowOrByAnimation(v: View, x: real, y: real, zoom: real, now: real)
    ensures var z := if zoom < 0.15 then 0.15 else if zoom > 4.0 then 4.0 else zoom;
      && SetCamera(v, x, y, zoom, false, now) == View(Camera(x, y, z), v.anim)
      && SetCamera(v, x, y, zoom, true, now) == View(v.camera, Some(Anim(v.camera, Camera(x, y, z), now)))
  { }

  /** The camera at share e of its way. */
  ghost predicate AtShare(c: Camera, from: Camera, to: Camera, e: real) {
    && c.x - from.x == (to.x - from.x) * e && c.y - from.y == (to.y - from.y) * e
    && c.zoom - from.zoom == (to.zoom - from.zoom) * e
  }

  /** During its 420 ms an animation has covered the same eased share of its way in x, y and zoom. */
  lemma FrameFollowsTheEasing(v: View, now: real)
    requires v.anim.Some?
    ensures var p := v.anim.value;
      && (now >= p.t0 + 420.0 ==> OnFrame(v, now) == View(p.to, None))
      && (now < p.t0 + 420.0 ==>
            OnFrame(v, now).anim == v.anim
            && AtShare(OnFrame(v, now).camera, p.from, p.to, EaseInOutCubic((now - p.t0) / 420.0)))
      && (now == p.t0 ==> OnFrame(v, now).camera == p.from)
  {
    EaseIsMonotone(0.0, 1.0);
    hide EaseInOutCubic, Between, AtShare;
    var p := v.anim.value;
    var e := EaseInOutCubic((now - p.t0) / 420.0);
    BetweenCamera(p.from, p.to, e);
    BetweenCamera(p.from, p.to, 0.0);
  }

  lemma BetweenCamera(from: Camera, to: Camera, e: real)
    ensures var c := Camera(Between(from.x, to.x, e), Between(from.y, to.y, e), Between(from.zoom, to.zoom, e));
            AtShare(c, from, to, e) && (e == 0.0 ==> c == from)
  {
    BetweenShare(from.x, to.x, e);
    BetweenShare(from.y, to.y, e);
    BetweenShare(from.zoom, to.zoom, e);
    hide Between;
  }

  lemma BetweenShare(a: real, b: real, t: real)
    ensures Between(a, b, t) - a == (b - a) * t
    ensures t == 0.0 ==> Between(a, b, t) == a
  { }

  /** An animated move that is left alone arrives: any frame 420 ms or more after its start is at the goal. */
  lemma AnimationArrives(v: View, x: real, y: real, zoom: real, start: real, now: real)
    requires now >= start + DURATION
    ensures var w := OnFrame(SetCamera(v, x, y, zoom, true, start), now);
            w == View(Camera(x, y, Clamp(zoom)), None) && w.camera == SetCamera(v, x, y, zoom, false, start).camera
  {
    hide Clamp, EaseInOutCubic;
  }

  // ---------------------------------------------------------------- the module's variables

  class CameraControl {
    var camera: Camera
    var camAnim: Option<Anim>
    var listeners: seq<Listener>

    function Look(): View
      reads this
    {
      View(camera, camAnim)
    }

    function All(): Desk
      reads this
    {
      Desk(Look(), listeners)
    }

    constructor ()
      ensures All() == BLANK
    {
      camera, camAnim, listeners := Camera(0.0, 0.0, 1.0), None, [];
    }

    /** initSpatialCanvas, as far as it attaches listeners. */
    method AttachControls()
      requires camera.zoom != 0.0
      modifies this`listeners
      ensures All() == Step(old(All()), Init)
    {
      listeners := listeners + [Listener(false, 0.0, 0.0)];
    }

    method SetTo(x: real, y: real, zoom: real, animate: bool, now: real)
      modifies this`camera, this`camAnim
      ensures Look() == SetCamera(old(Look()), x, y, zoom, animate, now)
    {
      var z := Clamp(zoom);
      if animate {
        camAnim := Some(Anim(camera, Camera(x, y, z), now));
      } else {
        camera := Camera(x, y, z);
      }
    }

    method StepCameraAnim(now: real)
      modifies this`camera, this`camAnim
      ensures Look() == OnFrame(old(Look()), now)
    {
      if camAnim.None? { return; }
      var p := camAnim.value;
      var raw := (now - p.t0) / DURATION;
      if raw >= 1.0 {
        camera := p.to;
        camAnim := None;
        return;
      }
      var t := EaseInOutCubic(raw);
      camera := Camera(p.from.x + (p.to.x - p.from.x) * t, p.from.y + (p.to.y - p.from.y) * t,
                       p.from.zoom + (p.to.zoom - p.from.zoom) * t);
    }

    /** The wheel handler of one listener. */
    method Wheel(up: bool, sx: real, sy: real)
      requires camera.zoom != 0.0
      modifies this`camera, this`camAnim
      ensures Look() == OnWheel(old(Look()), up, sx, sy)
    {
      var factor := if up then 1.12 else 1.0 / 1.12;
      var (wx, wy) := ScreenToWorld(camera, sx, sy);
      var newZoom := Clamp(camera.zoom * factor);
      camera := Camera(wx - sx / newZoom, wy - sy / newZoom, newZoom);
      camAnim := None;
    }

    /** What one listener does with a motion of the mouse while it is dragging. */
    method DragBy(dx: real, dy: real)
      requires camera.zoom != 0.0
      modifies this`camera, this`camAnim
      ensures Look() == OnDrag(old(Look()), dx, dy)
    {
      camera := camera.(x := camera.x - dx / camera.zoom, y := camera.y - dy / camera.zoom);
      camAnim := None;
    }

    /** A turn of the wheel: the browser calls every listener. */
    method DispatchWheel(up: bool, sx: real, sy: real)
      requires camera.zoom != 0.0
      modifies this
      ensures All() == Step(old(All()), Event.Wheel(up, sx, sy))
    {
      hide OnWheel;
      for i := 0 to |listeners|
        invariant listeners == old(listeners) && Look() == Turned(old(Look()), up, sx, sy, i)
      {
        Wheel(up, sx, sy);
      }
    }

    /** A motion of the mouse: every listener that is dragging moves the camera and remembers the place. */
    method DispatchMove(x: real, y: real)
      requires camera.zoom != 0.0
      modifies this
      ensures All() == Step(old(All()), Event.Move(x, y))
    {
      hide OnDrag;
      for i := 0 to |listeners|
        invariant |listeners| == |old(listeners)| && Look() == Moved(old(Look()), old(listeners), x, y, i)
        invariant forall k :: 0 <= k < i ==> listeners[k] == Followed(old(listeners), x, y)[k]
        invariant forall k :: i <= k < |listeners| ==> listeners[k] == old(listeners)[k]
      {
        var l := listeners[i];
        if l.dragging {
          DragBy(x - l.lastX, y - l.lastY);
          listeners := listeners[i := Listener(true, x, y)];
        }
      }
      assert listeners == Followed(old(listeners), x, y);
    }

    method DispatchPress(x: real, y: real)
      requires camera.zoom != 0.0
      modifies this`listeners
      ensures All() == Step(old(All()), Event.Press(x, y))
    {
      for i := 0 to |listeners|
        invariant |listeners| == |old(listeners)|
        invariant forall k :: 0 <= k < i ==> listeners[k] == Listener(true, x, y)
      {
        listeners := listeners[i := Listener(true, x, y)];
      }
      assert listeners == Grabbed(old(listeners), x, y);
    }

    method DispatchRelease()
      requires camera.zoom != 0.0
      modifies this`listeners
      ensures All() == Step(old(All()), Event.Release)
    {
      for i := 0 to |listeners|
        invariant |listeners| == |old(listeners)|
        invariant forall k :: 0 <= k < i ==> listeners[k] == old(listeners)[k].(dragging := false)
        invariant forall k :: i <= k < |listeners| ==> listeners[k] == old(listeners)[k]
      {
        listeners := listeners[i := listeners[i].(dragging := false)];
      }
      assert listeners == LetGo(old(listeners));
    }
  }
}
