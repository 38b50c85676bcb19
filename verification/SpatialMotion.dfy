/**
  Movement in the spatial view (Web/command_center_spatial.js, updateFromPayload and the node loop of draw): a node
  changes place only with its zone; evaluation telemetry may flash it but never moves it.
 */
module SpatialMotion {
  import opened Common
  import opened SpatialLayout
  import SpatialCamera

  /** A payload node. `evaluation` stands for its signature: current stage, gates and progress. */
  datatype Incoming = Incoming(id: string, zone: string, x: real, evaluation: Option<int>)

  /** A displayed node: its target, and where the last frame drew it, if one has. */
  datatype Node = Node(id: string, zone: string, target: Point, shown: Option<Point>, evaluation: Option<int>)

  datatype Anim = Anim(from: Point, to: Point, t0: real)

  const DURATION: real := 900.0
  const TRAIL: nat := 12

  datatype Scene = Scene(
    nodes: seq<Node>, anims: map<string, Anim>, trails: map<string, seq<Point>>, flashes: map<string, real>)

  const BLANK := Scene([], map[], map[], map[])

  /** prevById: of nodes with the same id the last one counts. */
  function Previous(nodes: seq<Node>, id: string): Option<Node> {
    if nodes == [] then None
    else if nodes[|nodes| - 1].id == id then Some(nodes[|nodes| - 1])
    else Previous(nodes[..|nodes| - 1], id)
  }

  function Spots(ins: seq<Incoming>): seq<Spot> {
    seq(|ins|, i requires 0 <= i < |ins| => Spot(ins[i].zone, ins[i].x))
  }

  function Shortened(trail: seq<Point>): seq<Point> {
    if |trail| > TRAIL then trail[1..] else trail
  }

  function Trail(trails: map<string, seq<Point>>, id: string): seq<Point> {
    if id in trails then trails[id] else []
  }

  /** The animation table after node `n`, whose predecessor is `prev`, has been given its target. */
  function Animate(anims: map<string, Anim>, prev: Option<Node>, id: string, zone: string, target: Point, now: real)
    : map<string, Anim>
  {
    if prev.Some? && prev.value.zone != zone then
      anims[id := Anim(if prev.value.shown.Some? then prev.value.shown.value else prev.value.target, target, now)]
    else if id in anims && anims[id].to != target then
      anims[id := anims[id].(to := target, t0 := now)]
    else anims
  }

  /** One turn of the placing loop: `before` are the nodes of the previous payload, `s` collects the new scene. */
  function PlaceNode(before: seq<Node>, s: Scene, n: Incoming, target: Point, now: real): Scene {
    var prev := Previous(before, n.id);
    var zone := ZoneOf(Spot(n.zone, n.x));
    Scene(s.nodes + [Node(n.id, zone, target, None, n.evaluation)],
          Animate(s.anims, prev, n.id, zone, target, now),
          if prev.Some? && prev.value.zone != zone then s.trails[n.id := Shortened(Trail(s.trails, n.id) + [target])]
          else s.trails,
          if prev.Some? && n.evaluation.Some? && prev.value.evaluation != n.evaluation then s.flashes[n.id := now]
          else s.flashes)
  }

  function PlaceNodes(s: Scene, targets: seq<Point>, ins: seq<Incoming>, now: real, n: nat): Scene
    requires n <= |ins| == |targets|
  {
    if n == 0 then s.(nodes := [])
    else PlaceNode(s.nodes, PlaceNodes(s, targets, ins, now, n - 1), ins[n - 1], targets[n - 1], now)
  }

  function Targets(order: seq<string>, ins: seq<Incoming>): (ts: seq<Point>)
    ensures |ts| == |ins|
  {
    seq(|ins|, i requires 0 <= i < |ins| => Target(order, Spots(ins), i))
  }

  function Update(s: Scene, order: seq<string>, ins: seq<Incoming>, now: real): Scene {
    PlaceNodes(s, Targets(order, ins), ins, now, |ins|)
  }

  // ---------------------------------------------------------------- a frame

  /** Where a frame draws a node. */
  function Position(n: Node, anims: map<string, Anim>, now: real): Point {
    if n.id !in anims || (now - anims[n.id].t0) / DURATION >= 1.0 then n.target
    else
      var a := anims[n.id];
      var raw := (now - a.t0) / DURATION;
      var t := SpatialCamera.EaseInOutCubic(if raw < 0.0 then 0.0 else raw);
      Point(a.from.x + (a.to.x - a.from.x) * t, a.from.y + (a.to.y - a.from.y) * t)
  }

  /** The node loop of draw: finished animations go, every node is drawn, some flashes expire. */
  function DrawNodes(s: Scene, now: real, n: nat): (d: Scene)
    requires n <= |s.nodes|
    ensures |d.nodes| == |s.nodes|
  {
    if n == 0 then s
    else
      var d := DrawNodes(s, now, n - 1);
      var node := s.nodes[n - 1];
      Scene(d.nodes[n - 1 := node.(shown := Some(Position(node, d.anims, now)))],
            if node.id in d.anims && (now - d.anims[node.id].t0) / DURATION >= 1.0 then d.anims - {node.id}
            else d.anims,
            d.trails, d.flashes)
  }

  function Draw(s: Scene, now: real, expired: set<string>): Scene {
    var d := DrawNodes(s, now, |s.nodes|);
    d.(flashes := d.flashes - expired)
  }

  datatype Event =
    | Payload(order: seq<string>, ins: seq<Incoming>, now: real)
    | Frame(now: real, expired: set<string>)

  function Step(s: Scene, e: Event): Scene {
    match e
    case Payload(order, ins, now) => Update(s, order, ins, now)
    case Frame(now, expired) => Draw(s, now, expired)
  }

  ghost function After(es: seq<Event>): Scene {
    if es == [] then BLANK else Step(After(es[..|es| - 1]), es[|es| - 1])
  }

  /** `p` lies in the interval with the ends `a` and `b`, whichever is the larger. */
  predicate Within(a: real, b: real, p: real) {
    if a <= b then a <= p <= b else b <= p <= a
  }

  lemma BetweenIsWithin(a: real, b: real, t: real)
    requires 0.0 <= t <= 1.0
    ensures Within(a, b, SpatialCamera.Between(a, b, t))
  {
    SpatialCamera.BetweenIsConvex(a, b, t, if a <= b then a else b, if a <= b then b else a);
  }

  /** A node is drawn at its target, or between the start of its animation and its end. */
  lemma DrawnBetweenTheEnds(n: Node, anims: map<string, Anim>, now: real)
    requires n.id in anims
    ensures var a, p := anims[n.id], Position(n, anims, now);
            p == n.target || (Within(a.from.x, a.to.x, p.x) && Within(a.from.y, a.to.y, p.y))
  {
    hide SpatialCamera.EaseInOutCubic;
    var a := anims[n.id];
    var raw := (now - a.t0) / DURATION;
    if raw < 1.0 {
      var r := if raw < 0.0 then 0.0 else raw;
      var t := SpatialCamera.EaseInOutCubic(r);
      assert Position(n, anims, now) ==
             Point(SpatialCamera.Between(a.from.x, a.to.x, t), SpatialCamera.Between(a.from.y, a.to.y, t));
      hide Position, SpatialCamera.Between, Within;
      SpatialCamera.EaseIsMonotone(r, 1.0);
      BetweenIsWithin(a.from.x, a.to.x, t);
      BetweenIsWithin(a.from.y, a.to.y, t);
    }
  }

  // ---------------------------------------------------------------- telemetry never moves a node

  function Mute(nodes: seq<Node>): seq<Node> {
    seq(|nodes|, i requires 0 <= i < |nodes| => nodes[i].(evaluation := None))
  }

  /** Everything but the telemetry: ids, zones, targets, drawn positions, animations and trails. */
  ghost predicate SameMotion(s: Scene, t: Scene) {
    Mute(s.nodes) == Mute(t.nodes) && s.anims == t.anims && s.trails == t.trails
  }

  /** Payloads that agree on order, ids, zones and x; frames at the same time. Evaluations and flashes are free. */
  ghost predicate Alike(d: Event, e: Event) {
    match d
    case Payload(order, ins, now) =>
      && e.Payload? && e.order == order && e.now == now && |e.ins| == |ins|
      && forall i :: 0 <= i < |ins| ==>
           e.ins[i].id == ins[i].id && e.ins[i].zone == ins[i].zone && e.ins[i].x == ins[i].x
    case Frame(now, _) => e.Frame? && e.now == now
  }

  lemma MuteAt(ns: seq<Node>, ms: seq<Node>, i: nat)
    requires Mute(ns) == Mute(ms) && i < |ns|
    ensures |ns| == |ms| && ns[i].(evaluation := None) == ms[i].(evaluation := None)
  {
    assert |Mute(ns)| == |ns| && |Mute(ms)| == |ms|;
    assert Mute(ns)[i] == Mute(ms)[i];
  }

  lemma {:induction false} PreviousMuted(ns: seq<Node>, ms: seq<Node>, id: string)
    requires Mute(ns) == Mute(ms)
    ensures Previous(ns, id).Some? <==> Previous(ms, id).Some?
    ensures Previous(ns, id).Some? ==>
              Previous(ns, id).value.(evaluation := None) == Previous(ms, id).value.(evaluation := None)
  {
    assert |Mute(ns)| == |ns| && |Mute(ms)| == |ms|;
    if ns != [] {
      var k := |ns| - 1;
      MuteAt(ns, ms, k);
      assert Mute(ns[..k]) == Mute(ns)[..k] && Mute(ms[..k]) == Mute(ms)[..k];
      PreviousMuted(ns[..k], ms[..k], id);
    }
  }

  lemma PlaceNodeMuted(b: seq<Node>, c: seq<Node>, s: Scene, t: Scene, m: Incoming, n: Incoming,
                       target: Point, now: real)
    requires Mute(b) == Mute(c) && SameMotion(s, t) && m.id == n.id && m.zone == n.zone && m.x == n.x
    ensures SameMotion(PlaceNode(b, s, m, target, now), PlaceNode(c, t, n, target, now))
  {
    PreviousMuted(b, c, m.id);
    hide Previous, ZoneOf, Shortened, Trail;
    var u, v := PlaceNode(b, s, m, target, now), PlaceNode(c, t, n, target, now);
    MuteAppend(s.nodes, u.nodes[|s.nodes|]);
    MuteAppend(t.nodes, v.nodes[|t.nodes|]);
  }

  lemma MuteAppend(ns: seq<Node>, n: Node)
    ensures Mute(ns + [n]) == Mute(ns) + [n.(evaluation := None)]
  { }

  lemma {:induction false} PlaceNodesMuted(s: Scene, t: Scene, targets: seq<Point>,
                                           ins: seq<Incoming>, jns: seq<Incoming>, now: real, n: nat)
    requires SameMotion(s, t) && n <= |ins| == |jns| == |targets|
    requires forall i :: 0 <= i < |ins| ==> jns[i].id == ins[i].id && jns[i].zone == ins[i].zone && jns[i].x == ins[i].x
    ensures SameMotion(PlaceNodes(s, targets, ins, now, n), PlaceNodes(t, targets, jns, now, n))
  {
    hide PlaceNode, Mute;
    if n > 0 {
      PlaceNodesMuted(s, t, targets, ins, jns, now, n - 1);
      PlaceNodeMuted(s.nodes, t.nodes, PlaceNodes(s, targets, ins, now, n - 1), PlaceNodes(t, targets, jns, now, n - 1),
                     ins[n - 1], jns[n - 1], targets[n - 1], now);
    }
  }

  lemma {:induction false} DrawNodesMuted(s: Scene, t: Scene, now: real, n: nat)
    requires SameMotion(s, t) && n <= |s.nodes|
    ensures |s.nodes| == |t.nodes| && |DrawNodes(s, now, n).nodes| == |s.nodes|
    ensures SameMotion(DrawNodes(s, now, n), DrawNodes(t, now, n))
  {
    assert |Mute(s.nodes)| == |s.nodes| && |Mute(t.nodes)| == |t.nodes|;
    if n > 0 {
      DrawNodesMuted(s, t, now, n - 1);
      var c, d := DrawNodes(s, now, n - 1), DrawNodes(t, now, n - 1);
      MuteAt(s.nodes, t.nodes, n - 1);
      PositionMuted(s.nodes[n - 1], t.nodes[n - 1], c.anims, now);
      hide Position;
      MuteUpdate(c.nodes, d.nodes, n - 1, DrawNodes(s, now, n).nodes[n - 1], DrawNodes(t, now, n).nodes[n - 1]);
    }
  }

  lemma PositionMuted(m: Node, n: Node, anims: map<string, Anim>, now: real)
    requires m.(evaluation := None) == n.(evaluation := None)
    ensures Position(m, anims, now) == Position(n, anims, now)
  { }

  lemma MuteUpdate(ns: seq<Node>, ms: seq<Node>, i: nat, m: Node, n: Node)
    requires Mute(ns) == Mute(ms) && i < |ns| && m.(evaluation := None) == n.(evaluation := None)
    ensures i < |ms| && Mute(ns[i := m]) == Mute(ms[i := n])
  {
    assert |Mute(ns)| == |ns| && |Mute(ms)| == |ms|;
    assert Mute(ns[i := m]) == Mute(ns)[i := m.(evaluation := None)];
    assert Mute(ms[i := n]) == Mute(ms)[i := n.(evaluation := None)];
  }

  lemma StepMuted(s: Scene, t: Scene, d: Event, e: Event)
    requires SameMotion(s, t) && Alike(d, e)
    ensures SameMotion(Step(s, d), Step(t, e))
  {
    match d
    case Payload(order, ins, now) =>
      assert Spots(ins) == Spots(e.ins);
      assert Targets(order, ins) == Targets(order, e.ins);
      hide Mute, Target;
      PlaceNodesMuted(s, t, Targets(order, ins), ins, e.ins, now, |ins|);
    case Frame(now, _) =>
      assert |Mute(s.nodes)| == |s.nodes| && |Mute(t.nodes)| == |t.nodes|;
      DrawNodesMuted(s, t, now, |s.nodes|);
      hide Mute, DrawNodes;
  }

  /** Over whole runs: whatever the evaluations say, every node stands, moves and leaves its trail just the same. */
  lemma {:induction false} TelemetryNeverMovesANode(ds: seq<Event>, es: seq<Event>)
    requires |ds| == |es| && forall i :: 0 <= i < |ds| ==> Alike(ds[i], es[i])
    ensures SameMotion(After(ds), After(es))
  {
    if ds != [] {
      TelemetryNeverMovesANode(ds[..|ds| - 1], es[..|es| - 1]);
      StepMuted(After(ds[..|ds| - 1]), After(es[..|es| - 1]), ds[|ds| - 1], es[|es| - 1]);
      hide Step, SameMotion, Alike;
    }
  }

  // ---------------------------------------------------------------- animations aim true

  ghost predicate DistinctIds(ins: seq<Incoming>) {
    forall i, j :: 0 <= i < j < |ins| ==> ins[i].id != ins[j].id
  }

  /** Node i is the last of the first n nodes with its id. */
  ghost predicate IsLast(ins: seq<Incoming>, n: nat, i: int)
    requires n <= |ins|
  {
    0 <= i < n && forall k :: i < k < n ==> ins[k].id != ins[i].id
  }

  /** Node `id` of the payload sits in another zone than before. */
  ghost predicate ChangedZone(before: seq<Node>, ins: seq<Incoming>, id: string) {
    exists i :: 0 <= i < |ins| && ins[i].id == id && Previous(before, id).Some?
                && Previous(before, id).value.zone != ZoneOf(Spot(ins[i].zone, ins[i].x))
  }

  /** An animation of `id` that was not there, or that sets out from another point than before. */
  predicate StartsAnew(was: map<string, Anim>, anims: map<string, Anim>, id: string) {
    id in anims && (id !in was || anims[id].from != was[id].from)
  }

  ghost predicate InPlace(nodes: seq<Node>, targets: seq<Point>, ins: seq<Incoming>, n: nat)
    requires n <= |ins| == |targets|
  {
    |nodes| == n && forall i :: 0 <= i < n ==> nodes[i].id == ins[i].id && nodes[i].target == targets[i]
  }

  ghost predicate Aimed(anims: map<string, Anim>, targets: seq<Point>, ins: seq<Incoming>, n: nat)
    requires n <= |ins| == |targets|
  {
    forall i :: IsLast(ins, n, i) && ins[i].id in anims ==> anims[ins[i].id].to == targets[i]
  }

  /** Only nodes that have changed zone set out. */
  ghost predicate OnlyMoversStart(was: map<string, Anim>, anims: map<string, Anim>,
                                  before: seq<Node>, ins: seq<Incoming>)
  {
    forall id :: StartsAnew(was, anims, id) ==> ChangedZone(before, ins, id)
  }

  lemma {:induction false} PlacedNodes(s: Scene, targets: seq<Point>, ins: seq<Incoming>, now: real, n: nat)
    requires n <= |ins| == |targets|
    ensures var u := PlaceNodes(s, targets, ins, now, n);
      InPlace(u.nodes, targets, ins, n) && Aimed(u.anims, targets, ins, n)
      && OnlyMoversStart(s.anims, u.anims, s.nodes, ins)
  {
    if n > 0 {
      PlacedNodes(s, targets, ins, now, n - 1);
      hide PlaceNode, InPlace, Aimed, OnlyMoversStart;
      var c := PlaceNodes(s, targets, ins, now, n - 1);
      assert PlaceNodes(s, targets, ins, now, n) == PlaceNode(s.nodes, c, ins[n - 1], targets[n - 1], now);
      hide PlaceNodes;
      NextInPlace(s.nodes, c, targets, ins, n, now);
      NextAimed(s.nodes, c, targets, ins, n, now);
      NextMover(s.nodes, s.anims, c, ins, n - 1, targets[n - 1], now);
    }
  }

  lemma NextInPlace(before: seq<Node>, c: Scene, targets: seq<Point>, ins: seq<Incoming>, n: nat, now: real)
    requires 0 < n <= |ins| == |targets| && InPlace(c.nodes, targets, ins, n - 1)
    ensures InPlace(PlaceNode(before, c, ins[n - 1], targets[n - 1], now).nodes, targets, ins, n)
  {
    hide Previous, ZoneOf, Shortened, Trail;
  }

  lemma NextAimed(before: seq<Node>, c: Scene, targets: seq<Point>, ins: seq<Incoming>, n: nat, now: real)
    requires 0 < n <= |ins| == |targets| && Aimed(c.anims, targets, ins, n - 1)
    ensures Aimed(PlaceNode(before, c, ins[n - 1], targets[n - 1], now).anims, targets, ins, n)
  {
    PlacedAnims(before, c, ins, n - 1, targets[n - 1], now);
    hide PlaceNode, ChangedZone, StartsAnew;
    var anims := PlaceNode(before, c, ins[n - 1], targets[n - 1], now).anims;
    forall i | IsLast(ins, n, i) && ins[i].id in anims ensures anims[ins[i].id].to == targets[i] {
      if i < n - 1 { assert IsLast(ins, n - 1, i) && ins[n - 1].id != ins[i].id; }
    }
  }

  lemma NextMover(before: seq<Node>, was: map<string, Anim>, c: Scene, ins: seq<Incoming>, i: nat,
                  target: Point, now: real)
    requires i < |ins| && OnlyMoversStart(was, c.anims, before, ins)
    ensures OnlyMoversStart(was, PlaceNode(before, c, ins[i], target, now).anims, before, ins)
  {
    PlacedAnims(before, c, ins, i, target, now);
    hide PlaceNode, StartsAnew, ChangedZone;
    var anims := PlaceNode(before, c, ins[i], target, now).anims;
    forall id | StartsAnew(was, anims, id) ensures ChangedZone(before, ins, id) {
      StartedHereOrBefore(was, c.anims, anims, id);
    }
  }

  lemma StartedHereOrBefore(was: map<string, Anim>, mid: map<string, Anim>, anims: map<string, Anim>, id: string)
    requires StartsAnew(was, anims, id)
    ensures StartsAnew(was, mid, id) || StartsAnew(mid, anims, id)
  { }

  lemma PlacedAnims(before: seq<Node>, c: Scene, ins: seq<Incoming>, i: nat, target: Point, now: real)
    requires i < |ins|
    ensures var u := PlaceNode(before, c, ins[i], target, now);
      && (forall id :: StartsAnew(c.anims, u.anims, id) ==> ChangedZone(before, ins, id))
      && (ins[i].id in u.anims ==> u.anims[ins[i].id].to == target)
      && (forall id :: id != ins[i].id ==>
            (id in u.anims <==> id in c.anims) && (id in u.anims ==> u.anims[id] == c.anims[id]))
  {
    hide Previous, ZoneOf, Shortened, Trail;
  }

  /**
    After every payload the animation of an id, if it has one, ends at the target of the last node with that id;
    targets are those of the layout; and an animation sets out only for a node whose zone has changed.
   */
  lemma AnimationsEndAtTargets(s: Scene, order: seq<string>, ins: seq<Incoming>, now: real)
    ensures var u := Update(s, order, ins, now);
      && |u.nodes| == |ins|
      && (forall i :: 0 <= i < |ins| ==>
            u.nodes[i].id == ins[i].id && u.nodes[i].target == Target(order, Spots(ins), i))
      && (forall i :: IsLast(ins, |ins|, i) && ins[i].id in u.anims ==> u.anims[ins[i].id].to == u.nodes[i].target)
      && (forall id :: StartsAnew(s.anims, u.anims, id) ==> ChangedZone(s.nodes, ins, id))
  {
    PlacedNodes(s, Targets(order, ins), ins, now, |ins|);
    hide PlaceNodes, IsLast, ChangedZone, StartsAnew, Target;
    assert forall i :: IsLast(ins, |ins|, i) ==> 0 <= i < |ins| by { LastIsInside(ins); }
  }

  lemma LastIsInside(ins: seq<Incoming>)
    ensures forall i :: IsLast(ins, |ins|, i) ==> 0 <= i < |ins|
  { }

  /** So with distinct ids, and only with them, that covers every node of the payload. */
  lemma EachIsLastIffIdsDistinct(ins: seq<Incoming>)
    ensures DistinctIds(ins) <==> forall i :: 0 <= i < |ins| ==> IsLast(ins, |ins|, i)
  {
    if forall i :: 0 <= i < |ins| ==> IsLast(ins, |ins|, i) {
      forall i, j | 0 <= i < j < |ins| ensures ins[i].id != ins[j].id {
        assert IsLast(ins, |ins|, i);
      }
    }
  }

  // ---------------------------------------------------------------- what a payload does to each node

  /** The previous node of an id is the last of the displayed ones that has it. */
  lemma {:induction false} PreviousIsTheLast(nodes: seq<Node>, id: string)
    ensures Previous(nodes, id).None? <==> forall k :: 0 <= k < |nodes| ==> nodes[k].id != id
    ensures Previous(nodes, id).Some? ==>
              exists k :: (0 <= k < |nodes| && nodes[k] == Previous(nodes, id).value && nodes[k].id == id
                           && forall j :: k < j < |nodes| ==> nodes[j].id != id)
  {
    if nodes != [] {
      var front := nodes[..|nodes| - 1];
      PreviousIsTheLast(front, id);
      if nodes[|nodes| - 1].id != id {
        assert forall k :: 0 <= k < |front| ==> front[k] == nodes[k];
        if Previous(front, id).Some? {
          var k :| 0 <= k < |front| && front[k] == Previous(front, id).value
                   && front[k].id == id && forall j :: k < j < |front| ==> front[j].id != id;
          assert nodes[k] == front[k];
        }
      } else {
        assert nodes[|nodes| - 1] == Previous(nodes, id).value;
      }
    }
  }

  /** Nothing of what the scene keeps by id has changed for this one. */
  ghost predicate SameFor(s: Scene, t: Scene, id: string) {
    && (id in s.anims <==> id in t.anims) && (id in s.anims ==> s.anims[id] == t.anims[id])
    && (id in s.trails <==> id in t.trails) && (id in s.trails ==> s.trails[id] == t.trails[id])
    && (id in s.flashes <==> id in t.flashes) && (id in s.flashes ==> s.flashes[id] == t.flashes[id])
  }

  lemma PlacingAnother(before: seq<Node>, s: Scene, n: Incoming, target: Point, now: real, id: string)
    requires n.id != id
    ensures SameFor(s, PlaceNode(before, s, n, target, now), id)
  {
    hide Previous, ZoneOf, Shortened, Trail;
  }

  lemma SameForIsTransitive(s: Scene, t: Scene, u: Scene, id: string)
    requires SameFor(s, t, id) && SameFor(t, u, id)
    ensures SameFor(s, u, id)
  { }

  /** Placing nodes k .. n of other ids leaves an id alone. */
  lemma {:induction false} PlacingOthers(s: Scene, targets: seq<Point>, ins: seq<Incoming>, now: real,
                                         k: nat, n: nat, id: string)
    requires k <= n <= |ins| == |targets| && forall j :: k <= j < n ==> ins[j].id != id
    ensures SameFor(PlaceNodes(s, targets, ins, now, k), PlaceNodes(s, targets, ins, now, n), id)
    decreases n
  {
    hide PlaceNode;
    if k < n {
      PlacingOthers(s, targets, ins, now, k, n - 1, id);
      var c := PlaceNodes(s, targets, ins, now, n - 1);
      PlacingAnother(s.nodes, c, ins[n - 1], targets[n - 1], now, id);
      SameForIsTransitive(PlaceNodes(s, targets, ins, now, k), c, PlaceNodes(s, targets, ins, now, n), id);
    }
    hide SameFor;
  }

  /** Where a node stood: where the last frame drew it, or its target if none has. */
  function StoodAt(n: Node): Point {
    if n.shown.Some? then n.shown.value else n.target
  }

  /**
    From scene s to scene u, a node of the payload with target `target`: on a change of zone it sets out from where it
    stood, now, and its trail is one longer; else an animation under way is turned to the target, from where it set
    out, and starts over if that is a new one. It flashes when its evaluation is there and not what it was.
   */
  ghost predicate Treated(s: Scene, u: Scene, n: Incoming, zone: string, target: Point, now: real) {
    var prev := Previous(s.nodes, n.id);
    var moves := prev.Some? && prev.value.zone != zone;
    && (moves ==>
          && n.id in u.anims && u.anims[n.id] == Anim(StoodAt(prev.value), target, now)
          && n.id in u.trails
          && var trail := (if n.id in s.trails then s.trails[n.id] else []) + [target];
             u.trails[n.id] == if |trail| > 12 then trail[1..] else trail)
    && (!moves ==>
          && (n.id in u.anims <==> n.id in s.anims)
          && (n.id in u.anims ==>
                && u.anims[n.id].from == s.anims[n.id].from && u.anims[n.id].to == target
                && u.anims[n.id].t0 == if s.anims[n.id].to == target then s.anims[n.id].t0 else now)
          && (n.id in u.trails <==> n.id in s.trails)
          && (n.id in u.trails ==> u.trails[n.id] == s.trails[n.id]))
    && (if prev.Some? && n.evaluation.Some? && prev.value.evaluation != n.evaluation
        then n.id in u.flashes && u.flashes[n.id] == now
        else (n.id in u.flashes <==> n.id in s.flashes)
             && (n.id in u.flashes ==> u.flashes[n.id] == s.flashes[n.id]))
  }

  lemma PlacingTreats(s: Scene, c: Scene, u: Scene, n: Incoming, target: Point, now: real)
    requires SameFor(s, c, n.id) && SameFor(PlaceNode(s.nodes, c, n, target, now), u, n.id)
    ensures Treated(s, u, n, ZoneOf(Spot(n.zone, n.x)), target, now)
  {
    hide Previous, ZoneOf;
  }

  lemma NothingPlaced(s: Scene, targets: seq<Point>, ins: seq<Incoming>, now: real, id: string)
    requires |ins| == |targets|
    ensures SameFor(s, PlaceNodes(s, targets, ins, now, 0), id)
  { }

  lemma UntouchedSoFar(s: Scene, targets: seq<Point>, ins: seq<Incoming>, now: real, n: nat, id: string)
    requires n <= |ins| == |targets| && forall j :: 0 <= j < n ==> ins[j].id != id
    ensures SameFor(s, PlaceNodes(s, targets, ins, now, n), id)
  {
    hide PlaceNodes, SameFor;
    NothingPlaced(s, targets, ins, now, id);
    PlacingOthers(s, targets, ins, now, 0, n, id);
    SameForIsTransitive(s, PlaceNodes(s, targets, ins, now, 0), PlaceNodes(s, targets, ins, now, n), id);
  }

  /** An id that is not in the payload is left alone. */
  lemma PayloadTouchesNoOtherId(s: Scene, order: seq<string>, ins: seq<Incoming>, now: real, id: string)
    requires forall k :: 0 <= k < |ins| ==> ins[k].id != id
    ensures SameFor(s, Update(s, order, ins, now), id)
  {
    UntouchedSoFar(s, Targets(order, ins), ins, now, |ins|, id);
    hide PlaceNodes, SameFor, Targets;
  }

  lemma NodeTreated(s: Scene, targets: seq<Point>, ins: seq<Incoming>, now: real, i: nat)
    requires DistinctIds(ins) && i < |ins| == |targets|
    ensures Treated(s, PlaceNodes(s, targets, ins, now, |ins|), ins[i], ZoneOf(Spot(ins[i].zone, ins[i].x)),
                    targets[i], now)
  {
    hide PlaceNode, Treated, SameFor, ZoneOf;
    var c := PlaceNodes(s, targets, ins, now, i);
    assert PlaceNodes(s, targets, ins, now, i + 1) == PlaceNode(s.nodes, c, ins[i], targets[i], now);
    hide PlaceNodes;
    UntouchedSoFar(s, targets, ins, now, i, ins[i].id);
    PlacingOthers(s, targets, ins, now, i + 1, |ins|, ins[i].id);
    PlacingTreats(s, c, PlaceNodes(s, targets, ins, now, |ins|), ins[i], targets[i], now);
  }

  /** After a payload with distinct ids every node of it has been treated so. */
  lemma PayloadTreatsEveryNode(s: Scene, order: seq<string>, ins: seq<Incoming>, now: real, i: nat)
    requires DistinctIds(ins) && i < |ins|
    ensures Treated(s, Update(s, order, ins, now), ins[i], ZoneOf(Spot(ins[i].zone, ins[i].x)),
                    Target(order, Spots(ins), i), now)
  {
    var targets := Targets(order, ins);
    assert targets[i] == Target(order, Spots(ins), i);
    hide DistinctIds, PlaceNodes, Treated, Target, Targets, ZoneOf;
    NodeTreated(s, targets, ins, now, i);
  }

  /** The nodes displayed after a payload are those of the payload, in order, not drawn yet. */
  lemma {:induction false} PayloadShowsItsNodes(s: Scene, targets: seq<Point>, ins: seq<Incoming>, now: real, n: nat)
    requires n <= |ins| == |targets|
    ensures var u := PlaceNodes(s, targets, ins, now, n);
      && |u.nodes| == n
      && forall i :: 0 <= i < n ==>
           && u.nodes[i].id == ins[i].id && u.nodes[i].evaluation == ins[i].evaluation
           && u.nodes[i].zone == (if ins[i].zone == "" then "DISCOVERED" else ins[i].zone)
           && u.nodes[i].target == targets[i] && u.nodes[i].shown.None?
  {
    hide Previous, Shortened, Trail, Animate;
    if n > 0 { PayloadShowsItsNodes(s, targets, ins, now, n - 1); }
  }

  // ---------------------------------------------------------------- what a frame does to each node

  /** A node is drawn at the start of its animation until that begins, at its target 900 ms later, eased between. */
  lemma DrawnByTheEasing(n: Node, anims: map<string, Anim>, now: real)
    ensures n.id !in anims ==> Position(n, anims, now) == n.target
    ensures n.id in anims ==>
      var a, p := anims[n.id], Position(n, anims, now);
      && (now <= a.t0 ==> p == a.from)
      && (now >= a.t0 + 900.0 ==> p == n.target)
      && (a.t0 <= now < a.t0 + 900.0 ==>
            var e := SpatialCamera.EaseInOutCubic((now - a.t0) / 900.0);
            p.x - a.from.x == (a.to.x - a.from.x) * e && p.y - a.from.y == (a.to.y - a.from.y) * e)
  {
    SpatialCamera.EaseIsMonotone(0.0, 1.0);
    hide SpatialCamera.EaseInOutCubic;
  }

  /** Every node of a frame is drawn by the animations there were when it began; those that are over are dropped. */
  lemma {:induction false} FrameShowsEveryNode(s: Scene, now: real, n: nat)
    requires n <= |s.nodes|
    ensures var d := DrawNodes(s, now, n);
      && (forall i :: 0 <= i < n ==> d.nodes[i] == s.nodes[i].(shown := Some(Position(s.nodes[i], s.anims, now))))
      && (forall i :: n <= i < |s.nodes| ==> d.nodes[i] == s.nodes[i])
      && (forall id :: id in d.anims <==>
            (id in s.anims && !(now >= s.anims[id].t0 + 900.0 && exists i :: 0 <= i < n && s.nodes[i].id == id)))
      && d.trails == s.trails && d.flashes == s.flashes
      && (forall id :: id in d.anims ==> d.anims[id] == s.anims[id])
  {
    hide SpatialCamera.EaseInOutCubic;
    if n > 0 {
      FrameShowsEveryNode(s, now, n - 1);
      var c := DrawNodes(s, now, n - 1);
      SamePosition(s.nodes[n - 1], s.anims, c.anims, now);
      hide Position;
    }
  }

  /** A frame ends the flashes that have expired, and no others. */
  lemma FrameEndsFlashes(s: Scene, now: real, expired: set<string>)
    ensures var d := Draw(s, now, expired);
            forall id :: (id in d.flashes <==> id in s.flashes && id !in expired)
              && (id in d.flashes ==> d.flashes[id] == s.flashes[id])
  {
    FrameShowsEveryNode(s, now, |s.nodes|);
    hide DrawNodes, Position;
  }

  lemma SamePosition(n: Node, anims: map<string, Anim>, left: map<string, Anim>, now: real)
    requires n.id in left ==> n.id in anims && left[n.id] == anims[n.id]
    requires n.id in anims && n.id !in left ==> now >= anims[n.id].t0 + 900.0
    ensures Position(n, left, now) == Position(n, anims, now)
  {
    hide SpatialCamera.EaseInOutCubic;
  }

  // ---------------------------------------------------------------- after any run

  lemma Next(es: seq<Event>, e: Event)
    ensures After(es + [e]) == Step(After(es), e)
  {
    assert (es + [e])[..|es|] == es;
    hide Step;
  }

  /** After any run, a payload with distinct ids treats all its nodes so and displays them in place of the others. */
  lemma PayloadAfterAnyRun(es: seq<Event>, order: seq<string>, ins: seq<Incoming>, now: real, i: nat)
    requires DistinctIds(ins) && i < |ins|
    ensures var s, u := After(es), After(es + [Payload(order, ins, now)]);
      && Treated(s, u, ins[i], if ins[i].zone == "" then "DISCOVERED" else ins[i].zone,
                 Target(order, Spots(ins), i), now)
      && |u.nodes| == |ins| && u.nodes[i].id == ins[i].id && u.nodes[i].target == Target(order, Spots(ins), i)
  {
    Next(es, Payload(order, ins, now));
    PayloadTreatsEveryNode(After(es), order, ins, now, i);
    PayloadShowsItsNodes(After(es), Targets(order, ins), ins, now, |ins|);
    hide After, Treated, Target, PlaceNodes, DistinctIds;
  }

  /** After any run, a frame draws every node by the animations there are and ends the flashes that have expired. */
  lemma FrameAfterAnyRun(es: seq<Event>, now: real, expired: set<string>, i: nat)
    requires i < |After(es).nodes|
    ensures var s, d := After(es), After(es + [Frame(now, expired)]);
      && |d.nodes| == |s.nodes| && d.nodes[i] == s.nodes[i].(shown := Some(Position(s.nodes[i], s.anims, now)))
      && d.trails == s.trails
      && (forall id :: id in d.flashes <==> id in s.flashes && id !in expired)
  {
    Next(es, Frame(now, expired));
    FrameShowsEveryNode(After(es), now, |After(es).nodes|);
    FrameEndsFlashes(After(es), now, expired);
    hide After, Position, DrawNodes;
  }

  ghost predicate ShortTrails(trails: map<string, seq<Point>>) {
    forall id :: id in trails ==> |trails[id]| <= 12
  }

  lemma PlaceNodeTrails(before: seq<Node>, c: Scene, n: Incoming, target: Point, now: real)
    requires ShortTrails(c.trails)
    ensures ShortTrails(PlaceNode(before, c, n, target, now).trails)
  {
    hide Previous, ZoneOf, Animate;
  }

  lemma {:induction false} PlaceNodesTrails(s: Scene, targets: seq<Point>, ins: seq<Incoming>, now: real, n: nat)
    requires n <= |ins| == |targets| && ShortTrails(s.trails)
    ensures ShortTrails(PlaceNodes(s, targets, ins, now, n).trails)
  {
    hide PlaceNode, ShortTrails;
    if n > 0 {
      PlaceNodesTrails(s, targets, ins, now, n - 1);
      PlaceNodeTrails(s.nodes, PlaceNodes(s, targets, ins, now, n - 1), ins[n - 1], targets[n - 1], now);
    }
  }

  lemma {:induction false} DrawKeepsTrails(s: Scene, now: real, n: nat)
    requires n <= |s.nodes|
    ensures DrawNodes(s, now, n).trails == s.trails
  {
    hide Position;
    if n > 0 { DrawKeepsTrails(s, now, n - 1); }
  }

  /** No trail ever holds more than twelve points. */
  lemma {:induction false} TrailsStayShort(es: seq<Event>)
    ensures ShortTrails(After(es).trails)
  {
    hide DrawNodes, PlaceNodes, Targets;
    if es != [] {
      var s := After(es[..|es| - 1]);
      TrailsStayShort(es[..|es| - 1]);
      match es[|es| - 1] {
        case Payload(order, ins, now) => PlaceNodesTrails(s, Targets(order, ins), ins, now, |ins|);
        case Frame(now, _) => DrawKeepsTrails(s, now, |s.nodes|);
      }
    }
  }

  // ---------------------------------------------------------------- the module's variables

  class SpatialView {
    var nodes: seq<Node>
    var anims: map<string, Anim>
    var trails: map<string, seq<Point>>
    var flashes: map<string, real>

    function View(): Scene
      reads this
    {
      Scene(nodes, anims, trails, flashes)
    }

    constructor ()
      ensures View() == BLANK
    {
      nodes, anims, trails, flashes := [], map[], map[], map[];
    }

    /** The end of the placing loop's body, for one node. */
    method PlaceOne(prev: Option<Node>, n: Incoming, zone: string, target: Point, now: real)
      requires zone == ZoneOf(Spot(n.zone, n.x))
      modifies this`anims, this`trails, this`flashes
      ensures forall before, next :: Previous(before, n.id) == prev ==>
                PlaceNode(before, Scene(next, old(anims), old(trails), old(flashes)), n, target, now)
                == Scene(next + [Node(n.id, zone, target, None, n.evaluation)], anims, trails, flashes)
    {
      hide ZoneOf, Previous;
      if prev.Some? && prev.value.zone != zone {
        var from := if prev.value.shown.Some? then prev.value.shown.value else prev.value.target;
        anims := anims[n.id := Anim(from, target, now)];
        trails := trails[n.id := Shortened(Trail(trails, n.id) + [target])];
      } else if n.id in anims {
        if anims[n.id].to != target { anims := anims[n.id := anims[n.id].(to := target, t0 := now)]; }
      }
      if prev.Some? && n.evaluation.Some? && prev.value.evaluation != n.evaluation {
        flashes := flashes[n.id := now];
      }
    }

    method UpdateFromPayload(order: seq<string>, ins: seq<Incoming>, now: real)
      modifies this
      ensures View() == Step(old(View()), Payload(order, ins, now))
    {
      hide ZoneOf, Previous, PlaceNode, Target, Draw;
      ghost var s := View();
      var targets := Place(order, Spots(ins));
      assert targets == Targets(order, ins);
      var next: seq<Node> := [];
      for i := 0 to |ins|
        invariant nodes == s.nodes && Scene(next, anims, trails, flashes) == PlaceNodes(s, targets, ins, now, i)
      {
        var n := ins[i];
        var zone := ZoneOf(Spot(n.zone, n.x));
        PlaceOne(Previous(nodes, n.id), n, zone, targets[i], now);
        next := next + [Node(n.id, zone, targets[i], None, n.evaluation)];
      }
      nodes := next;
    }

    /** The node loop of draw. */
    method DrawFrame(now: real, expired: set<string>)
      modifies this
      ensures View() == Step(old(View()), Frame(now, expired))
    {
      hide Position, PlaceNodes, Targets;
      ghost var s := View();
      for i := 0 to |nodes|
        invariant |nodes| == |s.nodes| && View() == DrawNodes(s, now, i)
        invariant forall j :: i <= j < |nodes| ==> nodes[j] == s.nodes[j]
      {
        var n := nodes[i];
        var position := Position(n, anims, now);
        if n.id in anims && (now - anims[n.id].t0) / DURATION >= 1.0 { anims := anims - {n.id}; }
        nodes := nodes[i := n.(shown := Some(position))];
      }
      flashes := flashes - expired;
    }
  }
}
