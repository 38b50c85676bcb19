/**
  The curve renderer of the backtest report (Web/backtest_report_ui.js, renderCurves):
  scan the observations, sample at most 500 of them, cut the samples into polylines.
 */
module ReportCurves {
  import opened Common

  // ---------------------------------------------------------------- observations

  /** What the scan can tell about a JavaScript value. */
  datatype Value = Nullish | Other | NonFinite | Finite(r: real)

  /** An element of the series: a bare value, or an object with the eight fields that are consulted. */
  datatype Observation =
    | Bare(number: Value)
    | Fields(value: Value, y: Value, val: Value, v: Value, index: Value, x: Value, i: Value, t: Value)

  /** The `??` chain: the first operand that is neither null nor undefined. */
  function FirstOf(a: Value, b: Value, c: Value, d: Value): Value {
    if !a.Nullish? then a else if !b.Nullish? then b else if !c.Nullish? then c else d
  }

  function YOf(p: Observation): Value {
    match p
    case Bare(n) => n
    case Fields(value, y, val, v, _, _, _, _) => FirstOf(value, y, val, v)
  }

  function XOf(p: Observation, idx: nat): real {
    match p
    case Bare(_) => idx as real
    case Fields(_, _, _, _, index, x, i, t) =>
      var raw := FirstOf(index, x, i, t);
      if raw.Finite? then raw.r else idx as real
  }

  predicate Present(p: Observation) {
    YOf(p).Finite?
  }

  datatype Pt = Pt(x: real, y: real, originalIndex: nat, gap: nat)

  /** How many of the first n observations carry no finite value. */
  ghost function MissingBefore(points: seq<Observation>, n: nat): nat
    requires n <= |points|
  {
    if n == 0 then 0 else MissingBefore(points, n - 1) + if Present(points[n - 1]) then 0 else 1
  }

  /** The point that a present observation stands for. */
  ghost function PointAt(points: seq<Observation>, i: nat): Pt
    requires i < |points| && Present(points[i])
  {
    Pt(XOf(points[i], i), YOf(points[i]).r, i, MissingBefore(points, i))
  }

  /** `f` lists present observations of `points`, in source order, each with its own gap number. */
  ghost predicate ScanOf(points: seq<Observation>, f: seq<Pt>) {
    && (forall k :: 0 <= k < |f| ==>
          && f[k].originalIndex < |points| && Present(points[f[k].originalIndex])
          && f[k] == PointAt(points, f[k].originalIndex))
    && (forall j, k :: 0 <= j < k < |f| ==> f[j].originalIndex < f[k].originalIndex)
  }

  /** ... and leaves none of the first n present ones out. */
  ghost predicate Complete(points: seq<Observation>, f: seq<Pt>, n: nat)
    requires n <= |points|
  {
    forall i :: 0 <= i < n && Present(points[i]) ==> PointAt(points, i) in f
  }

  /** The running minima and maxima; Nowhere stands for the initial infinities. */
  datatype Extent = Nowhere | Extent(minX: real, maxX: real, minY: real, maxY: real)

  ghost predicate TightAround(e: Extent, f: seq<Pt>) {
    && (e.Nowhere? <==> f == [])
    && (e.Extent? ==>
          && (forall k :: 0 <= k < |f| ==> e.minX <= f[k].x <= e.maxX && e.minY <= f[k].y <= e.maxY)
          && (exists k :: 0 <= k < |f| && f[k].x == e.minX)
          && (exists k :: 0 <= k < |f| && f[k].x == e.maxX)
          && (exists k :: 0 <= k < |f| && f[k].y == e.minY)
          && (exists k :: 0 <= k < |f| && f[k].y == e.maxY))
  }

  function Widen(e: Extent, x: real, y: real): Extent {
    match e
    case Nowhere => Extent(x, x, y, y)
    case Extent(minX, maxX, minY, maxY) =>
      Extent(if x < minX then x else minX, if x > maxX then x else maxX,
             if y < minY then y else minY, if y > maxY then y else maxY)
  }

  lemma WidenStaysTight(e: Extent, f: seq<Pt>, p: Pt)
    requires TightAround(e, f)
    ensures TightAround(Widen(e, p.x, p.y), f + [p])
  {
    var g := f + [p];
    assert g[|f|] == p;
    if e.Extent? {
      forall q | q in f ensures q in g { }
      var a :| 0 <= a < |f| && f[a].x == e.minX;
      var b :| 0 <= b < |f| && f[b].x == e.maxX;
      var c :| 0 <= c < |f| && f[c].y == e.minY;
      var d :| 0 <= d < |f| && f[d].y == e.maxY;
      assert g[a] == f[a] && g[b] == f[b] && g[c] == f[c] && g[d] == f[d];
    }
  }

  ghost function Scanned(points: seq<Observation>, n: nat): seq<Pt>
    requires n <= |points|
  {
    if n == 0 then []
    else Scanned(points, n - 1) + if Present(points[n - 1]) then [PointAt(points, n - 1)] else []
  }

  method Scan(points: seq<Observation>) returns (finite: seq<Pt>, extent: Extent)
    ensures finite == Scanned(points, |points|)
    ensures TightAround(extent, finite)
  {
    finite, extent := [], Nowhere;
    var gap := 0;
    for idx := 0 to |points|
      invariant gap == MissingBefore(points, idx)
      invariant finite == Scanned(points, idx)
      invariant TightAround(extent, finite)
    {
      var y := YOf(points[idx]);
      var x := XOf(points[idx], idx);
      if !y.Finite? {
        gap := gap + 1;
      } else {
        var p := Pt(x, y.r, idx, gap);
        WidenStaysTight(extent, finite, p);
        finite := finite + [p];
        extent := Widen(extent, x, y.r);
      }
    }
  }

  /** The scan keeps exactly the present observations, in order, each numbered by the missing ones before it. */
  lemma {:induction false} ScanIsExact(points: seq<Observation>, n: nat)
    requires n <= |points|
    ensures ScanOf(points, Scanned(points, n)) && Complete(points, Scanned(points, n), n)
    ensures forall k :: 0 <= k < |Scanned(points, n)| ==> Scanned(points, n)[k].originalIndex < n
  {
    if n > 0 {
      ScanIsExact(points, n - 1);
      var f, g := Scanned(points, n - 1), Scanned(points, n);
      assert g == f + if Present(points[n - 1]) then [PointAt(points, n - 1)] else [];
      hide Scanned, MissingBefore, XOf, YOf;
      forall q | q in f ensures q in g { }
      if Present(points[n - 1]) {
        assert g[|f|] == PointAt(points, n - 1);
      }
    }
  }

  // ---------------------------------------------------------------- what is read of an observation

  /** `w` is the first of the chain that is neither null nor undefined. */
  ghost predicate FirstSaid(chain: seq<Value>, w: Value) {
    exists m :: 0 <= m < |chain| && chain[m] == w && !w.Nullish? && forall j :: 0 <= j < m ==> chain[j].Nullish?
  }

  /** The observation has the finite value r: its own, or that of the first of its four value fields to say anything. */
  ghost predicate SaysY(p: Observation, r: real) {
    match p
    case Bare(n) => n == Finite(r)
    case Fields(value, y, val, v, _, _, _, _) => FirstSaid([value, y, val, v], Finite(r))
  }

  ghost predicate HasValue(p: Observation) {
    exists r :: SaysY(p, r)
  }

  /** Observation k stands at the first of its four position fields to say anything if that is finite, else at k. */
  ghost predicate SaysX(p: Observation, k: nat, x: real) {
    match p
    case Bare(_) => x == k as real
    case Fields(_, _, _, _, index, fx, i, t) =>
      if exists q :: FirstSaid([index, fx, i, t], Finite(q)) then FirstSaid([index, fx, i, t], Finite(x))
      else x == k as real
  }

  /** How many of the first n observations have no value. */
  ghost function Valueless(points: seq<Observation>, n: nat): nat
    requires n <= |points|
  {
    if n == 0 then 0 else Valueless(points, n - 1) + if HasValue(points[n - 1]) then 0 else 1
  }

  lemma FirstOfIsFirstSaid(a: Value, b: Value, c: Value, d: Value, w: Value)
    requires !w.Nullish?
    ensures FirstSaid([a, b, c, d], w) <==> FirstOf(a, b, c, d) == w
  {
    var chain := [a, b, c, d];
    assert chain[0] == a && chain[1] == b && chain[2] == c && chain[3] == d;
    if FirstOf(a, b, c, d) == w {
      var m := if !a.Nullish? then 0 else if !b.Nullish? then 1 else if !c.Nullish? then 2 else 3;
      assert chain[m] == w && forall j :: 0 <= j < m ==> chain[j].Nullish?;
    }
  }

  lemma YIsSaid(p: Observation, r: real)
    ensures SaysY(p, r) <==> YOf(p) == Finite(r)
  {
    if p.Fields? { FirstOfIsFirstSaid(p.value, p.y, p.val, p.v, Finite(r)); }
    hide FirstOf, FirstSaid;
  }

  lemma PresentHasValue(p: Observation)
    ensures Present(p) <==> HasValue(p)
    ensures Present(p) ==> SaysY(p, YOf(p).r)
  {
    if Present(p) { YIsSaid(p, YOf(p).r); }
    if r :| SaysY(p, r) { YIsSaid(p, r); }
    hide YOf, SaysY;
  }

  lemma XIsSaid(p: Observation, k: nat)
    ensures SaysX(p, k, XOf(p, k))
  {
    if p.Fields? {
      var w := FirstOf(p.index, p.x, p.i, p.t);
      forall q ensures FirstSaid([p.index, p.x, p.i, p.t], Finite(q)) <==> w == Finite(q) {
        FirstOfIsFirstSaid(p.index, p.x, p.i, p.t, Finite(q));
      }
      hide FirstOf, FirstSaid;
    }
  }

  lemma {:induction false} MissingIsValueless(points: seq<Observation>, n: nat)
    requires n <= |points|
    ensures MissingBefore(points, n) == Valueless(points, n)
  {
    if n > 0 {
      MissingIsValueless(points, n - 1);
      PresentHasValue(points[n - 1]);
    }
    hide Present, HasValue;
  }

  /** A point is read off its observation: value, position, index, and the gap number. */
  ghost predicate ReadOff(points: seq<Observation>, p: Pt) {
    && p.originalIndex < |points|
    && SaysY(points[p.originalIndex], p.y) && SaysX(points[p.originalIndex], p.originalIndex, p.x)
    && p.gap == Valueless(points, p.originalIndex)
  }

  /** Every point of the scan is read off its own observation, and every observation with a value gives one. */
  lemma ScanReadsTheSource(points: seq<Observation>)
    ensures forall p :: p in Scanned(points, |points|) ==> ReadOff(points, p)
    ensures forall k :: 0 <= k < |points| && HasValue(points[k]) ==>
              exists p :: p in Scanned(points, |points|) && p.originalIndex == k
  {
    var f := Scanned(points, |points|);
    ScanIsExact(points, |points|);
    hide Scanned, HasValue, Present, SaysX, SaysY, XOf, YOf;
    forall p | p in f ensures ReadOff(points, p) {
      var k :| 0 <= k < |f| && f[k] == p;
      PointIsReadOff(points, p.originalIndex);
    }
    forall k | 0 <= k < |points| && HasValue(points[k]) ensures exists p :: p in f && p.originalIndex == k {
      PresentHasValue(points[k]);
      assert PointAt(points, k) in f && PointAt(points, k).originalIndex == k;
    }
  }

  lemma PointIsReadOff(points: seq<Observation>, i: nat)
    requires i < |points| && Present(points[i])
    ensures ReadOff(points, PointAt(points, i))
  {
    PresentHasValue(points[i]);
    XIsSaid(points[i], i);
    MissingIsValueless(points, i);
    hide SaysX, SaysY, XOf, YOf, Present, MissingBefore, Valueless;
  }

  /** Nothing else can be read: an observation has at most one value and one position. */
  lemma ReadingIsUnique(p: Observation, k: nat, r: real, s: real, x: real, z: real)
    ensures SaysY(p, r) && SaysY(p, s) ==> r == s
    ensures SaysX(p, k, x) && SaysX(p, k, z) ==> x == z
  {
    YIsSaid(p, r);
    YIsSaid(p, s);
    if p.Fields? {
      FirstOfIsFirstSaid(p.index, p.x, p.i, p.t, Finite(x));
      FirstOfIsFirstSaid(p.index, p.x, p.i, p.t, Finite(z));
    }
    hide SaysY, FirstSaid;
  }

  // ---------------------------------------------------------------- sampling

  const MAX_POINTS: nat := 500
  const BUCKETS: nat := 249

  /** First index of bucket b of a series of n points; bucket b ends where bucket b + 1 starts. */
  function BucketStart(n: nat, b: nat): (s: nat)
    requires n > MAX_POINTS && b <= BUCKETS
    ensures 1 <= s <= n - 1
  {
    BucketProduct(b, n - 2);
    1 + b * (n - 2) / BUCKETS
  }

  lemma BucketProduct(b: nat, m: nat)
    requires b <= BUCKETS
    ensures 0 <= b * m <= BUCKETS * m
    ensures (b + 1) * m == b * m + m
  { }

  /** The 249 buckets cut the interior 1 .. n - 1 into consecutive pieces of at least two points each. */
  lemma BucketsPartition(n: nat, b: nat)
    requires n > MAX_POINTS && b < BUCKETS
    ensures BucketStart(n, 0) == 1 && BucketStart(n, BUCKETS) == n - 1
    ensures BucketStart(n, b) + 2 <= BucketStart(n, b + 1)
  {
    BucketProduct(b, n - 2);
  }

  /** The buckets are as even as they can be: each starts at its fraction of the interior, rounded down. */
  lemma BucketsAreEven(n: nat, b: nat)
    requires n > 500 && b <= 249
    ensures 249 * (BucketStart(n, b) - 1) <= b * (n - 2) < 249 * BucketStart(n, b)
  {
    BucketProduct(b, n - 2);
  }

  lemma BucketsIncrease(n: nat, b: nat, c: nat)
    requires n > MAX_POINTS && b <= c <= BUCKETS
    ensures BucketStart(n, b) <= BucketStart(n, c)
    decreases c - b
  {
    if b < c {
      BucketsPartition(n, b);
      BucketsIncrease(n, b + 1, c);
    }
  }

  ghost predicate InBucket(n: nat, b: nat, i: nat)
    requires n > MAX_POINTS && b < BUCKETS
  {
    BucketStart(n, b) <= i < BucketStart(n, b + 1)
  }

  /** Every interior index lies in exactly one bucket. */
  lemma EachInteriorPointHasOneBucket(n: nat, i: nat) returns (b: nat)
    requires n > MAX_POINTS && 1 <= i < n - 1
    ensures b < BUCKETS && InBucket(n, b, i)
    ensures forall c: nat :: c < BUCKETS && InBucket(n, c, i) ==> c == b
  {
    b := 0;
    BucketsPartition(n, 0);
    while !(i < BucketStart(n, b + 1))
      invariant b < BUCKETS && BucketStart(n, b) <= i
      decreases BUCKETS - b
    {
      b := b + 1;
      if b == BUCKETS { assert false; }
    }
    forall c: nat | c < BUCKETS && InBucket(n, c, i) ensures c == b {
      if c < b { BucketsIncrease(n, c + 1, b); } else if b < c { BucketsIncrease(n, b + 1, c); }
    }
  }

  /** The first index of [start, end) whose value is lowest. */
  ghost function LowIn(f: seq<Pt>, start: nat, end: nat): (k: nat)
    requires start < end <= |f|
    ensures start <= k < end
    ensures forall i :: start <= i < end ==> f[k].y <= f[i].y
    ensures forall i :: start <= i < k ==> f[k].y < f[i].y
    decreases end
  {
    if end == start + 1 then start
    else var k := LowIn(f, start, end - 1); if f[end - 1].y < f[k].y then end - 1 else k
  }

  /** The first index of [start, end) whose value is highest. */
  ghost function HighIn(f: seq<Pt>, start: nat, end: nat): (k: nat)
    requires start < end <= |f|
    ensures start <= k < end
    ensures forall i :: start <= i < end ==> f[k].y >= f[i].y
    ensures forall i :: start <= i < k ==> f[k].y > f[i].y
    decreases end
  {
    if end == start + 1 then start
    else var k := HighIn(f, start, end - 1); if f[end - 1].y > f[k].y then end - 1 else k
  }

  /** The indices that the bucket [start, end) contributes: first lowest and first highest, in source order. */
  ghost function Extremes(f: seq<Pt>, start: nat, end: nat): (ks: seq<nat>)
    requires start < end <= |f|
    ensures 1 <= |ks| <= 2 && (|ks| == 2 ==> ks[0] < ks[1])
    ensures forall k :: 0 <= k < |ks| ==> start <= ks[k] < end
  {
    var low := LowIn(f, start, end);
    var high := HighIn(f, start, end);
    if low == high then [low] else if low < high then [low, high] else [high, low]
  }

  ghost function BucketKept(f: seq<Pt>, b: nat): (ks: seq<nat>)
    requires |f| > MAX_POINTS && b < BUCKETS
    ensures 1 <= |ks| <= 2 && Increasing(ks) && InRange(ks, |f|)
    ensures forall k :: 0 <= k < |ks| ==> InBucket(|f|, b, ks[k])
  {
    BucketsPartition(|f|, b);
    Extremes(f, BucketStart(|f|, b), BucketStart(|f|, b + 1))
  }

  ghost predicate Increasing(ks: seq<nat>) {
    forall j, k :: 0 <= j < k < |ks| ==> ks[j] < ks[k]
  }

  ghost predicate InRange(ks: seq<nat>, n: nat) {
    forall k :: 0 <= k < |ks| ==> ks[k] < n
  }

  ghost function InteriorKept(f: seq<Pt>, b: nat): (ks: seq<nat>)
    requires |f| > MAX_POINTS && b <= BUCKETS
    ensures b <= |ks| <= 2 * b && Increasing(ks) && InRange(ks, |f|)
    ensures forall k :: 0 <= k < |ks| ==> 1 <= ks[k] < BucketStart(|f|, b)
    decreases |f|, b
  {
    if b == 0 then []
    else
      BucketsPartition(|f|, b - 1);
      InteriorKept(f, b - 1) + BucketKept(f, b - 1)
  }

  /** The indices of `f` that are displayed. */
  ghost function Kept(f: seq<Pt>): (ks: seq<nat>)
    ensures InRange(ks, |f|)
  {
    if |f| <= MAX_POINTS then seq(|f|, i => i)
    else [0] + InteriorKept(f, BUCKETS) + [|f| - 1]
  }

  ghost function Select(f: seq<Pt>, ks: seq<nat>): seq<Pt>
    requires InRange(ks, |f|)
  {
    seq(|ks|, k requires 0 <= k < |ks| && InRange(ks, |f|) => f[ks[k]])
  }

  /** At most 500 points, strictly in source order, from the first to the last; short series are kept whole. */
  lemma SampleIsOrderedAndBounded(f: seq<Pt>)
    ensures |Kept(f)| <= 500
    ensures Increasing(Kept(f))
    ensures f != [] ==> Kept(f) != [] && Kept(f)[0] == 0 && Kept(f)[|Kept(f)| - 1] == |f| - 1
    ensures |f| <= 500 ==> |Kept(f)| == |f|
    ensures |f| > 500 ==> |Kept(f)| >= 251
  {
    hide InteriorKept, BucketStart, Increasing;
    if |f| > MAX_POINTS {
      BucketsPartition(|f|, 0);
      EndpointsFrame(InteriorKept(f, BUCKETS), |f|);
    } else {
      AllIndices(|f|);
    }
    hide Kept;
  }

  lemma EndpointsFrame(ks: seq<nat>, n: nat)
    requires n > 1 && Increasing(ks) && forall k :: 0 <= k < |ks| ==> 1 <= ks[k] < n - 1
    ensures var framed := [0] + ks + [n - 1];
            Increasing(framed) && |framed| == |ks| + 2 && framed[0] == 0 && framed[|framed| - 1] == n - 1
  { }

  lemma AllIndices(n: nat)
    ensures var ks: seq<nat> := seq(n, i => i);
            Increasing(ks) && |ks| == n && (n > 0 ==> ks[0] == 0 && ks[n - 1] == n - 1)
  { }

  lemma {:induction false} BucketIsKept(f: seq<Pt>, b: nat, upTo: nat)
    requires |f| > MAX_POINTS && b < upTo <= BUCKETS
    ensures forall k :: k in BucketKept(f, b) ==> k in InteriorKept(f, upTo)
  {
    hide BucketStart, LowIn, HighIn, Extremes;
    if b < upTo - 1 {
      BucketIsKept(f, b, upTo - 1);
    }
  }

  /** `i` and `j` are the same point, or fall into the same bucket. */
  ghost predicate SameBucket(n: nat, i: nat, j: nat) {
    i == j || (n > MAX_POINTS && exists b: nat :: b < BUCKETS && InBucket(n, b, i) && InBucket(n, b, j))
  }

  /** No observation is lost from the envelope: a displayed point of its own bucket is as low, another as high. */
  lemma EnvelopeSurvives(f: seq<Pt>, i: nat) returns (low: nat, high: nat)
    requires i < |f|
    ensures low in Kept(f) && low < |f| && SameBucket(|f|, i, low)
    ensures high in Kept(f) && high < |f| && SameBucket(|f|, i, high)
    ensures f[low].y <= f[i].y <= f[high].y
  {
    low, high := i, i;
    if |f| <= MAX_POINTS {
      assert Kept(f)[i] == i;
    } else if i == 0 || i == |f| - 1 {
      assert Kept(f)[if i == 0 then 0 else |Kept(f)| - 1] == i;
    } else {
      var b := EachInteriorPointHasOneBucket(|f|, i);
      BucketIsKept(f, b, BUCKETS);
      low := LowIn(f, BucketStart(|f|, b), BucketStart(|f|, b + 1));
      high := HighIn(f, BucketStart(|f|, b), BucketStart(|f|, b + 1));
      assert low in BucketKept(f, b) && high in BucketKept(f, b);
    }
  }

  /** A bucket collapses to one displayed point exactly when it is constant. */
  lemma BucketCollapsesIffConstant(f: seq<Pt>, b: nat)
    requires |f| > MAX_POINTS && b < BUCKETS
    ensures |BucketKept(f, b)| == 1 <==>
            forall i: nat, j: nat :: InBucket(|f|, b, i) && InBucket(|f|, b, j) ==> f[i].y == f[j].y
  {
    BucketsPartition(|f|, b);
    var start, end := BucketStart(|f|, b), BucketStart(|f|, b + 1);
    var low, high := LowIn(f, start, end), HighIn(f, start, end);
    assert InBucket(|f|, b, low) && InBucket(|f|, b, high);
    if low == high {
      forall i: nat, j: nat | InBucket(|f|, b, i) && InBucket(|f|, b, j) ensures f[i].y == f[j].y {
        assert f[low].y <= f[i].y <= f[high].y && f[low].y <= f[j].y <= f[high].y;
      }
    }
  }

  lemma NextBucket(f: seq<Pt>, b: nat)
    requires |f| > MAX_POINTS && b < BUCKETS
    ensures InteriorKept(f, b + 1) == InteriorKept(f, b) + BucketKept(f, b)
    ensures Select(f, InteriorKept(f, b + 1)) == Select(f, InteriorKept(f, b)) + Select(f, BucketKept(f, b))
  {
    hide BucketStart, LowIn, HighIn, Extremes;
  }

  lemma WithEndpoints(f: seq<Pt>, interior: seq<nat>)
    requires f != [] && InRange(interior, |f|)
    ensures InRange([0] + interior + [|f| - 1], |f|)
    ensures Select(f, [0] + interior + [|f| - 1]) == [f[0]] + Select(f, interior) + [f[|f| - 1]]
  { }

  lemma SelectExtremes(f: seq<Pt>, start: nat, end: nat)
    requires start < end <= |f|
    ensures var low, high := LowIn(f, start, end), HighIn(f, start, end);
            Select(f, Extremes(f, start, end)) ==
            if low == high then [f[low]] else if low < high then [f[low], f[high]] else [f[high], f[low]]
  {
    hide LowIn, HighIn;
  }

  lemma OnePoint(f: seq<Pt>, start: nat)
    requires start < |f|
    ensures LowIn(f, start, start + 1) == start == HighIn(f, start, start + 1)
  { }

  lemma OneMorePoint(f: seq<Pt>, start: nat, i: nat)
    requires start < i < |f|
    ensures var low, high := LowIn(f, start, i), HighIn(f, start, i);
            && LowIn(f, start, i + 1) == (if f[i].y < f[low].y then i else low)
            && HighIn(f, start, i + 1) == (if f[i].y > f[high].y then i else high)
  { }

  /** One pass over a bucket for its first lowest and first highest point. */
  method FindExtremes(f: seq<Pt>, start: nat, end: nat) returns (low: nat, high: nat)
    requires start < end <= |f|
    ensures low == LowIn(f, start, end) && high == HighIn(f, start, end)
  {
    low, high := start, start;
    OnePoint(f, start);
    hide LowIn, HighIn;
    for i := start + 1 to end
      invariant low == LowIn(f, start, i) && high == HighIn(f, start, i)
    {
      OneMorePoint(f, start, i);
      if f[i].y < f[low].y { low := i; }
      if f[i].y > f[high].y { high := i; }
    }
  }

  /** The body of the sampling loop: one pass over a bucket, then its extremes in source order. */
  method SampleBucket(f: seq<Pt>, start: nat, end: nat) returns (out: seq<Pt>)
    requires start < end <= |f|
    ensures InRange(Extremes(f, start, end), |f|) && out == Select(f, Extremes(f, start, end))
  {
    hide LowIn, HighIn, Extremes;
    var low, high := FindExtremes(f, start, end);
    out := InSourceOrder(f, low, high);
    SelectExtremes(f, start, end);
  }

  method InSourceOrder(f: seq<Pt>, low: nat, high: nat) returns (out: seq<Pt>)
    requires low < |f| && high < |f|
    ensures out == if low == high then [f[low]] else if low < high then [f[low], f[high]] else [f[high], f[low]]
  {
    out := [f[Min(low, high)]];
    if low != high { out := out + [f[Max(low, high)]]; }
  }

  method Downsample(f: seq<Pt>) returns (displayed: seq<Pt>)
    ensures displayed == Select(f, Kept(f))
  {
    hide BucketStart, LowIn, HighIn, Extremes;
    displayed := f;
    if |f| > MAX_POINTS {
      displayed := [f[0]];
      for b := 0 to BUCKETS
        invariant displayed == [f[0]] + Select(f, InteriorKept(f, b))
      {
        BucketsPartition(|f|, b);
        var picked := SampleBucket(f, BucketStart(|f|, b), BucketStart(|f|, b + 1));
        NextBucket(f, b);
        displayed := displayed + picked;
      }
      WithEndpoints(f, InteriorKept(f, BUCKETS));
      displayed := displayed + [f[|f| - 1]];
    }
  }

  // ---------------------------------------------------------------- plotting

  const PADDING: real := 10.0
  const PLOT_WIDTH: real := 340.0
  const PLOT_HEIGHT: real := 60.0

  function Abs(r: real): real {
    if r < 0.0 then -r else r
  }

  /** Math.max(|lo|, |hi|, 1): dividing by it first keeps finite extremes from overflowing. */
  function Scale(lo: real, hi: real): (s: real)
    ensures s >= 1.0 && s >= Abs(lo) && s >= Abs(hi)
  {
    var m := if Abs(lo) >= Abs(hi) then Abs(lo) else Abs(hi);
    if m >= 1.0 then m else 1.0
  }

  /** Where `v` lies between `lo` and `hi`; a range of zero counts as one. */
  function Normalize(v: real, lo: real, hi: real): real {
    var s := Scale(lo, hi);
    var range := hi / s - lo / s;
    (v / s - lo / s) / if range == 0.0 then 1.0 else range
  }

  datatype Plotted = Plotted(cx: real, cy: real, pt: Pt)

  function Plot(e: Extent, p: Pt): Plotted
    requires e.Extent?
  {
    Plotted(PADDING + Normalize(p.x, e.minX, e.maxX) * PLOT_WIDTH,
            PADDING + PLOT_HEIGHT - Normalize(p.y, e.minY, e.maxY) * PLOT_HEIGHT,
            p)
  }

  lemma RatioOrder(a: real, b: real, d: real)
    requires d > 0.0 && a <= b
    ensures a / d <= b / d && (a < b ==> a / d < b / d)
  {
    assert a == (a / d) * d && b == (b / d) * d;
  }

  lemma ScaleCancels(x: real, y: real, s: real)
    requires s > 0.0 && y > 0.0
    ensures y / s > 0.0 && (x / s) / (y / s) == x / y
  {
    RatioOrder(0.0, y, s);
    var q := x / y;
    assert x == q * y;
    assert x / s == q * (y / s);
  }

  lemma DifferenceOfRatios(a: real, b: real, s: real)
    requires s > 0.0
    ensures a / s - b / s == (a - b) / s
  { }

  lemma RatioWithin(a: real, b: real, d: real)
    requires 0.0 <= a <= b <= d && d > 0.0
    ensures 0.0 <= a / d <= b / d <= 1.0 && (a < b ==> a / d < b / d)
    ensures 0.0 / d == 0.0 && d / d == 1.0
  {
    RatioOrder(0.0, a, d);
    RatioOrder(a, b, d);
    RatioOrder(b, d, d);
  }

  lemma NormalizeUnscaled(v: real, lo: real, hi: real)
    requires lo <= v <= hi
    ensures Normalize(v, lo, hi) == if lo == hi then 0.0 else (v - lo) / (hi - lo)
  {
    hide Scale, Abs;
    var s := Scale(lo, hi);
    assert s > 0.0;
    DifferenceOfRatios(v, lo, s);
    DifferenceOfRatios(hi, lo, s);
    if lo < hi {
      ScaleCancels(v - lo, hi - lo, s);
    } else {
      RatioWithin(0.0, 0.0, s);
    }
  }

  /** The scaling cancels: the result is the linear position, 0 at `lo`, 1 at `hi`, strictly increasing between. */
  lemma NormalizeIsLinear(v: real, w: real, lo: real, hi: real)
    requires lo <= v <= w <= hi
    ensures 0.0 <= Normalize(v, lo, hi) <= Normalize(w, lo, hi) <= 1.0
    ensures v < w ==> Normalize(v, lo, hi) < Normalize(w, lo, hi)
    ensures Normalize(v, lo, hi) == if lo == hi then 0.0 else (v - lo) / (hi - lo)
    ensures Normalize(lo, lo, hi) == 0.0
    ensures lo < hi ==> Normalize(hi, lo, hi) == 1.0
  {
    NormalizeUnscaled(v, lo, hi);
    NormalizeUnscaled(w, lo, hi);
    NormalizeUnscaled(lo, lo, hi);
    NormalizeUnscaled(hi, lo, hi);
    hide *;
    if lo < hi {
      RatioWithin(v - lo, w - lo, hi - lo);
    }
  }

  /** Points are drawn at their linear position in the padded 360 x 80 box; at its edge if there is no extent. */
  lemma PlotIsLinear(e: Extent, p: Pt)
    requires e.Extent? && e.minX <= p.x <= e.maxX && e.minY <= p.y <= e.maxY
    ensures Plot(e, p).pt == p
    ensures Plot(e, p).cx == 10.0 + (if e.minX == e.maxX then 0.0 else (p.x - e.minX) / (e.maxX - e.minX)) * 340.0
    ensures Plot(e, p).cy == 70.0 - (if e.minY == e.maxY then 0.0 else (p.y - e.minY) / (e.maxY - e.minY)) * 60.0
  {
    NormalizeUnscaled(p.x, e.minX, e.maxX);
    NormalizeUnscaled(p.y, e.minY, e.maxY);
    hide Normalize;
  }

  /** Every point is drawn inside the padded 360 x 80 box; further right means later, higher up means larger. */
  lemma PlotStaysInsideAndKeepsOrder(e: Extent, p: Pt, q: Pt)
    requires e.Extent?
    requires e.minX <= p.x <= e.maxX && e.minY <= p.y <= e.maxY
    requires e.minX <= q.x <= e.maxX && e.minY <= q.y <= e.maxY
    ensures 10.0 <= Plot(e, p).cx <= 350.0 && 10.0 <= Plot(e, p).cy <= 70.0
    ensures p.x < q.x <==> Plot(e, p).cx < Plot(e, q).cx
    ensures p.y < q.y <==> Plot(e, p).cy > Plot(e, q).cy
    ensures e.minX < e.maxX ==>
              (p.x == e.minX <==> Plot(e, p).cx == 10.0) && (p.x == e.maxX <==> Plot(e, p).cx == 350.0)
    ensures e.minY < e.maxY ==> (p.y == e.minY <==> Plot(e, p).cy == 70.0) && (p.y == e.maxY <==> Plot(e, p).cy == 10.0)
  {
    NormalizeIsLinear(if p.x <= q.x then p.x else q.x, if p.x <= q.x then q.x else p.x, e.minX, e.maxX);
    NormalizeIsLinear(if p.y <= q.y then p.y else q.y, if p.y <= q.y then q.y else p.y, e.minY, e.maxY);
    NormalizeIsLinear(e.minX, p.x, e.minX, e.maxX);
    NormalizeIsLinear(p.x, e.maxX, e.minX, e.maxX);
    NormalizeIsLinear(e.minY, p.y, e.minY, e.maxY);
    NormalizeIsLinear(p.y, e.maxY, e.minY, e.maxY);
    hide Normalize;
  }

  // ---------------------------------------------------------------- segments

  ghost function PlotAll(e: Extent, d: seq<Pt>): seq<Plotted>
    requires e.Extent?
  {
    seq(|d|, k requires 0 <= k < |d| => Plot(e, d[k]))
  }

  ghost function Joined(segments: seq<seq<Plotted>>): seq<Plotted> {
    if segments == [] then [] else Joined(segments[..|segments| - 1]) + segments[|segments| - 1]
  }

  /** One gap number throughout. */
  ghost predicate OneGap(segment: seq<Plotted>) {
    forall i, j :: 0 <= i < |segment| && 0 <= j < |segment| ==> segment[i].pt.gap == segment[j].pt.gap
  }

  ghost function LastOf(segment: seq<Plotted>): Pt
    requires segment != []
  {
    segment[|segment| - 1].pt
  }

  ghost predicate AllRuns(segments: seq<seq<Plotted>>) {
    forall s :: 0 <= s < |segments| ==> segments[s] != [] && OneGap(segments[s])
  }

  ghost predicate CutsAtChanges(segments: seq<seq<Plotted>>)
    requires AllRuns(segments)
  {
    forall s, t :: 0 <= s && t == s + 1 < |segments| ==> LastOf(segments[s]).gap != segments[t][0].pt.gap
  }

  /** Non-empty runs of one gap number each, cut exactly where the number changes. */
  ghost predicate Segmentation(segments: seq<seq<Plotted>>) {
    AllRuns(segments) && CutsAtChanges(segments)
  }

  lemma SegmentationOfNothing()
    ensures Segmentation([])
  { }

  lemma PlotKeepsPoint(e: Extent, p: Pt)
    requires e.Extent?
    ensures Plot(e, p).pt == p
  { }

  lemma JoinedAppend(segments: seq<seq<Plotted>>, last: seq<Plotted>)
    ensures Joined(segments + [last]) == Joined(segments) + last
  {
    assert (segments + [last])[..|segments|] == segments;
  }

  lemma StartSegment(segments: seq<seq<Plotted>>, p: Plotted)
    requires Segmentation(segments)
    requires segments != [] ==> LastOf(segments[|segments| - 1]).gap != p.pt.gap
    ensures Segmentation(segments + [[p]]) && Joined(segments + [[p]]) == Joined(segments) + [p]
  {
    hide Joined;
    JoinedAppend(segments, [p]);
    var after := segments + [[p]];
    assert OneGap([p]);
    hide OneGap;
    assert AllRuns(after);
    forall s, t | 0 <= s && t == s + 1 < |after| ensures LastOf(after[s]).gap != after[t][0].pt.gap {
      assert after[s] == segments[s];
    }
  }

  lemma ExtendSegment(segments: seq<seq<Plotted>>, current: seq<Plotted>, p: Plotted)
    requires current != [] && Segmentation(segments + [current]) && current[|current| - 1].pt.gap == p.pt.gap
    ensures Segmentation(segments + [current + [p]])
    ensures Joined(segments + [current + [p]]) == Joined(segments + [current]) + [p]
  {
    hide Joined;
    JoinedAppend(segments, current);
    JoinedAppend(segments, current + [p]);
    var before, after := segments + [current], segments + [current + [p]];
    assert before[|segments|] == current && after[|segments|] == current + [p];
    assert OneGap(current + [p]) by { assert OneGap(current); }
    hide OneGap;
    forall s | 0 <= s < |after| ensures after[s] != [] && OneGap(after[s]) {
      if s < |segments| { assert after[s] == before[s]; }
    }
    forall s, t | 0 <= s && t == s + 1 < |after| ensures LastOf(after[s]).gap != after[t][0].pt.gap {
      assert before[s] == after[s] && before[t][0] == after[t][0];
    }
  }

  method BuildSegments(e: Extent, displayed: seq<Pt>) returns (segments: seq<seq<Plotted>>)
    requires e.Extent?
    ensures Joined(segments) == PlotAll(e, displayed) && Segmentation(segments)
  {
    hide Plot, OneGap, Segmentation;
    segments := [];
    assert Segmentation([]) by { SegmentationOfNothing(); }
    var current: seq<Plotted> := [];
    for idx := 0 to |displayed|
      invariant if idx == 0 then segments == [] && current == [] else
        && current != [] && current[|current| - 1].pt == displayed[idx - 1]
        && Joined(segments + [current]) == PlotAll(e, displayed[..idx]) && Segmentation(segments + [current])
    {
      var pt := displayed[idx];
      assert PlotAll(e, displayed[..idx + 1]) == PlotAll(e, displayed[..idx]) + [Plot(e, pt)];
      PlotKeepsPoint(e, pt);
      if idx > 0 && pt.gap != displayed[idx - 1].gap {
        if |current| > 0 {
          segments := segments + [current];
        }
        current := [];
        StartSegment(segments, Plot(e, pt));
      } else if idx > 0 {
        ExtendSegment(segments, current, Plot(e, pt));
      } else {
        StartSegment(segments, Plot(e, pt));
      }
      current := current + [Plot(e, pt)];
      assert current == [Plot(e, pt)] || segments + [current] != [];
    }
    assert displayed[..|displayed|] == displayed;
    if |current| > 0 {
      segments := segments + [current];
    }
  }

  // ---------------------------------------------------------------- no bridging

  lemma {:induction false} MissingGrows(points: seq<Observation>, i: nat, j: nat)
    requires i <= j <= |points|
    ensures MissingBefore(points, i) <= MissingBefore(points, j)
    ensures MissingBefore(points, i) == MissingBefore(points, j) <==> forall m :: i <= m < j ==> Present(points[m])
  {
    if i < j { MissingGrows(points, i, j - 1); }
  }

  /** Plotted points that stand for present observations, in source order. */
  ghost predicate PlottedScan(points: seq<Observation>, ps: seq<Plotted>) {
    && (forall k :: 0 <= k < |ps| ==>
          ps[k].pt.originalIndex < |points| && Present(points[ps[k].pt.originalIndex])
          && ps[k].pt.gap == MissingBefore(points, ps[k].pt.originalIndex))
    && (forall j, k :: 0 <= j < k < |ps| ==> ps[j].pt.originalIndex < ps[k].pt.originalIndex)
  }

  lemma SampleIsPlottedScan(points: seq<Observation>, f: seq<Pt>, ks: seq<nat>, e: Extent)
    requires ScanOf(points, f) && Increasing(ks) && InRange(ks, |f|) && e.Extent?
    ensures PlottedScan(points, PlotAll(e, Select(f, ks)))
  {
    forall p { PlotKeepsPoint(e, p); }
    hide Plot;
  }

  lemma SplitScan(points: seq<Observation>, front: seq<Plotted>, back: seq<Plotted>)
    requires PlottedScan(points, front + back)
    ensures PlottedScan(points, front) && PlottedScan(points, back)
    ensures front != [] && back != [] ==> LastOf(front).originalIndex < back[0].pt.originalIndex
  {
    var all := front + back;
    assert front == all[..|front|] && back == all[|front|..];
    if front != [] && back != [] {
      assert all[|front| - 1] == front[|front| - 1] && all[|front|] == back[0];
    }
  }

  /** Cutting an ordered scan keeps order inside every segment and from each segment to the next. */
  lemma {:induction false} SegmentsInOrder(points: seq<Observation>, segments: seq<seq<Plotted>>)
    requires PlottedScan(points, Joined(segments)) && forall s :: 0 <= s < |segments| ==> segments[s] != []
    ensures forall s :: 0 <= s < |segments| ==> PlottedScan(points, segments[s])
    ensures forall s, t :: 0 <= s && t == s + 1 < |segments| ==>
              LastOf(segments[s]).originalIndex < segments[t][0].pt.originalIndex
    ensures segments != [] ==> Joined(segments) != [] && LastOf(Joined(segments)) == LastOf(segments[|segments| - 1])
  {
    if segments != [] {
      var n := |segments| - 1;
      var init := segments[..n];
      SplitScan(points, Joined(init), segments[n]);
      hide PlottedScan;
      SegmentsInOrder(points, init);
      assert forall s :: 0 <= s < n ==> init[s] == segments[s];
    }
  }

  /** Between two points of one segment every source observation is present; between two segments one is missing. */
  ghost predicate NoBridging(points: seq<Observation>, segments: seq<seq<Plotted>>) {
    && (forall s, i, j, m ::
          0 <= s < |segments| && 0 <= i < |segments[s]| && 0 <= j < |segments[s]|
          && segments[s][i].pt.originalIndex <= m <= segments[s][j].pt.originalIndex ==>
            m < |points| && Present(points[m]))
    && (forall s, t :: 0 <= s && t == s + 1 < |segments| ==>
          segments[s] != [] && segments[t] != []
          && MissingBetween(points, LastOf(segments[s]).originalIndex, segments[t][0].pt.originalIndex))
  }

  ghost predicate MissingBetween(points: seq<Observation>, lo: nat, hi: nat) {
    exists m :: lo < m < hi && m < |points| && !Present(points[m])
  }

  lemma SegmentIsUnbroken(points: seq<Observation>, segment: seq<Plotted>, i: nat, j: nat, m: nat)
    requires PlottedScan(points, segment) && OneGap(segment) && i < |segment| && j < |segment|
    requires segment[i].pt.originalIndex <= m <= segment[j].pt.originalIndex
    ensures m < |points| && Present(points[m])
  {
    MissingGrows(points, segment[i].pt.originalIndex, segment[j].pt.originalIndex);
  }

  lemma CutIsMissing(points: seq<Observation>, left: seq<Plotted>, right: seq<Plotted>)
    requires PlottedScan(points, left) && PlottedScan(points, right) && left != [] && right != []
    requires LastOf(left).originalIndex < right[0].pt.originalIndex && LastOf(left).gap != right[0].pt.gap
    ensures MissingBetween(points, LastOf(left).originalIndex, right[0].pt.originalIndex)
  {
    MissingGrows(points, LastOf(left).originalIndex, right[0].pt.originalIndex);
  }

  lemma SegmentsNeverBridge(points: seq<Observation>, segments: seq<seq<Plotted>>)
    requires PlottedScan(points, Joined(segments)) && Segmentation(segments)
    ensures NoBridging(points, segments)
  {
    SegmentsInOrder(points, segments);
    hide PlottedScan, OneGap, MissingBetween;
    forall s, i, j, m | 0 <= s < |segments| && 0 <= i < |segments[s]| && 0 <= j < |segments[s]|
      && segments[s][i].pt.originalIndex <= m <= segments[s][j].pt.originalIndex
      ensures m < |points| && Present(points[m])
    {
      SegmentIsUnbroken(points, segments[s], i, j, m);
    }
    forall s, t | 0 <= s && t == s + 1 < |segments|
      ensures MissingBetween(points, LastOf(segments[s]).originalIndex, segments[t][0].pt.originalIndex)
    {
      CutIsMissing(points, segments[s], segments[t]);
    }
  }

  lemma SelectedFrom(f: seq<Pt>, ks: seq<nat>)
    requires InRange(ks, |f|)
    ensures forall p :: p in Select(f, ks) ==> p in f
  { }

  /** What one curve shows: the extent, the displayed points and their polylines. */
  datatype Curve = Curve(extent: Extent, displayed: seq<Pt>, segments: seq<seq<Plotted>>)

  method RenderCurve(points: seq<Observation>) returns (curve: Option<Curve>)
    ensures curve.None? <==> |Scanned(points, |points|)| < 2
    ensures curve.Some? ==>
              var f := Scanned(points, |points|);
              && TightAround(curve.value.extent, f)
              && curve.value.displayed == Select(f, Kept(f)) && |curve.value.displayed| <= 500
              && (forall p :: p in curve.value.displayed ==> ReadOff(points, p))
              && curve.value.extent.Extent?
              && Joined(curve.value.segments) == PlotAll(curve.value.extent, curve.value.displayed)
              && Segmentation(curve.value.segments) && NoBridging(points, curve.value.segments)
  {
    var finite, extent := Scan(points);
    if |finite| < 2 { return None; }
    var displayed := Downsample(finite);
    var segments := BuildSegments(extent, displayed);
    ScanIsExact(points, |points|);
    SampleIsOrderedAndBounded(finite);
    ScanReadsTheSource(points);
    SelectedFrom(finite, Kept(finite));
    SampleIsPlottedScan(points, finite, Kept(finite), extent);
    SegmentsNeverBridge(points, segments);
    hide *;
    return Some(Curve(extent, displayed, segments));
  }

  /** The extremes of the whole series are among the displayed points, so the drawing touches all it should. */
  lemma ExtremesAreDisplayed(f: seq<Pt>, e: Extent) returns (low: nat, high: nat)
    requires f != [] && TightAround(e, f)
    ensures low < |f| && low in Kept(f) && f[low].y == e.minY
    ensures high < |f| && high in Kept(f) && f[high].y == e.maxY
  {
    var i :| 0 <= i < |f| && f[i].y == e.minY;
    var j :| 0 <= j < |f| && f[j].y == e.maxY;
    var unused;
    low, unused := EnvelopeSurvives(f, i);
    unused, high := EnvelopeSurvives(f, j);
    hide Kept;
  }
}
