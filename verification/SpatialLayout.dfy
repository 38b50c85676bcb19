/**
  The zone layout of the spatial view (Web/command_center_spatial.js, updateFromPayload): a counting pass, then a
  placing pass that packs the nodes of every zone into a grid inside the zone's band.
 */
module SpatialLayout {
  import opened Common

  /** What the layout reads of an incoming node; an absent x is 0, an absent zone the empty string. */
  datatype Spot = Spot(zone: string, x: real)

  const ROW_HEIGHT: int := 130
  const MAX_COLUMNS: nat := 14

  function ZoneOf(n: Spot): string {
    if n.zone == "" then "DISCOVERED" else n.zone
  }

  /** The band of a zone: its last position in the order, or 0 if it is not listed. */
  function Rank(order: seq<string>, z: string): nat {
    if order == [] then 0
    else if order[|order| - 1] == z then |order| - 1
    else Rank(order[..|order| - 1], z)
  }

  lemma {:induction false} RankIsLastPosition(order: seq<string>, z: string)
    ensures z in order ==> Rank(order, z) < |order| && order[Rank(order, z)] == z
    ensures forall k :: Rank(order, z) < k < |order| ==> order[k] != z
    ensures z !in order ==> Rank(order, z) == 0
  {
    if order != [] && order[|order| - 1] != z {
      RankIsLastPosition(order[..|order| - 1], z);
      assert z in order <==> z in order[..|order| - 1];
    }
  }

  /** Math.ceil(Math.sqrt(n)) */
  function CeilSqrt(n: nat): (c: nat)
    ensures c * c >= n && (c > 0 ==> (c - 1) * (c - 1) < n)
  {
    if n == 0 then 0
    else var c := CeilSqrt(n - 1); if c * c >= n then c else c + 1
  }

  function Columns(total: nat): (c: nat)
    ensures 1 <= c <= MAX_COLUMNS
  {
    Max(1, Min(MAX_COLUMNS, CeilSqrt(total)))
  }

  /** JavaScript's x % 30: the sign is that of x. */
  function Rem30(x: real): (r: real)
    ensures -30.0 < r < 30.0
  {
    var q := x / 30.0;
    var t := if q >= 0.0 then q.Floor else -((-q).Floor);
    x - 30.0 * t as real
  }

  /** Rem30 takes off whole thirties, towards zero. */
  lemma Rem30IsRemainder(x: real) returns (thirties: int)
    ensures x == 30.0 * thirties as real + Rem30(x)
    ensures x >= 0.0 ==> Rem30(x) >= 0.0
    ensures x <= 0.0 ==> Rem30(x) <= 0.0
  {
    var q := x / 30.0;
    thirties := if q >= 0.0 then q.Floor else -((-q).Floor);
  }

  datatype Point = Point(x: real, y: real)

  /** The cell of the idx-th of `total` nodes of band `rank`, shifted sideways by the node's own x. */
  function Cell(rank: nat, idx: nat, total: nat, x: real): Point {
    var cols := Columns(total);
    Point((idx % cols) as real * 90.0 - ((cols - 1) as real / 2.0) * 90.0 + Rem30(x),
          (rank * ROW_HEIGHT + 35 + (idx / cols) * 22) as real)
  }

  /** The columns lie symmetrically about the middle, 90 apart, up to each node's own shift. */
  lemma GridIsCentred(rank: nat, i: nat, j: nat, total: nat, x: real, y: real)
    requires i % Columns(total) + j % Columns(total) == Columns(total) - 1
    ensures Cell(rank, i, total, x).x + Cell(rank, j, total, y).x == Rem30(x) + Rem30(y)
  {
    hide Columns, Rem30;
  }

  /**
    The grid is filled row by row: the first node stands 35 below the top of its 130-high band, in the leftmost of
    the columns; the next node stands 90 further right, or 22 lower in the leftmost column once the row is full.
   */
  lemma GridIsFilledRowByRow(rank: nat, idx: nat, total: nat)
    ensures Cell(rank, 0, total, 0.0) == Point(-45.0 * (Columns(total) - 1) as real, (130 * rank + 35) as real)
    ensures var here, next := Cell(rank, idx, total, 0.0), Cell(rank, idx + 1, total, 0.0);
            if (idx + 1) % Columns(total) != 0 then next == Point(here.x + 90.0, here.y)
            else next == Point(Cell(rank, 0, total, 0.0).x, here.y + 22.0)
  {
    var cols := Columns(total);
    assert Rem30(0.0) == 0.0;
    NextCell(idx, cols);
    hide Columns, Rem30;
  }

  lemma NextCell(idx: nat, cols: nat)
    requires cols >= 1
    ensures 0 / cols == 0 && 0 % cols == 0
    ensures if (idx + 1) % cols != 0 then (idx + 1) / cols == idx / cols && (idx + 1) % cols == idx % cols + 1
            else (idx + 1) / cols == idx / cols + 1
  {
    var q, r := idx / cols, idx % cols;
    assert idx == cols * q + r;
    Divided(0, 0, cols);
    if r + 1 < cols {
      Divided(q, r + 1, cols);
    } else {
      Divided(q + 1, 0, cols);
      assert cols * (q + 1) == cols * q + cols;
    }
  }

  lemma Divided(q: nat, r: nat, cols: nat)
    requires r < cols
    ensures (cols * q + r) / cols == q && (cols * q + r) % cols == r
  {
    var n := cols * q + r;
    QuotientBound(n, cols, q);
    QuotientBound(n, cols, q + 1);
    assert (q + 1) * cols == cols * q + cols && q * cols == cols * q;
    assert n == cols * (n / cols) + n % cols;
  }

  /** A node's own x shifts it sideways by the remainder of thirty, and never down. */
  lemma OwnShift(rank: nat, idx: nat, total: nat, x: real)
    ensures Cell(rank, idx, total, x) == Point(Cell(rank, idx, total, 0.0).x + Rem30(x), Cell(rank, idx, total, 0.0).y)
  {
    assert Rem30(0.0) == 0.0;
    hide Columns, Rem30;
  }

  /** As many columns as the square root rounded up, but at least one and at most fourteen. */
  lemma ColumnsAreTheRoot(total: nat, c: nat)
    requires c * c >= total && (c > 0 ==> (c - 1) * (c - 1) < total)
    ensures Columns(total) == if c == 0 then 1 else if c <= 14 then c else 14
  {
    RootIsUnique(total, c, CeilSqrt(total));
    hide CeilSqrt;
  }

  lemma RootIsUnique(n: nat, a: nat, b: nat)
    requires a * a >= n && (a > 0 ==> (a - 1) * (a - 1) < n)
    requires b * b >= n && (b > 0 ==> (b - 1) * (b - 1) < n)
    ensures a == b
  {
    if a < b { SquareMonotone(a, b - 1); } else if b < a { SquareMonotone(b, a - 1); }
  }

  /** How many of these nodes are in zone z. */
  function InZone(ns: seq<Spot>, z: string): nat {
    if ns == [] then 0
    else InZone(ns[..|ns| - 1], z) + if ZoneOf(ns[|ns| - 1]) == z then 1 else 0
  }

  /** Where node i of the payload belongs. */
  function Target(order: seq<string>, ns: seq<Spot>, i: nat): Point
    requires i < |ns|
  {
    var z := ZoneOf(ns[i]);
    Cell(Rank(order, z), InZone(ns[..i], z), InZone(ns, z), ns[i].x)
  }

  function Lookup(m: map<string, nat>, z: string): nat {
    if z in m then m[z] else 0
  }

  method CountZones(ns: seq<Spot>) returns (countsByZone: map<string, nat>)
    ensures forall z :: Lookup(countsByZone, z) == InZone(ns, z)
  {
    hide ZoneOf;
    countsByZone := map[];
    for i := 0 to |ns|
      invariant forall z :: Lookup(countsByZone, z) == InZone(ns[..i], z)
    {
      assert ns[..i + 1][..i] == ns[..i];
      var z := ZoneOf(ns[i]);
      countsByZone := countsByZone[z := Lookup(countsByZone, z) + 1];
    }
    assert ns[..|ns|] == ns;
  }

  /** Both passes: the counts and the running indices agree with the whole payload and its prefixes. */
  method Place(order: seq<string>, ns: seq<Spot>) returns (targets: seq<Point>)
    ensures |targets| == |ns| && forall i :: 0 <= i < |ns| ==> targets[i] == Target(order, ns, i)
  {
    hide Cell, ZoneOf, Rank;
    var countsByZone := CountZones(ns);
    var indicesByZone: map<string, nat> := map[];
    targets := [];
    for i := 0 to |ns|
      invariant |targets| == i && forall j :: 0 <= j < i ==> targets[j] == Target(order, ns, j)
      invariant forall z :: Lookup(indicesByZone, z) == InZone(ns[..i], z)
    {
      assert ns[..i + 1][..i] == ns[..i];
      var z := ZoneOf(ns[i]);
      var idx := Lookup(indicesByZone, z);
      indicesByZone := indicesByZone[z := idx + 1];
      targets := targets + [Cell(Rank(order, z), idx, Lookup(countsByZone, z), ns[i].x)];
    }
  }

  // ---------------------------------------------------------------- separation

  function Distance(a: Point, b: Point): real {
    var dx := if a.x < b.x then b.x - a.x else a.x - b.x;
    var dy := if a.y < b.y then b.y - a.y else a.y - b.y;
    if dx >= dy then dx else dy
  }

  lemma SameColumnDifferentRow(i: nat, j: nat, cols: nat)
    requires cols >= 1 && i < j && i % cols == j % cols
    ensures i / cols < j / cols
  {
    assert i == cols * (i / cols) + i % cols && j == cols * (j / cols) + j % cols;
    assert cols * (i / cols) < cols * (j / cols);
  }

  lemma CellsApart(rank: nat, i: nat, j: nat, total: nat, x: real, y: real)
    requires i < j
    ensures Distance(Cell(rank, i, total, x), Cell(rank, j, total, y)) >= 22.0
    ensures i % Columns(total) != j % Columns(total) ==>
              Distance(Cell(rank, i, total, x), Cell(rank, j, total, y)) > 30.0
  {
    var cols := Columns(total);
    hide Columns, Rem30;
    if i % cols == j % cols {
      SameColumnDifferentRow(i, j, cols);
    }
  }

  lemma {:induction false} IndicesGrow(ns: seq<Spot>, i: nat, j: nat, z: string)
    requires i < j <= |ns| && ZoneOf(ns[i]) == z
    ensures InZone(ns[..i], z) < InZone(ns[..j], z)
  {
    assert ns[..j][..j - 1] == ns[..j - 1];
    if j == i + 1 {
      assert ns[..j][j - 1] == ns[i];
    } else {
      IndicesGrow(ns, i, j - 1, z);
    }
  }

  /** Two nodes of one zone never clump: at least 22 apart, whatever the payload, in the maximum norm. */
  lemma NodesOfAZoneAreApart(order: seq<string>, ns: seq<Spot>, i: nat, j: nat)
    requires i < j < |ns| && ZoneOf(ns[i]) == ZoneOf(ns[j])
    ensures Distance(Target(order, ns, i), Target(order, ns, j)) >= 22.0
  {
    var z := ZoneOf(ns[i]);
    IndicesGrow(ns, i, j, z);
    CellsApart(Rank(order, z), InZone(ns[..i], z), InZone(ns[..j], z), InZone(ns, z), ns[i].x, ns[j].x);
    hide Cell, Distance;
  }

  // ---------------------------------------------------------------- bands

  lemma SquareMonotone(a: nat, b: nat)
    requires a <= b
    ensures a * a <= b * b
  { }

  lemma CeilSqrtAtMost(n: nat, k: nat)
    ensures CeilSqrt(n) <= k <==> n <= k * k
  {
    var s := CeilSqrt(n);
    if s <= k { SquareMonotone(s, k); } else { SquareMonotone(k, s - 1); }
  }

  lemma TimesMonotone(a: nat, b: nat, c: nat)
    requires a <= b
    ensures a * c <= b * c
  { }

  /** Fewer than five full rows precede the last of n nodes exactly when n is at most thirty. */
  lemma FiveRowsHoldThirty(n: nat)
    requires n > 0
    ensures (n - 1) / Columns(n) <= 4 <==> n <= 30
  {
    var s, c := CeilSqrt(n), Columns(n);
    QuotientBound(n - 1, c, 5);
    CeilSqrtAtMost(n, 5);
    CeilSqrtAtMost(n, 6);
    CeilSqrtAtMost(n, 14);
    if s <= 5 {
      TimesMonotone(s, 5, s);
    } else if s > 6 {
      TimesMonotone(6, s - 1, s - 1);
    }
    hide CeilSqrt;
  }

  lemma QuotientBound(a: nat, c: nat, k: nat)
    requires c > 0
    ensures a / c < k <==> a < k * c
  {
    assert a == c * (a / c) + a % c;
    if a / c < k { assert c * (a / c + 1) <= c * k; } else { assert c * (a / c) >= c * k; }
  }

  lemma {:induction false} IndexWithin(ns: seq<Spot>, i: nat, z: string)
    requires i < |ns| && ZoneOf(ns[i]) == z
    ensures InZone(ns[..i], z) < InZone(ns, z)
  {
    IndicesGrow(ns, i, |ns|, z);
    assert ns[..|ns|] == ns;
  }

  /** The last node of a zone carries the highest index. */
  lemma {:induction false} LastOfZone(ns: seq<Spot>, z: string) returns (i: nat)
    requires InZone(ns, z) > 0
    ensures i < |ns| && ZoneOf(ns[i]) == z && InZone(ns[..i], z) == InZone(ns, z) - 1
  {
    var n := |ns| - 1;
    if ZoneOf(ns[n]) == z {
      i := n;
    } else {
      i := LastOfZone(ns[..n], z);
      assert ns[..n][..i] == ns[..i];
    }
  }

  ghost predicate InsideBand(order: seq<string>, ns: seq<Spot>, i: nat)
    requires i < |ns|
  {
    var band := Rank(order, ZoneOf(ns[i])) * ROW_HEIGHT;
    band as real <= Target(order, ns, i).y < (band + ROW_HEIGHT) as real
  }

  lemma RowFour(rank: nat, row: nat)
    ensures var band := rank * ROW_HEIGHT;
            band as real <= (band + 35 + row * 22) as real < (band + ROW_HEIGHT) as real <==> row <= 4
  { }

  lemma CellHeight(rank: nat, idx: nat, total: nat, x: real)
    ensures Cell(rank, idx, total, x).y == (rank * ROW_HEIGHT + 35 + (idx / Columns(total)) * 22) as real
  {
    hide Columns, Rem30;
  }

  lemma InsideBandIffRow(order: seq<string>, ns: seq<Spot>, i: nat)
    requires i < |ns|
    ensures var z := ZoneOf(ns[i]);
            InsideBand(order, ns, i) <==> InZone(ns[..i], z) / Columns(InZone(ns, z)) <= 4
  {
    hide Columns, Rem30, Cell, Rank, InZone, ZoneOf;
    var z := ZoneOf(ns[i]);
    CellHeight(Rank(order, z), InZone(ns[..i], z), InZone(ns, z), ns[i].x);
    RowFour(Rank(order, z), InZone(ns[..i], z) / Columns(InZone(ns, z)));
  }

  lemma QuotientMonotone(a: nat, b: nat, c: nat)
    requires a <= b && c > 0
    ensures a / c <= b / c
  {
    QuotientBound(a, c, b / c + 1);
    QuotientBound(b, c, b / c + 1);
  }

  /** A zone's nodes all stay inside its own band exactly when there are at most thirty of them. */
  lemma BandHoldsThirty(order: seq<string>, ns: seq<Spot>, z: string)
    ensures (forall i :: 0 <= i < |ns| && ZoneOf(ns[i]) == z ==> InsideBand(order, ns, i)) <==> InZone(ns, z) <= 30
  {
    hide InsideBand, Columns, InZone, ZoneOf;
    var n := InZone(ns, z);
    if n > 30 {
      FiveRowsHoldThirty(n);
      var last := LastOfZone(ns, z);
      InsideBandIffRow(order, ns, last);
    }
    forall i | 0 <= i < |ns| && ZoneOf(ns[i]) == z && n <= 30 ensures InsideBand(order, ns, i) {
      IndexWithin(ns, i, z);
      FiveRowsHoldThirty(n);
      InsideBandIffRow(order, ns, i);
      QuotientMonotone(InZone(ns[..i], z), n - 1, Columns(n));
    }
  }

  /** Different zones among these nodes have different bands. */
  ghost predicate OwnBands(order: seq<string>, ns: seq<Spot>) {
    forall i, j :: 0 <= i < |ns| && 0 <= j < |ns| && ZoneOf(ns[i]) != ZoneOf(ns[j]) ==>
      Rank(order, ZoneOf(ns[i])) != Rank(order, ZoneOf(ns[j]))
  }

  /** So they have when every zone is listed. */
  lemma ListedZonesHaveOwnBands(order: seq<string>, ns: seq<Spot>)
    requires forall i :: 0 <= i < |ns| ==> ZoneOf(ns[i]) in order
    ensures OwnBands(order, ns)
  {
    hide Rank, ZoneOf;
    forall i, j | 0 <= i < |ns| && 0 <= j < |ns| && ZoneOf(ns[i]) != ZoneOf(ns[j])
      ensures Rank(order, ZoneOf(ns[i])) != Rank(order, ZoneOf(ns[j]))
    {
      RankIsLastPosition(order, ZoneOf(ns[i]));
      RankIsLastPosition(order, ZoneOf(ns[j]));
    }
  }

  lemma HeightInBand(order: seq<string>, ns: seq<Spot>, i: nat)
    requires i < |ns| && InZone(ns, ZoneOf(ns[i])) <= 30
    ensures var band := Rank(order, ZoneOf(ns[i])) * ROW_HEIGHT;
            (band + 35) as real <= Target(order, ns, i).y <= (band + 123) as real
  {
    hide Columns, Rem30, Cell, Rank, InZone, ZoneOf, InsideBand;
    var z := ZoneOf(ns[i]);
    BandHoldsThirty(order, ns, z);
    InsideBandIffRow(order, ns, i);
    CellHeight(Rank(order, z), InZone(ns[..i], z), InZone(ns, z), ns[i].x);
    RowHeight(Rank(order, z), InZone(ns[..i], z) / Columns(InZone(ns, z)));
  }

  lemma RowHeight(rank: nat, row: nat)
    requires row <= 4
    ensures rank * ROW_HEIGHT + 35 <= rank * ROW_HEIGHT + 35 + row * 22 <= rank * ROW_HEIGHT + 123
  { }

  lemma BandsApart(p: nat, q: nat, a: Point, b: Point)
    requires p < q
    requires a.y <= (p * ROW_HEIGHT + 123) as real && (q * ROW_HEIGHT + 35) as real <= b.y
    ensures Distance(a, b) >= 22.0 && Distance(b, a) >= 22.0
  {
    assert p * ROW_HEIGHT + ROW_HEIGHT <= q * ROW_HEIGHT;
  }

  /** With zones in bands of their own and at most thirty nodes each, no two nodes of the whole payload clump. */
  lemma AllNodesAreApart(order: seq<string>, ns: seq<Spot>, i: nat, j: nat)
    requires i < j < |ns| && OwnBands(order, ns) && forall z :: InZone(ns, z) <= 30
    ensures Distance(Target(order, ns, i), Target(order, ns, j)) >= 22.0
  {
    var y, z := ZoneOf(ns[i]), ZoneOf(ns[j]);
    hide ZoneOf, Rank, InZone, Target, Distance;
    if y == z {
      NodesOfAZoneAreApart(order, ns, i, j);
    } else {
      HeightInBand(order, ns, i);
      HeightInBand(order, ns, j);
      if Rank(order, y) < Rank(order, z) {
        BandsApart(Rank(order, y), Rank(order, z), Target(order, ns, i), Target(order, ns, j));
      } else {
        BandsApart(Rank(order, z), Rank(order, y), Target(order, ns, j), Target(order, ns, i));
      }
    }
  }

  /** A node without a zone counts as DISCOVERED; any other is in the zone it names. */
  lemma ZoneIsTheNodesOwn(n: Spot)
    ensures n.zone != "" ==> ZoneOf(n) == n.zone
    ensures n.zone == "" ==> ZoneOf(n) == "DISCOVERED"
  { }

  /** A zone that is not listed shares the first band: its node may land right on another zone's. */
  lemma UnlistedZonesMayClump()
    ensures var order, ns := ["ACTIVE"], [Spot("ACTIVE", 0.0), Spot("ELSEWHERE", 0.0)];
            Target(order, ns, 0) == Target(order, ns, 1)
  {
    var order, ns := ["ACTIVE"], [Spot("ACTIVE", 0.0), Spot("ELSEWHERE", 0.0)];
    assert order[..0] == [] && ns[..0] == [] && ns[..1] == [ns[0]] && ns[..1][..0] == [];
    assert InZone(ns[..1], "ELSEWHERE") == 0 && InZone(ns[..1], "ACTIVE") == 1;
    assert Rank(order, "ACTIVE") == 0 && Rank(order, "ELSEWHERE") == 0;
    hide CeilSqrt;
  }

  /** The grid of n nodes is no taller than wide exactly up to 196 nodes. */
  lemma GridFitsItsWidthUpTo196(n: nat)
    requires n > 0
    ensures (n - 1) / Columns(n) + 1 <= Columns(n) <==> n <= 196
  {
    var c := Columns(n);
    QuotientBound(n - 1, c, c);
    CeilSqrtAtMost(n, 14);
    hide CeilSqrt;
  }
}
