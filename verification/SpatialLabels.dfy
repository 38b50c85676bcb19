/** Label placement of the spatial view (Web/command_center_spatial.js, draw): greedy, in node order, no overlap. */
module SpatialLabels {
  /** The label of a node: its baseline starts at (x, y), it is w wide and LINE high. */
  datatype Label = Label(x: real, y: real, w: real, selected: bool)

  const LINE: real := 10.0

  predicate HighDetail(zoom: real) {
    zoom >= 1.35
  }

  /** The collision test of a new label `a` against a drawn one `b`. */
  predicate Collides(a: Label, b: Label) {
    a.x < b.x + b.w && a.x + a.w > b.x && a.y - LINE < b.y && a.y > b.y - LINE
  }

  predicate Candidate(zoom: real, a: Label) {
    HighDetail(zoom) || a.selected
  }

  /** `drawn` lists the labels that are drawn, by position, in drawing order. */
  ghost predicate Greedy(zoom: real, labels: seq<Label>, drawn: seq<nat>, n: nat)
    requires n <= |labels|
  {
    && (forall k :: 0 <= k < |drawn| ==> drawn[k] < n)
    && (forall j, k :: 0 <= j < k < |drawn| ==> drawn[j] < drawn[k])
    && (forall i :: 0 <= i < n ==>
          (i in drawn <==> Candidate(zoom, labels[i]) && (labels[i].selected || !Blocked(labels, drawn, i))))
  }

  /** An earlier drawn label is in the way of label i. */
  ghost predicate Blocked(labels: seq<Label>, drawn: seq<nat>, i: nat)
    requires i < |labels|
  {
    exists j :: j in drawn && j < i && Collides(labels[i], labels[j])
  }

  method DrawLabels(zoom: real, labels: seq<Label>) returns (drawn: seq<nat>)
    ensures Greedy(zoom, labels, drawn, |labels|)
  {
    drawn := [];
    for i := 0 to |labels|
      invariant Greedy(zoom, labels, drawn, i)
    {
      if HighDetail(zoom) || labels[i].selected {
        var collides := false;
        for k := 0 to |drawn|
          invariant !collides && forall m :: 0 <= m < k ==> !Collides(labels[i], labels[drawn[m]])
        {
          if Collides(labels[i], labels[drawn[k]]) {
            collides := true;
            break;
          }
        }
        BlockedIffFound(labels, drawn, i);
        ghost var before := drawn;
        if !collides || labels[i].selected { drawn := drawn + [i]; }
        LaterLabelsDoNotBlock(zoom, labels, before, drawn, i);
      } else {
        LaterLabelsDoNotBlock(zoom, labels, drawn, drawn, i);
      }
    }
  }

  lemma BlockedIffFound(labels: seq<Label>, drawn: seq<nat>, i: nat)
    requires i < |labels| && forall k :: 0 <= k < |drawn| ==> drawn[k] < i
    ensures Blocked(labels, drawn, i) <==> exists m :: 0 <= m < |drawn| && Collides(labels[i], labels[drawn[m]])
  {
    hide Collides;
    if m :| 0 <= m < |drawn| && Collides(labels[i], labels[drawn[m]]) {
      assert drawn[m] in drawn;
    }
  }

  lemma LaterLabelsDoNotBlock(zoom: real, labels: seq<Label>, before: seq<nat>, after: seq<nat>, i: nat)
    requires i < |labels| && Greedy(zoom, labels, before, i)
    requires after == before || after == before + [i]
    requires i in after <==> Candidate(zoom, labels[i]) && (labels[i].selected || !Blocked(labels, before, i))
    ensures Greedy(zoom, labels, after, i + 1)
  {
    hide Collides, Candidate;
    assert forall j :: j in after <==> j in before || (j == i && i in after);
    forall j | 0 <= j <= i ensures Blocked(labels, after, j) <==> Blocked(labels, before, j) {
      if b :| b in before && b < j && Collides(labels[j], labels[b]) { assert b in after; }
    }
    hide Blocked;
  }

  // ---------------------------------------------------------------- what greedy placement guarantees

  lemma CollidesIsSymmetric(a: Label, b: Label)
    ensures Collides(a, b) <==> Collides(b, a)
  { }

  /** For labels with text the test is exact: it holds when and only when the boxes share an interior point. */
  lemma CollidesIffBoxesOverlap(a: Label, b: Label)
    requires a.w > 0.0 && b.w > 0.0
    ensures Collides(a, b) <==>
              exists px, py :: Inside(a, px, py) && Inside(b, px, py)
  {
    if Collides(a, b) {
      var left, right := if a.x > b.x then a.x else b.x, if a.x + a.w < b.x + b.w then a.x + a.w else b.x + b.w;
      var top, bottom := if a.y > b.y then a.y else b.y, if a.y < b.y then a.y else b.y;
      assert Inside(a, (left + right) / 2.0, (top - 10.0 + bottom) / 2.0);
      assert Inside(b, (left + right) / 2.0, (top - 10.0 + bottom) / 2.0);
    }
  }

  predicate Inside(a: Label, px: real, py: real) {
    a.x < px < a.x + a.w && a.y - 10.0 < py < a.y
  }

  /** Drawn labels never overlap, save where the selected one insists; at low zoom only the selected one is drawn. */
  lemma DrawnLabelsDoNotOverlap(zoom: real, labels: seq<Label>, drawn: seq<nat>, i: nat, j: nat)
    requires Greedy(zoom, labels, drawn, |labels|) && i in drawn && j in drawn && i != j
    ensures i < |labels| && j < |labels|
    ensures !labels[i].selected && !labels[j].selected ==> !Collides(labels[i], labels[j])
    ensures zoom < 1.35 ==> labels[i].selected && labels[j].selected
  {
    CollidesIsSymmetric(labels[i], labels[j]);
    hide Collides;
    if i > j {
      assert Collides(labels[i], labels[j]) ==> Blocked(labels, drawn, i);
    } else {
      assert Collides(labels[j], labels[i]) ==> Blocked(labels, drawn, j);
    }
  }

  /** The selected label is drawn at any zoom, and from 1.35 on so is every label that nothing drawn before overlaps. */
  lemma SelectedAndFreeLabelsAreDrawn(zoom: real, labels: seq<Label>, drawn: seq<nat>, i: nat)
    requires Greedy(zoom, labels, drawn, |labels|) && i < |labels|
    ensures labels[i].selected ==> i in drawn
    ensures zoom >= 1.35 && (forall j :: j in drawn && j < i ==> !Collides(labels[i], labels[j])) ==> i in drawn
  {
    hide Collides;
  }

  /** No suppressed label could have been kept: each overlaps one that was drawn before it. */
  lemma SuppressedLabelsOverlapADrawnOne(zoom: real, labels: seq<Label>, drawn: seq<nat>, i: nat) returns (j: nat)
    requires Greedy(zoom, labels, drawn, |labels|) && i < |labels| && i !in drawn && zoom >= 1.35
    ensures j in drawn && j < i && Collides(labels[i], labels[j])
  {
    assert Blocked(labels, drawn, i);
    j :| j in drawn && j < i && Collides(labels[i], labels[j]);
  }

  /** The greedy set is the only one of its kind. */
  lemma {:induction false} GreedyIsUnique(zoom: real, labels: seq<Label>, a: seq<nat>, b: seq<nat>, n: nat)
    requires n <= |labels| && Greedy(zoom, labels, a, |labels|) && Greedy(zoom, labels, b, |labels|)
    ensures forall i :: 0 <= i < n ==> (i in a <==> i in b)
  {
    hide Collides, Candidate;
    if n > 0 {
      GreedyIsUnique(zoom, labels, a, b, n - 1);
      assert Blocked(labels, a, n - 1) <==> Blocked(labels, b, n - 1);
    }
  }
}
