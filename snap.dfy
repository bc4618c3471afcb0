/**
 * Choosing the snap anchor nearest to the current scroll offset
 * (`calcNearestChild`): a left-to-right scan that keeps the first anchor of
 * smallest distance.
 */
module Snap {
  import opened Geometry

  /**
   * The index the scan ends with after looking at every anchor: the first
   * anchor starts the minimum and a later one replaces it only when strictly
   * closer. Zero when there are no anchors.
   */
  function NearestIndex(anchors: seq<Vec>, p: Vec): (i: nat)
    ensures |anchors| == 0 ==> i == 0
    ensures |anchors| > 0 ==> i < |anchors|
  {
    if |anchors| <= 1 then 0
    else
      var k := NearestIndex(anchors[..|anchors| - 1], p);
      if SqDistance(p, anchors[|anchors| - 1]) < SqDistance(p, anchors[k]) then |anchors| - 1 else k
  }

  /** `i` is an anchor no farther from `p` than any other, and strictly closer than every anchor before it. */
  ghost predicate IsFirstNearest(anchors: seq<Vec>, p: Vec, i: int)
  {
    0 <= i < |anchors| &&
    (forall j :: 0 <= j < |anchors| ==> SqDistance(p, anchors[i]) <= SqDistance(p, anchors[j])) &&
    (forall j :: 0 <= j < i ==> SqDistance(p, anchors[i]) < SqDistance(p, anchors[j]))
  }

  /** The scan finds the nearest anchor, and on a tie the one with the lowest index. */
  lemma {:induction false} NearestIndexIsFirstNearest(anchors: seq<Vec>, p: Vec)
    requires |anchors| > 0
    ensures IsFirstNearest(anchors, p, NearestIndex(anchors, p))
  {
    if |anchors| > 1 {
      var init := anchors[..|anchors| - 1];
      NearestIndexIsFirstNearest(init, p);
      var k := NearestIndex(init, p);
      assert forall j :: 0 <= j < |init| ==> init[j] == anchors[j];
    }
  }

  /** At most one index is the first nearest anchor, so the scan's answer is the only one. */
  lemma FirstNearestUnique(anchors: seq<Vec>, p: Vec, i: int, j: int)
    requires IsFirstNearest(anchors, p, i) && IsFirstNearest(anchors, p, j)
    ensures i == j
  {
    assert SqDistance(p, anchors[i]) == SqDistance(p, anchors[j]);
  }

  /** Anchors (0,0), (100,0), (100,0) seen from (100,0): the first of the two equally near anchors wins. */
  lemma TieGoesToLowestIndex()
    ensures NearestIndex([Vec(0.0, 0.0), Vec(100.0, 0.0), Vec(100.0, 0.0)], Vec(100.0, 0.0)) == 1
  {
    var anchors := [Vec(0.0, 0.0), Vec(100.0, 0.0), Vec(100.0, 0.0)];
    var p := Vec(100.0, 0.0);
    assert anchors[..1] == [Vec(0.0, 0.0)];
    assert anchors[..2] == [Vec(0.0, 0.0), Vec(100.0, 0.0)];
    assert anchors[..2][..1] == [Vec(0.0, 0.0)];
    assert NearestIndex(anchors[..2], p) == 1;
  }
}
