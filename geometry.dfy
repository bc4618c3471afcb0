/**
 * Points, bounding boxes and the small coordinate helpers of the scroller:
 * container-relative positions and the distance used to pick a snap anchor.
 */
module Geometry {

  /** A point or offset pair, such as `{ x, y }` in the scroller. */
  datatype Vec = Vec(x: real, y: real)

  /** A bounding box as returned by the browser's geometry query. */
  datatype Rect = Rect(left: real, top: real, width: real, height: real)

  function Abs(r: real): real { if r < 0.0 then -r else r }

  function Max(a: real, b: real): real { if a >= b then a else b }

  /**
   * `calcRelativePos`: a page coordinate expressed relative to the
   * container's top-left corner; adding the corner back gives the page
   * coordinate again.
   */
  function RelativePos(container: Rect, x: real, y: real): (r: Vec)
    ensures r.x + container.left == x && r.y + container.top == y
  {
    Vec(x - container.left, y - container.top)
  }

  /**
   * `clacPointDistance` without its final square root. The square root is
   * monotone, so comparing squared distances orders points exactly as
   * comparing distances does (`RootOrder`).
   */
  function SqDistance(p: Vec, q: Vec): (d: real)
    ensures d >= 0.0
  {
    var dx := q.x - p.x;
    var dy := q.y - p.y;
    dx * dx + dy * dy
  }

  /**
   * Comparing non-negative numbers and comparing their squares agree, so a
   * scan that compares squared distances picks the same point as one that
   * compares the distances themselves (their square roots).
   */
  lemma RootOrder(d1: real, d2: real, s1: real, s2: real)
    requires d1 >= 0.0 && d2 >= 0.0 && d1 * d1 == s1 && d2 * d2 == s2
    ensures d1 < d2 <==> s1 < s2
  {
    assert s2 - s1 == (d2 - d1) * (d2 + d1);
    if d1 < d2 {
      PositiveProduct(d2 - d1, d2 + d1);
    } else {
      NonNegativeProduct(d1 - d2, d2 + d1);
      assert s1 - s2 == (d1 - d2) * (d2 + d1);
    }
  }

  lemma PositiveProduct(a: real, b: real)
    requires a > 0.0 && b > 0.0
    ensures a * b > 0.0
  {
  }

  lemma NonNegativeProduct(a: real, b: real)
    requires a >= 0.0 && b >= 0.0
    ensures a * b >= 0.0
  {
  }

  /** The snap anchors: every cached child box's corner, relative to the container. */
  function AnchorsOf(children: seq<Rect>, container: Rect): (r: seq<Vec>)
    ensures |r| == |children|
    ensures forall i :: 0 <= i < |r| ==> r[i] == RelativePos(container, children[i].left, children[i].top)
  {
    seq(|children|, i requires 0 <= i < |children| => RelativePos(container, children[i].left, children[i].top))
  }

  /** Moving a box by (`dx`, `dy`). */
  function Shift(r: Rect, dx: real, dy: real): Rect
  {
    Rect(r.left + dx, r.top + dy, r.width, r.height)
  }

  /**
   * When the container and every child move together, as after a resize that
   * only moves the page, the anchors stay where they were.
   */
  lemma AnchorsIgnoreShift(children: seq<Rect>, container: Rect, dx: real, dy: real)
    ensures AnchorsOf(seq(|children|, i requires 0 <= i < |children| => Shift(children[i], dx, dy)), Shift(container, dx, dy))
         == AnchorsOf(children, container)
  {
  }
}
