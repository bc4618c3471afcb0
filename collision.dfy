/**
 * The collision step of `scrollTo`: clamping a requested offset to the
 * scrollable range of an axis and shortening the animation by the share of
 * the requested move that the clamp lets through.
 */
module Collision {
  import opened Geometry

  /**
   * The largest offset an axis can scroll to: content length minus container
   * length plus the scrollbar's thickness. Zero or less means the axis does
   * not overflow.
   */
  function MaxOffset(contentLength: real, containerLength: real, scrollbarSize: real): real
  {
    contentLength - containerLength + scrollbarSize
  }

  /** Whether the collision branch runs for a target on an axis whose largest offset is `max`. */
  predicate Collides(target: real, max: real)
  {
    max > 0.0 && (target < 0.0 || target > max)
  }

  function Gap(a: real, b: real): real { Abs(a - b) }

  /**
   * The offset scrollTo keeps for an axis. On an axis that overflows it is
   * the point of `[0, max]` closest to the target; on an axis that does not
   * overflow, and for a target already in range, it is the target itself.
   */
  function ClampAxis(target: real, max: real): (r: real)
    ensures max > 0.0 ==> 0.0 <= r <= max
    ensures !Collides(target, max) ==> r == target
    ensures max > 0.0 ==> forall z :: 0.0 <= z <= max ==> Gap(r, target) <= Gap(z, target)
  {
    if Collides(target, max) then (if target < 0.0 then 0.0 else max) else target
  }

  /**
   * The share of a requested move that survives the clamp on one axis,
   * `|clamped - current| / |target - current|`. Zero stands for every value
   * the source treats as false: no collision on the axis, and a collision
   * that lets none of the move through.
   */
  function ClampFactor(target: real, current: real, max: real): (f: real)
    ensures f >= 0.0
    ensures !Collides(target, max) ==> f == 0.0
  {
    if Collides(target, max) && target != current then
      DivideAtMostOne(Gap(ClampAxis(target, max), current), Gap(target, current));
      Gap(ClampAxis(target, max), current) / Gap(target, current)
    else
      0.0
  }

  /**
   * A colliding move's factor is the share of it that the clamp honours;
   * it is zero when the clamp honours none of it, and at most one when the
   * move starts inside the range.
   */
  lemma ClampFactorIsHonouredShare(target: real, current: real, max: real)
    requires Collides(target, max)
    ensures target != current ==>
      ClampFactor(target, current, max) * Gap(target, current) == Gap(ClampAxis(target, max), current)
    ensures ClampAxis(target, max) == current ==> ClampFactor(target, current, max) == 0.0
    ensures 0.0 <= current <= max ==> ClampFactor(target, current, max) <= 1.0
  {
    if target != current {
      var honoured, requested := Gap(ClampAxis(target, max), current), Gap(target, current);
      assert 0.0 <= current <= max ==> honoured <= requested;
      DivideAtMostOne(honoured, requested);
    }
  }

  lemma DivideAtMostOne(a: real, b: real)
    requires a >= 0.0 && b > 0.0
    ensures a / b >= 0.0
    ensures (a / b) * b == a
    ensures a <= b ==> a / b <= 1.0
    ensures a == 0.0 ==> a / b == 0.0
  {
  }

  /**
   * The speed adjustment of scrollTo: the speed is multiplied by the smaller
   * of the non-zero clamp factors, and left alone when both are zero.
   */
  function ScaleSpeed(speed: real, fx: real, fy: real): (r: real)
    ensures fx == 0.0 && fy == 0.0 ==> r == speed
    ensures fx != 0.0 && (fy == 0.0 || fx <= fy) ==> r == speed * fx
    ensures fy != 0.0 && (fx == 0.0 || fy <= fx) ==> r == speed * fy
    ensures speed == 0.0 ==> r == 0.0
  {
    if fx == 0.0 && fy != 0.0 then speed * fy
    else if fx != 0.0 && fy == 0.0 then speed * fx
    else if fx != 0.0 && fy != 0.0 then speed * (if fx < fy then fx else fy)
    else speed
  }

  /**
   * With the current offsets inside their ranges, a collision never makes an
   * animation slower to start than requested nor gives it a negative length:
   * the scaled speed lies in `[0, speed]`.
   */
  lemma CollisionNeverLengthens(speed: real, x: real, y: real, current: Vec, maxX: real, maxY: real)
    requires speed >= 0.0
    requires maxX > 0.0 ==> 0.0 <= current.x <= maxX
    requires maxY > 0.0 ==> 0.0 <= current.y <= maxY
    ensures 0.0 <= ScaleSpeed(speed, ClampFactor(x, current.x, maxX), ClampFactor(y, current.y, maxY)) <= speed
  {
    var fx, fy := ClampFactor(x, current.x, maxX), ClampFactor(y, current.y, maxY);
    if Collides(x, maxX) {
      ClampFactorIsHonouredShare(x, current.x, maxX);
    }
    if Collides(y, maxY) {
      ClampFactorIsHonouredShare(y, current.y, maxY);
    }
    assert 0.0 <= fx <= 1.0 && 0.0 <= fy <= 1.0;
    ScaleAtMost(speed, fx);
    ScaleAtMost(speed, fy);
    var r := ScaleSpeed(speed, fx, fy);
    assert r == speed || r == speed * fx || r == speed * fy;
  }

  lemma ScaleAtMost(speed: real, f: real)
    requires speed >= 0.0 && 0.0 <= f <= 1.0
    ensures 0.0 <= speed * f <= speed
  {
    assert speed * (1.0 - f) >= 0.0;
  }

  /**
   * When neither target leaves its range, scrollTo keeps both targets and
   * the requested speed.
   */
  lemma InRangeUnchanged(speed: real, x: real, y: real, current: Vec, maxX: real, maxY: real)
    requires maxX <= 0.0 || 0.0 <= x <= maxX
    requires maxY <= 0.0 || 0.0 <= y <= maxY
    ensures ClampAxis(x, maxX) == x && ClampAxis(y, maxY) == y
    ensures ScaleSpeed(speed, ClampFactor(x, current.x, maxX), ClampFactor(y, current.y, maxY)) == speed
  {
  }
}
