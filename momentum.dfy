/**
 * The release arithmetic of `dragEnd`: the drag's velocity, the length of
 * the momentum animation and the offset where the content comes to rest
 * under a constant deceleration `falloff`.
 */
module Momentum {
  import opened Geometry

  /** Pointer travel since the drag began, per millisecond of drag time, on each axis. */
  function Velocity(initMouse: Vec, mouse: Vec, dragTime: real): (v: Vec)
    requires dragTime != 0.0
    ensures v.x * dragTime == initMouse.x - mouse.x
    ensures v.y * dragTime == initMouse.y - mouse.y
  {
    Vec((initMouse.x - mouse.x) / dragTime, (initMouse.y - mouse.y) / dragTime)
  }

  /**
   * The momentum animation's length: the time a constant deceleration
   * `falloff` takes to bring the faster axis to rest. A negative falloff
   * gives a negative length.
   */
  function Duration(v: Vec, falloff: real): (t: real)
    requires falloff != 0.0
    ensures falloff > 0.0 ==> t >= 0.0
    ensures falloff < 0.0 ==> t <= 0.0
    ensures t * falloff == Max(Abs(v.x), Abs(v.y))
  {
    var dominant := if Abs(v.x) > Abs(v.y) then v.x else v.y;
    assert Abs(dominant) / falloff * falloff == Abs(dominant);
    Abs(dominant) / falloff
  }

  /**
   * Where one axis comes to rest when it leaves `current` with velocity `v`
   * and slows down at the constant rate `falloff`: it moves in the direction
   * of `v`, and not at all when `v` is zero. A negative falloff throws
   * against the direction of `v`.
   */
  function Throw(current: real, v: real, falloff: real): (r: real)
    requires falloff != 0.0
    ensures falloff > 0.0 ==> (v > 0.0 ==> r > current) && (v < 0.0 ==> r < current)
    ensures falloff < 0.0 ==> (v > 0.0 ==> r < current) && (v < 0.0 ==> r > current)
    ensures v == 0.0 ==> r == current
  {
    var lift := Abs(v) * v;
    assert v > 0.0 ==> lift > 0.0;
    assert v < 0.0 ==> lift == -(Abs(v) * -v) && Abs(v) * -v > 0.0;
    QuotientSign(lift, falloff * 2.0);
    current + lift / (falloff * 2.0)
  }

  /** The sign of a quotient is the product of the signs of its operands. */
  lemma QuotientSign(a: real, b: real)
    requires b != 0.0
    ensures a > 0.0 && b > 0.0 ==> a / b > 0.0
    ensures a < 0.0 && b > 0.0 ==> a / b < 0.0
    ensures a > 0.0 && b < 0.0 ==> a / b < 0.0
    ensures a < 0.0 && b < 0.0 ==> a / b > 0.0
  {
    assert (a / b) * b == a;
  }

  /**
   * The stopping distance of uniform deceleration: decelerating from speed
   * `|v|` to rest at the rate `falloff` takes `T = |v| / falloff`, and the
   * distance covered meanwhile is the average speed `|v| / 2` times `T`.
   */
  lemma {:induction false} StoppingDistance(current: real, v: real, falloff: real)
    requires falloff > 0.0
    ensures Abs(Throw(current, v, falloff) - current) == Abs(v) / 2.0 * (Abs(v) / falloff)
  {
    var s := Abs(v);
    var t := s / falloff;
    assert t * falloff == s;
    var d := Throw(current, v, falloff) - current;
    assert d == s * v / (falloff * 2.0);
    if v >= 0.0 {
      assert s == v;
      assert d * (falloff * 2.0) == s * v;
      assert s / 2.0 * t * (falloff * 2.0) == s * (t * falloff);
    } else {
      assert s == -v;
      assert d * (falloff * 2.0) == -(s * s);
      assert s / 2.0 * t * (falloff * 2.0) == s * (t * falloff);
    }
  }

  /**
   * The momentum animation lasts exactly as long as the faster axis takes to
   * come to rest, and the slower axis needs no longer; on a tie either axis
   * gives the same length.
   */
  lemma DurationCoversBothAxes(v: Vec, falloff: real)
    requires falloff > 0.0
    ensures Abs(v.x) / falloff <= Duration(v, falloff)
    ensures Abs(v.y) / falloff <= Duration(v, falloff)
    ensures Abs(v.x) >= Abs(v.y) ==> Abs(v.x) / falloff == Duration(v, falloff)
    ensures Abs(v.y) >= Abs(v.x) ==> Abs(v.y) / falloff == Duration(v, falloff)
  {
    var dominant := if Abs(v.x) > Abs(v.y) then v.x else v.y;
    assert Duration(v, falloff) == Abs(dominant) / falloff;
    DivideMonotone(Abs(v.x), Abs(dominant), falloff);
    DivideMonotone(Abs(v.y), Abs(dominant), falloff);
  }

  lemma DivideMonotone(a: real, b: real, f: real)
    requires f > 0.0 && a <= b
    ensures a / f <= b / f
  {
    assert b / f - a / f == (b - a) / f;
    assert ((b - a) / f) * f == b - a;
  }

  /**
   * A release at 0.6 units per millisecond with the default falloff of
   * 0.006 travels 30 units further over a 100 millisecond animation.
   */
  lemma DefaultFalloffExample()
    ensures Throw(0.0, 0.6, 0.006) == 30.0
    ensures Duration(Vec(0.6, 0.0), 0.006) == 100.0
  {
  }
}
