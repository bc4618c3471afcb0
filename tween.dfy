/**
 * One frame of the scroll animation (`scrollToFrame`): progress through the
 * animation, the eased offset of an intermediate frame, and the exact landing
 * of the final frame.
 */
module Tween {
  import opened Wrappers
  import Geometry

  /** An optional easing curve; an absent curve leaves the progress as it is. */
  type Easing = Option<real -> real>

  /** `Math.round`: the nearest integer, a half rounding up. */
  function Round(x: real): (n: int)
    ensures n as real - 0.5 <= x < n as real + 0.5
  {
    (x + 0.5).Floor
  }

  function Ease(easing: Easing, p: real): real
  {
    match easing
    case None => p
    case Some(curve) => curve(p)
  }

  /** The arguments of one `scrollToFrame` call: when the animation started, where each axis starts and ends, its length and its curve. */
  datatype Anim = Anim(start: real, fromX: real, toX: real, fromY: real, toY: real, speed: real, easing: Easing)

  /** What one frame writes to the two offsets, and whether it was the last frame. */
  datatype Tick = Tick(left: int, top: int, done: bool)

  /** The offset an intermediate frame writes for one axis at progress `p`. */
  function Interpolate(from: real, to: real, easing: Easing, p: real): int
  {
    Round(from + (to - from) * Ease(easing, p))
  }

  /**
   * A frame at time `now`. The animation is over once its length has
   * elapsed, or at once when its length is not positive; the last frame
   * lands exactly on the rounded targets.
   */
  function Advance(a: Anim, now: real): (k: Tick)
    ensures k.done <==> a.speed <= 0.0 || now - a.start >= a.speed
    ensures k.done ==> k.left == Round(a.toX) && k.top == Round(a.toY)
  {
    ProgressReachesOne(a.start, now, a.speed);
    if a.speed > 0.0 && (now - a.start) / a.speed < 1.0 then
      var p := (now - a.start) / a.speed;
      Tick(Interpolate(a.fromX, a.toX, a.easing, p), Interpolate(a.fromY, a.toY, a.easing, p), false)
    else
      Tick(Round(a.toX), Round(a.toY), true)
  }

  lemma ProgressReachesOne(start: real, now: real, speed: real)
    ensures speed > 0.0 ==> ((now - start) / speed < 1.0 <==> now - start < speed)
  {
    if speed > 0.0 {
      var p := (now - start) / speed;
      assert p * speed == now - start;
      if p < 1.0 {
        assert p * speed < speed;
      } else {
        assert p * speed >= speed;
      }
    }
  }

  function Progress(a: Anim, now: real): real
    requires a.speed > 0.0
  {
    (now - a.start) / a.speed
  }

  predicate Between(v: int, a: int, b: int)
  {
    (a <= v <= b) || (b <= v <= a)
  }

  /** Whether `u` then `v` moves from `from` towards `to` (or stays put). */
  predicate Toward(from: real, to: real, u: int, v: int)
  {
    (from <= to ==> u <= v) && (to <= from ==> v <= u)
  }

  lemma RoundMonotone(x: real, y: real)
    requires x <= y
    ensures Round(x) <= Round(y)
  {
  }

  /** Moving a share `p` in `[0, 1]` of the way from `from` to `to` stays between them, and a larger share is further along. */
  lemma LinearStep(from: real, to: real, p: real, q: real)
    requires 0.0 <= p <= q <= 1.0
    ensures from <= to ==> from <= from + (to - from) * p <= from + (to - from) * q <= to
    ensures to <= from ==> to <= from + (to - from) * q <= from + (to - from) * p <= from
  {
    var d := to - from;
    assert d * q - d * p == d * (q - p);
    assert d - d * q == d * (1.0 - q);
    if from <= to {
      Geometry.NonNegativeProduct(d, p);
      Geometry.NonNegativeProduct(d, q - p);
      Geometry.NonNegativeProduct(d, 1.0 - q);
    } else {
      Geometry.NonNegativeProduct(-d, p);
      Geometry.NonNegativeProduct(-d, q - p);
      Geometry.NonNegativeProduct(-d, 1.0 - q);
    }
  }

  /**
   * Without an easing curve, an intermediate frame that comes after the
   * animation's start writes offsets between the rounded start and the
   * rounded target of each axis.
   */
  lemma IntermediateBetween(a: Anim, now: real)
    requires a.easing == None && now >= a.start
    requires !Advance(a, now).done
    ensures Between(Advance(a, now).left, Round(a.fromX), Round(a.toX))
    ensures Between(Advance(a, now).top, Round(a.fromY), Round(a.toY))
  {
    var p := Progress(a, now);
    ProgressMonotone(a, now, now);
    ProgressReachesOne(a.start, now, a.speed);
    assert Advance(a, now) == Tick(Interpolate(a.fromX, a.toX, None, p), Interpolate(a.fromY, a.toY, None, p), false);
    InterpolateMonotone(a.fromX, a.toX, 0.0, p);
    InterpolateMonotone(a.fromX, a.toX, p, 1.0);
    InterpolateMonotone(a.fromY, a.toY, 0.0, p);
    InterpolateMonotone(a.fromY, a.toY, p, 1.0);
    assert Interpolate(a.fromX, a.toX, None, 0.0) == Round(a.fromX);
    assert Interpolate(a.fromY, a.toY, None, 0.0) == Round(a.fromY);
  }

  lemma ProgressMonotone(a: Anim, t1: real, t2: real)
    requires a.speed > 0.0 && a.start <= t1 <= t2
    ensures 0.0 <= Progress(a, t1) <= Progress(a, t2)
  {
    var p1, p2 := Progress(a, t1), Progress(a, t2);
    assert p1 * a.speed == t1 - a.start;
    assert p2 * a.speed == t2 - a.start;
    assert (p2 - p1) * a.speed == t2 - t1;
  }

  /** Without easing, a larger progress on one axis is at least as far along towards the target. */
  lemma InterpolateMonotone(from: real, to: real, p: real, q: real)
    requires 0.0 <= p <= q <= 1.0
    ensures Toward(from, to, Interpolate(from, to, None, p), Interpolate(from, to, None, q))
    ensures q == 1.0 ==> Interpolate(from, to, None, q) == Round(to)
  {
    LinearStep(from, to, p, q);
    assert from + (to - from) * 1.0 == to;
  }

  /**
   * Without an easing curve, the frames of one animation never move away
   * from the target on either axis and never pass it: a later frame is at
   * least as far along as an earlier one, the last frame included.
   */
  lemma FramesMonotone(a: Anim, t1: real, t2: real)
    requires a.easing == None && a.start <= t1 <= t2
    ensures Toward(a.fromX, a.toX, Advance(a, t1).left, Advance(a, t2).left)
    ensures Toward(a.fromY, a.toY, Advance(a, t1).top, Advance(a, t2).top)
  {
    var k1, k2 := Advance(a, t1), Advance(a, t2);
    if !k1.done {
      ProgressMonotone(a, t1, t2);
      ProgressReachesOne(a.start, t1, a.speed);
      ProgressReachesOne(a.start, t2, a.speed);
      var p1 := Progress(a, t1);
      var p2 := if k2.done then 1.0 else Progress(a, t2);
      assert k1.left == Interpolate(a.fromX, a.toX, None, p1);
      assert k1.top == Interpolate(a.fromY, a.toY, None, p1);
      InterpolateMonotone(a.fromX, a.toX, p1, p2);
      InterpolateMonotone(a.fromY, a.toY, p1, p2);
    } else {
      assert k2.done;
    }
  }
}
