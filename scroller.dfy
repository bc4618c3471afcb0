/**
 * The scroller object (`AltScroll`): the cached geometry, the one pending
 * animation frame, the scroll listener that triggers snapping after the
 * scrolling stops, and the drag session with its momentum on release.
 *
 * The browser is reduced to what the scroller reads and writes: the
 * container's two scroll offsets are fields, geometry queries are given
 * rectangles or the `measureChild` function, clock readings are `now`
 * arguments, and the frame scheduler and the timers are the fields
 * `scrollFrame`, `snapTimeout` and `resizeTimeout` together with the methods
 * that fire them.
 */
module Scroller {
  import opened Wrappers
  import opened Geometry
  import Collision
  import Tween
  import Momentum
  import Snap

  /** The options the scroller reads, after the caller's overrides are merged in. */
  datatype Options = Options(snap: bool, snapSpeed: real, momentum: bool, momentumFalloff: real)

  /** Options the scroller can run with: momentum divides by its falloff, so that falloff is not zero. */
  predicate Usable(o: Options)
  {
    o.momentum ==> o.momentumFalloff != 0.0
  }

  /** The options before any override: no snapping, 300 ms snaps, momentum on with a falloff of 0.006. */
  function DefaultOptions(): (o: Options)
    ensures !o.snap && o.momentum && o.momentumFalloff > 0.0
    ensures Usable(o)
  {
    Options(false, 300.0, true, 0.006)
  }

  /**
   * A callback registered with the frame scheduler. `Begin` is the one
   * scrollTo registers; it reads the offsets to start from only when it
   * runs. `Step` is the one an intermediate frame registers to go on.
   */
  datatype Frame =
    | Begin(toX: real, toY: real, speed: real, easing: Tween.Easing)
    | Step(anim: Tween.Anim)

  /** The animation a frame callback runs when it fires at `now` with the container at (`left`, `top`). */
  function Started(f: Frame, now: real, left: real, top: real): Tween.Anim
  {
    match f
    case Begin(toX, toY, speed, easing) => Tween.Anim(now, left, toX, top, toY, speed, easing)
    case Step(anim) => anim
  }

  /**
   * A drag asks for speed zero, so its frame ends the animation the first
   * time it fires: the offsets jump to the rounded target at once.
   */
  lemma DragFrameIsInstant(x: real, y: real, fx: real, fy: real, now: real, left: real, top: real)
    ensures Tween.Advance(Started(Begin(x, y, Collision.ScaleSpeed(0.0, fx, fy), None), now, left, top), now)
         == Tween.Tick(Tween.Round(x), Tween.Round(y), true)
  {
  }

  /** The boxes of `count` children, each measured with the container scrolled to its origin. */
  function MeasureAll(count: nat, measure: (real, real, nat) -> Rect): (r: seq<Rect>)
    ensures |r| == count
    ensures forall i :: 0 <= i < count ==> r[i] == measure(0.0, 0.0, i)
  {
    seq(count, i requires 0 <= i < count => measure(0.0, 0.0, i))
  }

  class AltScroll {
    /** Thickness of the native scrollbar, measured once. */
    const scrollbarSize: real
    const options: Options
    /** The global easing table: absent, or present with its `easeOutCubic` entry. */
    const easingTable: Option<Tween.Easing>
    /** How many children the content element has, as last read from the page. */
    var childCount: nat
    /**
     * The browser's bounding box of child `i` while the container is scrolled
     * to (`left`, `top`), as the layout stood when last read; a resize
     * refresh reads the layout anew.
     */
    var measureChild: (real, real, nat) -> Rect

    /** The container's scroll offsets. */
    var scrollLeft: real
    var scrollTop: real

    /** The geometry cache. */
    var containerRect: Rect
    var contentRect: Rect
    var childRect: seq<Rect>

    /** Whether the scroll listener is attached. */
    var scrollEvent: bool
    /** The one callback registered with the frame scheduler, if any. */
    var scrollFrame: Option<Frame>
    /** Whether the snap-idle timer is pending. */
    var snapTimeout: bool
    /** Whether the resize-settle timer is pending. */
    var resizeTimeout: bool

    /** Whether a drag session is open (the move listener is attached). */
    var dragEvent: bool
    var scrollBegin: real
    var scrollInitMouseVec: Vec
    var scrollInitVec: Vec

    /**
     * What the scroller keeps true between events: the options are usable,
     * the snap-idle timer is only ever started with snapping on, and a
     * follow-up frame is only registered for an animation of positive length.
     */
    ghost predicate Valid()
      reads this`scrollFrame, this`snapTimeout
    {
      && Usable(options)
      && (snapTimeout ==> options.snap)
      && (scrollFrame.Some? && scrollFrame.value.Step? ==> scrollFrame.value.anim.speed > 0.0)
    }

    /** Every child measured with the container scrolled to its origin. */
    function MeasuredAtOrigin(): (r: seq<Rect>)
      reads this`childCount, this`measureChild
      ensures |r| == childCount
    {
      MeasureAll(childCount, measureChild)
    }

    constructor (container: Rect, content: Rect, scrollbarSize: real, options: Options,
                 easingTable: Option<Tween.Easing>, childCount: nat, measureChild: (real, real, nat) -> Rect,
                 scrollLeft: real, scrollTop: real)
      requires Usable(options)
      ensures Valid()
      ensures this.scrollbarSize == scrollbarSize && this.options == options && this.easingTable == easingTable
      ensures this.childCount == childCount && this.measureChild == measureChild
      ensures this.scrollLeft == scrollLeft && this.scrollTop == scrollTop
      ensures containerRect == container && contentRect == content && childRect == MeasuredAtOrigin()
      ensures scrollEvent && scrollFrame == None && !snapTimeout && !resizeTimeout && !dragEvent
    {
      this.scrollbarSize := scrollbarSize;
      this.options := options;
      this.easingTable := easingTable;
      this.childCount := childCount;
      this.measureChild := measureChild;
      this.scrollLeft, this.scrollTop := scrollLeft, scrollTop;
      scrollEvent, scrollFrame := false, None;
      dragEvent, scrollBegin := false, 0.0;
      scrollInitVec, scrollInitMouseVec := Vec(0.0, 0.0), Vec(0.0, 0.0);
      resizeTimeout, snapTimeout := false, false;
      containerRect, contentRect, childRect := container, content, [];
      new;
      childRect := GetChildRect();
      scrollEvent := true;
    }

    /** The current scroll offsets as a point. */
    function Here(): Vec
      reads this`scrollLeft, this`scrollTop
    {
      Vec(scrollLeft, scrollTop)
    }

    /** The snap anchors: each cached child's corner relative to the container. */
    function Anchors(): (r: seq<Vec>)
      reads this`childRect, this`containerRect
      ensures |r| == |childRect|
    {
      AnchorsOf(childRect, containerRect)
    }

    function MaxX(): real
      reads this`containerRect, this`contentRect
    {
      Collision.MaxOffset(contentRect.width, containerRect.width, scrollbarSize)
    }

    function MaxY(): real
      reads this`containerRect, this`contentRect
    {
      Collision.MaxOffset(contentRect.height, containerRect.height, scrollbarSize)
    }

    /** The frame scrollTo registers for a request to (`x`, `y`): each target clamped to its axis, the speed scaled by the clamp. */
    ghost function RequestedFrame(x: real, y: real, speed: real, easing: Tween.Easing): Frame
      reads this`scrollLeft, this`scrollTop, this`containerRect, this`contentRect
    {
      Begin(Collision.ClampAxis(x, MaxX()), Collision.ClampAxis(y, MaxY()),
            Collision.ScaleSpeed(speed, Collision.ClampFactor(x, scrollLeft, MaxX()), Collision.ClampFactor(y, scrollTop, MaxY())),
            easing)
    }

    /** The speed snapTo uses: the given one when it is at least zero, the configured snap speed otherwise or when none is given. */
    function SnapSpeed(speed: Option<real>): real
    {
      if speed.Some? && speed.value >= 0.0 then speed.value else options.snapSpeed
    }

    /**
     * The easing-table override used by snapTo and by the momentum throw: the
     * table's entry whenever the table exists, the given easing otherwise.
     */
    function TableEasing(easing: Tween.Easing): Tween.Easing
    {
      if easingTable.Some? then easingTable.value else easing
    }

    /** The frame snapping to child `i` registers. */
    ghost function SnapFrame(i: int, speed: Option<real>, easing: Tween.Easing): Frame
      reads this`scrollLeft, this`scrollTop, this`containerRect, this`contentRect, this`childRect
      requires 0 <= i < |childRect|
    {
      RequestedFrame(Anchors()[i].x, Anchors()[i].y, SnapSpeed(speed), TableEasing(easing))
    }

    /** The frame a release at (`pageX`, `pageY`) at time `now` registers when momentum is on. */
    ghost function MomentumFrame(now: real, pageX: real, pageY: real): Frame
      reads this`scrollLeft, this`scrollTop, this`containerRect, this`contentRect, this`scrollBegin, this`scrollInitMouseVec
      requires Usable(options) && options.momentum && now != scrollBegin
    {
      var v := Momentum.Velocity(scrollInitMouseVec, RelativePos(containerRect, pageX, pageY), now - scrollBegin);
      var falloff := options.momentumFalloff;
      RequestedFrame(Momentum.Throw(scrollLeft, v.x, falloff), Momentum.Throw(scrollTop, v.y, falloff),
                     Momentum.Duration(v, falloff), TableEasing(None))
    }

    /**
     * `calcNearestChild`: the index of the anchor nearest to the current
     * offsets, the lowest such index on a tie, and zero without children.
     */
    method CalcNearestChild() returns (index: nat)
      ensures index == Snap.NearestIndex(Anchors(), Here())
      ensures |childRect| == 0 ==> index == 0
      ensures |childRect| > 0 ==> Snap.IsFirstNearest(Anchors(), Here(), index)
    {
      ghost var anchors := Anchors();
      var here := Vec(scrollLeft, scrollTop);
      var nearest := 0.0;
      index := 0;
      var i := 0;
      while i < |childRect|
        invariant 0 <= i <= |childRect|
        invariant index == Snap.NearestIndex(anchors[..i], here)
        invariant i > 0 ==> nearest == SqDistance(here, anchors[index])
      {
        var pos := RelativePos(containerRect, childRect[i].left, childRect[i].top);
        var distance := SqDistance(here, pos);
        assert anchors[..i + 1][..i] == anchors[..i];
        if i == 0 || distance < nearest {
          nearest := distance;
          index := i;
        }
        i := i + 1;
      }
      assert anchors[..i] == anchors;
      if i > 0 {
        Snap.NearestIndexIsFirstNearest(anchors, here);
      }
    }

    /**
     * `getChildRect`: measures every child with the container scrolled to
     * its origin, so the boxes do not depend on the current offsets, and
     * leaves the offsets as it found them.
     */
    method GetChildRect() returns (children: seq<Rect>)
      modifies this`scrollLeft, this`scrollTop
      ensures children == MeasuredAtOrigin()
      ensures scrollLeft == old(scrollLeft) && scrollTop == old(scrollTop)
    {
      children := [];
      var top, left := scrollTop, scrollLeft;
      scrollTop := 0.0;
      scrollLeft := 0.0;
      var i := 0;
      while i < childCount
        invariant 0 <= i <= childCount
        invariant scrollLeft == 0.0 && scrollTop == 0.0
        invariant children == MeasuredAtOrigin()[..i]
      {
        children := children + [measureChild(scrollLeft, scrollTop, i)];
        i := i + 1;
      }
      scrollTop := top;
      scrollLeft := left;
    }

    /** `resize`: (re)starts the resize-settle timer. */
    method Resize()
      modifies this`resizeTimeout
      ensures resizeTimeout
    {
      resizeTimeout := true;
    }

    /**
     * The resize-settle timer firing: the geometry cache is rebuilt from the
     * layout as it stands now, given as the container's and content's boxes,
     * the number of children and the children's measurement.
     */
    method ResizeTimerFired(container: Rect, content: Rect, childCount: nat, measureChild: (real, real, nat) -> Rect)
      modifies this`resizeTimeout, this`containerRect, this`contentRect, this`childRect, this`scrollLeft, this`scrollTop
      modifies this`childCount, this`measureChild
      ensures !old(resizeTimeout) ==> unchanged(this)
      ensures old(resizeTimeout) ==>
        && !resizeTimeout && containerRect == container && contentRect == content
        && this.childCount == childCount && this.measureChild == measureChild
        && childRect == MeasureAll(childCount, measureChild)
      ensures scrollLeft == old(scrollLeft) && scrollTop == old(scrollTop)
    {
      if resizeTimeout {
        resizeTimeout := false;
        containerRect := container;
        contentRect := content;
        this.childCount, this.measureChild := childCount, measureChild;
        childRect := GetChildRect();
      }
    }

    /**
     * `scrollTo`: clamps the request against the content's edges, scales
     * the speed by the clamp, cancels the pending frame and registers
     * exactly one new one.
     */
    method ScrollTo(x: real, y: real, speed: real, easing: Tween.Easing)
      requires Valid()
      modifies this`scrollFrame
      ensures Valid()
      ensures scrollFrame == Some(RequestedFrame(x, y, speed, easing))
    {
      var contentWidth := Collision.MaxOffset(contentRect.width, containerRect.width, scrollbarSize);
      var contentHeight := Collision.MaxOffset(contentRect.height, containerRect.height, scrollbarSize);
      var toX, toY := x, y;
      // Zero stands for a factor the source leaves undefined.
      var clampX, clampY := 0.0, 0.0;

      if contentWidth > 0.0 && (x < 0.0 || x > contentWidth) {
        var moveX := x - scrollLeft;
        toX := if x < 0.0 then 0.0 else contentWidth;
        clampX := if moveX == 0.0 then 0.0 else Abs(toX - scrollLeft) / Abs(moveX);
      }
      assert toX == Collision.ClampAxis(x, MaxX()) && clampX == Collision.ClampFactor(x, scrollLeft, MaxX());
      if contentHeight > 0.0 && (y < 0.0 || y > contentHeight) {
        var moveY := y - scrollTop;
        toY := if y < 0.0 then 0.0 else contentHeight;
        clampY := if moveY == 0.0 then 0.0 else Abs(toY - scrollTop) / Abs(moveY);
      }
      assert toY == Collision.ClampAxis(y, MaxY()) && clampY == Collision.ClampFactor(y, scrollTop, MaxY());

      // Scaled by the smaller of the factors that are not zero.
      var length := Collision.ScaleSpeed(speed, clampX, clampY);
      assert Begin(toX, toY, length, easing) == RequestedFrame(x, y, speed, easing);

      scrollFrame := None;
      scrollFrame := Some(Begin(toX, toY, length, easing));
    }

    /** The frame scheduler running the registered callback at time `now`; nothing runs when none is registered. */
    method FireFrame(now: real)
      requires Valid()
      modifies this`scrollLeft, this`scrollTop, this`scrollFrame, this`scrollEvent
      ensures Valid()
      ensures old(scrollFrame).None? ==> unchanged(this)
      ensures old(scrollFrame).Some? ==>
        var a := Started(old(scrollFrame).value, now, old(scrollLeft), old(scrollTop));
        var k := Tween.Advance(a, now);
        scrollLeft == k.left as real && scrollTop == k.top as real &&
        scrollFrame == (if k.done then None else Some(Step(a))) &&
        scrollEvent == (old(scrollEvent) || k.done)
    {
      if scrollFrame.Some? {
        var a := Started(scrollFrame.value, now, scrollLeft, scrollTop);
        scrollFrame := None;
        ScrollToFrame(a, now);
      }
    }

    /**
     * `scrollToFrame`: before the animation's length has elapsed, writes the
     * eased offsets and registers the next frame; afterwards, or at once for a
     * length that is not positive, writes the rounded targets and ends the
     * scroll.
     */
    method ScrollToFrame(a: Tween.Anim, now: real)
      requires Valid()
      modifies this`scrollLeft, this`scrollTop, this`scrollFrame, this`scrollEvent
      ensures Valid()
      ensures var k := Tween.Advance(a, now);
        scrollLeft == k.left as real && scrollTop == k.top as real &&
        (k.done ==> scrollFrame == old(scrollFrame) && scrollEvent) &&
        (!k.done ==> scrollFrame == Some(Step(a)) && scrollEvent == old(scrollEvent))
    {
      if a.speed > 0.0 {
        var delta := now - a.start;
        var animPercent := delta / a.speed;
        if animPercent < 1.0 {
          scrollLeft := Tween.Interpolate(a.fromX, a.toX, a.easing, animPercent) as real;
          scrollTop := Tween.Interpolate(a.fromY, a.toY, a.easing, animPercent) as real;
          scrollFrame := Some(Step(a));
          return;
        }
      }
      scrollLeft := Tween.Round(a.toX) as real;
      scrollTop := Tween.Round(a.toY) as real;
      ScrollEnd();
    }

    /** `scrollEnd`: re-attaches the scroll listener if it is detached. */
    method ScrollEnd()
      modifies this`scrollEvent
      ensures scrollEvent
    {
      if !scrollEvent {
        scrollEvent := true;
      }
    }

    /**
     * `snapTo`: fails and changes nothing when child `i` does not exist;
     * otherwise scrolls to the child's anchor.
     */
    method SnapTo(i: int, speed: Option<real>, easing: Tween.Easing) returns (snapped: bool)
      requires Valid()
      modifies this`scrollFrame
      ensures Valid()
      ensures snapped <==> 0 <= i < |childRect|
      ensures !snapped ==> scrollFrame == old(scrollFrame)
      ensures snapped ==> scrollFrame == Some(SnapFrame(i, speed, easing))
    {
      if !(0 <= i < |childRect|) {
        return false;
      }
      var snapPos := RelativePos(containerRect, childRect[i].left, childRect[i].top);
      ScrollTo(snapPos.x, snapPos.y, SnapSpeed(speed), TableEasing(easing));
      snapped := true;
    }

    /** `snapToNearest`: snaps to the nearest child, and fails when there is none. */
    method SnapToNearest(speed: Option<real>, easing: Tween.Easing) returns (snapped: bool)
      requires Valid()
      modifies this`scrollFrame
      ensures Valid()
      ensures snapped <==> |childRect| > 0
      ensures !snapped ==> scrollFrame == old(scrollFrame)
      ensures snapped ==>
        var n := Snap.NearestIndex(Anchors(), Here());
        Snap.IsFirstNearest(Anchors(), Here(), n) && scrollFrame == Some(SnapFrame(n, speed, easing))
    {
      var nearest := CalcNearestChild();
      snapped := SnapTo(nearest, speed, easing);
    }

    /** `scroll`, the scroll listener: with snapping on, (re)starts the snap-idle timer. */
    method Scroll()
      requires Valid()
      modifies this`snapTimeout
      ensures Valid()
      ensures snapTimeout == (old(snapTimeout) || options.snap)
    {
      if options.snap {
        snapTimeout := true;
      }
    }

    /** Scroll activity on the container: it reaches the listener only while the listener is attached. */
    method OnScrollActivity()
      requires Valid()
      modifies this`snapTimeout
      ensures Valid()
      ensures snapTimeout == (old(snapTimeout) || (scrollEvent && options.snap))
    {
      if scrollEvent {
        Scroll();
      }
    }

    /**
     * The snap-idle timer firing: detaches the scroll listener, so the
     * snap's own frames do not restart the timer, and snaps to the nearest
     * child with the default speed and easing.
     */
    method SnapTimerFired()
      requires Valid()
      modifies this`snapTimeout, this`scrollEvent, this`scrollFrame
      ensures Valid()
      ensures !old(snapTimeout) ==> unchanged(this)
      ensures old(snapTimeout) ==> !snapTimeout && !scrollEvent
      ensures old(snapTimeout) && |childRect| == 0 ==> scrollFrame == old(scrollFrame)
      ensures old(snapTimeout) && |childRect| > 0 ==>
        scrollFrame == Some(SnapFrame(Snap.NearestIndex(Anchors(), Here()), None, None))
    {
      if snapTimeout {
        snapTimeout := false;
        scrollEvent := false;
        var _ := SnapToNearest(None, None);
      }
    }

    /**
     * `dragStart`: opens a session recording the time, the pointer and the
     * scroll offsets, unless one is already open. The pending frame is left
     * alone.
     */
    method DragStart(now: real, pageX: real, pageY: real)
      modifies this`scrollBegin, this`scrollInitMouseVec, this`scrollInitVec, this`dragEvent
      ensures dragEvent
      ensures old(dragEvent) ==> unchanged(this)
      ensures !old(dragEvent) ==>
        scrollBegin == now && scrollInitMouseVec == RelativePos(containerRect, pageX, pageY) && scrollInitVec == Here()
    {
      if !dragEvent {
        scrollBegin := now;
        scrollInitMouseVec := RelativePos(containerRect, pageX, pageY);
        scrollInitVec := Vec(scrollLeft, scrollTop);
        dragEvent := true;
      }
    }

    /** `drag`: an instant scroll to where the session's start offsets moved by the pointer's travel put the content. */
    method Drag(pageX: real, pageY: real)
      requires Valid()
      modifies this`scrollFrame
      ensures Valid()
      ensures var mouse := RelativePos(containerRect, pageX, pageY);
        scrollFrame == Some(RequestedFrame(scrollInitVec.x + (scrollInitMouseVec.x - mouse.x),
                                           scrollInitVec.y + (scrollInitMouseVec.y - mouse.y), 0.0, None))
    {
      var mousePos := RelativePos(containerRect, pageX, pageY);
      var moveX := scrollInitMouseVec.x - mousePos.x;
      var moveY := scrollInitMouseVec.y - mousePos.y;
      ScrollTo(scrollInitVec.x + moveX, scrollInitVec.y + moveY, 0.0, None);
    }

    /** Pointer movement: it reaches `drag` only while a session is open. */
    method OnPointerMove(pageX: real, pageY: real)
      requires Valid()
      modifies this`scrollFrame
      ensures Valid()
      ensures !dragEvent ==> scrollFrame == old(scrollFrame)
      ensures dragEvent ==> var mouse := RelativePos(containerRect, pageX, pageY);
        scrollFrame == Some(RequestedFrame(scrollInitVec.x + (scrollInitMouseVec.x - mouse.x),
                                           scrollInitVec.y + (scrollInitMouseVec.y - mouse.y), 0.0, None))
    {
      if dragEvent {
        Drag(pageX, pageY);
      }
    }

    /**
     * `dragEnd`: with no open session, nothing happens. Otherwise cancels
     * the pending frame, throws the content with the release velocity when
     * momentum is on, and closes the session.
     */
    method DragEnd(now: real, pageX: real, pageY: real)
      requires Valid()
      requires dragEvent && options.momentum ==> now != scrollBegin
      modifies this`scrollFrame, this`dragEvent
      ensures Valid()
      ensures !dragEvent
      ensures !old(dragEvent) ==> unchanged(this)
      ensures old(dragEvent) && !options.momentum ==> scrollFrame == None
      ensures old(dragEvent) && options.momentum ==> scrollFrame == Some(MomentumFrame(now, pageX, pageY))
    {
      if dragEvent {
        scrollFrame := None;
        if options.momentum {
          var mousePos := RelativePos(containerRect, pageX, pageY);
          var dragTime := now - scrollBegin;
          var velocity := Momentum.Velocity(scrollInitMouseVec, mousePos, dragTime);
          var falloff := options.momentumFalloff;
          var animationLength := Momentum.Duration(velocity, falloff);
          var newX := Momentum.Throw(scrollLeft, velocity.x, falloff);
          var newY := Momentum.Throw(scrollTop, velocity.y, falloff);
          ScrollTo(newX, newY, animationLength, TableEasing(None));
        }
        dragEvent := false;
      }
    }
  }
}
