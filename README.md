# Alternate Scroll, modelled in Dafny

A model of the scroller object `AltScroll` (js/altscroll.js). The object
replaces a container's native scrolling. It tweens the container's scroll
offsets frame by frame. When a target lies outside the content, it clamps the
target to the content's edges and shortens the animation to match. It lets
the user drag the content and throws it with momentum on release. After
scrolling stops it can snap to the nearest child element.

The project has seven modules, one per part of the scroller:

- `Wrappers`: the `Option` type.
- `Geometry`: points, boxes, container-relative positions and the snap distance.
- `Collision`: the clamp and speed scaling of `scrollTo`.
- `Tween`: one frame of `scrollToFrame`.
- `Momentum`: the release arithmetic of `dragEnd`.
- `Snap`: the nearest-child scan of `calcNearestChild`.
- `Scroller`: the class `AltScroll`. Its fields are the ones the source updates in place.

The browser becomes explicit inputs and state:

- The container's `scrollLeft`/`scrollTop` are fields of the class.
- Bounding boxes are given rectangles. The layout of the children is the
  number `childCount` and the function `measureChild(scrollLeft, scrollTop,
  index)`. Because a box depends on the offsets, measuring with the offsets
  zeroed makes a visible difference. The constructor and each resize refresh
  read the children's layout anew.
- `Date.now()` is a `now` argument.
- The frame scheduler is the field `scrollFrame`, which holds at most one
  pending callback with its arguments. `FireFrame(now)` runs that callback.
- The two timers are the flags `snapTimeout` and `resizeTimeout`.
  `SnapTimerFired` and `ResizeTimerFired` run them.
- Listener attachment is the flags `scrollEvent` and `dragEvent`.
- The global `EasingFunctions` table is the constant `easingTable`. It is
  either absent or present with its `easeOutCubic` entry.

The model follows the code as written:

- `dragStart` does not stop a running animation.
- `dragEnd` does not chain a snap. Snapping happens only through the snap-idle timer.
- The options are the four of js/altscroll.js:35-40.
- A clamp factor of exactly zero counts as "no collision", because zero is
  falsy in JavaScript.
- The first frame of an animation reads its start offsets when it runs, not
  when `scrollTo` is called.
- `snapTo` returns `false` on failure and `undefined` on success. The model
  returns `false` and `true`.

`Math.round(x)` is `(x + 0.5).Floor`. `clacPointDistance` is modelled without
its square root. `Geometry.RootOrder` proves that comparing squared distances
orders points exactly as comparing their roots does, so the scan picks the
same child.

Between events the class keeps the invariant `Valid()`. It has three parts:

- the options are usable: with momentum on, the falloff is not zero;
- the snap-idle timer is pending only with snapping on;
- a pending follow-up frame belongs to an animation of positive length.

The constructor establishes `Valid()`, and every method that changes the
pending frame or the timer preserves it.

## Model

| member | source | states |
|---|---|---|
| `Geometry.RelativePos` | js/altscroll.js:55-58 | adding the container's corner back to the result gives the page coordinate |
| `Geometry.SqDistance` | js/altscroll.js:65-70 | the squared distance is never negative |
| `Geometry.RootOrder` | js/altscroll.js:69 | for non-negative distances, one is smaller than the other exactly when its square is smaller, so dropping the square root keeps every comparison of line 82 |
| `Geometry.AnchorsOf` | js/altscroll.js:79 | one anchor per cached child: its corner relative to the container |
| `Geometry.AnchorsIgnoreShift` | js/altscroll.js:79 | moving the container and every child by the same amount leaves every anchor where it was |
| `Collision.ClampAxis` | js/altscroll.js:166-178 | on an overflowing axis the result lies in `[0, max]` and is the point of that range closest to the target; with no overflow, or a target in range, the target is kept |
| `Collision.ClampFactor` | js/altscroll.js:166-178 | the factor is never negative, and it is zero (falsy) when the axis does not collide |
| `Collision.ClampFactorIsHonouredShare` | js/altscroll.js:168-177 | for a collision, the factor times the requested move equals the move the clamp honours; it is zero when the clamp honours none of the move, and at most one when the current offset is in range |
| `Collision.ScaleSpeed` | js/altscroll.js:180-185 | the speed is multiplied by the smaller non-zero factor, kept when both factors are zero, and stays zero for a zero speed |
| `Collision.CollisionNeverLengthens` | js/altscroll.js:166-185 | with the current offsets in range, the scaled speed lies in `[0, speed]` |
| `Collision.InRangeUnchanged` | js/altscroll.js:166-185 | targets already in range, or on axes without overflow, keep both targets and the speed |
| `Tween.Round` | js/altscroll.js:200-207 | the result is the nearest integer, with a half rounding up |
| `Tween.Advance` | js/altscroll.js:191-209 | a frame is the last one exactly when the speed is not positive or the speed has elapsed since the start; the last frame writes exactly the rounded targets |
| `Tween.IntermediateBetween` | js/altscroll.js:198-203 | without easing, an intermediate frame after the start writes offsets between the rounded start and the rounded target |
| `Tween.InterpolateMonotone` | js/altscroll.js:200-201 | without easing, a larger progress is at least as far towards the target, and progress one gives the rounded target |
| `Tween.FramesMonotone` | js/altscroll.js:193-208 | without easing, a later frame, the last included, is never further from the target than an earlier one and never passes it |
| `Momentum.Velocity` | js/altscroll.js:283-284 | the velocity times the drag time is the pointer's travel on each axis |
| `Momentum.Duration` | js/altscroll.js:286-287 | the length times the falloff is the larger absolute velocity; the length is non-negative for a positive falloff and non-positive for a negative one |
| `Momentum.Throw` | js/altscroll.js:289-291 | for a positive falloff the resting offset lies in the direction of the velocity, and for a negative falloff against it; it equals the current offset for zero velocity |
| `Momentum.StoppingDistance` | js/altscroll.js:289-291 | the distance thrown is the distance covered when slowing uniformly from `abs(v)` to rest at rate `falloff` |
| `Momentum.DurationCoversBothAxes` | js/altscroll.js:286-287 | the length is the stopping time of the faster axis, and the slower axis stops no later; on a tie either axis gives the same length |
| `Momentum.DefaultFalloffExample` | js/altscroll.js:286-291 | a release at 0.6 with falloff 0.006 travels 30 units over 100 ms |
| `Snap.NearestIndex` | js/altscroll.js:72-89 | the scan's result is 0 without anchors and a valid index otherwise |
| `Snap.NearestIndexIsFirstNearest` | js/altscroll.js:77-86 | the scan's result is no farther than any anchor and strictly closer than every anchor before it |
| `Snap.FirstNearestUnique` | js/altscroll.js:82-86 | at most one index is the first nearest |
| `Snap.TieGoesToLowestIndex` | js/altscroll.js:82-86 | anchors (0,0), (100,0), (100,0) seen from (100,0) give index 1 |
| `Scroller.DefaultOptions` | js/altscroll.js:35-40 | snapping is off and momentum is on, with a positive falloff, so the defaults meet the constructor's demand `Usable` |
| `Scroller.DragFrameIsInstant` | js/altscroll.js:264-268 | a drag's zero-speed frame is the last one the first time it fires, and it lands on the rounded target |
| `Scroller.AltScroll.constructor` | js/altscroll.js:14-53 | it caches the given geometry and measures every child at the origin; the scroll listener is attached, and no frame, timer or drag session is pending; `Valid()` holds |
| `Scroller.AltScroll.CalcNearestChild` | js/altscroll.js:72-89 | it returns the index of the first nearest anchor to the current offsets, or 0 without children |
| `Scroller.AltScroll.GetChildRect` | js/altscroll.js:110-127 | every child is measured with the offsets at zero, and the offsets are the same afterwards |
| `Scroller.AltScroll.Resize` | js/altscroll.js:149-152 | the resize-settle timer is pending |
| `Scroller.AltScroll.ResizeTimerFired` | js/altscroll.js:152-157 | a pending timer takes the current layout: the container and content boxes, the number of children, and every child box measured anew at the origin; without a pending timer nothing changes; the offsets never change |
| `Scroller.AltScroll.ScrollTo` | js/altscroll.js:160-189 | the pending frame is replaced by exactly one frame: the clamped targets with the scaled speed |
| `Scroller.AltScroll.FireFrame` | js/altscroll.js:187-188 | running the pending callback writes the frame's offsets; an unfinished animation registers its next step; a finished one registers nothing and attaches the scroll listener; with no callback nothing changes |
| `Scroller.AltScroll.ScrollToFrame` | js/altscroll.js:191-209 | the offsets become the frame's values; an intermediate frame registers exactly one follow-up frame, whose animation has positive length (`Valid()` is kept); the last frame leaves the frame slot alone and ends with the scroll listener attached |
| `Scroller.AltScroll.ScrollEnd` | js/altscroll.js:211-218 | afterwards the scroll listener is attached |
| `Scroller.AltScroll.SnapTo` | js/altscroll.js:220-226 | it succeeds exactly for an existing child and then targets that child's anchor with the given or default speed and easing; on failure the frame is unchanged |
| `Scroller.AltScroll.SnapToNearest` | js/altscroll.js:228-231 | it succeeds exactly when there are children, and then targets the first nearest anchor |
| `Scroller.AltScroll.Scroll` | js/altscroll.js:233-244 | with snapping on, the snap-idle timer is pending; otherwise nothing changes, so the timer is never pending with snapping off (`Valid()` is kept) |
| `Scroller.AltScroll.OnScrollActivity` | js/altscroll.js:142-143 | scroll activity restarts the snap-idle timer only while the listener is attached and snapping is on |
| `Scroller.AltScroll.SnapTimerFired` | js/altscroll.js:238-242 | a pending timer detaches the listener and snaps to the nearest child with the default speed and easing, if there is a child |
| `Scroller.AltScroll.DragStart` | js/altscroll.js:246-258 | with a session open nothing changes; otherwise it records the time, the pointer and the offsets; the pending frame is kept |
| `Scroller.AltScroll.Drag` | js/altscroll.js:260-269 | it registers a zero-speed frame to the start offsets moved by the pointer's travel |
| `Scroller.AltScroll.OnPointerMove` | js/altscroll.js:255-256 | pointer movement drags only while a session is open |
| `Scroller.AltScroll.DragEnd` | js/altscroll.js:271-299 | with no session nothing changes; otherwise the session closes, and the frame is cancelled, or replaced by the momentum throw when momentum is on |

## Left out

- `calcScrollbarSize` and `hideScrollbars`: they create DOM elements and write styles. The scrollbar thickness is a constructor argument.
- `bindEvents` and the listener calls: event plumbing. Listener attachment is kept only as the flags `scrollEvent` and `dragEvent`, and the handlers' `e.preventDefault()` calls are dropped.
- `calcTouchCoords`: choosing touch or mouse coordinates is input normalisation. The pointer's page coordinates are method arguments.
- The 500 ms quiet periods of `resize` and `scroll`: each timer is a pending flag and a "timer fired" method. Wall-clock timing is not modelled.
- `requestAnimationFrame` and `cancelAnimationFrame`: the frame slot `scrollFrame` stands in for them. The first frame's callback reads the clock twice, and the model uses one `now` for both readings.
- Browser side effects: the browser limits written scroll offsets to its own range, and the scroller's own offset writes raise scroll events. Neither is modelled. The offsets hold exactly what is written, and scroll activity arrives only through `OnScrollActivity`.
- The option merge loop of the constructor: the constructor takes the merged `Options`. Only the four options the source reads exist.
- The easing curve `easeOutCubic`: it is an opaque function value. No claim is made about its shape, so `Tween.IntermediateBetween` and `Tween.FramesMonotone` hold only without easing.
- Collision.ClampFactor: when an out-of-range target equals the current offset, the source divides by zero and gets IEEE Infinity. Real numbers have no Infinity, so the model treats that axis as unscaled. In the source, when only that axis collides and the speed is positive, the speed becomes Infinity (js/altscroll.js:183). Its progress then stays 0 (js/altscroll.js:196-202), so every frame registers another and the animation never ends. The model's animation ends after `speed` ms instead.
- Scroller.AltScroll.DragEnd: with momentum on, it excludes a zero drag time. There the source divides by zero and its velocities are IEEE NaN or Infinity. A negative drag time gives finite velocities and is modelled.
- Scroller.AltScroll.constructor: with momentum on, it excludes a zero momentum falloff (`Usable`). There the source's momentum length and throw are IEEE Infinity or NaN. A negative falloff gives a finite negative length and a throw against the velocity, and is modelled. With momentum off, any falloff is accepted.
- Other floating-point rounding: all arithmetic is on exact reals.
