/** The orbit camera's zoom state (`CameraOrbitOscillate`): a target radius
    moved at once by scroll and pinch input and clamped, and a current radius
    that eases towards it every frame. The sway angle, the noise and the final
    position and orientation of the camera are not modelled; the input
    deltas are parameters. */
module Orbit {
  import opened Geometry
  import opened Optional

  /** `Mathf.Clamp(value, min, max)`: below `min` gives `min`, otherwise above
      `max` gives `max`, otherwise the value itself. */
  function Clamp(value: real, min: real, max: real): (r: real)
    ensures min <= max ==> min <= r <= max
    ensures min <= value <= max ==> r == value
    ensures r == value || r == min || r == max
  {
    if value < min then min
    else if value > max then max
    else value
  }

  /** `Mathf.Clamp01`. */
  function Clamp01(t: real): (r: real)
    ensures 0.0 <= r <= 1.0
    ensures 0.0 <= t <= 1.0 ==> r == t
    ensures t <= 0.0 ==> r == 0.0
    ensures t >= 1.0 ==> r == 1.0
  {
    if t < 0.0 then 0.0
    else if t > 1.0 then 1.0
    else t
  }

  /** `Mathf.Lerp(a, b, t)`, which clamps `t` to `[0, 1]` before mixing. */
  function Lerp(a: real, b: real, t: real): real {
    a + (b - a) * Clamp01(t)
  }

  function Abs(x: real): real {
    if x < 0.0 then -x else x
  }

  lemma NonNegProduct(x: real, y: real)
    requires x >= 0.0 && y >= 0.0
    ensures x * y >= 0.0
  {
  }

  /** The two parts into which the smoothed value splits the gap from `a`
      to `b`. */
  lemma LerpGaps(a: real, b: real, t: real)
    ensures Lerp(a, b, t) - a == (b - a) * Clamp01(t)
    ensures b - Lerp(a, b, t) == (b - a) * (1.0 - Clamp01(t))
  {
  }

  /** The smoothed radius lies between the old radius and the target: the
      step never overshoots, at any frame rate. */
  lemma LerpBetween(a: real, b: real, t: real)
    ensures a <= b ==> a <= Lerp(a, b, t) <= b
    ensures b <= a ==> b <= Lerp(a, b, t) <= a
  {
    var u := Clamp01(t);
    LerpGaps(a, b, t);
    if a <= b {
      NonNegProduct(b - a, u);
      NonNegProduct(b - a, 1.0 - u);
    } else {
      NonNegProduct(a - b, u);
      NonNegProduct(a - b, 1.0 - u);
      assert (a - b) * u == -((b - a) * u);
      assert (a - b) * (1.0 - u) == -((b - a) * (1.0 - u));
    }
  }

  /** A factor of 0 or less keeps the old radius; 1 or more lands on the
      target. */
  lemma LerpEnds(a: real, b: real, t: real)
    ensures t <= 0.0 ==> Lerp(a, b, t) == a
    ensures t >= 1.0 ==> Lerp(a, b, t) == b
  {
  }

  /** One smoothing step closes a fixed share of the gap to the target: the
      gap left is `1 - t` (with `t` clamped) times the gap before, so repeated
      steps with a fixed target shrink it geometrically. */
  lemma LerpGap(a: real, b: real, t: real)
    ensures Abs(b - Lerp(a, b, t)) == (1.0 - Clamp01(t)) * Abs(b - a)
  {
    var u := Clamp01(t);
    LerpGaps(a, b, t);
    if b - a < 0.0 {
      NonNegProduct(a - b, 1.0 - u);
      assert (a - b) * (1.0 - u) == -((b - a) * (1.0 - u));
      assert (1.0 - u) * (a - b) == (a - b) * (1.0 - u);
    } else {
      NonNegProduct(b - a, 1.0 - u);
      assert (1.0 - u) * (b - a) == (b - a) * (1.0 - u);
    }
  }

  /** If both the current and the target radius lie in an interval, so does
      the smoothed radius. */
  lemma LerpStaysInInterval(a: real, b: real, t: real, lo: real, hi: real)
    requires lo <= a <= hi && lo <= b <= hi
    ensures lo <= Lerp(a, b, t) <= hi
  {
    LerpBetween(a, b, t);
  }

  /** The target radius after the input of one frame, before the clamp:
      a non-zero scroll moves it by `-scroll * zoomSpeedMouse`, and with
      exactly two touches the pinch moves it by
      `(prevSeparation - curSeparation) * zoomSpeedTouch`; both land on the
      same value before a single clamp. */
  function Unclamped(zoom: real, scroll: real, zoomSpeedMouse: real,
                     touchCount: int, prevSeparation: real, curSeparation: real,
                     zoomSpeedTouch: real): real
  {
    var afterScroll := if scroll != 0.0 then zoom - scroll * zoomSpeedMouse else zoom;
    if touchCount == 2 then afterScroll + (prevSeparation - curSeparation) * zoomSpeedTouch
    else afterScroll
  }

  /** Scroll without pinch moves the target by exactly the scroll term. */
  lemma ScrollOnly(zoom: real, scroll: real, zoomSpeedMouse: real,
                   touchCount: int, prevSeparation: real, curSeparation: real,
                   zoomSpeedTouch: real)
    requires touchCount != 2
    ensures Unclamped(zoom, scroll, zoomSpeedMouse, touchCount, prevSeparation,
                      curSeparation, zoomSpeedTouch) == zoom - scroll * zoomSpeedMouse
  {
  }

  /** Pinch without scroll moves the target by exactly the pinch term, and
      touches are ignored unless there are exactly two. */
  lemma PinchOnly(zoom: real, zoomSpeedMouse: real, touchCount: int,
                  prevSeparation: real, curSeparation: real, zoomSpeedTouch: real)
    ensures Unclamped(zoom, 0.0, zoomSpeedMouse, touchCount, prevSeparation,
                      curSeparation, zoomSpeedTouch) ==
            if touchCount == 2 then zoom + (prevSeparation - curSeparation) * zoomSpeedTouch
            else zoom
  {
  }

  /** Because the clamp comes once, after both terms, a scroll that would
      leave the range can be pulled back by a pinch in the same frame; clamping
      after each term would give a different radius. */
  lemma SingleClampDiffersFromStepwise()
    ensures var zoom, min, max := 3.0, 2.0, 20.0;
            var afterScroll := zoom - 1.0 * 5.0;
            Clamp(Unclamped(zoom, 1.0, 5.0, 2, 10.0, 2.0, 0.5), min, max) == 2.0 &&
            Clamp(Clamp(afterScroll, min, max) + (10.0 - 2.0) * 0.5, min, max) == 6.0
  {
  }

  class CameraOrbitOscillate {
    /** The orbit target's position, or `None` when no target is assigned. */
    const target: Option<Vec3>
    const swaySpeed: real
    const minDistance: real
    const maxDistance: real
    const zoomSpeedMouse: real
    const zoomSpeedTouch: real
    const zoomSmoothness: real
    /** `Vector3.magnitude`, a square root in single precision. */
    const magnitude: Vec3 -> real

    /** The camera's `transform.position`. */
    var position: Vec3

    var initialOffsetFlat: Vec3
    var initialHeight: real
    var currentSwayTime: real
    var initialDistanceMagnitude: real
    var targetZoomDistance: real
    var currentZoomDistance: real

    constructor (target: Option<Vec3>, swaySpeed: real, minDistance: real, maxDistance: real,
                 zoomSpeedMouse: real, zoomSpeedTouch: real, zoomSmoothness: real,
                 magnitude: Vec3 -> real, position: Vec3)
      ensures this.target == target && this.swaySpeed == swaySpeed
      ensures this.minDistance == minDistance && this.maxDistance == maxDistance
      ensures this.zoomSpeedMouse == zoomSpeedMouse && this.zoomSpeedTouch == zoomSpeedTouch
      ensures this.zoomSmoothness == zoomSmoothness && this.magnitude == magnitude
      ensures this.position == position
      ensures initialOffsetFlat == ZERO && initialHeight == 0.0 && currentSwayTime == 0.0
      ensures initialDistanceMagnitude == 0.0
      ensures targetZoomDistance == 0.0 && currentZoomDistance == 0.0
    {
      this.target := target;
      this.swaySpeed := swaySpeed;
      this.minDistance := minDistance;
      this.maxDistance := maxDistance;
      this.zoomSpeedMouse := zoomSpeedMouse;
      this.zoomSpeedTouch := zoomSpeedTouch;
      this.zoomSmoothness := zoomSmoothness;
      this.magnitude := magnitude;
      this.position := position;
      initialOffsetFlat, initialHeight, currentSwayTime := ZERO, 0.0, 0.0;
      initialDistanceMagnitude, targetZoomDistance, currentZoomDistance := 0.0, 0.0, 0.0;
    }

    /** Both radii start at the length of the initial camera offset, without
        any clamp; the offset is split into a flat part and a height that add
        up to it again. Without a target nothing happens. */
    method Start()
      modifies this
      ensures target.None? ==> unchanged(this)
      ensures target.Some? ==>
        var offset := Sub(position, target.value);
        initialDistanceMagnitude == magnitude(offset) &&
        targetZoomDistance == initialDistanceMagnitude &&
        currentZoomDistance == initialDistanceMagnitude &&
        initialHeight == offset.y && initialOffsetFlat.y == 0.0 &&
        Add(initialOffsetFlat, Vec3(0.0, initialHeight, 0.0)) == offset
      ensures position == old(position) && currentSwayTime == old(currentSwayTime)
    {
      if target.Some? {
        var fullOffset := Sub(position, target.value);
        initialDistanceMagnitude := magnitude(fullOffset);
        targetZoomDistance := initialDistanceMagnitude;
        currentZoomDistance := initialDistanceMagnitude;
        initialHeight := fullOffset.y;
        initialOffsetFlat := fullOffset.(y := 0.0);
      }
    }

    /** Applies one frame's scroll and pinch to the target radius and clamps
        it; nothing else changes. */
    method HandleZoomInput(scroll: real, touchCount: int, prevSeparation: real, curSeparation: real)
      modifies this`targetZoomDistance
      ensures targetZoomDistance ==
        Clamp(Unclamped(old(targetZoomDistance), scroll, zoomSpeedMouse, touchCount,
                        prevSeparation, curSeparation, zoomSpeedTouch),
              minDistance, maxDistance)
      ensures minDistance <= maxDistance ==> minDistance <= targetZoomDistance <= maxDistance
      ensures scroll == 0.0 && touchCount != 2 && minDistance <= old(targetZoomDistance) <= maxDistance ==>
        targetZoomDistance == old(targetZoomDistance)
    {
      if scroll != 0.0 {
        targetZoomDistance := targetZoomDistance - scroll * zoomSpeedMouse;
      }
      if touchCount == 2 {
        var deltaMagnitudeDiff := prevSeparation - curSeparation;
        targetZoomDistance := targetZoomDistance + deltaMagnitudeDiff * zoomSpeedTouch;
      }
      targetZoomDistance := Clamp(targetZoomDistance, minDistance, maxDistance);
    }

    /** One frame: input, then one smoothing step of the current radius
        towards the new target, then the sway clock advances and the camera
        is moved to `newPosition` (the swayed, zoom-scaled and noisy point
        computed by the host). Without a target nothing happens. Once both
        radii lie in `[minDistance, maxDistance]` they stay there. */
    method Update(deltaTime: real, scroll: real, touchCount: int,
                  prevSeparation: real, curSeparation: real, newPosition: Vec3)
      modifies this
      ensures target.None? ==> unchanged(this)
      ensures target.Some? ==>
        targetZoomDistance ==
          Clamp(Unclamped(old(targetZoomDistance), scroll, zoomSpeedMouse, touchCount,
                          prevSeparation, curSeparation, zoomSpeedTouch),
                minDistance, maxDistance) &&
        currentZoomDistance ==
          Lerp(old(currentZoomDistance), targetZoomDistance, deltaTime * zoomSmoothness) &&
        currentSwayTime == old(currentSwayTime) + deltaTime * swaySpeed
      ensures target.Some? && minDistance <= maxDistance ==>
        minDistance <= targetZoomDistance <= maxDistance
      ensures target.Some? && old(currentZoomDistance) <= targetZoomDistance ==>
        old(currentZoomDistance) <= currentZoomDistance <= targetZoomDistance
      ensures target.Some? && targetZoomDistance <= old(currentZoomDistance) ==>
        targetZoomDistance <= currentZoomDistance <= old(currentZoomDistance)
      ensures target.Some? && minDistance <= old(currentZoomDistance) <= maxDistance ==>
        minDistance <= currentZoomDistance <= maxDistance
      ensures initialOffsetFlat == old(initialOffsetFlat) && initialHeight == old(initialHeight)
      ensures initialDistanceMagnitude == old(initialDistanceMagnitude)
      ensures target.Some? ==> position == newPosition
    {
      if target.None? {
        return;
      }
      HandleZoomInput(scroll, touchCount, prevSeparation, curSeparation);
      LerpBetween(currentZoomDistance, targetZoomDistance, deltaTime * zoomSmoothness);
      currentZoomDistance := Lerp(currentZoomDistance, targetZoomDistance, deltaTime * zoomSmoothness);
      if minDistance <= old(currentZoomDistance) <= maxDistance {
        LerpStaysInInterval(old(currentZoomDistance), targetZoomDistance,
                            deltaTime * zoomSmoothness, minDistance, maxDistance);
      }
      currentSwayTime := currentSwayTime + deltaTime * swaySpeed;
      position := newPosition;
    }
  }
}
