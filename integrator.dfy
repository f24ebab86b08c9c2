/**
  One frame of `update`: the rotate, zoom and pan steps applied to the eye
  vector, the distance clamp and the "change" notification. Each step is a
  function from the controller's numeric state to its next value; the
  `TrackballControls` class applies them to its fields in place.
 */
module Integrator {
  import opened Vectors

  /** `EPS`: how far (squared) the camera must have moved for "change" to be dispatched. */
  const EPS: real := 0.000001

  /**
    A gesture buffer of the pan gesture. Copying something that is not a
    vector into one (the three-touch branches of the touch handlers do)
    leaves both coordinates `undefined`, and all arithmetic on it is NaN.
   */
  datatype PanPoint = Num(v: Vec2) | NotANumber

  /** `maxDistance`, which starts at `Infinity`. */
  datatype Bound = Finite(value: real) | Infinite

  /** The public settings `update` reads. */
  datatype Config = Config(
    rotateSpeed: real, zoomSpeed: real, panSpeed: real,
    noRotate: bool, noZoom: bool, noPan: bool, staticMoving: bool,
    dynamicDampingFactor: real, minDistance: real, maxDistance: Bound)

  /** The values the settings start with. */
  const Defaults: Config := Config(1.0, 1.2, 0.3, false, false, false, false, 0.2, 0.0, Infinite)

  /**
    The numeric state a frame reads and writes: the camera's `position` and
    `up`, the controller's `target` and `eye`, the rotate, zoom and pan
    buffers, the rotation momentum and `lastPosition`.
   */
  datatype Motion = Motion(
    position: Vec3, up: Vec3, target: Vec3, eye: Vec3,
    movePrev: Vec2, moveCurr: Vec2, lastAxis: Vec3, lastAngle: real,
    zoomStart: Vec2, zoomEnd: Vec2, panStart: PanPoint, panEnd: PanPoint,
    lastPosition: Vec3)

  function Pow(x: real, n: nat): real {
    if n == 0 then 1.0 else Pow(x, n - 1) * x
  }

  // ---- rotateCamera ----

  /** The pointer motion since the last frame, on the unit circle of `getMouseOnCircle`. */
  function MoveDelta(m: Motion): Vec2 { Sub2(m.moveCurr, m.movePrev) }

  /** `moveDirection.length()`: the length of the pointer delta, the angle of a drag. */
  function Angle(m: Motion, lib: Library): real { lib.sqrt(SqLen2(MoveDelta(m))) }

  /** The factor `sqrt(1 - dynamicDampingFactor)` that damps the momentum angle on each frame. */
  function Damping(c: Config, lib: Library): real { lib.sqrt(1.0 - c.dynamicDampingFactor) }

  /** The angle of a drag: the pointer delta's length times `rotateSpeed`. */
  function DragAngle(m: Motion, c: Config, lib: Library): real { Angle(m, lib) * c.rotateSpeed }

  /** The angle of a coasting frame: the last angle, damped. */
  function CoastAngle(m: Motion, c: Config, lib: Library): real { m.lastAngle * Damping(c, lib) }

  /**
    The quaternion turn of `rotateCamera`: the eye, recomputed from the
    camera and the target, and the camera's up vector both turn about
    `axis` by `a`.
   */
  function Turn(m: Motion, axis: Vec3, a: real, lib: Library): Motion {
    m.(eye := lib.applyAxisAngle(Sub(m.position, m.target), axis, a), up := lib.applyAxisAngle(m.up, axis, a))
  }

  /**
    `rotateCamera`: a non-zero pointer delta turns the eye and the camera's
    up vector by the delta's length times `rotateSpeed`, about an axis worked
    out from the delta, the eye and up; without a delta, and unless
    `staticMoving`, the last rotation is repeated with its angle damped by
    `sqrt(1 - dynamicDampingFactor)`. Either way the delta is consumed.
   */
  function RotateStep(m: Motion, c: Config, lib: Library): Motion {
    if Angle(m, lib) != 0.0 then
      var axis := lib.rotationAxis(MoveDelta(m), Sub(m.position, m.target), m.up);
      Turn(m, axis, DragAngle(m, c, lib), lib).(lastAxis := axis, lastAngle := DragAngle(m, c, lib), movePrev := m.moveCurr)
    else if !c.staticMoving && m.lastAngle != 0.0 then
      Turn(m, m.lastAxis, CoastAngle(m, c, lib), lib).(lastAngle := CoastAngle(m, c, lib), movePrev := m.moveCurr)
    else
      m.(movePrev := m.moveCurr)
  }

  /**
    The pointer has not moved since the last frame: the delta has length
    zero, so `rotateCamera` finds no angle.
   */
  predicate PointerStill(m: Motion, lib: Library) { Angle(m, lib) == 0.0 }

  /** Equal buffers make a still pointer. */
  lemma EqualBuffersStill(m: Motion, lib: Library)
    requires IsSqrt(lib.sqrt) && m.moveCurr == m.movePrev
    ensures PointerStill(m, lib)
  {
    assert SqLen2(MoveDelta(m)) == 0.0;
  }

  /** The rotation consumes the pointer delta and touches only the eye, up and the momentum. */
  lemma RotateConsumesDelta(m: Motion, c: Config, lib: Library)
    ensures var r := RotateStep(m, c, lib);
      && r.movePrev == m.moveCurr && r.moveCurr == m.moveCurr
      && r == m.(eye := r.eye, up := r.up, lastAxis := r.lastAxis, lastAngle := r.lastAngle,
                 movePrev := m.moveCurr)
  {
  }

  /** A still pointer and no momentum to spend: the rotation changes nothing but the (zero) delta. */
  lemma RotateIdle(m: Motion, c: Config, lib: Library)
    requires IsSqrt(lib.sqrt)
    requires PointerStill(m, lib)
    requires c.staticMoving || m.lastAngle == 0.0
    ensures RotateStep(m, c, lib) == m.(movePrev := m.moveCurr)
  {
  }

  /**
    A drag records its angle: the square of the new `lastAngle` is the
    squared pointer delta times `rotateSpeed` squared, so a non-zero drag at
    a non-zero speed arms the momentum.
   */
  lemma RotateDrag(m: Motion, c: Config, lib: Library)
    requires IsSqrt(lib.sqrt)
    requires !PointerStill(m, lib)
    ensures var r := RotateStep(m, c, lib);
      && r.lastAngle * r.lastAngle == SqLen2(MoveDelta(m)) * (c.rotateSpeed * c.rotateSpeed)
      && (c.rotateSpeed != 0.0 ==> r.lastAngle != 0.0)
  {
    var q := SqLen2(MoveDelta(m));
    SqLen2NonNegative(MoveDelta(m));
    RootOf(q, lib.sqrt);
    var s := lib.sqrt(q);
    var k := c.rotateSpeed;
    assert (s * k) * (s * k) == (s * s) * (k * k);
    if k != 0.0 {
      NonZeroProduct(s, k);
    }
  }

  /** With the pointer still and momentum left, a frame spends the momentum. */
  lemma CoastStep(m: Motion, c: Config, lib: Library)
    requires IsSqrt(lib.sqrt)
    requires PointerStill(m, lib) && !c.staticMoving && m.lastAngle != 0.0
    ensures var a := CoastAngle(m, c, lib);
      RotateStep(m, c, lib) == Turn(m, m.lastAxis, a, lib).(lastAngle := a, movePrev := m.moveCurr)
  {
  }

  /** The damped angle `t * s`, where `s` is the root of `1 - d`. */
  lemma DampedAngle(t: real, d: real, s: real)
    requires t != 0.0 && 0.0 <= d <= 1.0 && 0.0 <= s && s * s == 1.0 - d
    requires s == 0.0 <==> 1.0 - d == 0.0
    ensures 0.0 < t ==> 0.0 <= t * s <= t
    ensures t < 0.0 ==> t <= t * s <= 0.0
    ensures d == 1.0 ==> t * s == 0.0
    ensures d < 1.0 ==> t * s != 0.0
  {
    UnitRoot(s, d);
    Shrinks(t, s);
    if d < 1.0 {
      NonZeroProduct(t, s);
    }
  }

  /**
    With the pointer still and damping in [0, 1], each frame repeats the
    last rotation with its angle multiplied by `sqrt(1 - dynamicDampingFactor)`:
    the angle keeps its sign and never grows; it reaches zero in one frame
    when the factor is 1, and never when the factor is below 1.
   */
  lemma MomentumDecay(m: Motion, c: Config, lib: Library)
    requires IsSqrt(lib.sqrt)
    requires PointerStill(m, lib) && !c.staticMoving && m.lastAngle != 0.0
    requires 0.0 <= c.dynamicDampingFactor <= 1.0
    ensures var r := RotateStep(m, c, lib);
      && r.lastAngle == m.lastAngle * Damping(c, lib)
      && r.lastAxis == m.lastAxis && r.moveCurr == m.moveCurr && r.movePrev == m.moveCurr
      && (0.0 < m.lastAngle ==> 0.0 <= r.lastAngle <= m.lastAngle)
      && (m.lastAngle < 0.0 ==> m.lastAngle <= r.lastAngle <= 0.0)
      && (c.dynamicDampingFactor == 1.0 ==> r.lastAngle == 0.0)
      && (c.dynamicDampingFactor < 1.0 ==> r.lastAngle != 0.0)
  {
    var d := c.dynamicDampingFactor;
    var s := Damping(c, lib);
    RootOf(1.0 - d, lib.sqrt);
    DampedAngle(m.lastAngle, d, s);
    CoastStep(m, c, lib);
    var r := RotateStep(m, c, lib);
    assert r.lastAngle == m.lastAngle * s;
  }

  /**
    `rotateCamera` called `n` times in a row with no pointer input in
    between; the frames of `update` around it are `Frames` below.
   */
  function Coasting(m: Motion, c: Config, lib: Library, n: nat): Motion
    decreases n
  {
    if n == 0 then m else RotateStep(Coasting(m, c, lib, n - 1), c, lib)
  }

  /** The angle `g` damped by the factor `s` on each of `n` frames. */
  function Decayed(g: real, s: real, n: nat): real {
    if n == 0 then g else Decayed(g, s, n - 1) * s
  }

  /** The damped angle is the start angle times the n-th power of the factor. */
  lemma {:induction false} DecayedIsPower(g: real, s: real, n: nat)
    ensures Decayed(g, s, n) == g * Pow(s, n)
  {
    if n > 0 {
      DecayedIsPower(g, s, n - 1);
      Compose(Decayed(g, s, n), Decayed(g, s, n - 1), g, Pow(s, n - 1), s, Pow(s, n));
    }
  }

  /**
    What `p` looks like `k` frames after `m` started coasting: the pointer
    is still, the axis is the same and the angle is the start angle damped
    `k` times by `sqrt(1 - dynamicDampingFactor)`, and not zero.
   */
  predicate CoastsLike(p: Motion, m: Motion, c: Config, lib: Library, k: nat) {
    && PointerStill(p, lib) && p.moveCurr == m.moveCurr && p.lastAxis == m.lastAxis
    && p.lastAngle == Decayed(m.lastAngle, Damping(c, lib), k)
    && p.lastAngle != 0.0
  }

  /** One more damping step multiplies by the factor once more. */
  lemma DecayedNext(g: real, s: real, k: nat, y: real)
    ensures y == Decayed(g, s, k) ==> y * s == Decayed(g, s, k + 1)
  {
  }

  /** Whatever the rotation does, the next frame starts with a still pointer. */
  lemma StillAfter(m: Motion, c: Config, lib: Library)
    requires IsSqrt(lib.sqrt)
    ensures PointerStill(RotateStep(m, c, lib), lib)
  {
    RotateConsumesDelta(m, c, lib);
    EqualBuffersStill(RotateStep(m, c, lib), lib);
  }

  /** The angle after one more coasting frame. */
  lemma CoastFrameAngle(p: Motion, m: Motion, c: Config, lib: Library, k: nat)
    requires IsSqrt(lib.sqrt)
    requires !c.staticMoving && 0.0 <= c.dynamicDampingFactor < 1.0
    requires CoastsLike(p, m, c, lib, k)
    ensures RotateStep(p, c, lib).lastAngle == Decayed(m.lastAngle, Damping(c, lib), k + 1)
  {
    MomentumDecay(p, c, lib);
    DecayedNext(m.lastAngle, Damping(c, lib), k, p.lastAngle);
  }

  /** The rest of the state after one more coasting frame. */
  lemma CoastFrameRest(p: Motion, m: Motion, c: Config, lib: Library, k: nat)
    requires IsSqrt(lib.sqrt)
    requires !c.staticMoving && 0.0 <= c.dynamicDampingFactor < 1.0
    requires CoastsLike(p, m, c, lib, k)
    ensures var r := RotateStep(p, c, lib);
      PointerStill(r, lib) && r.lastAngle != 0.0 && r.lastAxis == m.lastAxis && r.moveCurr == m.moveCurr
  {
    MomentumDecay(p, c, lib);
    StillAfter(p, c, lib);
  }

  /** One coasting frame, from `p` to `r`, damps the angle once more and keeps the rest of the coast. */
  lemma CoastFrame(p: Motion, r: Motion, m: Motion, c: Config, lib: Library, k: nat, j: nat)
    requires IsSqrt(lib.sqrt)
    requires !c.staticMoving && 0.0 <= c.dynamicDampingFactor < 1.0
    requires r == RotateStep(p, c, lib) && j == k + 1
    requires CoastsLike(p, m, c, lib, k)
    ensures CoastsLike(r, m, c, lib, j)
  {
    CoastFrameAngle(p, m, c, lib, k);
    CoastFrameRest(p, m, c, lib, k);
  }

  /**
    After a drag stops, the n-th frame still turns about the axis of the
    drag, by the drag's angle damped n times by
    `sqrt(1 - dynamicDampingFactor)`, which is never zero.
   */
  lemma {:induction false} MomentumAfter(m: Motion, c: Config, lib: Library, n: nat)
    requires IsSqrt(lib.sqrt)
    requires PointerStill(m, lib) && !c.staticMoving && m.lastAngle != 0.0
    requires 0.0 <= c.dynamicDampingFactor < 1.0
    ensures CoastsLike(Coasting(m, c, lib, n), m, c, lib, n)
  {
    if n > 0 {
      MomentumAfter(m, c, lib, n - 1);
      CoastFrame(Coasting(m, c, lib, n - 1), Coasting(m, c, lib, n), m, c, lib, n - 1, n);
    }
  }

  /** The same, with the damping as a power: the n-th angle is the drag angle times the factor to the n-th. */
  lemma MomentumPower(m: Motion, c: Config, lib: Library, n: nat)
    requires IsSqrt(lib.sqrt)
    requires PointerStill(m, lib) && !c.staticMoving && m.lastAngle != 0.0
    requires 0.0 <= c.dynamicDampingFactor < 1.0
    ensures Coasting(m, c, lib, n).lastAngle == m.lastAngle * Pow(Damping(c, lib), n)
  {
    MomentumAfter(m, c, lib, n);
    CoastPower(Coasting(m, c, lib, n), m, c, lib, n);
  }

  // ---- zoomCamera ----

  /** The factor the eye is scaled by: one plus the zoom gap times `zoomSpeed`. */
  function ZoomFactor(m: Motion, c: Config): real {
    1.0 + (m.zoomEnd.y - m.zoomStart.y) * c.zoomSpeed
  }

  /** How far the zoom gesture still has to go. */
  function ZoomGap(m: Motion): real { m.zoomEnd.y - m.zoomStart.y }

  /**
    The mouse branch of `zoomCamera`: scale the eye by the factor when it is
    positive and not 1, then either close the zoom gap (`staticMoving`) or
    close the fraction `dynamicDampingFactor` of it.
   */
  function ZoomStep(m: Motion, c: Config): Motion {
    var factor := ZoomFactor(m, c);
    m.(eye := if factor != 1.0 && factor > 0.0 then Scale(m.eye, factor) else m.eye,
       zoomStart := if c.staticMoving then m.zoomEnd
                    else Vec2(m.zoomStart.x, m.zoomStart.y + (m.zoomEnd.y - m.zoomStart.y) * c.dynamicDampingFactor))
  }

  /**
    The zoom moves the camera along its ray from the target and only there:
    the new eye is a positive multiple of the old one, and nothing but the
    eye and `zoomStart` changes.
   */
  lemma ZoomKeepsRay(m: Motion, c: Config)
    ensures var r := ZoomStep(m, c);
      && (exists k: real :: 0.0 < k && r.eye == Scale(m.eye, k))
      && r == m.(eye := r.eye, zoomStart := r.zoomStart)
  {
    var r := ZoomStep(m, c);
    var f := ZoomFactor(m, c);
    if f != 1.0 && f > 0.0 {
      assert r.eye == Scale(m.eye, f);
    } else {
      assert r.eye == Scale(m.eye, 1.0);
    }
  }

  /**
    Which way the camera moves: a positive factor above 1 (the zoom gap and
    `zoomSpeed` of the same sign) never brings it nearer the target, one
    below 1 never takes it further, and a factor that is not positive leaves
    the eye where it is.
   */
  lemma ZoomDirection(m: Motion, c: Config)
    ensures var f := ZoomFactor(m, c);
      var r := ZoomStep(m, c);
      && (f <= 0.0 || f == 1.0 ==> r.eye == m.eye)
      && (1.0 <= f ==> SqLen(m.eye) <= SqLen(r.eye))
      && (0.0 < f <= 1.0 ==> SqLen(r.eye) <= SqLen(m.eye))
  {
    var f := ZoomFactor(m, c);
    if f != 1.0 && f > 0.0 {
      if 1.0 <= f {
        ScaleGrows(m.eye, f);
      } else {
        ScaleShrinks(m.eye, f);
      }
    }
  }

  /** With `staticMoving` the zoom gap closes in one frame. */
  lemma ZoomStatic(m: Motion, c: Config)
    requires c.staticMoving
    ensures ZoomStep(m, c).zoomStart == m.zoomEnd && ZoomGap(ZoomStep(m, c)) == 0.0
  {
  }

  /** Otherwise `zoomStart.x` stays and the gap shrinks by the factor `1 - dynamicDampingFactor`. */
  lemma ZoomDamping(m: Motion, c: Config)
    requires !c.staticMoving
    ensures ZoomStep(m, c).zoomStart.x == m.zoomStart.x
    ensures ZoomStep(m, c).zoomEnd == m.zoomEnd
    ensures ZoomGap(ZoomStep(m, c)) == ZoomGap(m) * (1.0 - c.dynamicDampingFactor)
  {
    var g := ZoomGap(m);
    var d := c.dynamicDampingFactor;
    assert m.zoomEnd.y - (m.zoomStart.y + g * d) == g * (1.0 - d);
  }

  function ZoomSteps(m: Motion, c: Config, n: nat): Motion {
    if n == 0 then m else ZoomStep(ZoomSteps(m, c, n - 1), c)
  }

  lemma ZoomStepsStep(m: Motion, c: Config, n: nat)
    requires !c.staticMoving && n > 0
    requires ZoomGap(ZoomSteps(m, c, n - 1)) == ZoomGap(m) * Pow(1.0 - c.dynamicDampingFactor, n - 1)
    ensures ZoomGap(ZoomSteps(m, c, n)) == ZoomGap(m) * Pow(1.0 - c.dynamicDampingFactor, n)
  {
    var p := ZoomSteps(m, c, n - 1);
    var e := 1.0 - c.dynamicDampingFactor;
    ZoomDamping(p, c);
    Compose(ZoomGap(ZoomSteps(m, c, n)), ZoomGap(p), ZoomGap(m), Pow(e, n - 1), e, Pow(e, n));
  }

  /**
    Frames without further zoom input shrink the gap geometrically: after n
    of them it is the first gap times `(1 - dynamicDampingFactor)` to the n-th
    power, and `zoomEnd` has not moved.
   */
  lemma {:induction false} ZoomGapAfter(m: Motion, c: Config, n: nat)
    requires !c.staticMoving
    ensures ZoomSteps(m, c, n).zoomEnd == m.zoomEnd
    ensures ZoomGap(ZoomSteps(m, c, n)) == ZoomGap(m) * Pow(1.0 - c.dynamicDampingFactor, n)
  {
    if n > 0 {
      ZoomGapAfter(m, c, n - 1);
      ZoomDamping(ZoomSteps(m, c, n - 1), c);
      ZoomStepsStep(m, c, n);
    }
  }

  /**
    `mousewheel`: the wheel moves `zoomStart.y` against the scroll, by a unit
    that depends on `deltaMode` (pages, lines, or anything else as pixels).
   */
  function WheelUnit(deltaMode: int): real {
    if deltaMode == 2 then 0.025 else if deltaMode == 1 then 0.01 else 0.00025
  }

  function WheelScroll(zoomStart: Vec2, deltaMode: int, deltaY: real): Vec2 {
    Vec2(zoomStart.x, zoomStart.y - deltaY * WheelUnit(deltaMode))
  }

  /** Two wheel events in the same mode add up to one with the summed delta; `x` never changes. */
  lemma WheelAdds(z: Vec2, deltaMode: int, a: real, b: real)
    ensures WheelScroll(WheelScroll(z, deltaMode, a), deltaMode, b) == WheelScroll(z, deltaMode, a + b)
    ensures WheelScroll(z, deltaMode, a).x == z.x
  {
    var u := WheelUnit(deltaMode);
    assert a * u + b * u == (a + b) * u;
  }

  /**
    Scrolling down (positive `deltaY`) from rest, at a positive `zoomSpeed`,
    makes the next frame's factor exceed 1, so the camera never comes nearer.
   */
  lemma WheelDownZoomsOut(m: Motion, c: Config, deltaMode: int, deltaY: real)
    requires m.zoomStart.y == m.zoomEnd.y && 0.0 < deltaY && 0.0 < c.zoomSpeed
    ensures var w := m.(zoomStart := WheelScroll(m.zoomStart, deltaMode, deltaY));
      1.0 < ZoomFactor(w, c) && SqLen(m.eye) <= SqLen(ZoomStep(w, c).eye)
  {
    var w := m.(zoomStart := WheelScroll(m.zoomStart, deltaMode, deltaY));
    var g := deltaY * WheelUnit(deltaMode);
    assert 0.0 < g;
    assert ZoomGap(w) == g;
    assert 0.0 < g * c.zoomSpeed;
    ZoomDirection(w, c);
  }

  // ---- panCamera ----

  /** `mouseChange.lengthSq()` is truthy: both buffers are numbers and differ. */
  predicate PanActive(m: Motion) {
    m.panStart.Num? && m.panEnd.Num? && SqLen2(Sub2(m.panEnd.v, m.panStart.v)) != 0.0
  }

  /** The pointer change of a pan, scaled by the eye's length and `panSpeed`. */
  function PanChange(m: Motion, c: Config, lib: Library): Vec2
    requires m.panStart.Num? && m.panEnd.Num?
  {
    Scale2(Sub2(m.panEnd.v, m.panStart.v), Length(m.eye, lib.sqrt) * c.panSpeed)
  }

  /** A pan change laid out in space: its x part along `eye × up` and its y part along `up`. */
  function PanVector(eye: Vec3, up: Vec3, change: Vec2, sqrt: real -> real): Vec3
    requires IsSqrt(sqrt)
  {
    Add(SetLength(Cross(eye, up), change.x, sqrt), SetLength(up, change.y, sqrt))
  }

  /** The vector the pan adds to the target and to the camera. */
  function PanOffset(m: Motion, c: Config, lib: Library): Vec3
    requires IsSqrt(lib.sqrt) && m.panStart.Num? && m.panEnd.Num?
  {
    PanVector(m.eye, m.up, PanChange(m, c, lib), lib.sqrt)
  }

  /** `panCamera` */
  function PanStep(m: Motion, c: Config, lib: Library): Motion
    requires IsSqrt(lib.sqrt)
  {
    if PanActive(m) then
      var s := m.panStart.v;
      var e := m.panEnd.v;
      var pan := PanOffset(m, c, lib);
      m.(position := Add(m.position, pan), target := Add(m.target, pan),
         panStart := if c.staticMoving then m.panEnd
                     else Num(Add2(s, Scale2(Sub2(e, s), c.dynamicDampingFactor))))
    else
      m
  }

  /** With the buffers equal, or either of them NaN, the pan changes nothing. */
  lemma PanIdle(m: Motion, c: Config, lib: Library)
    requires IsSqrt(lib.sqrt)
    requires m.panStart == m.panEnd || m.panStart.NotANumber? || m.panEnd.NotANumber?
    ensures PanStep(m, c, lib) == m
  {
    if m.panStart == m.panEnd && m.panStart.Num? {
      assert Sub2(m.panEnd.v, m.panStart.v) == Vec2(0.0, 0.0);
    }
  }

  /**
    The target and the camera move by the same vector, so the eye, the
    offset from target to camera and the up vector are all kept; only the
    two positions and `panStart` change.
   */
  lemma PanMovesRigidly(m: Motion, c: Config, lib: Library)
    requires IsSqrt(lib.sqrt)
    ensures var r := PanStep(m, c, lib);
      && Sub(r.position, m.position) == Sub(r.target, m.target)
      && Sub(r.position, r.target) == Sub(m.position, m.target)
      && r == m.(position := r.position, target := r.target, panStart := r.panStart)
  {
  }

  /** The pan gap: how far `panStart` still is from `panEnd`. */
  function PanGap(m: Motion): Vec2
    requires m.panStart.Num? && m.panEnd.Num?
  {
    Sub2(m.panEnd.v, m.panStart.v)
  }

  /**
    An active pan either closes the gap (`staticMoving`) or moves `panStart`
    the fraction `dynamicDampingFactor` of the way to `panEnd`, which leaves
    the gap scaled by `1 - dynamicDampingFactor`.
   */
  lemma PanDamping(m: Motion, c: Config, lib: Library)
    requires IsSqrt(lib.sqrt) && PanActive(m)
    ensures var r := PanStep(m, c, lib);
      && r.panEnd == m.panEnd && r.panStart.Num?
      && (c.staticMoving ==> r.panStart == m.panEnd)
      && (!c.staticMoving ==> PanGap(r) == Scale2(PanGap(m), 1.0 - c.dynamicDampingFactor))
  {
    var s := m.panStart.v;
    var e := m.panEnd.v;
    var d := c.dynamicDampingFactor;
    assert e.x - (s.x + (e.x - s.x) * d) == (e.x - s.x) * (1.0 - d);
    assert e.y - (s.y + (e.y - s.y) * d) == (e.y - s.y) * (1.0 - d);
  }

  // ---- checkDistances ----

  /** `eye.lengthSq() > maxDistance * maxDistance`, which an infinite bound never satisfies. */
  predicate AboveMax(eye: Vec3, b: Bound) {
    b.Finite? && SqLen(eye) > b.value * b.value
  }

  predicate BelowMin(eye: Vec3, min: real) {
    SqLen(eye) < min * min
  }

  /** `checkDistances` is skipped when both zoom and pan are off. */
  predicate ClampOn(c: Config) { !c.noZoom || !c.noPan }

  /** One clamp: the eye is set to length `l`, the camera follows it, and the zoom gap is dropped. */
  function Clamp(m: Motion, l: real, sqrt: real -> real): Motion
    requires IsSqrt(sqrt)
  {
    var eye := SetLength(m.eye, l, sqrt);
    m.(eye := eye, position := Add(m.target, eye), zoomStart := m.zoomEnd)
  }

  /** The first half of `checkDistances`: an eye beyond `maxDistance` is pulled in to it. */
  function ClampMax(m: Motion, c: Config, sqrt: real -> real): Motion
    requires IsSqrt(sqrt)
  {
    if AboveMax(m.eye, c.maxDistance) then Clamp(m, c.maxDistance.value, sqrt) else m
  }

  /** The second half: an eye shorter than `minDistance` is pushed out to it. */
  function ClampMin(m: Motion, c: Config, sqrt: real -> real): Motion
    requires IsSqrt(sqrt)
  {
    if BelowMin(m.eye, c.minDistance) then Clamp(m, c.minDistance, sqrt) else m
  }

  /** `checkDistances`: the maximum is checked first, then the minimum on the result. */
  function CheckDistances(m: Motion, c: Config, sqrt: real -> real): Motion
    requires IsSqrt(sqrt)
  {
    if !ClampOn(c) then m else ClampMin(ClampMax(m, c, sqrt), c, sqrt)
  }

  /** The clamp acts exactly when it is on and the eye is out of range; acting, it drops the zoom gap. */
  lemma ClampWhenOutOfRange(m: Motion, c: Config, sqrt: real -> real)
    requires IsSqrt(sqrt)
    ensures var r := CheckDistances(m, c, sqrt);
      && (!ClampOn(c) || (!AboveMax(m.eye, c.maxDistance) && !BelowMin(m.eye, c.minDistance)) ==> r == m)
      && (ClampOn(c) && (AboveMax(m.eye, c.maxDistance) || BelowMin(m.eye, c.minDistance)) ==>
            r.zoomStart == m.zoomEnd)
      && r == m.(eye := r.eye, position := r.position, zoomStart := r.zoomStart)
  {
  }

  /** An eye in range, or the clamp off, leaves the state as it is. */
  lemma ClampIdle(m: Motion, c: Config, sqrt: real -> real)
    requires IsSqrt(sqrt)
    requires !ClampOn(c) || (!AboveMax(m.eye, c.maxDistance) && !BelowMin(m.eye, c.minDistance))
    ensures CheckDistances(m, c, sqrt) == m
  {
  }

  /** When the camera was at `target + eye` it still is afterwards. */
  lemma ClampKeepsFrame(m: Motion, c: Config, sqrt: real -> real)
    requires IsSqrt(sqrt)
    requires m.position == Add(m.target, m.eye)
    ensures CheckDistances(m, c, sqrt).position == Add(m.target, CheckDistances(m, c, sqrt).eye)
  {
  }

  /** A bound pair the clamp can meet: 0 <= minDistance <= maxDistance. */
  predicate SaneBounds(c: Config) {
    0.0 <= c.minDistance && (c.maxDistance.Finite? ==> c.minDistance <= c.maxDistance.value)
  }

  /** In range means within both bounds. */
  predicate InRange(eye: Vec3, c: Config) {
    c.minDistance * c.minDistance <= SqLen(eye)
    && (c.maxDistance.Finite? ==> SqLen(eye) <= c.maxDistance.value * c.maxDistance.value)
  }

  /**
    The maximum check pulls an eye beyond a finite `maxDistance` in to
    exactly that length and leaves any other eye alone; so a non-zero eye
    stays non-zero unless the bound is zero (and then so is the minimum),
    and with a finite bound it ends within it.
   */
  lemma ClampMaxBound(m: Motion, c: Config, sqrt: real -> real)
    requires IsSqrt(sqrt) && SaneBounds(c) && SqLen(m.eye) != 0.0
    ensures var e := ClampMax(m, c, sqrt).eye;
      && (AboveMax(m.eye, c.maxDistance) ==> SqLen(e) == c.maxDistance.value * c.maxDistance.value)
      && (!AboveMax(m.eye, c.maxDistance) ==> e == m.eye)
      && (SqLen(e) != 0.0 || (c.maxDistance.Finite? && c.maxDistance.value == 0.0))
      && (SqLen(e) != 0.0 || c.minDistance == 0.0)
      && (c.maxDistance.Finite? ==> c.minDistance * c.minDistance <= c.maxDistance.value * c.maxDistance.value)
      && (c.maxDistance.Finite? ==> SqLen(e) <= c.maxDistance.value * c.maxDistance.value)
  {
    if c.maxDistance.Finite? {
      var mx := c.maxDistance.value;
      SquareMonotone(c.minDistance, mx);
      if AboveMax(m.eye, c.maxDistance) {
        SetLengthOf(m.eye, mx, sqrt);
        if mx != 0.0 {
          PositiveSquare(mx);
        }
      }
    }
  }

  /**
    The minimum check brings a non-zero eye (any eye, for a zero minimum)
    to at least `minDistance`, and
    keeps it within any bound `b` at least `minDistance` squared it already met.
   */
  lemma ClampMinBound(m: Motion, c: Config, sqrt: real -> real, b: real)
    requires IsSqrt(sqrt) && (SqLen(m.eye) != 0.0 || c.minDistance == 0.0)
    requires SqLen(m.eye) <= b && c.minDistance * c.minDistance <= b
    ensures var e := ClampMin(m, c, sqrt).eye;
      c.minDistance * c.minDistance <= SqLen(e) <= b
  {
    SqLenNonNegative(m.eye);
    if BelowMin(m.eye, c.minDistance) {
      assert SqLen(m.eye) != 0.0;
      SetLengthOf(m.eye, c.minDistance, sqrt);
      assert SqLen(ClampMin(m, c, sqrt).eye) == c.minDistance * c.minDistance;
    }
  }

  /** With sane bounds the clamp brings every eye of non-zero length into range. */
  lemma ClampBounds(m: Motion, c: Config, sqrt: real -> real)
    requires IsSqrt(sqrt) && ClampOn(c) && SaneBounds(c)
    requires SqLen(m.eye) != 0.0
    ensures InRange(CheckDistances(m, c, sqrt).eye, c)
  {
    var m1 := ClampMax(m, c, sqrt);
    ClampMaxBound(m, c, sqrt);
    if c.maxDistance.Finite? {
      ClampMinBound(m1, c, sqrt, c.maxDistance.value * c.maxDistance.value);
    } else {
      var b := if SqLen(m1.eye) < c.minDistance * c.minDistance then c.minDistance * c.minDistance else SqLen(m1.eye);
      ClampMinBound(m1, c, sqrt, b);
    }
  }

  /** The clamp cannot move a camera that sits on its target: a zero eye stays zero. */
  lemma ClampZeroEye(m: Motion, c: Config, sqrt: real -> real)
    requires IsSqrt(sqrt) && SqLen(m.eye) == 0.0
    ensures SqLen(CheckDistances(m, c, sqrt).eye) == 0.0
  {
  }

  /**
    Because the maximum is checked first, bounds the wrong way round
    (0 < maxDistance < minDistance) leave the camera at `minDistance`.
   */
  lemma ClampMinWins(m: Motion, c: Config, sqrt: real -> real)
    requires IsSqrt(sqrt) && ClampOn(c) && SqLen(m.eye) != 0.0
    requires c.maxDistance.Finite? && 0.0 < c.maxDistance.value < c.minDistance
    ensures SqLen(CheckDistances(m, c, sqrt).eye) == c.minDistance * c.minDistance
  {
    var mx := c.maxDistance.value;
    var min := c.minDistance;
    SquareStrict(mx, min);
    var m1 := if AboveMax(m.eye, c.maxDistance) then Clamp(m, mx, sqrt) else m;
    if AboveMax(m.eye, c.maxDistance) {
      SetLengthOf(m.eye, mx, sqrt);
      PositiveSquare(mx);
    }
    assert SqLen(m1.eye) != 0.0 && SqLen(m1.eye) <= mx * mx;
    assert BelowMin(m1.eye, min);
    SetLengthOf(m1.eye, min, sqrt);
  }

  /**
    A zero `maxDistance` collapses the camera onto the target whatever
    `minDistance` is: `setLength(0)` gives the zero vector, and
    `setLength` of the zero vector stays zero.
   */
  lemma ZeroMaxCollapses(m: Motion, c: Config, sqrt: real -> real)
    requires IsSqrt(sqrt) && ClampOn(c)
    requires c.maxDistance == Finite(0.0)
    ensures SqLen(CheckDistances(m, c, sqrt).eye) == 0.0
  {
    var m1 := ClampMax(m, c, sqrt);
    if AboveMax(m.eye, c.maxDistance) {
      SetLengthOf(m.eye, 0.0, sqrt);
      assert SqLen(m1.eye) == 0.0;
    } else {
      SqLenNonNegative(m.eye);
      assert m1 == m;
    }
    ZeroEyeStays(m1, c, sqrt);
  }

  /** `ClampMin` keeps a zero eye zero. */
  lemma ZeroEyeStays(m: Motion, c: Config, sqrt: real -> real)
    requires IsSqrt(sqrt) && SqLen(m.eye) == 0.0
    ensures SqLen(ClampMin(m, c, sqrt).eye) == 0.0
  {
    SetLengthOf(m.eye, c.minDistance, sqrt);
  }

  // ---- update ----

  /** What a frame produces: the new state and whether "change" was dispatched. */
  datatype Ticked = Ticked(after: Motion, changed: bool)

  /** The end of `update`: notify and remember the position when it moved more than `EPS`. */
  function Notify(m: Motion): Ticked {
    if DistSq(m.lastPosition, m.position) > EPS then Ticked(m.(lastPosition := m.position), true)
    else Ticked(m, false)
  }

  /** The start of `update`: the eye is recomputed from the camera and the target. */
  function Prepare(m: Motion): Motion { m.(eye := Sub(m.position, m.target)) }

  /** The rotation, unless `noRotate`. */
  function Rotated(m: Motion, c: Config, lib: Library): Motion {
    if c.noRotate then m else RotateStep(m, c, lib)
  }

  /** The zoom, unless `noZoom`. */
  function Zoomed(m: Motion, c: Config): Motion {
    if c.noZoom then m else ZoomStep(m, c)
  }

  /** The pan, unless `noPan`. */
  function Panned(m: Motion, c: Config, lib: Library): Motion
    requires IsSqrt(lib.sqrt)
  {
    if c.noPan then m else PanStep(m, c, lib)
  }

  /** `position = target + eye` */
  function Placed(m: Motion): Motion { m.(position := Add(m.target, m.eye)) }

  /** The state just before the clamp. */
  function Moved(m: Motion, c: Config, lib: Library): Motion
    requires IsSqrt(lib.sqrt)
  {
    Placed(Panned(Zoomed(Rotated(Prepare(m), c, lib), c), c, lib))
  }

  /** `update` up to the notification: the three steps on the eye, the new position, the clamp. */
  function Integrate(m: Motion, c: Config, lib: Library): Motion
    requires IsSqrt(lib.sqrt)
  {
    CheckDistances(Moved(m, c, lib), c, lib.sqrt)
  }

  /** `update` */
  function Tick(m: Motion, c: Config, lib: Library): Ticked
    requires IsSqrt(lib.sqrt)
  {
    Notify(Integrate(m, c, lib))
  }

  /** None of the steps before the notification touches `lastPosition`. */
  lemma IntegrateKeepsLastPosition(m: Motion, c: Config, lib: Library)
    requires IsSqrt(lib.sqrt)
    ensures Integrate(m, c, lib).lastPosition == m.lastPosition
  {
  }

  /**
    "change" is dispatched exactly when the camera ends more than `EPS`
    (squared) away from `lastPosition`, and `lastPosition` is updated then
    and only then.
   */
  lemma TickNotifies(m: Motion, c: Config, lib: Library)
    requires IsSqrt(lib.sqrt)
    ensures var r := Tick(m, c, lib);
      && (r.changed <==> DistSq(m.lastPosition, r.after.position) > EPS)
      && r.after.lastPosition == (if r.changed then r.after.position else m.lastPosition)
  {
    IntegrateKeepsLastPosition(m, c, lib);
  }

  /** The rotation stage touches only the eye, up, the momentum and the delta. */
  lemma RotatedKeeps(m: Motion, c: Config, lib: Library)
    ensures var r := Rotated(m, c, lib);
      r == m.(eye := r.eye, up := r.up, lastAxis := r.lastAxis, lastAngle := r.lastAngle, movePrev := r.movePrev)
  {
    RotateConsumesDelta(m, c, lib);
  }

  /** The zoom stage touches only the eye and `zoomStart`. */
  lemma ZoomedKeeps(m: Motion, c: Config)
    ensures var r := Zoomed(m, c); r == m.(eye := r.eye, zoomStart := r.zoomStart)
  {
    ZoomKeepsRay(m, c);
  }

  /** With a still pointer and no momentum the rotation stage changes nothing but the consumed delta. */
  lemma RotatedAtRest(m: Motion, c: Config, lib: Library)
    requires IsSqrt(lib.sqrt) && PointerStill(m, lib) && (c.staticMoving || m.lastAngle == 0.0)
    ensures var r := Rotated(m, c, lib); r == m.(movePrev := r.movePrev)
  {
    RotateIdle(m, c, lib);
  }

  /** With no zoom gap the zoom stage leaves the eye alone. */
  lemma ZoomedAtRest(m: Motion, c: Config)
    requires m.zoomStart.y == m.zoomEnd.y
    ensures Zoomed(m, c) == m.(zoomStart := Zoomed(m, c).zoomStart)
  {
    assert ZoomFactor(m, c) == 1.0;
  }

  /** Without a pan, or with the pan disabled, the pan stage changes nothing. */
  lemma PannedIdle(m: Motion, c: Config, lib: Library)
    requires IsSqrt(lib.sqrt) && (c.noPan || m.panStart == m.panEnd)
    ensures Panned(m, c, lib) == m
  {
    if !c.noPan {
      PanIdle(m, c, lib);
    }
  }

  /** Placing the camera at `target + (position - target)` puts it where it was. */
  lemma PlacedInPlace(m: Motion)
    ensures Placed(Prepare(m)) == Prepare(m)
  {
  }

  /** After every frame the camera sits at `target + eye`. */
  lemma TickFrame(m: Motion, c: Config, lib: Library)
    requires IsSqrt(lib.sqrt)
    ensures Tick(m, c, lib).after.position == Add(Tick(m, c, lib).after.target, Tick(m, c, lib).after.eye)
  {
    ClampKeepsFrame(Moved(m, c, lib), c, lib.sqrt);
  }

  /**
    After every frame with the clamp on and sane bounds, the camera is in
    range, unless it has collapsed onto the target.
   */
  lemma TickDistance(m: Motion, c: Config, lib: Library)
    requires IsSqrt(lib.sqrt) && ClampOn(c) && SaneBounds(c)
    ensures var eye := Tick(m, c, lib).after.eye;
      SqLen(eye) == 0.0 || InRange(eye, c)
  {
    var m4 := Moved(m, c, lib);
    if SqLen(m4.eye) == 0.0 {
      ClampZeroEye(m4, c, lib.sqrt);
    } else {
      ClampBounds(m4, c, lib.sqrt);
    }
  }

  /** Nothing to do: no pointer delta or momentum, no zoom or pan gap, the eye in range. */
  predicate AtRest(m: Motion, c: Config, lib: Library) {
    && PointerStill(m, lib) && (c.staticMoving || m.lastAngle == 0.0)
    && m.zoomStart.y == m.zoomEnd.y
    && m.panStart == m.panEnd
    && (ClampOn(c) ==> !AboveMax(Sub(m.position, m.target), c.maxDistance)
                       && !BelowMin(Sub(m.position, m.target), c.minDistance))
  }

  /** At rest, the state just before the clamp differs from the prepared one only in the gesture buffers. */
  lemma MovedAtRest(m: Motion, c: Config, lib: Library)
    requires IsSqrt(lib.sqrt) && AtRest(m, c, lib)
    ensures var m0 := Prepare(m);
      var r := Moved(m, c, lib);
      r == m0.(movePrev := r.movePrev, zoomStart := r.zoomStart)
  {
    var m0 := Prepare(m);
    RotatedAtRest(m0, c, lib);
    var m1 := Rotated(m0, c, lib);
    ZoomedAtRest(m1, c);
    var m2 := Zoomed(m1, c);
    PannedIdle(m2, c, lib);
    PlacedInPlace(m);
  }

  /**
    A frame at rest leaves the camera, its up vector and the target where
    they are, and notifies only if the camera had moved since the last
    notification.
   */
  lemma TickAtRest(m: Motion, c: Config, lib: Library)
    requires IsSqrt(lib.sqrt) && AtRest(m, c, lib)
    ensures var r := Tick(m, c, lib);
      && r.after.position == m.position && r.after.target == m.target && r.after.up == m.up
      && (r.changed <==> DistSq(m.lastPosition, m.position) > EPS)
  {
    IntegrateAtRest(m, c, lib);
    IntegrateKeepsLastPosition(m, c, lib);
  }

  /** At rest, the clamp has nothing to do and the camera, up and target stay. */
  lemma IntegrateAtRest(m: Motion, c: Config, lib: Library)
    requires IsSqrt(lib.sqrt) && AtRest(m, c, lib)
    ensures var r := Integrate(m, c, lib);
      r.position == m.position && r.target == m.target && r.up == m.up
  {
    var mv := Moved(m, c, lib);
    MovedAtRest(m, c, lib);
    ClampIdle(mv, c, lib.sqrt);
  }

  /** Only the rotation turns the up vector: with `noRotate` it, the rotate buffers and the momentum stay. */
  lemma TickUpOnlyByRotation(m: Motion, c: Config, lib: Library)
    requires IsSqrt(lib.sqrt) && c.noRotate
    ensures var r := Tick(m, c, lib).after;
      && r.up == m.up && r.lastAxis == m.lastAxis && r.lastAngle == m.lastAngle
      && r.movePrev == m.movePrev && r.moveCurr == m.moveCurr
  {
  }

  /** Two states agree on the momentum and the rotate buffers. */
  predicate SameRotation(r: Motion, s: Motion) {
    r.lastAngle == s.lastAngle && r.lastAxis == s.lastAxis && r.movePrev == s.movePrev && r.moveCurr == s.moveCurr
  }

  /**
    A frame leaves the momentum and the rotate buffers as `rotateCamera`
    leaves them: the zoom, the pan, the placement, the clamp and the
    notification do not touch them.
   */
  lemma TickRotationFields(m: Motion, c: Config, lib: Library)
    requires IsSqrt(lib.sqrt) && !c.noRotate
    ensures SameRotation(Tick(m, c, lib).after, RotateStep(Prepare(m), c, lib))
  {
    var m1 := Rotated(Prepare(m), c, lib);
    ZoomedKeeps(m1, c);
    var m2 := Zoomed(m1, c);
    if !c.noPan {
      PanMovesRigidly(m2, c, lib);
    }
    ClampWhenOutOfRange(Moved(m, c, lib), c, lib.sqrt);
  }

  /** A coast is a matter of the momentum and the rotate buffers alone. */
  lemma CoastsLikeSame(r: Motion, s: Motion, m: Motion, c: Config, lib: Library, k: nat)
    requires SameRotation(r, s) && CoastsLike(s, m, c, lib, k)
    ensures CoastsLike(r, m, c, lib, k)
  {
    assert MoveDelta(r) == MoveDelta(s);
  }

  /** On a coast, the angle is the start angle times the damping factor to the k-th power. */
  lemma CoastPower(p: Motion, m: Motion, c: Config, lib: Library, k: nat)
    requires CoastsLike(p, m, c, lib, k)
    ensures p.lastAngle == m.lastAngle * Pow(Damping(c, lib), k)
  {
    DecayedIsPower(m.lastAngle, Damping(c, lib), k);
  }

  /** `update` called `n` times in a row, each call on the state the previous one left. */
  function Frames(m: Motion, c: Config, lib: Library, n: nat): Motion
    requires IsSqrt(lib.sqrt)
    decreases n
  {
    if n == 0 then m else Tick(Frames(m, c, lib, n - 1), c, lib).after
  }

  /** Frame n has the rotation fields `rotateCamera` leaves after frame n - 1. */
  lemma NextFrame(m: Motion, c: Config, lib: Library, n: nat)
    requires IsSqrt(lib.sqrt) && !c.noRotate && n > 0
    ensures SameRotation(Frames(m, c, lib, n), RotateStep(Prepare(Frames(m, c, lib, n - 1)), c, lib))
  {
    TickRotationFields(Frames(m, c, lib, n - 1), c, lib);
  }

  /**
    One idle frame, from `p` to a state `r` with the rotation fields that
    `rotateCamera` leaves, carries a coast one damping step further.
   */
  lemma CoastTick(p: Motion, r: Motion, m: Motion, c: Config, lib: Library, k: nat, j: nat)
    requires IsSqrt(lib.sqrt)
    requires !c.staticMoving && 0.0 <= c.dynamicDampingFactor < 1.0
    requires SameRotation(r, RotateStep(Prepare(p), c, lib)) && j == k + 1
    requires CoastsLike(p, m, c, lib, k)
    ensures CoastsLike(r, m, c, lib, j)
  {
    var p0 := Prepare(p);
    CoastsLikeSame(p0, p, m, c, lib, k);
    var s := RotateStep(p0, c, lib);
    CoastFrame(p0, s, m, c, lib, k, j);
    CoastsLikeSame(r, s, m, c, lib, j);
  }

  /**
    After a drag stops, with rotation on, the n-th idle call of `update`
    still carries a turn about the drag's axis, by the drag's angle damped
    n times by `sqrt(1 - dynamicDampingFactor)`, which is never zero.
   */
  lemma {:induction false} MomentumOverFrames(m: Motion, c: Config, lib: Library, n: nat)
    requires IsSqrt(lib.sqrt) && !c.noRotate
    requires PointerStill(m, lib) && !c.staticMoving && m.lastAngle != 0.0
    requires 0.0 <= c.dynamicDampingFactor < 1.0
    ensures CoastsLike(Frames(m, c, lib, n), m, c, lib, n)
  {
    if n > 0 {
      MomentumOverFrames(m, c, lib, n - 1);
      NextFrame(m, c, lib, n);
      CoastTick(Frames(m, c, lib, n - 1), Frames(m, c, lib, n), m, c, lib, n - 1, n);
    }
  }

  /** The same, with the damping as a power: the angle after n idle frames is the drag angle times the factor to the n-th. */
  lemma MomentumPowerOverFrames(m: Motion, c: Config, lib: Library, n: nat)
    requires IsSqrt(lib.sqrt) && !c.noRotate
    requires PointerStill(m, lib) && !c.staticMoving && m.lastAngle != 0.0
    requires 0.0 <= c.dynamicDampingFactor < 1.0
    ensures Frames(m, c, lib, n).lastAngle == m.lastAngle * Pow(Damping(c, lib), n)
  {
    MomentumOverFrames(m, c, lib, n);
    CoastPower(Frames(m, c, lib, n), m, c, lib, n);
  }

  /** Only the pan moves the target. */
  lemma TickTargetOnlyByPan(m: Motion, c: Config, lib: Library)
    requires IsSqrt(lib.sqrt)
    requires c.noPan || m.panStart == m.panEnd
    ensures Tick(m, c, lib).after.target == m.target
  {
    var m0 := Prepare(m);
    RotatedKeeps(m0, c, lib);
    var m1 := Rotated(m0, c, lib);
    ZoomedKeeps(m1, c);
    var m2 := Zoomed(m1, c);
    PannedIdle(m2, c, lib);
    ClampWhenOutOfRange(Moved(m, c, lib), c, lib.sqrt);
  }
}
