/**
  The `TrackballControls` class: the controller object whose fields the
  input handlers and `update` change in place. Each handler is a method
  whose postcondition ties the new fields to the pure step of the `Gesture`
  and `Integrator` modules applied to the old ones; the pointer buffers the
  mouse handlers write are described by `Press` and `Drag` below.
 */
module Controls {
  import opened Vectors
  import opened Screen
  import opened Gesture
  import opened Integrator

  /** The events the controller dispatches: "change", "start" and "end". */
  datatype Event = Change | Start | End

  /** The exceptions the broken handlers raise. */
  datatype Error = TypeError | ReferenceError

  /** How a handler call ends: normally, or with an exception escaping it. */
  datatype Outcome = Normal | Thrown(error: Error)

  // ---- the pointer buffers ----

  /**
    The mapper a buffer is written through divides by the surface's size:
    `getMouseOnCircle` by the width, `getMouseOnScreen` by the width and
    the height.
   */
  predicate Mappable(b: Buffer, r: Rect) {
    match b
    case RotateBuffer => HasWidth(r)
    case ZoomBuffer => Usable(r)
    case PanBuffer => Usable(r)
    case NoBuffer => true
  }

  /**
    What `mousedown` does to the buffers once the state is settled: the
    buffer of the active gesture gets the pointer position in both of its
    halves (the circle projection for the rotation, the screen one for zoom
    and pan).
   */
  function Press(k: Motion, b: Buffer, r: Rect, pageX: real, pageY: real): Motion
    requires Mappable(b, r)
  {
    match b
    case RotateBuffer =>
      var p := MouseOnCircle(r, pageX, pageY);
      k.(moveCurr := p, movePrev := p)
    case ZoomBuffer =>
      var p := MouseOnScreen(r, pageX, pageY);
      k.(zoomStart := p, zoomEnd := p)
    case PanBuffer =>
      var p := MouseOnScreen(r, pageX, pageY);
      k.(panStart := Num(p), panEnd := Num(p))
    case NoBuffer => k
  }

  /**
    What `mousemove` does: the rotation shifts its current point into
    `movePrev` and takes the new one; zoom and pan only move their end.
   */
  function Drag(k: Motion, b: Buffer, r: Rect, pageX: real, pageY: real): Motion
    requires Mappable(b, r)
  {
    match b
    case RotateBuffer => k.(movePrev := k.moveCurr, moveCurr := MouseOnCircle(r, pageX, pageY))
    case ZoomBuffer => k.(zoomEnd := MouseOnScreen(r, pageX, pageY))
    case PanBuffer => k.(panEnd := Num(MouseOnScreen(r, pageX, pageY)))
    case NoBuffer => k
  }

  /** Rest is a matter of the buffers, the momentum and the distance only. */
  lemma RestFromParts(k: Motion, p: Motion, c: Config, lib: Library)
    requires AtRest(k, c, lib) && PointerStill(p, lib)
    requires p.lastAngle == k.lastAngle && p.position == k.position && p.target == k.target
    requires p.zoomStart.y == p.zoomEnd.y && p.panStart == p.panEnd
    ensures AtRest(p, c, lib)
  {
  }

  /**
    A button press never sets anything in motion by itself: a frame that
    was at rest before the press is still at rest after it, so the next
    `update` leaves the camera where it is.
   */
  lemma PressKeepsRest(k: Motion, c: Config, lib: Library, b: Buffer, r: Rect, pageX: real, pageY: real)
    requires IsSqrt(lib.sqrt) && AtRest(k, c, lib)
    requires Mappable(b, r)
    ensures AtRest(Press(k, b, r, pageX, pageY), c, lib)
    ensures Press(k, b, r, pageX, pageY).position == k.position
    ensures Press(k, b, r, pageX, pageY).target == k.target
  {
    match b
    case RotateBuffer =>
      var q := MouseOnCircle(r, pageX, pageY);
      var p := k.(moveCurr := q, movePrev := q);
      assert Press(k, b, r, pageX, pageY) == p;
      EqualBuffersStill(p, lib);
      RestFromParts(k, p, c, lib);
    case ZoomBuffer =>
      var q := MouseOnScreen(r, pageX, pageY);
      var p := k.(zoomStart := q, zoomEnd := q);
      assert Press(k, b, r, pageX, pageY) == p;
      assert MoveDelta(p) == MoveDelta(k);
      RestFromParts(k, p, c, lib);
    case PanBuffer =>
      var q := MouseOnScreen(r, pageX, pageY);
      var p := k.(panStart := Num(q), panEnd := Num(q));
      assert Press(k, b, r, pageX, pageY) == p;
      assert MoveDelta(p) == MoveDelta(k);
      RestFromParts(k, p, c, lib);
    case NoBuffer =>
  }

  /**
    A rotation drag from where the pointer was to a new page position leaves
    the rotation the pixel move times `2 / width`, with y flipped.
   */
  lemma DragRotateDelta(k: Motion, r: Rect, x0: real, y0: real, x1: real, y1: real)
    requires HasWidth(r) && k.moveCurr == MouseOnCircle(r, x0, y0)
    ensures MoveDelta(Drag(k, RotateBuffer, r, x1, y1))
         == Vec2((x1 - x0) * (2.0 / r.width), (y0 - y1) * (2.0 / r.width))
  {
    CircleDelta(r, x1, y1, x0, y0);
  }

  /**
    Every `mousedown` registers one more `mousemove` listener, and none is
    ever removed, so from the second press on one pointer move runs the
    rotation branch twice at the same position: the two rotate buffers end
    equal and the next frame finds no drag.
   */
  lemma DoubledDragStill(k: Motion, lib: Library, r: Rect, pageX: real, pageY: real)
    requires IsSqrt(lib.sqrt) && HasWidth(r)
    ensures var d := Drag(Drag(k, RotateBuffer, r, pageX, pageY), RotateBuffer, r, pageX, pageY);
      d.movePrev == d.moveCurr && PointerStill(d, lib)
  {
    var d := Drag(Drag(k, RotateBuffer, r, pageX, pageY), RotateBuffer, r, pageX, pageY);
    EqualBuffersStill(d, lib);
  }

  /**
    A zoom drag after a press: the zoom gap is the vertical pixel move in
    units of the surface's height.
   */
  lemma DragZoomGap(k: Motion, r: Rect, x0: real, y0: real, x1: real, y1: real)
    requires Usable(r)
    ensures var d := Drag(Press(k, ZoomBuffer, r, x0, y0), ZoomBuffer, r, x1, y1);
      ZoomGap(d) * r.height == y1 - y0
  {
    var p0 := MouseOnScreen(r, x0, y0);
    var p1 := MouseOnScreen(r, x1, y1);
    assert (p1.y - p0.y) * r.height == p1.y * r.height - p0.y * r.height;
  }

  /** The distance between the first two touch points, as `touchstart` and `touchmove` compute it. */
  function TouchSpan(a: Vec2, b: Vec2, sqrt: real -> real): real {
    sqrt(SqLen2(Sub2(a, b)))
  }

  /** It behaves as the Euclidean distance: non-negative, its square is the squared distance, symmetric, zero for coincident touches. */
  lemma TouchSpanIsDistance(a: Vec2, b: Vec2, sqrt: real -> real)
    requires IsSqrt(sqrt)
    ensures 0.0 <= TouchSpan(a, b, sqrt)
    ensures TouchSpan(a, b, sqrt) * TouchSpan(a, b, sqrt) == SqLen2(Sub2(a, b))
    ensures TouchSpan(a, b, sqrt) == TouchSpan(b, a, sqrt)
    ensures a == b ==> TouchSpan(a, b, sqrt) == 0.0
  {
    var d := Sub2(a, b);
    SqLen2NonNegative(d);
    RootOf(SqLen2(d), sqrt);
    assert SqLen2(Sub2(b, a)) == SqLen2(d) by {
      assert (b.x - a.x) * (b.x - a.x) == d.x * d.x;
      assert (b.y - a.y) * (b.y - a.y) == d.y * d.y;
    }
  }

  // ---- the objects ----

  /** The camera the controller drives (`object`); only its position and up vector matter here. */
  class Camera {
    var position: Vec3
    var up: Vec3

    constructor (position: Vec3, up: Vec3)
      ensures this.position == position && this.up == up
    {
      this.position := position;
      this.up := up;
    }
  }

  /**
    The controller. Every method names in its `modifies` clause exactly the
    fields it may write; all the others keep their values.
   */
  class TrackballControls {
    /** `object`, the camera, which the controller never replaces. */
    const camera: Camera
    /** `Math.sqrt` and the rotation routines of three.js. */
    const lib: Library

    var enabled: bool
    var screen: Rect
    var rotateSpeed: real
    var zoomSpeed: real
    var panSpeed: real
    var noRotate: bool
    var noZoom: bool
    var noPan: bool
    var staticMoving: bool
    var dynamicDampingFactor: real
    var minDistance: real
    var maxDistance: Bound
    var keys: seq<int>

    var target: Vec3
    var lastPosition: Vec3
    var state: int
    var prevState: int
    var eye: Vec3
    var movePrev: Vec2
    var moveCurr: Vec2
    var lastAxis: Vec3
    var lastAngle: real
    var zoomStart: Vec2
    var zoomEnd: Vec2
    var touchZoomDistanceStart: real
    var touchZoomDistanceEnd: real
    var panStart: PanPoint
    var panEnd: PanPoint

    /** The snapshot `reset` restores, taken by the constructor and never written again. */
    const target0: Vec3
    const position0: Vec3
    const up0: Vec3

    /** The events dispatched so far, in order. */
    var dispatched: seq<Event>

    /** The numbers a frame reads and writes. */
    function MotionOf(): Motion
      reads this`target, this`eye, this`movePrev, this`moveCurr, this`lastAxis, this`lastAngle,
            this`zoomStart, this`zoomEnd, this`panStart, this`panEnd, this`lastPosition,
            camera`position, camera`up
    {
      Motion(camera.position, camera.up, target, eye, movePrev, moveCurr, lastAxis, lastAngle,
             zoomStart, zoomEnd, panStart, panEnd, lastPosition)
    }

    /** The settings a frame reads. */
    function ConfigOf(): Config
      reads this`rotateSpeed, this`zoomSpeed, this`panSpeed, this`noRotate, this`noZoom, this`noPan,
            this`staticMoving, this`dynamicDampingFactor, this`minDistance, this`maxDistance
    {
      Config(rotateSpeed, zoomSpeed, panSpeed, noRotate, noZoom, noPan, staticMoving,
             dynamicDampingFactor, minDistance, maxDistance)
    }

    /** The settings the input handlers read. */
    function FlagsOf(): Flags
      reads this`enabled, this`noRotate, this`noZoom, this`noPan
    {
      Flags(enabled, noRotate, noZoom, noPan)
    }

    function ModesOf(): Modes
      reads this`state, this`prevState
    {
      Modes(state, prevState)
    }

    /**
      The controller starts with the default settings, the keys A, S and D,
      the target at the origin, every buffer zero, and a snapshot of the
      target and of the camera for `reset`. `screen` stands for what
      `handleResize` reads from the page.
     */
    constructor (camera: Camera, lib: Library, screen: Rect)
      ensures this.camera == camera && this.lib == lib
      ensures enabled && this.screen == screen && keys == [65, 83, 68] && ConfigOf() == Defaults
      ensures target0 == Origin && position0 == camera.position && up0 == camera.up
      ensures ModesOf() == Modes(NONE, NONE)
      ensures MotionOf() == Motion(camera.position, camera.up, Origin, Origin,
                                   Vec2(0.0, 0.0), Vec2(0.0, 0.0), Origin, 0.0,
                                   Vec2(0.0, 0.0), Vec2(0.0, 0.0), Num(Vec2(0.0, 0.0)), Num(Vec2(0.0, 0.0)),
                                   Origin)
      ensures touchZoomDistanceStart == 0.0 && touchZoomDistanceEnd == 0.0
      ensures dispatched == []
    {
      this.camera := camera;
      this.lib := lib;
      enabled := true;
      this.screen := screen;
      rotateSpeed := 1.0;
      zoomSpeed := 1.2;
      panSpeed := 0.3;
      noRotate := false;
      noZoom := false;
      noPan := false;
      staticMoving := false;
      dynamicDampingFactor := 0.2;
      minDistance := 0.0;
      maxDistance := Infinite;
      keys := [65, 83, 68];
      target := Origin;
      lastPosition := Origin;
      state := NONE;
      prevState := NONE;
      eye := Origin;
      movePrev := Vec2(0.0, 0.0);
      moveCurr := Vec2(0.0, 0.0);
      lastAxis := Origin;
      lastAngle := 0.0;
      zoomStart := Vec2(0.0, 0.0);
      zoomEnd := Vec2(0.0, 0.0);
      touchZoomDistanceStart := 0.0;
      touchZoomDistanceEnd := 0.0;
      panStart := Num(Vec2(0.0, 0.0));
      panEnd := Num(Vec2(0.0, 0.0));
      target0 := Origin;
      position0 := camera.position;
      up0 := camera.up;
      dispatched := [];
    }

    /** `handleResize`, with the rectangle it reads from the page as a parameter. */
    method HandleResize(r: Rect)
      modifies this`screen
      ensures screen == r
    {
      screen := r;
    }

    // ---- the frame ----

    /** The quaternion turn of `rotateCamera`, applied to the eye and the camera's up vector. */
    method TurnCamera(axis: Vec3, angle: real)
      modifies this`eye, camera`up
      ensures MotionOf() == Turn(old(MotionOf()), axis, angle, lib)
    {
      eye := Sub(camera.position, target);
      eye := lib.applyAxisAngle(eye, axis, angle);
      camera.up := lib.applyAxisAngle(camera.up, axis, angle);
    }

    /** `rotateCamera`: the fields `RotateStep` may change take the values it gives them. */
    method RotateCamera()
      modifies this`eye, this`lastAxis, this`lastAngle, this`movePrev, camera`up
      ensures MotionOf() == RotateStep(old(MotionOf()), ConfigOf(), lib)
    {
      ghost var m0 := MotionOf();
      ghost var c := ConfigOf();
      var moveDirection := Sub2(moveCurr, movePrev);
      var angle := lib.sqrt(SqLen2(moveDirection));
      assert angle == Angle(m0, lib);
      if angle != 0.0 {
        var axis := lib.rotationAxis(moveDirection, Sub(camera.position, target), camera.up);
        angle := angle * rotateSpeed;
        assert angle == DragAngle(m0, c, lib);
        TurnCamera(axis, angle);
        lastAxis := axis;
        lastAngle := angle;
      } else if !staticMoving && lastAngle != 0.0 {
        lastAngle := lastAngle * lib.sqrt(1.0 - dynamicDampingFactor);
        assert lastAngle == CoastAngle(m0, c, lib);
        TurnCamera(lastAxis, lastAngle);
      }
      movePrev := moveCurr;
    }

    /**
      `zoomCamera`. Its pinch branch tests for `STATE.TOUCH_ZOOM_PAN`, which
      `STATE` does not define, so only the mouse branch can run.
     */
    method ZoomCamera()
      modifies this`eye, this`zoomStart
      ensures MotionOf() == ZoomStep(old(MotionOf()), ConfigOf())
    {
      if StateIs(state, "TOUCH_ZOOM_PAN") {
        assert false;
      } else {
        var factor := 1.0 + (zoomEnd.y - zoomStart.y) * zoomSpeed;
        assert factor == ZoomFactor(old(MotionOf()), ConfigOf());
        if factor != 1.0 && factor > 0.0 {
          eye := Scale(eye, factor);
        }
        if staticMoving {
          zoomStart := zoomEnd;
        } else {
          zoomStart := Vec2(zoomStart.x, zoomStart.y + (zoomEnd.y - zoomStart.y) * dynamicDampingFactor);
        }
      }
    }

    /** `panCamera`. A NaN buffer makes `lengthSq()` NaN, which is falsy. */
    method PanCamera()
      requires IsSqrt(lib.sqrt)
      modifies this`target, this`panStart, camera`position
      ensures MotionOf() == PanStep(old(MotionOf()), ConfigOf(), lib)
    {
      ghost var m0 := MotionOf();
      ghost var c := ConfigOf();
      if panStart.Num? && panEnd.Num? {
        var mouseChange := Sub2(panEnd.v, panStart.v);
        if SqLen2(mouseChange) != 0.0 {
          assert PanActive(m0);
          mouseChange := Scale2(mouseChange, Length(eye, lib.sqrt) * panSpeed);
          assert mouseChange == PanChange(m0, c, lib);
          var pan := SetLength(Cross(eye, camera.up), mouseChange.x, lib.sqrt);
          pan := Add(pan, SetLength(camera.up, mouseChange.y, lib.sqrt));
          assert pan == PanVector(m0.eye, m0.up, mouseChange, lib.sqrt);
          camera.position := Add(camera.position, pan);
          target := Add(target, pan);
          if staticMoving {
            panStart := panEnd;
          } else {
            panStart := Num(Add2(panStart.v, Scale2(Sub2(panEnd.v, panStart.v), dynamicDampingFactor)));
          }
        }
      }
    }

    /** `checkDistances` */
    method CheckDistances()
      requires IsSqrt(lib.sqrt)
      modifies this`eye, this`zoomStart, camera`position
      ensures MotionOf() == Integrator.CheckDistances(old(MotionOf()), ConfigOf(), lib.sqrt)
    {
      if !noZoom || !noPan {
        if AboveMax(eye, maxDistance) {
          eye := SetLength(eye, maxDistance.value, lib.sqrt);
          camera.position := Add(target, eye);
          zoomStart := zoomEnd;
        }
        if BelowMin(eye, minDistance) {
          eye := SetLength(eye, minDistance, lib.sqrt);
          camera.position := Add(target, eye);
          zoomStart := zoomEnd;
        }
      }
    }

    /** `if (!noRotate) rotateCamera()`, the first guarded step of `update`. */
    method RotateStage()
      modifies this`eye, this`lastAxis, this`lastAngle, this`movePrev, camera`up
      ensures MotionOf() == Rotated(old(MotionOf()), ConfigOf(), lib)
    {
      if !noRotate {
        RotateCamera();
      }
    }

    /** `if (!noZoom) zoomCamera()` */
    method ZoomStage()
      modifies this`eye, this`zoomStart
      ensures MotionOf() == Zoomed(old(MotionOf()), ConfigOf())
    {
      if !noZoom {
        ZoomCamera();
      }
    }

    /** `if (!noPan) panCamera()` */
    method PanStage()
      requires IsSqrt(lib.sqrt)
      modifies this`target, this`panStart, camera`position
      ensures MotionOf() == Panned(old(MotionOf()), ConfigOf(), lib)
    {
      if !noPan {
        PanCamera();
      }
    }

    /** The start of `update`: the eye from the camera, then the rotation and the zoom. */
    method Steer()
      modifies this`eye, this`lastAxis, this`lastAngle, this`movePrev, this`zoomStart, camera`up
      ensures MotionOf() == Zoomed(Rotated(Prepare(old(MotionOf())), ConfigOf(), lib), ConfigOf())
    {
      eye := Sub(camera.position, target);
      RotateStage();
      ZoomStage();
    }

    /** `update` up to the clamp: the eye from the camera, the three steps, the new position. */
    method Move()
      requires IsSqrt(lib.sqrt)
      modifies this`eye, this`lastAxis, this`lastAngle, this`movePrev, this`zoomStart, this`target,
               this`panStart, camera`position, camera`up
      ensures MotionOf() == Moved(old(MotionOf()), ConfigOf(), lib)
    {
      Steer();
      PanStage();
      camera.position := Add(target, eye);
    }

    /** `update` up to the notification. */
    method Advance()
      requires IsSqrt(lib.sqrt)
      modifies this`eye, this`lastAxis, this`lastAngle, this`movePrev, this`zoomStart, this`target,
               this`panStart, camera`position, camera`up
      ensures MotionOf() == Integrate(old(MotionOf()), ConfigOf(), lib)
    {
      Move();
      CheckDistances();
    }

    /** The end of `update`: "change" when the camera moved more than `EPS` since the last one. */
    method NotifyStage()
      modifies this`lastPosition, this`dispatched
      ensures MotionOf() == Notify(old(MotionOf())).after
      ensures dispatched == old(dispatched) + (if Notify(old(MotionOf())).changed then [Change] else [])
    {
      if DistSq(lastPosition, camera.position) > EPS {
        dispatched := dispatched + [Change];
        lastPosition := camera.position;
      }
    }

    /**
      `update`: one frame. The new numbers are those of `Tick`, and "change"
      is dispatched exactly when `Tick` says so. Pointing the camera at the
      target (`lookAt`) changes only its orientation, which is not modelled.
     */
    method Update()
      requires IsSqrt(lib.sqrt)
      modifies this`eye, this`lastAxis, this`lastAngle, this`movePrev, this`zoomStart, this`target,
               this`panStart, this`lastPosition, this`dispatched, camera`position, camera`up
      ensures MotionOf() == Tick(old(MotionOf()), ConfigOf(), lib).after
      ensures dispatched == old(dispatched) + (if Tick(old(MotionOf()), ConfigOf(), lib).changed then [Change] else [])
    {
      Advance();
      NotifyStage();
    }

    /**
      `reset`: back to NONE, the target, camera position and up vector of
      the snapshot, "change" dispatched; then the last statement reads
      `lastPosition` as a variable, which does not exist, so the call throws
      a ReferenceError and `lastPosition` keeps its value.
     */
    method Reset() returns (outcome: Outcome)
      modifies this`state, this`prevState, this`target, this`eye, this`dispatched, camera`position, camera`up
      ensures outcome == Thrown(ReferenceError)
      ensures state == NONE && prevState == NONE
      ensures target == target0 && camera.position == position0 && camera.up == up0
      ensures eye == Sub(position0, target0)
      ensures dispatched == old(dispatched) + [Change]
    {
      state := NONE;
      prevState := NONE;
      target := target0;
      camera.position := position0;
      camera.up := up0;
      eye := Sub(camera.position, target);
      dispatched := dispatched + [Change];
      outcome := Thrown(ReferenceError);
    }

    // ---- the keyboard ----

    /** `keydown` */
    method KeyDown(keyCode: int)
      modifies this`state, this`prevState
      ensures ModesOf() == Gesture.KeyDown(old(ModesOf()), FlagsOf(), keys, keyCode)
    {
      if !enabled {
        return;
      }
      prevState := state;
      if state != NONE {
        return;
      } else if KeyIs(keys, ROTATE, keyCode) && !noRotate {
        state := ROTATE;
      } else if KeyIs(keys, ZOOM, keyCode) && !noZoom {
        state := ZOOM;
      } else if KeyIs(keys, PAN, keyCode) && !noPan {
        state := PAN;
      }
    }

    /** `keyup` */
    method KeyUp()
      modifies this`state
      ensures ModesOf() == Gesture.KeyUp(old(ModesOf()), FlagsOf())
    {
      if !enabled {
        return;
      }
      state := prevState;
    }

    // ---- the mouse ----

    /**
      `mousedown`: settle the state, seed the buffer of the gesture it
      names, dispatch "start". The mapper divides by the surface's size,
      which must then be non-zero.
     */
    method MouseDown(button: int, pageX: real, pageY: real)
      requires enabled ==> Mappable(PointerBuffer(Gesture.MouseDown(ModesOf(), FlagsOf(), button).state, FlagsOf()), screen)
      modifies this`state, this`moveCurr, this`movePrev, this`zoomStart, this`zoomEnd, this`panStart, this`panEnd,
               this`dispatched
      ensures ModesOf() == Gesture.MouseDown(old(ModesOf()), FlagsOf(), button)
      ensures var p := if !enabled then old(MotionOf())
                       else Press(old(MotionOf()), PointerBuffer(state, FlagsOf()), screen, pageX, pageY);
        && moveCurr == p.moveCurr && movePrev == p.movePrev
        && zoomStart == p.zoomStart && zoomEnd == p.zoomEnd
        && panStart == p.panStart && panEnd == p.panEnd
      ensures dispatched == old(dispatched) + (if enabled then [Start] else [])
    {
      if !enabled {
        return;
      }
      if state == NONE {
        state := button;
      }
      if state == ROTATE && !noRotate {
        moveCurr := MouseOnCircle(screen, pageX, pageY);
        movePrev := moveCurr;
      } else if state == ZOOM && !noZoom {
        zoomStart := MouseOnScreen(screen, pageX, pageY);
        zoomEnd := zoomStart;
      } else if state == PAN && !noPan {
        panStart := Num(MouseOnScreen(screen, pageX, pageY));
        panEnd := panStart;
      }
      dispatched := dispatched + [Start];
    }

    /** `mousemove`: move the buffer of the active gesture; the state does not change. */
    method MouseMove(pageX: real, pageY: real)
      requires enabled ==> Mappable(PointerBuffer(state, FlagsOf()), screen)
      modifies this`moveCurr, this`movePrev, this`zoomEnd, this`panEnd
      ensures var p := if !enabled then old(MotionOf())
                       else Drag(old(MotionOf()), PointerBuffer(state, FlagsOf()), screen, pageX, pageY);
        moveCurr == p.moveCurr && movePrev == p.movePrev && zoomEnd == p.zoomEnd && panEnd == p.panEnd
    {
      if !enabled {
        return;
      }
      if state == ROTATE && !noRotate {
        movePrev := moveCurr;
        moveCurr := MouseOnCircle(screen, pageX, pageY);
      } else if state == ZOOM && !noZoom {
        zoomEnd := MouseOnScreen(screen, pageX, pageY);
      } else if state == PAN && !noPan {
        panEnd := Num(MouseOnScreen(screen, pageX, pageY));
      }
    }

    /** `mouseup` */
    method MouseUp()
      modifies this`state, this`dispatched
      ensures ModesOf() == Gesture.MouseUp(old(ModesOf()), FlagsOf())
      ensures dispatched == old(dispatched) + (if enabled then [End] else [])
    {
      if !enabled {
        return;
      }
      state := NONE;
      dispatched := dispatched + [End];
    }

    /** `mousewheel`: in any state, move `zoomStart.y`, then dispatch "start" and "end". */
    method MouseWheel(deltaMode: int, deltaY: real)
      modifies this`zoomStart, this`dispatched
      ensures zoomStart == if enabled then WheelScroll(old(zoomStart), deltaMode, deltaY) else old(zoomStart)
      ensures dispatched == old(dispatched) + (if enabled then [Start, End] else [])
    {
      if !enabled {
        return;
      }
      if deltaMode == 2 {
        zoomStart := Vec2(zoomStart.x, zoomStart.y - deltaY * 0.025);
      } else if deltaMode == 1 {
        zoomStart := Vec2(zoomStart.x, zoomStart.y - deltaY * 0.01);
      } else {
        zoomStart := Vec2(zoomStart.x, zoomStart.y - deltaY * 0.00025);
      }
      dispatched := dispatched + [Start, End];
    }

    // ---- touch ----

    /**
      `touchstart`, with the page positions of the current touches. One
      touch sets TOUCH_ROTATE and then throws (the handler copies into a
      `rotateEnd` the class does not have); two start a pinch at their
      distance; three set TOUCH_PAN and copy a function into `panEnd`, which
      leaves it NaN; any other count returns to NONE. "start" is dispatched
      unless the handler threw.
     */
    method TouchStart(touches: seq<Vec2>) returns (outcome: Outcome)
      modifies this`state, this`touchZoomDistanceStart, this`touchZoomDistanceEnd, this`panEnd, this`dispatched
      ensures ModesOf() == Gesture.TouchStart(old(ModesOf()), FlagsOf(), |touches|)
      ensures outcome == if enabled && |touches| == 1 then Thrown(TypeError) else Normal
      ensures enabled && |touches| == 2 ==>
        touchZoomDistanceStart == TouchSpan(touches[0], touches[1], lib.sqrt)
        && touchZoomDistanceEnd == touchZoomDistanceStart
      ensures !(enabled && |touches| == 2) ==>
        touchZoomDistanceStart == old(touchZoomDistanceStart) && touchZoomDistanceEnd == old(touchZoomDistanceEnd)
      ensures panEnd == if enabled && |touches| == 3 then NotANumber else old(panEnd)
      ensures dispatched == old(dispatched) + (if enabled && |touches| != 1 then [Start] else [])
    {
      if !enabled {
        return Normal;
      }
      if |touches| == 1 {
        state := TOUCH_ROTATE;
        return Thrown(TypeError);
      } else if |touches| == 2 {
        state := TOUCH_ZOOM;
        touchZoomDistanceStart := TouchSpan(touches[0], touches[1], lib.sqrt);
        touchZoomDistanceEnd := touchZoomDistanceStart;
      } else if |touches| == 3 {
        state := TOUCH_PAN;
        panEnd := NotANumber;
      } else {
        state := NONE;
      }
      dispatched := dispatched + [Start];
      return Normal;
    }

    /**
      `touchmove`: one touch throws (the handler calls a method the class
      does not have) before changing anything; two move the end of the
      pinch; three compute nothing that is kept; any other count returns to
      NONE.
     */
    method TouchMove(touches: seq<Vec2>) returns (outcome: Outcome)
      modifies this`state, this`touchZoomDistanceEnd
      ensures ModesOf() == Gesture.TouchMove(old(ModesOf()), FlagsOf(), |touches|)
      ensures outcome == if enabled && |touches| == 1 then Thrown(TypeError) else Normal
      ensures touchZoomDistanceEnd == if enabled && |touches| == 2 then TouchSpan(touches[0], touches[1], lib.sqrt)
                                      else old(touchZoomDistanceEnd)
    {
      if !enabled {
        return Normal;
      }
      if |touches| == 1 {
        return Thrown(TypeError);
      } else if |touches| == 2 {
        touchZoomDistanceEnd := TouchSpan(touches[0], touches[1], lib.sqrt);
      } else if |touches| != 3 {
        state := NONE;
      }
      return Normal;
    }

    /**
      `touchend`, with the touches still down. One throws before any
      assignment; two clear both pinch distances; three copy a function into
      `panStart`, leaving it NaN. Unless it threw, the handler then returns
      to NONE and dispatches "end".
     */
    method TouchEnd(touches: seq<Vec2>) returns (outcome: Outcome)
      modifies this`state, this`touchZoomDistanceStart, this`touchZoomDistanceEnd, this`panStart, this`dispatched
      ensures ModesOf() == Gesture.TouchEnd(old(ModesOf()), FlagsOf(), |touches|)
      ensures outcome == if enabled && |touches| == 1 then Thrown(TypeError) else Normal
      ensures enabled && |touches| == 2 ==> touchZoomDistanceStart == 0.0 && touchZoomDistanceEnd == 0.0
      ensures !(enabled && |touches| == 2) ==>
        touchZoomDistanceStart == old(touchZoomDistanceStart) && touchZoomDistanceEnd == old(touchZoomDistanceEnd)
      ensures panStart == if enabled && |touches| == 3 then NotANumber else old(panStart)
      ensures dispatched == old(dispatched) + (if enabled && |touches| != 1 then [End] else [])
    {
      if !enabled {
        return Normal;
      }
      if |touches| == 1 {
        return Thrown(TypeError);
      } else if |touches| == 2 {
        touchZoomDistanceEnd := 0.0;
        touchZoomDistanceStart := touchZoomDistanceEnd;
      } else if |touches| == 3 {
        panStart := NotANumber;
      }
      state := NONE;
      dispatched := dispatched + [End];
      return Normal;
    }
  }
}
