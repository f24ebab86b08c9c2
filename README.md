# Trackball camera controller

A Dafny model of `TrackballControls`, a camera controller for three.js. The controller keeps its state in fields. Its handlers react to mouse, wheel, key and touch events by changing:

- the gesture mode `state` and the saved `prevState`;
- the gesture buffers: `movePrev`/`moveCurr` for rotation, `zoomStart`/`zoomEnd` for zoom, `panStart`/`panEnd` for pan.

Once per frame, `update` does the following:
- turns the camera about its target;
- zooms it along the ray from the target;
- pans camera and target together;
- clamps the camera's distance into `[minDistance, maxDistance]`;
- dispatches "change" when the camera moved more than `EPS`.

The project has five modules:

- `Vectors` models the three.js vectors as real-valued records. `setLength` is written out through a square root.
  - `Library` bundles the routines the controller takes from outside its own code, as function-valued parameters:
    - `Math.sqrt`, constrained by `IsSqrt`;
    - the axis computation of `rotateCamera`;
    - the quaternion rotation.
- `Screen` models the two mappers `getMouseOnScreen` and `getMouseOnCircle`, as functions.
- `Gesture` models the mode transitions of every handler as pure functions on `(state, prevState)`. It also defines `Run` over input sequences.
- `Integrator` models one frame of `update` as pure functions on a `Motion` record. `Motion` holds the numbers a frame reads and writes.
  - The frame is composed as `Tick = Notify ∘ CheckDistances ∘ Placed ∘ Panned ∘ Zoomed ∘ Rotated ∘ Prepare`.
  - This module holds the lemmas about the damping, the clamp and the notification.
- `Controls` holds the `TrackballControls` class. Its fields are those of the JavaScript object, and the camera is a `Camera` object with a mutable `position` and `up`.
  - Every handler is a method. Its `modifies` clause names exactly the fields it writes.
  - Its postcondition ties the new fields to the `Gesture` or `Integrator` function applied to the old ones.
  - `update` is proved in stages, each a method with one guard:
    - `RotateStage`, `ZoomStage` and `PanStage` are the three guarded calls;
    - `Steer`, `Move` and `Advance` are prefixes of the frame;
    - `NotifyStage` is the notification.
  - Events dispatched are appended to the field `dispatched`.

The model reproduces several quirks of the code as written.

1. **Unreachable pinch branch.** The pinch branch of `zoomCamera` tests `STATE.TOUCH_ZOOM_PAN`, which `STATE` does not define, so the branch can never run.
2. **Repeated keydown.** `keydown` overwrites `prevState` even when it ignores the key. Two `keydown` calls before a `keyup` therefore leave the controller stuck in the armed mode (`RepeatedKeyDownSticks`). The lemmas about single handlers describe one call of the handler per event; how many calls an event causes is discussed under "## Left out".
3. **Raw button as state.** `mousedown` stores the raw button number as the state (`ExtraButtonsAliasTouchModes`).
4. **Throwing touch branches.** The one-touch branches of the touch handlers throw a TypeError. The three-touch branches of `touchstart` and `touchend` leave a pan buffer NaN.
5. **`reset` throws.** `reset` throws a ReferenceError at line 252, after it has restored the snapshot and dispatched "change", so `lastPosition` is not updated. The one- and three-touch branches of `touchend` never seed a start buffer either. The model follows the code.

## Model

| member | source | states |
|---|---|---|
| Screen.MouseOnScreen | src/TrackballControls.js:106-118 | the result is the page position relative to `screen`, in units of its width and height: `left + x * width` gives `pageX` back, and `top + y * height` gives `pageY` |
| Screen.ScreenRoundTrip | src/TrackballControls.js:110-117 | mapping a normalized point to the page and back through `getMouseOnScreen` gives the point again |
| Screen.ScreenCorners | src/TrackballControls.js:111-114 | the top-left corner of the surface maps to (0, 0) and the bottom-right one to (1, 1) |
| Screen.MouseOnCircle | src/TrackballControls.js:119-131 | for any surface of non-zero width (the height may be zero, since only the width divides), the result is the offset from the surface's centre in half-widths on both axes, with y pointing up; both page coordinates are recovered from it |
| Screen.CircleLandmarks | src/TrackballControls.js:123-127 | for any non-zero width, the centre maps to (0, 0); the left and right edges map to x = -1 and x = 1 |
| Screen.CircleDelta | src/TrackballControls.js:123-127 | for any non-zero width, a pointer move of (dx, dy) pixels becomes (dx, -dy) times 2 / width, the same scale on both axes |
| Gesture.PinchGuardNeverHolds | src/TrackballControls.js:174 | `state === STATE.TOUCH_ZOOM_PAN` is false for every state, because the key is not in `STATE` |
| Gesture.StateKeysAgree | src/TrackballControls.js:16 | each key `STATE` defines compares equal exactly to its constant |
| Gesture.DisabledIgnoresInput | src/TrackballControls.js:256-398 | with `enabled` false, no handler changes `state` or `prevState` |
| Gesture.KeyDownSavesState | src/TrackballControls.js:257-259 | an enabled keydown always sets `prevState` to the state it found, even when it then ignores the key |
| Gesture.KeyDownOnlyFromNone | src/TrackballControls.js:256-269 | keydown changes the state only when enabled and in NONE, and only to ROTATE, ZOOM or PAN; the key must be that mode's entry of `keys`, and the mode's `no*` switch must be off |
| Gesture.KeyDownArms | src/TrackballControls.js:260-268 | conversely, from NONE the pressed key arms its enabled mode, unless an earlier mode in ROTATE, ZOOM, PAN order also matches |
| Gesture.KeyUpUndoesKeyDown | src/TrackballControls.js:256-274 | a keyup right after a single keydown call restores the state the keydown found |
| Gesture.RepeatedKeyDownSticks | src/TrackballControls.js:256-274 | from NONE, with rotation on, one call with the rotate key arms ROTATE, while two calls and a keyup leave the controller in ROTATE, not NONE (two presses, or one press reaching a second `keydown` listener registered at line 273) |
| Gesture.MouseDownFromNone | src/TrackballControls.js:279-281 | mousedown adopts the button as the state from NONE, keeps any other state, and never touches `prevState` |
| Gesture.ExtraButtonsAliasTouchModes | src/TrackballControls.js:279-281 | buttons 3 and 4 put the mouse into TOUCH_ROTATE and TOUCH_ZOOM; button 6 gives a state outside `STATE` |
| Gesture.MouseUpEndsGesture | src/TrackballControls.js:310-318 | an enabled mouseup always ends in NONE and keeps `prevState` |
| Gesture.PointerBufferChoice | src/TrackballControls.js:282-291 | a gesture's buffer is written exactly when the state names that gesture and its `no*` switch is off (both directions) |
| Gesture.TouchIgnoresSwitches | src/TrackballControls.js:341-398 | the touch handlers' transitions do not depend on `noRotate`, `noZoom` or `noPan`, and touchstart always yields a value of `STATE` |
| Gesture.RunAppend | src/TrackballControls.js:256-398 | running a sequence of inputs and then one more is that one step from the state the sequence left |
| Gesture.RunStaysInModes | src/TrackballControls.js:256-398 | while every pressed button is 0, 1 or 2, `state` and `prevState` only ever hold values of `STATE` |
| Gesture.RunEndingInRelease | src/TrackballControls.js:310-318 | whatever inputs came before, an enabled mouseup leaves the controller in NONE |
| Gesture.KeyDown | src/TrackballControls.js:256-269 | the `keydown` transition; its properties are `KeyDownSavesState`, `KeyDownOnlyFromNone`, `KeyDownArms` and `RepeatedKeyDownSticks` |
| Gesture.KeyUp | src/TrackballControls.js:270-274 | the `keyup` transition, back to `prevState`; see `KeyUpUndoesKeyDown` |
| Gesture.MouseDown | src/TrackballControls.js:279-281 | the `mousedown` transition; see `MouseDownFromNone` and `ExtraButtonsAliasTouchModes` |
| Gesture.MouseUp | src/TrackballControls.js:314 | the `mouseup` transition; see `MouseUpEndsGesture` |
| Gesture.TouchStart | src/TrackballControls.js:343-360 | the `touchstart` transition, from the touch count; see `TouchIgnoresSwitches` |
| Gesture.TouchMove | src/TrackballControls.js:367-381 | the `touchmove` transition; see `TouchIgnoresSwitches` |
| Gesture.TouchEnd | src/TrackballControls.js:385-396 | the `touchend` transition; see `TouchIgnoresSwitches` |
| Gesture.Step | src/TrackballControls.js:256-398 | one input's transition, dispatched to its handler; see `DisabledIgnoresInput` |
| Gesture.Run | src/TrackballControls.js:256-398 | a sequence of inputs; see `RunAppend`, `RunStaysInModes` and `RunEndingInRelease` |
| Integrator.RotateStep | src/TrackballControls.js:142-169 | `rotateCamera` on the frame's numbers; see `RotateConsumesDelta`, `RotateIdle`, `RotateDrag`, `CoastStep`, `MomentumDecay` and `MomentumAfter` |
| Integrator.ZoomStep | src/TrackballControls.js:178-188 | the mouse branch of `zoomCamera`; see `ZoomKeepsRay`, `ZoomDirection`, `ZoomStatic`, `ZoomDamping` and `ZoomGapAfter` |
| Integrator.WheelScroll | src/TrackballControls.js:323-336 | the wheel's move of `zoomStart`; see `WheelAdds` and `WheelDownZoomsOut` |
| Integrator.PanStep | src/TrackballControls.js:196-210 | `panCamera`; see `PanIdle`, `PanMovesRigidly` and `PanDamping` |
| Integrator.CheckDistances | src/TrackballControls.js:212-223 | `checkDistances`, max check first; see `ClampWhenOutOfRange`, `ClampBounds` and `ClampMinWins` |
| Integrator.Notify | src/TrackballControls.js:238-241 | the notification at the end of `update`; see `TickNotifies` |
| Integrator.Tick | src/TrackballControls.js:224-242 | one frame of `update`; see `TickNotifies`, `TickFrame`, `TickDistance` and `TickAtRest` |
| Integrator.EqualBuffersStill | src/TrackballControls.js:143-146 | equal rotate buffers give a zero angle, so `rotateCamera` takes its no-drag branch |
| Integrator.RotateConsumesDelta | src/TrackballControls.js:142-169 | a rotation step sets `movePrev` to `moveCurr` and changes nothing but eye, up, axis, angle and `movePrev` |
| Integrator.RotateIdle | src/TrackballControls.js:143-168 | with a still pointer and no momentum (or `staticMoving`), the rotation only consumes the delta |
| Integrator.RotateDrag | src/TrackballControls.js:143-160 | a drag records its angle: the square of the new `lastAngle` is the squared delta times `rotateSpeed` squared, and it is non-zero for a non-zero speed |
| Integrator.CoastStep | src/TrackballControls.js:161-167 | with a still pointer, momentum and no `staticMoving`, the frame turns about `lastAxis` by the damped angle and stores that angle |
| Integrator.MomentumDecay | src/TrackballControls.js:161-167 | the damped angle is the last angle times `sqrt(1 - dynamicDampingFactor)`: it keeps its sign and never grows; it reaches zero at once for a factor of 1 and never for a factor below 1 |
| Integrator.StillAfter | src/TrackballControls.js:168 | after any rotation step the pointer is still |
| Integrator.MomentumAfter | src/TrackballControls.js:161-168 | the n-th call of `rotateCamera` after a drag stops, with no pointer input and nothing else run in between, turns about the drag's axis by its angle damped n times, and that angle is never zero; `MomentumOverFrames` states the same for calls of `update` |
| Integrator.MomentumPower | src/TrackballControls.js:161-168 | the angle of the n-th such `rotateCamera` call is the drag angle times `sqrt(1 - dynamicDampingFactor)` to the n-th power |
| Integrator.TickRotationFields | src/TrackballControls.js:225-246 | with rotation on, a whole `update` leaves `lastAngle`, `lastAxis`, `movePrev` and `moveCurr` exactly as its `rotateCamera` call does: zoom, pan, placement, clamp and notification do not touch them |
| Integrator.CoastTick | src/TrackballControls.js:142-246 | one idle call of `update` during a coast damps the angle once more and keeps the axis, the still pointer and a non-zero angle |
| Integrator.MomentumOverFrames | src/TrackballControls.js:142-246 | after a drag stops, with rotation on and no pointer input, the state after n calls of `update` still coasts about the drag's axis by the drag's angle damped n times, and that angle is never zero |
| Integrator.MomentumPowerOverFrames | src/TrackballControls.js:142-246 | the angle after n idle calls of `update` is the drag angle times `sqrt(1 - dynamicDampingFactor)` to the n-th power |
| Integrator.ZoomKeepsRay | src/TrackballControls.js:178-188 | the new eye is a positive multiple of the old one; nothing but the eye and `zoomStart` changes |
| Integrator.ZoomDirection | src/TrackballControls.js:179-182 | a factor that is not positive, or is 1, leaves the eye; a factor of at least 1 never shortens it; one in (0, 1] never lengthens it |
| Integrator.ZoomStatic | src/TrackballControls.js:183-184 | with `staticMoving`, `zoomStart` becomes `zoomEnd` and the gap is zero |
| Integrator.ZoomDamping | src/TrackballControls.js:185-187 | otherwise `zoomStart.x` and `zoomEnd` stay, and the gap is multiplied by `1 - dynamicDampingFactor` |
| Integrator.ZoomGapAfter | src/TrackballControls.js:183-187 | after n zoom steps without input, the gap is the first gap times `(1 - dynamicDampingFactor)` to the n-th power |
| Integrator.WheelAdds | src/TrackballControls.js:323-336 | two wheel events in one mode add up to one event with the summed delta, and `zoomStart.x` never changes |
| Integrator.WheelDownZoomsOut | src/TrackballControls.js:319-336 | scrolling down from rest at a positive `zoomSpeed` makes the next zoom factor exceed 1, so the camera does not come nearer |
| Integrator.PanIdle | src/TrackballControls.js:197-198 | with equal pan buffers, or a NaN one, the pan changes nothing |
| Integrator.PanMovesRigidly | src/TrackballControls.js:200-203 | camera and target move by the same vector, so the offset between them is kept; only they and `panStart` change |
| Integrator.PanDamping | src/TrackballControls.js:204-208 | an active pan keeps `panEnd`; it either sets `panStart` to `panEnd` or scales the remaining gap by `1 - dynamicDampingFactor` |
| Integrator.ClampWhenOutOfRange | src/TrackballControls.js:212-223 | the clamp leaves the state alone when it is off or the eye is in range; otherwise it sets `zoomStart` to `zoomEnd`, and it changes only eye, position and `zoomStart` |
| Integrator.ClampIdle | src/TrackballControls.js:213-222 | with zoom and pan both off, or the eye within both bounds, `checkDistances` changes nothing |
| Integrator.ClampKeepsFrame | src/TrackballControls.js:215-219 | a camera at `target + eye` is still at `target + eye` after the clamp |
| Integrator.ClampMaxBound | src/TrackballControls.js:214-217 | with sane bounds, an eye beyond a finite `maxDistance` gets exactly that length and any other eye is left alone; the eye ends within the bound, and stays non-zero unless the bound is zero |
| Integrator.ClampMinBound | src/TrackballControls.js:218-221 | the min check lifts the eye to at least `minDistance` and stays within any bound it already met |
| Integrator.ClampBounds | src/TrackballControls.js:212-223 | with `0 <= minDistance <= maxDistance`, every non-zero eye ends with its squared length between `minDistance²` and `maxDistance²` |
| Integrator.ClampZeroEye | src/TrackballControls.js:212-223 | a camera sitting on the target stays on it, because `setLength` of a zero vector is zero |
| Integrator.ClampMinWins | src/TrackballControls.js:214-221 | because the max check runs first, `0 < maxDistance < minDistance` ends with the eye at length `minDistance`; a zero `maxDistance` behaves differently (`ZeroMaxCollapses`) |
| Integrator.ZeroMaxCollapses | src/TrackballControls.js:214-221 | with the clamp on and `maxDistance` 0, the eye ends at length zero whatever `minDistance` is: the max clamp gives the zero vector, and `setLength` of the zero vector stays zero |
| Integrator.ZeroEyeStays | src/TrackballControls.js:218-220 | the min clamp keeps a zero eye zero |
| Integrator.IntegrateKeepsLastPosition | src/TrackballControls.js:225-236 | no step before the notification touches `lastPosition` |
| Integrator.TickNotifies | src/TrackballControls.js:238-241 | "change" is dispatched exactly when the new position is more than `EPS` (squared) from `lastPosition`; `lastPosition` becomes the position then, and only then |
| Integrator.RotatedKeeps | src/TrackballControls.js:226-228 | the guarded rotation changes only eye, up, axis, angle and `movePrev` |
| Integrator.ZoomedKeeps | src/TrackballControls.js:229-231 | the guarded zoom changes only the eye and `zoomStart` |
| Integrator.RotatedAtRest | src/TrackballControls.js:226-228 | with a still pointer and no momentum, the guarded rotation only consumes the delta |
| Integrator.ZoomedAtRest | src/TrackballControls.js:229-231 | with no zoom gap, the guarded zoom leaves the eye alone |
| Integrator.PannedIdle | src/TrackballControls.js:232-234 | with the pan off or its buffers equal, the guarded pan changes nothing |
| Integrator.PlacedInPlace | src/TrackballControls.js:225-235 | setting `position = target + (position - target)` leaves the camera where it was |
| Integrator.TickFrame | src/TrackballControls.js:224-236 | after every frame the camera sits at `target + eye` |
| Integrator.TickDistance | src/TrackballControls.js:224-236 | with the clamp on and sane bounds, after every frame the eye is in range, unless it has collapsed onto the target |
| Integrator.MovedAtRest | src/TrackballControls.js:225-235 | at rest, the state before the clamp differs from the prepared state only in the consumed buffers |
| Integrator.IntegrateAtRest | src/TrackballControls.js:224-236 | at rest, camera, up vector and target do not move |
| Integrator.TickAtRest | src/TrackballControls.js:224-242 | at rest, a frame keeps camera, up and target; it notifies exactly when the camera had moved more than `EPS` since the last notification |
| Integrator.TickUpOnlyByRotation | src/TrackballControls.js:226-236 | with `noRotate`, a frame keeps the up vector, both rotate buffers, the rotation axis and the angle |
| Integrator.TickTargetOnlyByPan | src/TrackballControls.js:224-236 | with the pan off or idle, a frame keeps the target |
| Controls.Press | src/TrackballControls.js:282-291 | the buffers `mousedown` seeds, start equal to end; see `PressKeepsRest` |
| Controls.Drag | src/TrackballControls.js:301-308 | the buffer `mousemove` moves; see `DragRotateDelta`, `DragZoomGap` and `DoubledDragStill` |
| Controls.TouchSpan | src/TrackballControls.js:350-352 | the distance of the first two touches; see `TouchSpanIsDistance` |
| Controls.Camera.constructor | src/TrackballControls.js:65 | the camera `object`, with the position and up vector the controller reads and writes |
| Controls.PressKeepsRest | src/TrackballControls.js:282-291 | a button press sets nothing in motion: a state at rest is still at rest after the buffers are seeded, and camera and target stay |
| Controls.DragRotateDelta | src/TrackballControls.js:301-303 | a rotation drag leaves as delta the pixel move times 2 / width, with y flipped |
| Controls.DoubledDragStill | src/TrackballControls.js:293-303 | one move delivered to two `mousemove` listeners (a second `mousedown` registered the second at line 293) leaves both rotate buffers equal, so the next frame sees no drag |
| Controls.DragZoomGap | src/TrackballControls.js:285-305 | after a zoom press and a drag, the zoom gap times the height is the vertical pixel move |
| Controls.TouchSpanIsDistance | src/TrackballControls.js:350-352 | the pinch distance is non-negative, its square is the squared distance of the touches, it is symmetric, and it is zero for coincident touches |
| Controls.TrackballControls.constructor | src/TrackballControls.js:22-69 | default settings, keys A/S/D, NONE, zero buffers, target at the origin, and the `reset` snapshot of target, camera position and up |
| Controls.TrackballControls.HandleResize | src/TrackballControls.js:85-100 | `screen` becomes the rectangle read from the page |
| Controls.TrackballControls.TurnCamera | src/TrackballControls.js:163-166 | eye and up become those of `Turn`: the eye is recomputed from camera and target, and both are turned about the axis |
| Controls.TrackballControls.RotateCamera | src/TrackballControls.js:142-169 | the rotation fields become those of `RotateStep` on the old state; the lemmas on `RotateStep` above apply |
| Controls.TrackballControls.ZoomCamera | src/TrackballControls.js:171-189 | eye and `zoomStart` become those of `ZoomStep`; the pinch branch is dead |
| Controls.TrackballControls.PanCamera | src/TrackballControls.js:196-210 | camera position, target and `panStart` become those of `PanStep` |
| Controls.TrackballControls.CheckDistances | src/TrackballControls.js:212-223 | eye, position and `zoomStart` become those of `Integrator.CheckDistances`, max check first |
| Controls.TrackballControls.RotateStage | src/TrackballControls.js:226-228 | the state becomes `Rotated`: the rotation unless `noRotate` |
| Controls.TrackballControls.ZoomStage | src/TrackballControls.js:229-231 | the state becomes `Zoomed`: the zoom unless `noZoom` |
| Controls.TrackballControls.PanStage | src/TrackballControls.js:232-234 | the state becomes `Panned`: the pan unless `noPan` |
| Controls.TrackballControls.Steer | src/TrackballControls.js:225-231 | the eye is recomputed, then the guarded rotation and zoom follow, in that order |
| Controls.TrackballControls.Move | src/TrackballControls.js:225-235 | the state before the clamp is `Moved`: the guarded steps in order, then `position = target + eye` |
| Controls.TrackballControls.Advance | src/TrackballControls.js:225-236 | the state before the notification is `Integrate` |
| Controls.TrackballControls.NotifyStage | src/TrackballControls.js:238-241 | "change" is appended and `lastPosition` updated exactly as `Notify` says |
| Controls.TrackballControls.Update | src/TrackballControls.js:224-242 | the fields become `Tick(old)`, and "change" is appended exactly when `Tick` reports it; `TickNotifies`, `TickFrame`, `TickDistance` and `TickAtRest` describe that frame |
| Controls.TrackballControls.Reset | src/TrackballControls.js:243-253 | it reports a thrown ReferenceError after going to NONE/NONE, restoring target, position and up from the snapshot, recomputing the eye and appending "change"; nothing else changes, `lastPosition` included |
| Controls.TrackballControls.KeyDown | src/TrackballControls.js:256-269 | `(state, prevState)` become `Gesture.KeyDown` of the old ones |
| Controls.TrackballControls.KeyUp | src/TrackballControls.js:270-274 | `state` becomes `prevState` when enabled |
| Controls.TrackballControls.MouseDown | src/TrackballControls.js:275-296 | the modes become `Gesture.MouseDown`; the buffer of the settled gesture is seeded as `Press` says; "start" is appended when enabled. A rotate press needs only a non-zero width |
| Controls.TrackballControls.MouseMove | src/TrackballControls.js:297-309 | the state is unchanged; the active buffer moves as `Drag` says. A rotate drag needs only a non-zero width |
| Controls.TrackballControls.MouseUp | src/TrackballControls.js:310-318 | the state becomes NONE and "end" is appended, when enabled |
| Controls.TrackballControls.MouseWheel | src/TrackballControls.js:319-340 | only `zoomStart.y` moves, by `deltaY` times 0.025, 0.01 or 0.00025 depending on `deltaMode`; then "start" and "end" are appended |
| Controls.TrackballControls.TouchStart | src/TrackballControls.js:341-362 | the mode comes from the touch count. One touch throws a TypeError. Two set both pinch distances to the touch distance. Three make `panEnd` NaN. "start" is appended unless it threw |
| Controls.TrackballControls.TouchMove | src/TrackballControls.js:363-382 | one touch throws a TypeError. Two set the pinch end distance. A count outside 1..3 gives NONE |
| Controls.TrackballControls.TouchEnd | src/TrackballControls.js:383-398 | one touch throws a TypeError before any change. Two zero both pinch distances. Three make `panStart` NaN. Unless it threw, the state becomes NONE and "end" is appended |

## Left out

- DOM and window plumbing is not modelled:
  - `preventDefault` and `stopPropagation`;
  - the `contextmenu` listener;
  - `handleEvent`;
  - `addEventListener`/`removeEventListener` (lines 72-80, 258, 273, 293-294, 315-316, 399-401).
  - The removals pass unbound methods, so listeners accumulate, which changes how often a handler runs per event. The model's handler methods describe one call each and do not capture the repeats. Each `keyup` registers one more `keydown` listener (line 273) that line 258 never removes: the n-th key press runs the handler once per registered listener, n times, so from the second press on a press and release of A from NONE leaves the controller in ROTATE (`RepeatedKeyDownSticks` states the two calls). Each `mousedown` registers `mousemove` and `mouseup` listeners again (lines 293-294), never removed (lines 315-316): after n presses, one move runs the handler once per registered listener, n times; from the second press on that leaves the rotate buffers equal, so mouse drags stop rotating (`DoubledDragStill`), and "end" is dispatched once per registered listener.
  - The `DOMMouseScroll` registration (line 75) delivers events without `deltaY` or `deltaMode`, which make `zoomStart.y` NaN. `MouseWheel` takes a real `deltaY` and does not capture that.
- `HandleResize` takes the rectangle as a parameter instead of reading `window` and `getBoundingClientRect`.
- `object.lookAt` (lines 237 and 250) changes only the camera's orientation, which is not modelled. The camera is a `Camera` object with `position` and `up` only, in a field named `camera`.
- The `EventDispatcher` is the sequence `dispatched` of events sent. Subscribers are not modelled.
- Quaternion rotation and the axis construction of `rotateCamera` (lines 147-156) are the uninterpreted functions `rotationAxis` and `applyAxisAngle` of `Library`.
  - `Math.sqrt` is the parameter `sqrt`, constrained to be the non-negative square root.
  - Floating-point rounding is not modelled. All arithmetic is on reals.
- IEEE-754 special values appear in two places only:
  - `maxDistance = Infinity` is the `Bound` value `Infinite`;
  - a pan buffer that the touch handlers overwrite with a function is the `PanPoint` value `NotANumber`.
- Screen.MouseOnScreen: requires a non-zero width and height. The JavaScript divides by both and would give Infinity or NaN. Screen.MouseOnCircle divides only by the width and requires only that; `MouseDown` and `MouseMove` require of `screen` exactly what the mapper of the buffer they write needs (`Mappable`).
- The pinch arithmetic of `zoomCamera` (lines 175-177) sits in a branch that cannot run. `ZoomCamera` has `assert false` there. The touch handlers only assign the two pinch distances.
- The one-touch branches of the touch handlers call members the class does not have (`rotateEnd`, `rotateStart`, `getMouseProjectionOnBall`). They are modelled only as the TypeError they raise.
- `touchmove` with three touches calls `getMouseOnScreen` and drops the result. That call is modelled as a no-op.
- Controls.TouchSpanIsDistance: states only that coincident touches give a zero distance, not the converse.
- Event objects are reduced to the values the handlers read: button, page coordinates, key code, wheel `deltaMode`/`deltaY`, and the touch positions.
