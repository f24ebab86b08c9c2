/**
  The gesture state machine: the integer `state` and the saved `prevState`,
  and how each input handler moves them. The handlers themselves (with their
  effects on the gesture buffers) live in the `TrackballControls` class;
  these functions are the part that decides the mode.
 */
module Gesture {

  const NONE: int := -1
  const ROTATE: int := 0
  const ZOOM: int := 1
  const PAN: int := 2
  const TOUCH_ROTATE: int := 3
  const TOUCH_ZOOM: int := 4
  const TOUCH_PAN: int := 5

  /** The `STATE` object, keyed by its property names. */
  const STATE: map<string, int> := map[
    "NONE" := NONE, "ROTATE" := ROTATE, "ZOOM" := ZOOM, "PAN" := PAN,
    "TOUCH_ROTATE" := TOUCH_ROTATE, "TOUCH_ZOOM" := TOUCH_ZOOM, "TOUCH_PAN" := TOUCH_PAN]

  /**
    `state === STATE.<key>`. A key the object does not have reads as
    `undefined`, which is strictly equal to no number.
   */
  predicate StateIs(state: int, key: string) {
    key in STATE && state == STATE[key]
  }

  /** One of the values of `STATE`. */
  predicate IsMode(state: int) { NONE <= state <= TOUCH_PAN }

  /**
    The pinch test of `zoomCamera` names `TOUCH_ZOOM_PAN`, a key `STATE` does
    not define, so it fails whatever the state is.
   */
  lemma PinchGuardNeverHolds(state: int)
    ensures !StateIs(state, "TOUCH_ZOOM_PAN")
  {
  }

  /** The keys `STATE` does define compare as their constants. */
  lemma StateKeysAgree(state: int)
    ensures StateIs(state, "NONE") <==> state == NONE
    ensures StateIs(state, "ROTATE") <==> state == ROTATE
    ensures StateIs(state, "ZOOM") <==> state == ZOOM
    ensures StateIs(state, "PAN") <==> state == PAN
    ensures StateIs(state, "TOUCH_ROTATE") <==> state == TOUCH_ROTATE
    ensures StateIs(state, "TOUCH_ZOOM") <==> state == TOUCH_ZOOM
    ensures StateIs(state, "TOUCH_PAN") <==> state == TOUCH_PAN
  {
  }

  datatype Modes = Modes(state: int, prevState: int)

  /** The settings the handlers read: `enabled` and the three `no*` switches. */
  datatype Flags = Flags(enabled: bool, noRotate: bool, noZoom: bool, noPan: bool)

  /** `keyCode === keys[i]`; an index past the end reads as `undefined`. */
  predicate KeyIs(keys: seq<int>, i: int, keyCode: int) {
    0 <= i < |keys| && keys[i] == keyCode
  }

  /** The `no*` switch of one of ROTATE, ZOOM and PAN. */
  predicate Disabled(f: Flags, mode: int) {
    if mode == ROTATE then f.noRotate
    else if mode == ZOOM then f.noZoom
    else if mode == PAN then f.noPan
    else true
  }

  /** `keydown`: save the state, then arm a keyboard mode only from NONE. */
  function KeyDown(m: Modes, f: Flags, keys: seq<int>, keyCode: int): Modes {
    if !f.enabled then m
    else if m.state != NONE then Modes(m.state, m.state)
    else if KeyIs(keys, ROTATE, keyCode) && !f.noRotate then Modes(ROTATE, m.state)
    else if KeyIs(keys, ZOOM, keyCode) && !f.noZoom then Modes(ZOOM, m.state)
    else if KeyIs(keys, PAN, keyCode) && !f.noPan then Modes(PAN, m.state)
    else Modes(m.state, m.state)
  }

  /** `keyup`: go back to the saved state. */
  function KeyUp(m: Modes, f: Flags): Modes {
    if !f.enabled then m else Modes(m.prevState, m.prevState)
  }

  /** `mousedown`: the raw button number becomes the state, but only from NONE. */
  function MouseDown(m: Modes, f: Flags, button: int): Modes {
    if !f.enabled || m.state != NONE then m else Modes(button, m.prevState)
  }

  /** `mouseup` */
  function MouseUp(m: Modes, f: Flags): Modes {
    if !f.enabled then m else Modes(NONE, m.prevState)
  }

  /** The mode `touchstart` assigns for a number of touch points. */
  function TouchMode(count: nat): int {
    if count == 1 then TOUCH_ROTATE
    else if count == 2 then TOUCH_ZOOM
    else if count == 3 then TOUCH_PAN
    else NONE
  }

  /** `touchstart`: the mode comes from the touch count alone. */
  function TouchStart(m: Modes, f: Flags, count: nat): Modes {
    if !f.enabled then m else Modes(TouchMode(count), m.prevState)
  }

  /**
    `touchmove`: only a count outside 1..3 changes the mode (to NONE); with
    one touch the handler throws before any assignment.
   */
  function TouchMove(m: Modes, f: Flags, count: nat): Modes {
    if !f.enabled || 1 <= count <= 3 then m else Modes(NONE, m.prevState)
  }

  /**
    `touchend`: back to NONE, except with one touch, where the handler throws
    before it gets to the assignment.
   */
  function TouchEnd(m: Modes, f: Flags, count: nat): Modes {
    if !f.enabled || count == 1 then m else Modes(NONE, m.prevState)
  }

  /** The gesture buffers `mousedown` seeds and `mousemove` writes. */
  datatype Buffer = RotateBuffer | ZoomBuffer | PanBuffer | NoBuffer

  function PointerBuffer(state: int, f: Flags): Buffer {
    if state == ROTATE && !f.noRotate then RotateBuffer
    else if state == ZOOM && !f.noZoom then ZoomBuffer
    else if state == PAN && !f.noPan then PanBuffer
    else NoBuffer
  }

  /** The inputs that reach the state machine, with what each one carries that matters to it. */
  datatype Input =
    | KeyPress(keyCode: int)
    | KeyRelease
    | ButtonPress(button: int)
    | PointerMove
    | ButtonRelease
    | Wheel
    | TouchesStart(count: nat)
    | TouchesMove(count: nat)
    | TouchesEnd(count: nat)

  function Step(m: Modes, f: Flags, keys: seq<int>, e: Input): Modes {
    match e
    case KeyPress(k) => KeyDown(m, f, keys, k)
    case KeyRelease => KeyUp(m, f)
    case ButtonPress(b) => MouseDown(m, f, b)
    case PointerMove => m
    case ButtonRelease => MouseUp(m, f)
    case Wheel => m
    case TouchesStart(n) => TouchStart(m, f, n)
    case TouchesMove(n) => TouchMove(m, f, n)
    case TouchesEnd(n) => TouchEnd(m, f, n)
  }

  function Run(m: Modes, f: Flags, keys: seq<int>, es: seq<Input>): Modes
    decreases |es|
  {
    if es == [] then m else Run(Step(m, f, keys, es[0]), f, keys, es[1..])
  }

  // ---- properties of single handlers ----

  /** With `enabled` false every handler leaves both fields alone. */
  lemma DisabledIgnoresInput(m: Modes, f: Flags, keys: seq<int>, e: Input)
    requires !f.enabled
    ensures Step(m, f, keys, e) == m
  {
  }

  /** An enabled `keydown` always saves the state it found, even when it then ignores the key. */
  lemma KeyDownSavesState(m: Modes, f: Flags, keys: seq<int>, keyCode: int)
    requires f.enabled
    ensures KeyDown(m, f, keys, keyCode).prevState == m.state
  {
  }

  /**
    `keydown` changes the state only from NONE, and only into a mode that is
    switched on and whose key was pressed.
   */
  lemma KeyDownOnlyFromNone(m: Modes, f: Flags, keys: seq<int>, keyCode: int)
    ensures var r := KeyDown(m, f, keys, keyCode);
      r.state != m.state ==>
        && f.enabled && m.state == NONE
        && r.state in {ROTATE, ZOOM, PAN}
        && KeyIs(keys, r.state, keyCode) && !Disabled(f, r.state)
  {
  }

  /**
    Conversely, from NONE the pressed key arms its mode when that mode is on,
    unless an earlier entry of `keys` (in ROTATE, ZOOM, PAN order) also
    matches an enabled mode.
   */
  lemma KeyDownArms(m: Modes, f: Flags, keys: seq<int>, keyCode: int, mode: int)
    requires f.enabled && m.state == NONE
    requires mode in {ROTATE, ZOOM, PAN}
    requires KeyIs(keys, mode, keyCode) && !Disabled(f, mode)
    requires forall i :: ROTATE <= i < mode ==> !(KeyIs(keys, i, keyCode) && !Disabled(f, i))
    ensures KeyDown(m, f, keys, keyCode) == Modes(mode, NONE)
  {
    if mode == ZOOM {
      assert !(KeyIs(keys, ROTATE, keyCode) && !Disabled(f, ROTATE));
    } else if mode == PAN {
      assert !(KeyIs(keys, ROTATE, keyCode) && !Disabled(f, ROTATE));
      assert !(KeyIs(keys, ZOOM, keyCode) && !Disabled(f, ZOOM));
    }
  }

  /** A `keyup` straight after a single `keydown` call restores the state the `keydown` found. */
  lemma KeyUpUndoesKeyDown(m: Modes, f: Flags, keys: seq<int>, keyCode: int)
    requires f.enabled
    ensures KeyUp(KeyDown(m, f, keys, keyCode), f).state == m.state
  {
  }

  /**
    Because `keydown` overwrites `prevState` unconditionally, a second
    `keydown` before the `keyup` saves the armed mode, and the `keyup` then
    leaves the controller stuck in that mode instead of returning to NONE.
    The second call comes from a second press, or from the same press
    delivered to a `keydown` listener that an earlier `keyup` registered
    again.
   */
  lemma RepeatedKeyDownSticks(m: Modes, f: Flags, keys: seq<int>, keyCode: int)
    requires f.enabled && m.state == NONE && !f.noRotate && KeyIs(keys, ROTATE, keyCode)
    ensures KeyDown(m, f, keys, keyCode).state == ROTATE
    ensures KeyUp(KeyDown(KeyDown(m, f, keys, keyCode), f, keys, keyCode), f).state == ROTATE
  {
  }

  /** `mousedown` adopts the button from NONE and otherwise keeps the state; `prevState` is never touched. */
  lemma MouseDownFromNone(m: Modes, f: Flags, button: int)
    requires f.enabled
    ensures var r := MouseDown(m, f, button);
      && r.prevState == m.prevState
      && (m.state == NONE ==> r.state == button)
      && (m.state != NONE ==> r.state == m.state)
  {
  }

  /**
    The state is the raw button number, so the browser's fourth and fifth
    buttons put the pointer into the touch modes and, for a button beyond
    those, outside every value of `STATE`.
   */
  lemma ExtraButtonsAliasTouchModes(m: Modes, f: Flags)
    requires f.enabled && m.state == NONE
    ensures MouseDown(m, f, 3).state == TOUCH_ROTATE
    ensures MouseDown(m, f, 4).state == TOUCH_ZOOM
    ensures !IsMode(MouseDown(m, f, 6).state)
  {
  }

  /** `mouseup` always ends in NONE, whatever the state was. */
  lemma MouseUpEndsGesture(m: Modes, f: Flags)
    requires f.enabled
    ensures MouseUp(m, f) == Modes(NONE, m.prevState)
  {
  }

  /** A buffer is written exactly when the state names its gesture and that gesture is on. */
  lemma PointerBufferChoice(state: int, f: Flags)
    ensures PointerBuffer(state, f) == RotateBuffer <==> state == ROTATE && !f.noRotate
    ensures PointerBuffer(state, f) == ZoomBuffer <==> state == ZOOM && !f.noZoom
    ensures PointerBuffer(state, f) == PanBuffer <==> state == PAN && !f.noPan
  {
  }

  /** The touch handlers ignore `noRotate`, `noZoom` and `noPan`, unlike the mouse and key handlers. */
  lemma TouchIgnoresSwitches(m: Modes, f: Flags, g: Flags, count: nat)
    requires f.enabled && g.enabled
    ensures TouchStart(m, f, count) == TouchStart(m, g, count)
    ensures TouchMove(m, f, count) == TouchMove(m, g, count)
    ensures TouchEnd(m, f, count) == TouchEnd(m, g, count)
    ensures IsMode(TouchStart(m, f, count).state)
  {
  }

  // ---- properties of input sequences ----

  /** Every input after the first one is run from the state the first one left. */
  lemma {:induction false} RunAppend(m: Modes, f: Flags, keys: seq<int>, es: seq<Input>, e: Input)
    ensures Run(m, f, keys, es + [e]) == Step(Run(m, f, keys, es), f, keys, e)
    decreases |es|
  {
    if es == [] {
      assert [] + [e] == [e];
    } else {
      assert (es + [e])[1..] == es[1..] + [e];
      RunAppend(Step(m, f, keys, es[0]), f, keys, es[1..], e);
    }
  }

  /** A mouse button the `STATE` enumeration names. */
  predicate PointerButton(e: Input) {
    e.ButtonPress? ==> ROTATE <= e.button <= PAN
  }

  /**
    As long as every mouse button pressed is 0, 1 or 2, both fields only ever
    hold values of `STATE`.
   */
  lemma {:induction false} RunStaysInModes(m: Modes, f: Flags, keys: seq<int>, es: seq<Input>)
    requires IsMode(m.state) && IsMode(m.prevState)
    requires forall i :: 0 <= i < |es| ==> PointerButton(es[i])
    ensures IsMode(Run(m, f, keys, es).state) && IsMode(Run(m, f, keys, es).prevState)
    decreases |es|
  {
    if es != [] {
      var n := Step(m, f, keys, es[0]);
      assert PointerButton(es[0]);
      assert IsMode(n.state) && IsMode(n.prevState);
      forall i | 0 <= i < |es[1..]| ensures PointerButton(es[1..][i]) {
        assert es[1..][i] == es[i + 1];
      }
      RunStaysInModes(n, f, keys, es[1..]);
    }
  }

  /** Whatever came before, an enabled `mouseup` leaves the controller idle. */
  lemma RunEndingInRelease(m: Modes, f: Flags, keys: seq<int>, es: seq<Input>)
    requires f.enabled
    ensures Run(m, f, keys, es + [ButtonRelease]).state == NONE
  {
    RunAppend(m, f, keys, es, ButtonRelease);
  }
}
