/**
  The two screen-space mappers of the trackball controller. Both read the
  control surface's bounding rectangle `screen` (page coordinates) and map a
  pointer position `(pageX, pageY)` to a 2-D vector.
 */
module Screen {
  import opened Vectors

  /** The `screen` field: the surface's page rectangle. */
  datatype Rect = Rect(left: real, top: real, width: real, height: real)

  /** The rectangle the controller starts with, before any resize. */
  const Unset: Rect := Rect(0.0, 0.0, 0.0, 0.0)

  /** `getMouseOnCircle` divides by the width only. */
  predicate HasWidth(r: Rect) { r.width != 0.0 }

  /** `getMouseOnScreen` divides by the width and by the height. */
  predicate Usable(r: Rect) { HasWidth(r) && r.height != 0.0 }

  /**
    `getMouseOnScreen`: the position relative to the rectangle, in units of
    its width and height. It is the inverse of `ScreenToPage`.
   */
  function MouseOnScreen(r: Rect, pageX: real, pageY: real): (p: Vec2)
    requires Usable(r)
    ensures pageX == r.left + p.x * r.width
    ensures pageY == r.top + p.y * r.height
  {
    Vec2((pageX - r.left) / r.width, (pageY - r.top) / r.height)
  }

  /** The page position a normalized screen vector stands for. */
  function ScreenToPage(r: Rect, p: Vec2): Vec2 {
    Vec2(r.left + p.x * r.width, r.top + p.y * r.height)
  }

  lemma {:induction false} ScreenRoundTrip(r: Rect, p: Vec2)
    requires Usable(r)
    ensures MouseOnScreen(r, ScreenToPage(r, p).x, ScreenToPage(r, p).y) == p
  {
    var q := ScreenToPage(r, p);
    var m := MouseOnScreen(r, q.x, q.y);
    assert m.x * r.width == p.x * r.width;
    assert m.y * r.height == p.y * r.height;
  }

  /** The top-left corner maps to (0, 0) and the bottom-right one to (1, 1). */
  lemma ScreenCorners(r: Rect)
    requires Usable(r)
    ensures MouseOnScreen(r, r.left, r.top) == Vec2(0.0, 0.0)
    ensures MouseOnScreen(r, r.left + r.width, r.top + r.height) == Vec2(1.0, 1.0)
  {
    var p := MouseOnScreen(r, r.left + r.width, r.top + r.height);
    Cancel(p.x, 1.0, r.width);
    Cancel(p.y, 1.0, r.height);
  }

  /**
    `getMouseOnCircle`: the position relative to the rectangle's centre, with
    the horizontal half-width as the unit on BOTH axes (the vertical term is
    divided by `screen.width` too), and the y axis pointing up.
   */
  function MouseOnCircle(r: Rect, pageX: real, pageY: real): (p: Vec2)
    requires HasWidth(r)
    ensures pageX == r.left + r.width * 0.5 + p.x * (r.width * 0.5)
    ensures pageY == r.top + r.height * 0.5 - p.y * (r.width * 0.5)
  {
    Vec2((pageX - r.width * 0.5 - r.left) / (r.width * 0.5),
         (r.height + 2.0 * (r.top - pageY)) / r.width)
  }

  /** The centre of the rectangle maps to (0, 0); its left and right edges to x = -1 and x = 1. */
  lemma CircleLandmarks(r: Rect, pageY: real)
    requires HasWidth(r)
    ensures MouseOnCircle(r, r.left + r.width * 0.5, r.top + r.height * 0.5) == Vec2(0.0, 0.0)
    ensures MouseOnCircle(r, r.left, pageY).x == -1.0
    ensures MouseOnCircle(r, r.left + r.width, pageY).x == 1.0
  {
    var half := r.width * 0.5;
    var c := MouseOnCircle(r, r.left + half, r.top + r.height * 0.5);
    Cancel(c.x, 0.0, half);
    Cancel(c.y, 0.0, half);
    Cancel(MouseOnCircle(r, r.left, pageY).x, -1.0, half);
    Cancel(MouseOnCircle(r, r.left + r.width, pageY).x, 1.0, half);
  }

  /**
    A pointer move of (dx, dy) pixels becomes the same multiple 2 / width of
    the move on both axes (with y flipped): the projection keeps the aspect
    of the motion, which is what lets the rotation use the move's length as
    its angle.
   */
  lemma {:induction false} CircleDelta(r: Rect, x1: real, y1: real, x0: real, y0: real)
    requires HasWidth(r)
    ensures Sub2(MouseOnCircle(r, x1, y1), MouseOnCircle(r, x0, y0))
         == Vec2((x1 - x0) * (2.0 / r.width), (y0 - y1) * (2.0 / r.width))
  {
    var a := MouseOnCircle(r, x1, y1);
    var b := MouseOnCircle(r, x0, y0);
    var k := 2.0 / r.width;
    assert (a.x - b.x) * (r.width * 0.5) == x1 - x0;
    assert (r.width * 0.5) * k == 1.0;
    assert a.x - b.x == (x1 - x0) * k by {
      assert (a.x - b.x) * (r.width * 0.5) * k == (x1 - x0) * k;
    }
    assert (a.y - b.y) * (r.width * 0.5) == y0 - y1;
    assert a.y - b.y == (y0 - y1) * k by {
      assert (a.y - b.y) * (r.width * 0.5) * k == (y0 - y1) * k;
    }
  }
}
