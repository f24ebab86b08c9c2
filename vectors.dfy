/**
  Plain value vectors over the reals, standing for the three.js `Vector2` and
  `Vector3` objects the controller mutates, and the few numeric routines it
  borrows from the JavaScript runtime and from three.js.
 */
module Vectors {

  datatype Vec2 = Vec2(x: real, y: real)
  datatype Vec3 = Vec3(x: real, y: real, z: real)

  const Origin: Vec3 := Vec3(0.0, 0.0, 0.0)

  function Add(a: Vec3, b: Vec3): Vec3 { Vec3(a.x + b.x, a.y + b.y, a.z + b.z) }
  function Sub(a: Vec3, b: Vec3): Vec3 { Vec3(a.x - b.x, a.y - b.y, a.z - b.z) }
  function Scale(v: Vec3, k: real): Vec3 { Vec3(v.x * k, v.y * k, v.z * k) }
  function Dot(a: Vec3, b: Vec3): real { a.x * b.x + a.y * b.y + a.z * b.z }
  function Cross(a: Vec3, b: Vec3): Vec3 {
    Vec3(a.y * b.z - a.z * b.y, a.z * b.x - a.x * b.z, a.x * b.y - a.y * b.x)
  }
  /** `lengthSq()` */
  function SqLen(v: Vec3): real { Dot(v, v) }
  /** `distanceToSquared()` */
  function DistSq(a: Vec3, b: Vec3): real { SqLen(Sub(a, b)) }

  function Add2(a: Vec2, b: Vec2): Vec2 { Vec2(a.x + b.x, a.y + b.y) }
  function Sub2(a: Vec2, b: Vec2): Vec2 { Vec2(a.x - b.x, a.y - b.y) }
  function Scale2(v: Vec2, k: real): Vec2 { Vec2(v.x * k, v.y * k) }
  function SqLen2(v: Vec2): real { v.x * v.x + v.y * v.y }

  /**
    The routines the controller takes from outside its own code: `Math.sqrt`,
    the normalize/cross chain that turns a mouse delta into a rotation axis
    (`rotateCamera`), and the quaternion rotation `applyQuaternion` of a
    vector about an axis by an angle.
   */
  datatype Library = Library(
    sqrt: real -> real,
    rotationAxis: (Vec2, Vec3, Vec3) -> Vec3,
    applyAxisAngle: (Vec3, Vec3, real) -> Vec3)

  /** `sqrt(x)`, named so that the property below is used only where a proof asks for it. */
  function Root(sqrt: real -> real, x: real): real { sqrt(x) }

  /**
    `sqrt` is the non-negative square root on the non-negative reals. The
    quantified part is stated on `Root`, so it applies only to the roots a
    proof names through `RootOf`.
   */
  ghost predicate IsSqrt(sqrt: real -> real) {
    && sqrt(0.0) == 0.0
    && forall x: real :: 0.0 <= x ==> 0.0 <= Root(sqrt, x) && Root(sqrt, x) * Root(sqrt, x) == x
  }

  /** `length()` */
  function Length(v: Vec3, sqrt: real -> real): real { sqrt(SqLen(v)) }

  /** Cancelling a non-zero factor. */
  lemma Cancel(a: real, b: real, w: real)
    requires w != 0.0 && a * w == b * w
    ensures a == b
  {
    assert a == (a * w) / w;
    assert b == (b * w) / w;
  }

  lemma SqLenNonNegative(v: Vec3)
    ensures 0.0 <= SqLen(v)
  {
  }

  lemma SqLen2NonNegative(v: Vec2)
    ensures 0.0 <= SqLen2(v)
  {
  }

  lemma {:induction false} SqLenScale(v: Vec3, k: real)
    ensures SqLen(Scale(v, k)) == k * k * SqLen(v)
  {
    assert (v.x * k) * (v.x * k) == k * k * (v.x * v.x);
    assert (v.y * k) * (v.y * k) == k * k * (v.y * v.y);
    assert (v.z * k) * (v.z * k) == k * k * (v.z * v.z);
  }

  lemma DotScale(v: Vec3, k: real)
    ensures Dot(Scale(v, k), v) == k * SqLen(v)
  {
    assert (v.x * k) * v.x == k * (v.x * v.x);
    assert (v.y * k) * v.y == k * (v.y * v.y);
    assert (v.z * k) * v.z == k * (v.z * v.z);
  }

  /** The square root of `q` is zero exactly when `q` is. */
  lemma RootOf(q: real, sqrt: real -> real)
    requires IsSqrt(sqrt) && 0.0 <= q
    ensures 0.0 <= sqrt(q) && sqrt(q) * sqrt(q) == q
    ensures sqrt(q) == 0.0 <==> q == 0.0
  {
    var s := sqrt(q);
    assert Root(sqrt, q) == s;
    assert 0.0 <= s && s * s == q;
  }

  lemma LengthOf(v: Vec3, sqrt: real -> real)
    requires IsSqrt(sqrt)
    ensures 0.0 <= Length(v, sqrt) && Length(v, sqrt) * Length(v, sqrt) == SqLen(v)
    ensures Length(v, sqrt) == 0.0 <==> SqLen(v) == 0.0
  {
    SqLenNonNegative(v);
    RootOf(SqLen(v), sqrt);
  }

  // ---- small facts of real arithmetic, used with explicit instances ----

  lemma SquareMonotone(a: real, b: real)
    requires 0.0 <= a <= b
    ensures a * a <= b * b
  {
    assert a * a <= a * b;
    assert a * b <= b * b;
  }

  lemma SquareStrict(a: real, b: real)
    requires 0.0 <= a < b
    ensures a * a < b * b
  {
    var d := b - a;
    assert b * b == a * a + 2.0 * a * d + d * d;
    assert 0.0 <= a * d;
    assert 0.0 < d * d;
  }

  lemma PositiveSquare(a: real)
    requires a != 0.0
    ensures 0.0 < a * a
  {
    if a < 0.0 {
      var b := -a;
      assert 0.0 < b * b;
      assert a * a == b * b;
    }
  }

  lemma NonZeroProduct(a: real, b: real)
    requires a != 0.0 && b != 0.0
    ensures a * b != 0.0
  {
    assert (a * b) / b == a;
  }

  /** Multiplying by a factor in [0, 1] moves a number towards zero without crossing it. */
  lemma Shrinks(t: real, s: real)
    requires 0.0 <= s <= 1.0
    ensures 0.0 <= t ==> 0.0 <= t * s <= t
    ensures t <= 0.0 ==> t <= t * s <= 0.0
  {
    if 0.0 <= t {
      assert 0.0 <= t * s <= t * 1.0;
    } else {
      assert t * 1.0 <= t * s <= 0.0;
    }
  }

  /** The non-negative root of `1 - d`, for `d` in [0, 1], is at most 1. */
  lemma UnitRoot(s: real, d: real)
    requires 0.0 <= s && s * s == 1.0 - d && 0.0 <= d
    ensures s <= 1.0
  {
    if 1.0 < s {
      SquareStrict(1.0, s);
    }
  }

  /** Scaling a non-negative quantity by the square of a factor in [0, 1] does not increase it. */
  lemma ShrinkBy(k: real, q: real)
    requires 0.0 <= k <= 1.0 && 0.0 <= q
    ensures k * k * q <= q
  {
    SquareMonotone(k, 1.0);
    assert k * k * q <= 1.0 * q;
  }

  /** Scaling a non-negative quantity by the square of a factor of at least 1 does not decrease it. */
  lemma GrowBy(k: real, q: real)
    requires 1.0 <= k && 0.0 <= q
    ensures q <= k * k * q
  {
    SquareMonotone(1.0, k);
    assert 1.0 * q <= k * k * q;
  }

  /** Scaling a vector by a factor in [0, 1] does not lengthen it. */
  lemma ScaleShrinks(v: Vec3, k: real)
    requires 0.0 <= k <= 1.0
    ensures SqLen(Scale(v, k)) <= SqLen(v)
  {
    SqLenScale(v, k);
    SqLenNonNegative(v);
    ShrinkBy(k, SqLen(v));
  }

  /** Scaling a vector by a factor of at least 1 does not shorten it. */
  lemma ScaleGrows(v: Vec3, k: real)
    requires 1.0 <= k
    ensures SqLen(v) <= SqLen(Scale(v, k))
  {
    SqLenScale(v, k);
    SqLenNonNegative(v);
    GrowBy(k, SqLen(v));
  }

  /** Substituting `y = g * p` in `x = y * e`, with `q = p * e`. */
  lemma Compose(x: real, y: real, g: real, p: real, e: real, q: real)
    requires x == y * e && y == g * p && q == p * e
    ensures x == g * q
  {
  }

  /** The arithmetic behind `SetLength`: scaling `v` by `l / |v|`. */
  lemma ScaledToLength(v: Vec3, n: real, l: real)
    requires n != 0.0 && n * n == SqLen(v)
    ensures SqLen(Scale(v, l / n)) == l * l
    ensures Dot(Scale(v, l / n), v) == l * n
  {
    var k := l / n;
    SqLenScale(v, k);
    DotScale(v, k);
    assert k * k * (n * n) == l * l;
    assert k * (n * n) == l * n;
  }

  /**
    three.js `setLength(l)`, which is `normalize().multiplyScalar(l)`, and
    `normalize()` divides by `length() || 1`: a vector of length zero is only
    multiplied by `l` and so keeps length zero; any other result points along
    `v` (against it when `l` is negative) and has squared length `l * l`.
   */
  function SetLength(v: Vec3, l: real, sqrt: real -> real): Vec3 {
    var n := Length(v, sqrt);
    if n == 0.0 then Scale(v, l) else Scale(v, l / n)
  }

  /** What `setLength` promises, kept apart so that only proofs about lengths see it. */
  lemma SetLengthOf(v: Vec3, l: real, sqrt: real -> real)
    requires IsSqrt(sqrt)
    ensures SqLen(v) == 0.0 ==> SqLen(SetLength(v, l, sqrt)) == 0.0
    ensures SqLen(v) != 0.0 ==> SqLen(SetLength(v, l, sqrt)) == l * l
    ensures SqLen(v) != 0.0 ==> Dot(SetLength(v, l, sqrt), v) == l * Length(v, sqrt)
  {
    var n := Length(v, sqrt);
    LengthOf(v, sqrt);
    if n == 0.0 {
      SqLenScale(v, l);
    } else {
      ScaledToLength(v, n, l);
    }
  }
}
