/**
 * Vectors, quaternions and transforms over `real` (the game uses `f32`;
 * rounding is not modelled), and the numeric primitives that the systems
 * call but that cannot be written exactly over the reals: the square root
 * inside `magnitude`/`normalize`, `to_radians`, the Euler-angle quaternion
 * constructor and the camera's forward vector. They are passed in as a
 * `Primitives` record of function values, and `Lawful()` states the only
 * facts the systems rely on.
 *
 * The solver's non-linear arithmetic is fragile on products of datatype
 * fields, so every arithmetic fact below is first proved on plain reals
 * and then applied to vector components.
 */
module Geometry {

  datatype Vec3 = Vec3(x: real, y: real, z: real)

  /** A rotation quaternion (`Quat` in the renderer, `UnitQuaternion` in the physics engine). */
  datatype Quat = Quat(x: real, y: real, z: real, w: real)

  /** The renderer's per-entity transform. */
  datatype Transform = Transform(translation: Vec3, rotation: Quat, scale: Vec3)

  const Zero: Vec3 := Vec3(0.0, 0.0, 0.0)

  function Abs(r: real): real {
    if r < 0.0 then -r else r
  }

  function Add(a: Vec3, b: Vec3): Vec3 {
    Vec3(a.x + b.x, a.y + b.y, a.z + b.z)
  }

  function Scale(v: Vec3, k: real): Vec3 {
    Vec3(v.x * k, v.y * k, v.z * k)
  }

  function Dot(a: Vec3, b: Vec3): real {
    a.x * b.x + a.y * b.y + a.z * b.z
  }

  function Cross(a: Vec3, b: Vec3): Vec3 {
    Vec3(a.y * b.z - a.z * b.y, a.z * b.x - a.x * b.z, a.x * b.y - a.y * b.x)
  }

  /** The vector with its vertical component dropped. */
  function Horizontal(v: Vec3): Vec3 {
    Vec3(v.x, 0.0, v.z)
  }

  /** The squared Euclidean length. */
  function NormSq(v: Vec3): (r: real)
    ensures r >= 0.0
  {
    SquareNonNegative(v.x);
    SquareNonNegative(v.y);
    SquareNonNegative(v.z);
    v.x * v.x + v.y * v.y + v.z * v.z
  }

  /** `f` gives the Euclidean length of `v`: non-negative and squaring to `NormSq(v)`. */
  ghost predicate MagnitudeAt(f: Vec3 -> real, v: Vec3) {
    f(v) >= 0.0 && f(v) * f(v) == NormSq(v)
  }

  /** `f` gives a unit vector for `q`. */
  ghost predicate UnitAt(f: Quat -> Vec3, q: Quat) {
    NormSq(f(q)) == 1.0
  }

  /**
   * The primitives the systems call: `magnitude`/`length` of a vector,
   * `f32::to_radians`, `UnitQuaternion::from_euler_angles(roll, pitch, yaw)`
   * and `forward_vector(rotation)` (the rotated `-z` axis, normalized).
   */
  datatype Primitives = Primitives(
    magnitude: Vec3 -> real,
    toRadians: real -> real,
    fromEulerAngles: (real, real, real) -> Quat,
    forwardVector: Quat -> Vec3)
  {
    /**
     * `magnitude` is the Euclidean length and forward vectors are unit
     * vectors. (The facts are stated point-wise so that the solver applies
     * them only where a proof asks for them.)
     */
    ghost predicate Lawful() {
      && (forall v :: MagnitudeAt(magnitude, v))
      && (forall q :: UnitAt(forwardVector, q))
    }
  }

  /** `v.normalize()`: `v` scaled by the reciprocal of its length. */
  function Normalize(p: Primitives, v: Vec3): Vec3
    requires p.Lawful() && v != Zero
  {
    MagnitudePositive(p, v);
    Scale(v, 1.0 / p.magnitude(v))
  }

  // ---------------------------------------------------------------------
  // Arithmetic on plain reals.

  lemma ProductPositive(a: real, b: real)
    requires a > 0.0 && b > 0.0
    ensures a * b > 0.0
  {
  }

  lemma SquareNonNegative(r: real)
    ensures r * r >= 0.0
  {
    if r < 0.0 {
      ProductPositive(-r, -r);
      assert r * r == (-r) * (-r);
    } else if r > 0.0 {
      ProductPositive(r, r);
    }
  }

  lemma SquarePositive(r: real)
    requires r != 0.0
    ensures r * r > 0.0
  {
    if r < 0.0 {
      ProductPositive(-r, -r);
      assert r * r == (-r) * (-r);
    } else {
      ProductPositive(r, r);
    }
  }

  lemma SumOfSquaresPositive(a: real, b: real, c: real)
    requires a != 0.0 || b != 0.0 || c != 0.0
    ensures a * a + b * b + c * c > 0.0
  {
    SquareNonNegative(a);
    SquareNonNegative(b);
    SquareNonNegative(c);
    if a != 0.0 {
      SquarePositive(a);
    } else if b != 0.0 {
      SquarePositive(b);
    } else {
      SquarePositive(c);
    }
  }

  lemma ZeroSquare(m: real)
    requires m == 0.0
    ensures m * m == 0.0
  {
  }

  /** A non-negative root of a positive number is positive. */
  lemma RootPositive(m: real, n: real)
    requires 0.0 <= m && m * m == n && n > 0.0
    ensures m > 0.0
  {
    if m == 0.0 {
      ZeroSquare(m);
    }
  }

  lemma ProductMonotone(a: real, b: real, c: real)
    requires a <= b && 0.0 <= c
    ensures a * c <= b * c
  {
    if c > 0.0 && a < b {
      ProductPositive(b - a, c);
    }
  }

  lemma LessSquare(a: real, b: real)
    requires 0.0 <= a < b
    ensures a * a < b * b
  {
    calc {
      a * a;
    <= a * b;
    <  b * b;
    }
  }

  /** Two non-negative numbers with the same square are equal. */
  lemma SquareRootUnique(a: real, b: real)
    requires 0.0 <= a && 0.0 <= b && a * a == b * b
    ensures a == b
  {
    if a < b {
      LessSquare(a, b);
    } else if b < a {
      LessSquare(b, a);
    }
  }

  /** If `a` and `m` are the roots of `k * k * n` and `n`, then `a == |k| * m`. */
  lemma ScaledRoot(a: real, m: real, k: real, n: real)
    requires 0.0 <= a && a * a == k * k * n
    requires 0.0 <= m && m * m == n
    ensures a == Abs(k) * m
  {
    var c := Abs(k);
    assert c >= 0.0;
    assert c * c == k * k;
    assert (c * m) * (c * m) == (c * c) * (m * m);
    ProductMonotone(0.0, c, m);
    SquareRootUnique(a, c * m);
  }

  // ---------------------------------------------------------------------
  // Length.

  /** The two facts `Lawful` gives about the length of one vector. */
  lemma MagnitudeOf(p: Primitives, v: Vec3)
    requires p.Lawful()
    ensures p.magnitude(v) >= 0.0
    ensures p.magnitude(v) * p.magnitude(v) == NormSq(v)
  {
    assert MagnitudeAt(p.magnitude, v);
  }

  lemma NormSqPositive(v: Vec3)
    requires v != Zero
    ensures NormSq(v) > 0.0
  {
    calc {
      NormSq(v);
      v.x * v.x + v.y * v.y + v.z * v.z;
    > { SumOfSquaresPositive(v.x, v.y, v.z); }
      0.0;
    }
  }

  /** Only the zero vector has length zero. */
  lemma MagnitudePositive(p: Primitives, v: Vec3)
    requires p.Lawful() && v != Zero
    ensures p.magnitude(v) > 0.0
  {
    MagnitudeOf(p, v);
    NormSqPositive(v);
    RootPositive(p.magnitude(v), NormSq(v));
  }

  lemma MagnitudeOfZero(p: Primitives)
    requires p.Lawful()
    ensures p.magnitude(Zero) == 0.0
  {
    MagnitudeOf(p, Zero);
    assert NormSq(Zero) == 0.0 * 0.0 + 0.0 * 0.0 + 0.0 * 0.0;
    ZeroSquare(0.0);
    SquareRootUnique(p.magnitude(Zero), 0.0);
  }

  lemma NormSqScale(v: Vec3, k: real)
    ensures NormSq(Scale(v, k)) == k * k * NormSq(v)
  {
    calc {
      NormSq(Scale(v, k));
      (v.x * k) * (v.x * k) + (v.y * k) * (v.y * k) + (v.z * k) * (v.z * k);
      k * k * (v.x * v.x + v.y * v.y + v.z * v.z);
    }
  }

  /** Length is absolutely homogeneous: scaling by `k` scales the length by `|k|`. */
  lemma MagnitudeScale(p: Primitives, v: Vec3, k: real)
    requires p.Lawful()
    ensures p.magnitude(Scale(v, k)) == Abs(k) * p.magnitude(v)
  {
    MagnitudeOf(p, Scale(v, k));
    MagnitudeOf(p, v);
    NormSqScale(v, k);
    ScaledRoot(p.magnitude(Scale(v, k)), p.magnitude(v), k, NormSq(v));
  }

  lemma DotScale(a: Vec3, b: Vec3, k: real)
    ensures Dot(Scale(a, k), b) == k * Dot(a, b)
  {
  }

  lemma DotSelf(v: Vec3)
    ensures Dot(v, v) == NormSq(v)
  {
  }

  /** `normalize` yields a unit vector pointing the same way as its argument. */
  lemma NormalizeIsUnit(p: Primitives, v: Vec3)
    requires p.Lawful() && v != Zero
    ensures p.magnitude(Normalize(p, v)) == 1.0
    ensures Dot(Normalize(p, v), v) == p.magnitude(v)
  {
    var m := p.magnitude(v);
    MagnitudePositive(p, v);
    MagnitudeOf(p, v);
    MagnitudeScale(p, v, 1.0 / m);
    assert Abs(1.0 / m) * m == 1.0;
    DotScale(v, v, 1.0 / m);
    DotSelf(v);
    calc {
      Dot(Scale(v, 1.0 / m), v);
      (1.0 / m) * NormSq(v);
      (1.0 / m) * (m * m);
      m;
    }
  }

  /** Every forward vector has length one. */
  lemma ForwardIsUnit(p: Primitives, q: Quat)
    requires p.Lawful()
    ensures p.magnitude(p.forwardVector(q)) == 1.0
  {
    var f := p.forwardVector(q);
    assert UnitAt(p.forwardVector, q);
    MagnitudeOf(p, f);
    assert 1.0 * 1.0 == 1.0;
    SquareRootUnique(p.magnitude(f), 1.0);
  }
}
