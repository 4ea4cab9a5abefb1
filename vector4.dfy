/** Four-component vectors (the `Vector4` struct), over exact reals. A plane is a Vector4
    (nx, ny, nz, d) standing for the points p with n . p + d = 0. */
module Vec4 {
  import opened Vec3
  import Vec2

  datatype Vector4 = Vector4(x: real, y: real, z: real, w: real)

  // ---------------------------------------------------------------------------
  // Constructors
  // ---------------------------------------------------------------------------

  /** `new Vector4(v)`: v in x, y and z, and w = 1. */
  function FromScalar(v: real): Vector4 { Vector4(v, v, v, 1.0) }

  /** `new Vector4(x, y, z)`: w = 1. */
  function FromXYZ(x: real, y: real, z: real): Vector4 { Vector4(x, y, z, 1.0) }

  /** `new Vector4(v, w)` */
  function FromVector3W(v: Vector3, w: real): Vector4 { Vector4(v.x, v.y, v.z, w) }

  /** `new Vector4(v)` for a Vector3 v: delegates with w = 1. */
  function FromVector3(v: Vector3): Vector4 { FromVector3W(v, 1.0) }

  /** the `XYZ` property and the explicit conversion to Vector3 */
  function XYZ(v: Vector4): Vector3 { Vector3(v.x, v.y, v.z) }

  /** the `XY` property */
  function XY(v: Vector4): Vec2.Vector2 { Vec2.Vector2(v.x, v.y) }

  // ---------------------------------------------------------------------------
  // Operators
  // ---------------------------------------------------------------------------

  /** `v1 + v2` */
  function Plus(v1: Vector4, v2: Vector4): Vector4 {
    Vector4(v1.x + v2.x, v1.y + v2.y, v1.z + v2.z, v1.w + v2.w)
  }

  /** `v1 + n` for a Vector3 n: built with the 3-argument constructor, so w = 1. */
  function PlusVector3(v1: Vector4, n: Vector3): Vector4 { FromXYZ(v1.x + n.x, v1.y + n.y, v1.z + n.z) }

  /** `v1 + p` for a scalar p */
  function PlusScalar(v1: Vector4, p: real): Vector4 { Vector4(v1.x + p, v1.y + p, v1.z + p, v1.w + p) }

  /** unary `-v` */
  function Neg(v: Vector4): Vector4 { Vector4(-v.x, -v.y, -v.z, -v.w) }

  /** `v1 - v2` */
  function Minus(v1: Vector4, v2: Vector4): Vector4 {
    Vector4(v1.x - v2.x, v1.y - v2.y, v1.z - v2.z, v1.w - v2.w)
  }

  /** `v1 * v2`: the cross product of the xyz parts, built with the 3-argument constructor. */
  function Cross(v1: Vector4, v2: Vector4): Vector4 {
    FromXYZ(v1.y * v2.z - v1.z * v2.y, -(v1.x * v2.z - v1.z * v2.x), v1.x * v2.y - v1.y * v2.x)
  }

  /** `v * s` and `s * v` */
  function Scale(v: Vector4, s: real): Vector4 { Vector4(v.x * s, v.y * s, v.z * s, v.w * s) }

  /** `v / s` */
  function Div(v: Vector4, s: real): Vector4
    requires s != 0.0
  {
    Vector4(v.x / s, v.y / s, v.z / s, v.w / s)
  }

  /** `v1 / v2`, componentwise */
  function DivComponents(v1: Vector4, v2: Vector4): Vector4
    requires v2.x != 0.0 && v2.y != 0.0 && v2.z != 0.0 && v2.w != 0.0
  {
    Vector4(v1.x / v2.x, v1.y / v2.y, v1.z / v2.z, v1.w / v2.w)
  }

  /** `Vector4.Dot(v1, v2)` */
  function Dot(v1: Vector4, v2: Vector4): real { v1.x * v2.x + v1.y * v2.y + v1.z * v2.z + v1.w * v2.w }

  /** `len` is the Euclidean length of v (the value `Length` takes from `Math.Sqrt`). */
  predicate IsLength(v: Vector4, len: real) { len >= 0.0 && len * len == Dot(v, v) }

  /** `Vector4.Normalize(v)`, given the length of v: a zero-length vector is returned as it is. */
  function Normalize(v: Vector4, len: real): (r: Vector4)
    requires IsLength(v, len)
    ensures len == 0.0 ==> r == v
    ensures len != 0.0 ==> Dot(r, r) == 1.0
  {
    if len == 0.0 then v
    else
      var il := 1.0 / len;
      assert Dot(Scale(v, il), Scale(v, il)) == (len * il) * (len * il) by {
        calc {
          Dot(Scale(v, il), Scale(v, il));
          (v.x * v.x + v.y * v.y + v.z * v.z + v.w * v.w) * (il * il);
          (len * len) * (il * il);
        }
      }
      Scale(v, il)
  }

  /** `Vector4.Similar(v1, v2, epsilon)`: every component within epsilon. */
  predicate Similar(v1: Vector4, v2: Vector4, epsilon: real) {
    Abs(v1.x - v2.x) <= epsilon && Abs(v1.y - v2.y) <= epsilon
    && Abs(v1.z - v2.z) <= epsilon && Abs(v1.w - v2.w) <= epsilon
  }

  /** `Math.Abs` */
  function Abs(r: real): real { if r < 0.0 then -r else r }

  /** the operator `==` */
  predicate Equal(v1: Vector4, v2: Vector4) { v1.x == v2.x && v1.y == v2.y && v1.z == v2.z && v1.w == v2.w }

  /** the operator `!=` */
  predicate NotEqual(v1: Vector4, v2: Vector4) { v1.x != v2.x || v1.y != v2.y || v1.z != v2.z || v1.w != v2.w }

  /** `v1.Equals(v2)` for a boxed Vector4: delegates to `==`. */
  predicate Equals(v1: Vector4, v2: Vector4) { Equal(v1, v2) }

  // ---------------------------------------------------------------------------
  // Properties
  // ---------------------------------------------------------------------------

  /** Every constructor but the (Vector3, w) one sets w = 1; that one keeps the given w, and
      converting back to a Vector3 recovers the original. */
  lemma ConstructorsSetW(v: real, x: real, y: real, z: real, u: Vector3, w: real)
    ensures FromScalar(v).w == 1.0 && XYZ(FromScalar(v)) == Splat(v)
    ensures FromXYZ(x, y, z).w == 1.0 && XYZ(FromXYZ(x, y, z)) == Vector3(x, y, z)
    ensures FromVector3(u).w == 1.0 && XYZ(FromVector3(u)) == u
    ensures FromVector3W(u, w).w == w && XYZ(FromVector3W(u, w)) == u
  {
  }

  /** `Vector4 * Vector4` is the 3D cross product of the xyz parts with w = 1, and adding a
      Vector3 drops the left operand's w in favour of 1. */
  lemma CrossAndMixedPlus(v1: Vector4, v2: Vector4, n: Vector3)
    ensures XYZ(Cross(v1, v2)) == Vec3.Cross(XYZ(v1), XYZ(v2)) && Cross(v1, v2).w == 1.0
    ensures PlusVector3(v1, n) == FromVector3(Vec3.Plus(XYZ(v1), n))
  {
  }

  /** For a non-negative epsilon, `Similar` is reflexive and symmetric, and `==` implies it. */
  lemma SimilarProperties(a: Vector4, b: Vector4, epsilon: real)
    requires epsilon >= 0.0
    ensures Similar(a, a, epsilon)
    ensures Similar(a, b, epsilon) <==> Similar(b, a, epsilon)
    ensures Equal(a, b) ==> Similar(a, b, epsilon)
  {
  }

  /** `==` and `!=` are exact complements, both mean value equality, and `Equals` agrees. */
  lemma EqualityOperators(a: Vector4, b: Vector4)
    ensures Equal(a, b) <==> a == b
    ensures NotEqual(a, b) <==> !Equal(a, b)
    ensures Equals(a, b) <==> Equal(a, b)
  {
  }
}
