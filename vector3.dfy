/** Three-component vectors (the `Vector3` struct), over exact reals. */
module Vec3 {

  datatype Vector3 = Vector3(x: real, y: real, z: real)

  const Zero := Vector3(0.0, 0.0, 0.0)
  const One := Vector3(1.0, 1.0, 1.0)
  const Up := Vector3(0.0, 1.0, 0.0)

  /** `new Vector3(v)`: the same value in every component. */
  function Splat(v: real): Vector3 { Vector3(v, v, v) }

  // ---------------------------------------------------------------------------
  // Mutators. The struct is a value, so each returns the receiver's new value.
  // ---------------------------------------------------------------------------

  /** `v.Set(x, y, z)` */
  function Set(v: Vector3, x: real, y: real, z: real): Vector3 { Vector3(x, y, z) }

  /** `v.Add(x, y, z)`: assigns the three components, exactly as `Set` does. */
  function Add(v: Vector3, x: real, y: real, z: real): Vector3 { Vector3(x, y, z) }

  /** What `Add` evidently means: the components are added to the receiver's. */
  function AddIntended(v: Vector3, x: real, y: real, z: real): Vector3 {
    Vector3(v.x + x, v.y + y, v.z + z)
  }

  // ---------------------------------------------------------------------------
  // Operators
  // ---------------------------------------------------------------------------

  /** `v1 + v2` */
  function Plus(v1: Vector3, v2: Vector3): Vector3 { Vector3(v1.x + v2.x, v1.y + v2.y, v1.z + v2.z) }

  /** `v1 + v` and `v + v1` for a scalar v. */
  function PlusScalar(v1: Vector3, v: real): Vector3 { Vector3(v1.x + v, v1.y + v, v1.z + v) }

  /** `v1 - v2` */
  function Minus(v1: Vector3, v2: Vector3): Vector3 { Vector3(v1.x - v2.x, v1.y - v2.y, v1.z - v2.z) }

  /** unary `-v` */
  function Neg(v: Vector3): Vector3 { Vector3(-v.x, -v.y, -v.z) }

  /** `Vector3.Abs(v)`: `Math.Abs` of each component. */
  function Abs(v: Vector3): (r: Vector3)
    ensures r.x >= 0.0 && (r.x == v.x || r.x == -v.x)
    ensures r.y >= 0.0 && (r.y == v.y || r.y == -v.y)
    ensures r.z >= 0.0 && (r.z == v.z || r.z == -v.z)
  {
    Vector3(if v.x < 0.0 then -v.x else v.x, if v.y < 0.0 then -v.y else v.y, if v.z < 0.0 then -v.z else v.z)
  }

  /** `v * d` */
  function Scale(v: Vector3, d: real): Vector3 { Vector3(v.x * d, v.y * d, v.z * d) }

  /** `d * v` */
  function ScaleLeft(d: real, v: Vector3): Vector3 { Vector3(d * v.x, d * v.y, d * v.z) }

  /** `Vector3.Cross(v1, v2)`, also the operator `v1 * v2`. */
  function Cross(v1: Vector3, v2: Vector3): Vector3 {
    Vector3(v1.y * v2.z - v1.z * v2.y, -(v1.x * v2.z - v1.z * v2.x), v1.x * v2.y - v1.y * v2.x)
  }

  /** `v / d`: multiplies by the reciprocal of d. */
  function Div(v: Vector3, d: real): Vector3
    requires d != 0.0
  {
    var id := 1.0 / d;
    Vector3(v.x * id, v.y * id, v.z * id)
  }

  /** `d / v`, componentwise. */
  function ScalarDiv(d: real, v: Vector3): Vector3
    requires v.x != 0.0 && v.y != 0.0 && v.z != 0.0
  {
    Vector3(d / v.x, d / v.y, d / v.z)
  }

  /** `v1 / v2`, componentwise. */
  function DivComponents(v1: Vector3, v2: Vector3): Vector3
    requires v2.x != 0.0 && v2.y != 0.0 && v2.z != 0.0
  {
    Vector3(v1.x / v2.x, v1.y / v2.y, v1.z / v2.z)
  }

  /** `Vector3.Dot(v1, v2)` */
  function Dot(v1: Vector3, v2: Vector3): real { v1.x * v2.x + v1.y * v2.y + v1.z * v2.z }

  /** `len` is the Euclidean length of v (the value `Length` takes from `Math.Sqrt`). */
  predicate IsLength(v: Vector3, len: real) { len >= 0.0 && len * len == Dot(v, v) }

  /** `Vector3.Normalize(v)`, given the length of v computed in advance. */
  function Normalize(v: Vector3, len: real): Vector3
    requires IsLength(v, len) && len != 0.0
  {
    var ilen := 1.0 / len;
    Vector3(v.x * ilen, v.y * ilen, v.z * ilen)
  }

  /** `v1.Equals(v2)` and the operator `==`. */
  predicate Equals(v1: Vector3, v2: Vector3) { v1.x == v2.x && v1.y == v2.y && v1.z == v2.z }

  /** the operator `!=` */
  predicate NotEquals(v1: Vector3, v2: Vector3) { !Equals(v1, v2) }

  // ---------------------------------------------------------------------------
  // Average
  // ---------------------------------------------------------------------------

  /** The sum of a list of vectors, accumulated front to back. */
  function Sum(vs: seq<Vector3>): Vector3 {
    if vs == [] then Zero else Plus(Sum(vs[..|vs| - 1]), vs[|vs| - 1])
  }

  /** `Vector3.Average(args)`: Zero for no arguments, otherwise the sum divided by the count. */
  method Average(args: seq<Vector3>) returns (r: Vector3)
    ensures |args| == 0 ==> r == Zero
    ensures |args| > 0 ==> r == Div(Sum(args), |args| as real)
  {
    if |args| < 1 {
      return Zero;
    }
    var a := args[0];
    assert args[..1] == [args[0]];
    var i := 1;
    while i < |args|
      invariant 1 <= i <= |args|
      invariant a == Sum(args[..i])
    {
      assert args[..i + 1][..i] == args[..i];
      a := Plus(a, args[i]);
      i := i + 1;
    }
    assert args[..|args|] == args;
    r := Div(a, |args| as real);
  }

  // ---------------------------------------------------------------------------
  // Properties
  // ---------------------------------------------------------------------------

  /** `Add` overwrites like `Set`; it agrees with adding only when the receiver is zero. */
  lemma AddOverwrites(v: Vector3, x: real, y: real, z: real)
    ensures Add(v, x, y, z) == Set(v, x, y, z) == Vector3(x, y, z)
    ensures Add(v, x, y, z) == Plus(v, Vector3(x, y, z)) <==> v == Zero
  {
  }

  /** The intended `Add` moves the receiver by (x, y, z): it is `v + (x, y, z)`. */
  lemma AddIntendedIsPlus(v: Vector3, x: real, y: real, z: real)
    ensures AddIntended(v, x, y, z) == Plus(v, Vector3(x, y, z))
    ensures Minus(AddIntended(v, x, y, z), v) == Vector3(x, y, z)
  {
  }

  /** A concrete receiver on which `Add` and the intended addition differ. */
  lemma AddCounterexample()
    ensures Add(One, 1.0, 1.0, 1.0) == One
    ensures AddIntended(One, 1.0, 1.0, 1.0) == Vector3(2.0, 2.0, 2.0)
  {
  }

  /** The cross product is anticommutative. */
  lemma CrossAnticommutative(a: Vector3, b: Vector3)
    ensures Cross(a, b) == Neg(Cross(b, a))
  {
  }

  /** The cross product is orthogonal to both of its arguments. */
  lemma CrossOrthogonal(a: Vector3, b: Vector3)
    ensures Dot(Cross(a, b), a) == 0.0
    ensures Dot(Cross(a, b), b) == 0.0
  {
  }

  /** `Dot` is symmetric, and a vector's dot product with itself is never negative. */
  lemma DotProperties(a: Vector3, b: Vector3)
    ensures Dot(a, b) == Dot(b, a)
    ensures Dot(a, a) >= 0.0
  {
  }

  /** `==` is componentwise equality and `!=` its negation. */
  lemma EqualityOperators(a: Vector3, b: Vector3)
    ensures Equals(a, b) <==> a == b
    ensures NotEquals(a, b) <==> a != b
  {
  }

  /** Multiplying by a scalar on either side gives the same vector. */
  lemma ScaleSides(v: Vector3, d: real)
    ensures Scale(v, d) == ScaleLeft(d, v)
  {
  }

  /** A vector of nonzero length, normalized, has length one. */
  lemma NormalizeIsUnit(v: Vector3, len: real)
    requires IsLength(v, len) && len != 0.0
    ensures Dot(Normalize(v, len), Normalize(v, len)) == 1.0
  {
    var n := Normalize(v, len);
    var ilen := 1.0 / len;
    calc {
      Dot(n, n);
      (v.x * ilen) * (v.x * ilen) + (v.y * ilen) * (v.y * ilen) + (v.z * ilen) * (v.z * ilen);
      Dot(v, v) * (ilen * ilen);
      (len * len) * (ilen * ilen);
      (len * ilen) * (len * ilen);
    }
  }

  /** The sum of n copies of v is v scaled by n. */
  lemma {:induction false} SumOfCopies(vs: seq<Vector3>, v: Vector3)
    requires forall i :: 0 <= i < |vs| ==> vs[i] == v
    ensures Sum(vs) == Scale(v, |vs| as real)
  {
    if vs != [] {
      SumOfCopies(vs[..|vs| - 1], v);
    }
  }

  /** Scaling by n and then by 1/n gives back the number. */
  lemma ScaleThenDivide(a: real, n: real)
    requires n != 0.0
    ensures (a * n) * (1.0 / n) == a
  {
    var k := 1.0 / n;
    assert n * k == 1.0;
    calc {
      (a * n) * k;
      a * (n * k);
    }
  }

  /** The average of copies of a single vector is that vector. */
  lemma AverageOfCopies(vs: seq<Vector3>, v: Vector3)
    requires |vs| > 0
    requires forall i :: 0 <= i < |vs| ==> vs[i] == v
    ensures Div(Sum(vs), |vs| as real) == v
  {
    SumOfCopies(vs, v);
    var n := |vs| as real;
    ScaleThenDivide(v.x, n);
    ScaleThenDivide(v.y, n);
    ScaleThenDivide(v.z, n);
  }

  /** `Abs` is idempotent, ignores sign, and fixes exactly the vectors with no negative
      component. */
  lemma AbsProperties(v: Vector3)
    ensures Abs(Abs(v)) == Abs(v)
    ensures Abs(Neg(v)) == Abs(v)
    ensures Abs(v) == v <==> v.x >= 0.0 && v.y >= 0.0 && v.z >= 0.0
  {
  }
}
