/** Two-component vectors (the `Vector2` struct), over exact reals. */
module Vec2 {

  datatype Vector2 = Vector2(x: real, y: real)

  const Zero := Vector2(0.0, 0.0)

  /** `v1 + v2` */
  function Plus(v1: Vector2, v2: Vector2): Vector2 { Vector2(v1.x + v2.x, v1.y + v2.y) }

  /** `v1 - v2` */
  function Minus(v1: Vector2, v2: Vector2): Vector2 { Vector2(v1.x - v2.x, v1.y - v2.y) }

  /** unary `-v` */
  function Neg(v: Vector2): Vector2 { Vector2(-v.x, -v.y) }

  /** `Vector2.Abs(v)`: `Math.Abs` of each component. */
  function Abs(v: Vector2): (r: Vector2)
    ensures r.x >= 0.0 && (r.x == v.x || r.x == -v.x)
    ensures r.y >= 0.0 && (r.y == v.y || r.y == -v.y)
  {
    Vector2(if v.x < 0.0 then -v.x else v.x, if v.y < 0.0 then -v.y else v.y)
  }

  /** `v * s` for a float or a double s (the double overload's rounding is not modelled). */
  function Scale(v: Vector2, s: real): Vector2 { Vector2(v.x * s, v.y * s) }

  /** `v * s` for a vector s: componentwise product. */
  function MulComponents(v: Vector2, s: Vector2): Vector2 { Vector2(v.x * s.x, v.y * s.y) }

  /** `v / s` */
  function Div(v: Vector2, s: real): Vector2
    requires s != 0.0
  {
    Vector2(v.x / s, v.y / s)
  }

  /** `Vector2.Dot(v1, v2)` */
  function Dot(v1: Vector2, v2: Vector2): real { v1.x * v2.x + v1.y * v2.y }

  /** `v1 < v2`: strictly smaller in both components. */
  predicate Less(v1: Vector2, v2: Vector2) { v1.x < v2.x && v1.y < v2.y }

  /** `v1 > v2`: strictly greater in both components. */
  predicate Greater(v1: Vector2, v2: Vector2) { v1.x > v2.x && v1.y > v2.y }

  /** `v1 <= v2` */
  predicate LessEq(v1: Vector2, v2: Vector2) { v1.x <= v2.x && v1.y <= v2.y }

  /** `v1 >= v2` */
  predicate GreaterEq(v1: Vector2, v2: Vector2) { v1.x >= v2.x && v1.y >= v2.y }

  /** the operator `==` */
  predicate Equal(v1: Vector2, v2: Vector2) { v1.x == v2.x && v1.y == v2.y }

  /** the operator `!=` */
  predicate NotEqual(v1: Vector2, v2: Vector2) { v1.x != v2.x || v1.y != v2.y }

  /** `v1.Equals(v2)` for a boxed Vector2. */
  predicate Equals(v1: Vector2, v2: Vector2) { v1.x == v2.x && v1.y == v2.y }

  /** `v.Transpose()`: the receiver's new value, which is also what the call returns. */
  function Transpose(v: Vector2): Vector2 { Vector2(v.y, v.x) }

  /** `len` is the Euclidean length of v (the value `Length` takes from `Math.Sqrt`). */
  predicate IsLength(v: Vector2, len: real) { len >= 0.0 && len * len == Dot(v, v) }

  /** The static `Vector2.Normalize(v)`, given the length of v; it has no zero check. */
  function NormalizeOf(v: Vector2, len: real): Vector2
    requires IsLength(v, len) && len != 0.0
  {
    Vector2(v.x / len, v.y / len)
  }

  /** The instance `v.Normalize()`, given the length of v: the pair of the receiver's new
      value and the returned vector. A zero-length receiver is left as it is and Zero is
      returned; otherwise the receiver is divided by its length and returned. */
  function Normalize(v: Vector2, len: real): (r: (Vector2, Vector2))
    requires IsLength(v, len)
    ensures len == 0.0 ==> r.0 == v && r.1 == Zero
    ensures len != 0.0 ==> r.0 == r.1 && Dot(r.1, r.1) == 1.0
  {
    if len == 0.0 then (v, Zero)
    else
      var n := Vector2(v.x / len, v.y / len);
      UnitAfterDivision(v, len);
      (n, n)
  }

  lemma UnitAfterDivision(v: Vector2, len: real)
    requires IsLength(v, len) && len != 0.0
    ensures Dot(Vector2(v.x / len, v.y / len), Vector2(v.x / len, v.y / len)) == 1.0
  {
    var il := 1.0 / len;
    assert v.x / len == v.x * il && v.y / len == v.y * il;
    calc {
      (v.x * il) * (v.x * il) + (v.y * il) * (v.y * il);
      (v.x * v.x + v.y * v.y) * (il * il);
      (len * len) * (il * il);
      (len * il) * (len * il);
    }
  }

  /** The instance and the static `Normalize` agree on every vector of nonzero length. */
  lemma NormalizeAgrees(v: Vector2, len: real)
    requires IsLength(v, len) && len != 0.0
    ensures Normalize(v, len).1 == NormalizeOf(v, len)
    ensures Dot(NormalizeOf(v, len), NormalizeOf(v, len)) == 1.0
  {
  }

  /** `Transpose` swaps the components and undoes itself. */
  lemma TransposeInvolution(v: Vector2)
    ensures Transpose(v).x == v.y && Transpose(v).y == v.x
    ensures Transpose(Transpose(v)) == v
  {
  }

  /** `<` and `>` are strict, imply `<=` and `>=`, mirror each other, and are not complements. */
  lemma ComparisonProperties(a: Vector2, b: Vector2)
    ensures Less(a, b) ==> LessEq(a, b) && !Greater(a, b)
    ensures Greater(a, b) ==> GreaterEq(a, b) && !Less(a, b)
    ensures Less(a, b) <==> Greater(b, a)
    ensures LessEq(a, b) && GreaterEq(a, b) <==> a == b
    ensures !Less(a, a) && !Greater(a, a)
  {
  }

  /** Two vectors neither of which is `<` or `>` the other. */
  lemma ComparisonsNotComplements()
    ensures !Less(Vector2(0.0, 1.0), Vector2(1.0, 0.0))
    ensures !Greater(Vector2(0.0, 1.0), Vector2(1.0, 0.0))
  {
  }

  /** `==` is componentwise equality, `!=` its complement, and `Equals` agrees with `==`;
      `Dot` and the componentwise product are symmetric. */
  lemma EqualityAndSymmetry(a: Vector2, b: Vector2)
    ensures Equal(a, b) <==> a == b
    ensures NotEqual(a, b) <==> !Equal(a, b)
    ensures Equals(a, b) <==> Equal(a, b)
    ensures Dot(a, b) == Dot(b, a)
    ensures MulComponents(a, b) == MulComponents(b, a)
  {
  }

  /** `Abs` is idempotent, ignores sign, and fixes exactly the vectors with no negative
      component. */
  lemma AbsProperties(v: Vector2)
    ensures Abs(Abs(v)) == Abs(v)
    ensures Abs(Neg(v)) == Abs(v)
    ensures Abs(v) == v <==> v.x >= 0.0 && v.y >= 0.0
  {
  }
}
