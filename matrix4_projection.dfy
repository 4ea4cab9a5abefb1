/** The projection and camera matrices of `Matrix4`, compared with the frustum and orthographic
    matrices of the OpenGL 2.1 specification (section 2.11.2, `Frustum` and `Ortho`), which are
    written for column vectors: the translation sits in column d. */
module Mat4Projection {
  import opened Vec3
  import opened Mat4

  /** The perspective matrix of the OpenGL 2.1 specification for the frustum with the given
      left, right, bottom, top, near and far planes. */
  function GLFrustum(left: real, right: real, bottom: real, top: real, near: real, far: real): M4
    requires right - left != 0.0 && top - bottom != 0.0 && far - near != 0.0
  {
    var (x, y, z) := (right - left, top - bottom, far - near);
    M4(2.0 * near / x, 0.0, (right + left) / x, 0.0,
       0.0, 2.0 * near / y, (top + bottom) / y, 0.0,
       0.0, 0.0, -(far + near) / z, -(2.0 * far * near) / z,
       0.0, 0.0, -1.0, 0.0)
  }

  /** The orthographic matrix of the OpenGL 2.1 specification. */
  function GLOrtho(left: real, right: real, bottom: real, top: real, near: real, far: real): M4
    requires right - left != 0.0 && top - bottom != 0.0 && far - near != 0.0
  {
    var (x, y, z) := (right - left, top - bottom, far - near);
    M4(2.0 / x, 0.0, 0.0, -(right + left) / x,
       0.0, 2.0 / y, 0.0, -(top + bottom) / y,
       0.0, 0.0, -2.0 / z, -(far + near) / z,
       0.0, 0.0, 0.0, 1.0)
  }

  /** A quotient by a nonzero number is zero exactly when the dividend is. */
  lemma ZeroQuotient(a: real, x: real)
    requires x != 0.0
    ensures a / x == 0.0 <==> a == 0.0
  {
    if a / x == 0.0 {
      assert a == (a / x) * x;
    }
  }

  // ---------------------------------------------------------------------------
  // Frustum and Perspective
  // ---------------------------------------------------------------------------

  /** `Frustum` writes all sixteen entries: row 4 is (0, 0, -1, 0), and rows 1 and 2 hold only
      their diagonal entries. */
  lemma FrustumShape(left: real, right: real, top: real, bottom: real, near: real, far: real)
    requires right - left != 0.0 && top - bottom != 0.0 && far - near != 0.0
    ensures var m := FrustumMatrix(left, right, top, bottom, near, far);
      m.a4 == 0.0 && m.b4 == 0.0 && m.c4 == -1.0 && m.d4 == 0.0 &&
      m.b1 == 0.0 && m.c1 == 0.0 && m.d1 == 0.0 &&
      m.a2 == 0.0 && m.c2 == 0.0 && m.d2 == 0.0 &&
      m.a1 * (right - left) == 2.0 * near && m.b2 * (top - bottom) == 2.0 * near
  {
  }

  /** `Frustum` puts the off-centre terms (l + r)/x and (t + b)/y in row 3, where the standard
      has them in column c; everything else is where the standard puts it. So the two agree
      exactly on frusta that are symmetric about the view axis. */
  lemma FrustumIsGLFrustumIff(left: real, right: real, top: real, bottom: real, near: real, far: real)
    requires right - left != 0.0 && top - bottom != 0.0 && far - near != 0.0
    ensures FrustumMatrix(left, right, top, bottom, near, far) == GLFrustum(left, right, bottom, top, near, far)
        <==> left + right == 0.0 && top + bottom == 0.0
  {
    ZeroQuotient(left + right, right - left);
    ZeroQuotient(top + bottom, top - bottom);
    var m := FrustumMatrix(left, right, top, bottom, near, far);
    var g := GLFrustum(left, right, bottom, top, near, far);
    assert m.a1 == g.a1 && m.b2 == g.b2 && m.c3 == g.c3 && m.d3 == g.d3;
    if m == g {
      assert m.a3 == g.a3 && m.b3 == g.b3;
    }
  }

  /** `Perspective` as written passes (-h, h) as (top, bottom), so its frustum is upside down:
      it is the standard symmetric frustum with entry b2 negated, and that entry is never the
      standard one. */
  lemma PerspectiveFlipsVertical(tanHalf: real, widthRate: real, near: real, far: real)
    requires near * tanHalf != 0.0 && near * tanHalf * widthRate != 0.0 && far - near != 0.0
    ensures var (h, w) := (near * tanHalf, near * tanHalf * widthRate);
      var g := GLFrustum(-w, w, -h, h, near, far);
      PerspectiveMatrix(tanHalf, widthRate, near, far) == g.(b2 := -g.b2) &&
      PerspectiveMatrix(tanHalf, widthRate, near, far).b2 != g.b2
  {
    var (h, w) := (near * tanHalf, near * tanHalf * widthRate);
    var g := GLFrustum(-w, w, -h, h, near, far);
    assert g.b2 == 2.0 * near / (h - -h);
    assert near != 0.0;
    ZeroQuotient(2.0 * near, h - -h);
  }

  /** `Perspective` with the half-heights passed in the order `Frustum` expects them. */
  function PerspectiveIntended(tanHalf: real, widthRate: real, near: real, far: real): M4
    requires near * tanHalf != 0.0 && near * tanHalf * widthRate != 0.0 && far - near != 0.0
  {
    var topRate := near * tanHalf;
    var w := topRate * widthRate;
    FrustumMatrix(-w, w, topRate, -topRate, near, far)
  }

  /** The intended `Perspective` is the standard symmetric frustum, h = near * tanHalf high and
      w = h * widthRate wide. */
  lemma PerspectiveIntendedIsGLFrustum(tanHalf: real, widthRate: real, near: real, far: real)
    requires near * tanHalf != 0.0 && near * tanHalf * widthRate != 0.0 && far - near != 0.0
    ensures var (h, w) := (near * tanHalf, near * tanHalf * widthRate);
      PerspectiveIntended(tanHalf, widthRate, near, far) == GLFrustum(-w, w, -h, h, near, far)
  {
    var (h, w) := (near * tanHalf, near * tanHalf * widthRate);
    FrustumIsGLFrustumIff(-w, w, h, -h, near, far);
  }

  // ---------------------------------------------------------------------------
  // Ortho
  // ---------------------------------------------------------------------------

  /** `Ortho` is the standard orthographic matrix transposed: the translation is in row 4 and
      column d is (0, 0, 0, 1). */
  lemma OrthoIsTransposedGLOrtho(left: real, right: real, bottom: real, top: real, near: real, far: real)
    requires right - left != 0.0 && top - bottom != 0.0 && far - near != 0.0
    ensures OrthoMatrix(left, right, bottom, top, near, far) == Transposed(GLOrtho(left, right, bottom, top, near, far))
    ensures var m := OrthoMatrix(left, right, bottom, top, near, far);
      m.d1 == 0.0 && m.d2 == 0.0 && m.d3 == 0.0 && m.d4 == 1.0
  {
  }

  // ---------------------------------------------------------------------------
  // LookAt
  // ---------------------------------------------------------------------------

  /** The length of a cross product: |a x b|^2 = |a|^2 |b|^2 - (a . b)^2. */
  lemma CrossLength(a: Vector3, b: Vector3)
    ensures Dot(Cross(a, b), Cross(a, b)) == Dot(a, a) * Dot(b, b) - Dot(a, b) * Dot(a, b)
  {
  }

  /** Normalizing a vector keeps it perpendicular to whatever it was perpendicular to. */
  lemma NormalizeKeepsOrthogonal(c: Vector3, len: real, z: Vector3)
    requires IsLength(c, len) && len != 0.0 && Dot(c, z) == 0.0
    ensures Dot(Normalize(c, len), z) == 0.0
  {
    var k := 1.0 / len;
    assert Dot(Normalize(c, len), z) == Dot(c, z) * k;
  }

  /** Two perpendicular unit vectors and their cross product form an orthonormal frame. */
  lemma UnitFrame(z: Vector3, x: Vector3)
    requires Dot(z, z) == 1.0 && Dot(x, x) == 1.0 && Dot(x, z) == 0.0
    ensures Dot(Cross(z, x), Cross(z, x)) == 1.0
    ensures Dot(Cross(z, x), z) == 0.0 && Dot(Cross(z, x), x) == 0.0
  {
    CrossLength(z, x);
    CrossOrthogonal(z, x);
    DotProperties(x, z);
  }

  /** `LookAt` adds no translation: column d is zero above d4 = 1 and row 4 is (0, 0, 0, 1). */
  lemma LookAtShape(from: Vector3, to: Vector3, up: Vector3, zlen: real, xlen: real)
    requires IsLength(Minus(from, to), zlen) && zlen != 0.0
    requires IsLength(Cross(up, LookAtZ(from, to, zlen)), xlen) && xlen != 0.0
    ensures var m := LookAtMatrix(from, to, up, zlen, xlen);
      m.d1 == 0.0 && m.d2 == 0.0 && m.d3 == 0.0 &&
      m.a4 == 0.0 && m.b4 == 0.0 && m.c4 == 0.0 && m.d4 == 1.0
  {
  }

  /** The columns a, b, c of `LookAt` are the right, up and forward axes, each of length one and
      each perpendicular to the other two, with up = forward x right. */
  lemma LookAtIsRotation(from: Vector3, to: Vector3, up: Vector3, zlen: real, xlen: real)
    requires IsLength(Minus(from, to), zlen) && zlen != 0.0
    requires IsLength(Cross(up, LookAtZ(from, to, zlen)), xlen) && xlen != 0.0
    ensures var m := LookAtMatrix(from, to, up, zlen, xlen);
      var (right, upward, forward) := (Vector3(m.a1, m.a2, m.a3), Vector3(m.b1, m.b2, m.b3), Vector3(m.c1, m.c2, m.c3));
      Dot(right, right) == 1.0 && Dot(upward, upward) == 1.0 && Dot(forward, forward) == 1.0 &&
      Dot(right, forward) == 0.0 && Dot(upward, forward) == 0.0 && Dot(upward, right) == 0.0 &&
      upward == Cross(forward, right)
  {
    var z := LookAtZ(from, to, zlen);
    var c := Cross(up, z);
    NormalizeIsUnit(Minus(from, to), zlen);
    NormalizeIsUnit(c, xlen);
    CrossOrthogonal(up, z);
    NormalizeKeepsOrthogonal(c, xlen, z);
    UnitFrame(z, LookAtX(from, to, up, zlen, xlen));
  }
}
