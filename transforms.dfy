/** The products of vectors with matrices, as the vector types define them. Two conventions
    meet here: `v * m` treats v as a row vector (the translation of a `Matrix4` is then read
    from row 4, that of a `Matrix3` from row 3), and `m * v` treats v as a column vector (the
    translation of a `Matrix4` is read from column d). */
module Transforms {
  import opened Vec2
  import opened Vec3
  import opened Vec4
  import Mat4
  import Mat4Algebra
  import Mat3
  import Mat4Transforms
  import Mat3Properties

  // ---------------------------------------------------------------------------
  // Vector3 and Matrix4
  // ---------------------------------------------------------------------------

  /** `v * m` for a Vector3: the point (x, y, z, 1) as a row, times m, without the w part. */
  function Vector3TimesMatrix(v: Vector3, m: Mat4.M4): Vector3 {
    Vector3(v.x * m.a1 + v.y * m.a2 + v.z * m.a3 + m.a4,
            v.x * m.b1 + v.y * m.b2 + v.z * m.b3 + m.b4,
            v.x * m.c1 + v.y * m.c2 + v.z * m.c3 + m.c4)
  }

  /** `m * v` for a Vector3: m times the point (x, y, z, 1) as a column, without the w part. */
  function MatrixTimesVector3(m: Mat4.M4, v: Vector3): Vector3 {
    Vector3(m.a1 * v.x + m.b1 * v.y + m.c1 * v.z + m.d1,
            m.a2 * v.x + m.b2 * v.y + m.c2 * v.z + m.d2,
            m.a3 * v.x + m.b3 * v.y + m.c3 * v.z + m.d3)
  }

  /** The two conventions are transposes of each other, and the identity fixes every point
      under both. */
  lemma Vector3Conventions(v: Vector3, m: Mat4.M4)
    ensures Vector3TimesMatrix(v, m) == MatrixTimesVector3(Mat4.Transposed(m), v)
    ensures MatrixTimesVector3(m, v) == Vector3TimesMatrix(v, Mat4.Transposed(m))
    ensures Vector3TimesMatrix(v, Mat4.Identity) == v
    ensures MatrixTimesVector3(Mat4.Identity, v) == v
  {
    RowIsTransposedColumn(v, m);
    ColumnIsTransposedRow(v, m);
  }

  /** `v * m` is `Transpose(m) * v`. */
  lemma RowIsTransposedColumn(v: Vector3, m: Mat4.M4)
    ensures Vector3TimesMatrix(v, m) == MatrixTimesVector3(Mat4.Transposed(m), v)
  {
    TransposedX(v, m);
    TransposedY(v, m);
    TransposedZ(v, m);
  }

  /** `m * v` is `v * Transpose(m)`. */
  lemma ColumnIsTransposedRow(v: Vector3, m: Mat4.M4)
    ensures MatrixTimesVector3(m, v) == Vector3TimesMatrix(v, Mat4.Transposed(m))
  {
    Mat4Algebra.TransposeInvolution(m);
    TransposedX(v, Mat4.Transposed(m));
    TransposedY(v, Mat4.Transposed(m));
    TransposedZ(v, Mat4.Transposed(m));
  }

  /** The x component of `v * m` is that of `Transpose(m) * v`. */
  lemma TransposedX(v: Vector3, m: Mat4.M4)
    ensures Vector3TimesMatrix(v, m).x == MatrixTimesVector3(Mat4.Transposed(m), v).x
  {
  }

  /** The y component of `v * m` is that of `Transpose(m) * v`. */
  lemma TransposedY(v: Vector3, m: Mat4.M4)
    ensures Vector3TimesMatrix(v, m).y == MatrixTimesVector3(Mat4.Transposed(m), v).y
  {
  }

  /** The z component of `v * m` is that of `Transpose(m) * v`. */
  lemma TransposedZ(v: Vector3, m: Mat4.M4)
    ensures Vector3TimesMatrix(v, m).z == MatrixTimesVector3(Mat4.Transposed(m), v).z
  {
  }

  /** `v * m` for a Vector3 is the Vector4 row product on the point (x, y, z, 1), cut to xyz. */
  lemma Vector3TimesMatrixIsPoint(v: Vector3, m: Mat4.M4)
    ensures Vector3TimesMatrix(v, m) == XYZ(Vector4TimesMatrix(FromVector3(v), m))
  {
    UnitWeight(v.x * m.a1 + v.y * m.a2 + v.z * m.a3, m.a4);
    UnitWeight(v.x * m.b1 + v.y * m.b2 + v.z * m.b3, m.b4);
    UnitWeight(v.x * m.c1 + v.y * m.c2 + v.z * m.c3, m.c4);
  }

  /** `m * v` for a Vector3 is the Vector4 column product on the point (x, y, z, 1), cut to xyz. */
  lemma MatrixTimesVector3IsPoint(v: Vector3, m: Mat4.M4)
    ensures MatrixTimesVector3(m, v) == XYZ(MatrixTimesVector4(m, FromVector3(v)))
  {
    ColumnPoint(m.a1, m.b1, m.c1, m.d1, v);
    ColumnPoint(m.a2, m.b2, m.c2, m.d2, v);
    ColumnPoint(m.a3, m.b3, m.c3, m.d3, v);
  }

  /** A term weighted by the w = 1 of a point is the term itself. */
  lemma UnitWeight(s: real, t: real)
    ensures s + 1.0 * t == s + t
  {
  }

  /** A row against the point v, written in the two orders the two products use. */
  lemma ColumnPoint(a: real, b: real, c: real, d: real, v: Vector3)
    ensures a * v.x + b * v.y + c * v.z + d == v.x * a + v.y * b + v.z * c + 1.0 * d
  {
  }

  /** `Translate` on a matrix acts, in the column convention, as moving the point first:
      (m after Translate(x, y, z)) * v == m * (v + (x, y, z)). On the identity it is plain
      translation of the point. */
  lemma TranslateMovesPoint(m: Mat4.M4, v: Vector3, x: real, y: real, z: real)
    ensures MatrixTimesVector3(Mat4.Translated(m, x, y, z), v)
         == MatrixTimesVector3(m, Vec3.Plus(v, Vector3(x, y, z)))
    ensures MatrixTimesVector3(Mat4Transforms.TranslationMatrix(x, y, z), v)
         == Vec3.Plus(v, Vector3(x, y, z))
  {
    TranslatedRowsMove(m, Mat4.Translated(m, x, y, z), v, x, y, z);
    TranslationMatrixMoves(v, x, y, z);
  }

  /** `TranslateMovesPoint` for any t that agrees with m except for the offsets the
      translation adds to d1, d2 and d3. */
  lemma TranslatedRowsMove(m: Mat4.M4, t: Mat4.M4, v: Vector3, x: real, y: real, z: real)
    requires t.a1 == m.a1 && t.b1 == m.b1 && t.c1 == m.c1 && t.d1 == m.d1 + (m.a1 * x + m.b1 * y + m.c1 * z)
    requires t.a2 == m.a2 && t.b2 == m.b2 && t.c2 == m.c2 && t.d2 == m.d2 + (m.a2 * x + m.b2 * y + m.c2 * z)
    requires t.a3 == m.a3 && t.b3 == m.b3 && t.c3 == m.c3 && t.d3 == m.d3 + (m.a3 * x + m.b3 * y + m.c3 * z)
    ensures MatrixTimesVector3(t, v) == MatrixTimesVector3(m, Vec3.Plus(v, Vector3(x, y, z)))
  {
    MovedRow(m.a1, m.b1, m.c1, m.d1, t.d1, v, x, y, z);
    MovedRow(m.a2, m.b2, m.c2, m.d2, t.d2, v, x, y, z);
    MovedRow(m.a3, m.b3, m.c3, m.d3, t.d3, v, x, y, z);
  }

  /** The translation matrix moves every point by (x, y, z). */
  lemma TranslationMatrixMoves(v: Vector3, x: real, y: real, z: real)
    ensures MatrixTimesVector3(Mat4Transforms.TranslationMatrix(x, y, z), v)
         == Vec3.Plus(v, Vector3(x, y, z))
  {
  }

  /** One row of m against a point moved by (x, y, z), regrouped so that the offset is added
      to the row's last entry. */
  lemma MovedRow(a: real, b: real, c: real, d: real, e: real, v: Vector3, x: real, y: real, z: real)
    requires e == d + (a * x + b * y + c * z)
    ensures a * v.x + b * v.y + c * v.z + e
         == a * (v.x + x) + b * (v.y + y) + c * (v.z + z) + d
  {
    calc {
      a * (v.x + x) + b * (v.y + y) + c * (v.z + z) + d;
      (a * v.x + a * x) + (b * v.y + b * y) + (c * v.z + c * z) + d;
    }
  }

  /** `Scale` on a matrix acts, in the column convention, as scaling the point first. */
  lemma ScaleScalesPoint(m: Mat4.M4, v: Vector3, x: real, y: real, z: real)
    ensures MatrixTimesVector3(Mat4.Scaled(m, x, y, z), v)
         == MatrixTimesVector3(m, Vector3(v.x * x, v.y * y, v.z * z))
  {
  }

  // ---------------------------------------------------------------------------
  // Vector4 and Matrix4
  // ---------------------------------------------------------------------------

  /** The column (p, q, r, s) of a matrix against v: v.x p + v.y q + v.z r + v.w s. */
  function RowDot(p: real, q: real, r: real, s: real, v: Vector4): real {
    v.x * p + v.y * q + v.z * r + v.w * s
  }

  /** `v * m` for a Vector4: v as a row times m, one column of m per component. */
  function Vector4TimesMatrix(v: Vector4, m: Mat4.M4): Vector4 {
    Vector4(RowDot(m.a1, m.a2, m.a3, m.a4, v),
            RowDot(m.b1, m.b2, m.b3, m.b4, v),
            RowDot(m.c1, m.c2, m.c3, m.c4, v),
            RowDot(m.d1, m.d2, m.d3, m.d4, v))
  }

  /** `m * v` for a Vector4: m times v as a column, one row of m per component. */
  function MatrixTimesVector4(m: Mat4.M4, v: Vector4): Vector4 {
    Vector4(RowDot(m.a1, m.b1, m.c1, m.d1, v),
            RowDot(m.a2, m.b2, m.c2, m.d2, v),
            RowDot(m.a3, m.b3, m.c3, m.d3, v),
            RowDot(m.a4, m.b4, m.c4, m.d4, v))
  }

  /** `m * v` is `v * Transpose(m)`, and the identity fixes every vector on either side. */
  lemma Vector4Conventions(v: Vector4, m: Mat4.M4)
    ensures MatrixTimesVector4(m, v) == Vector4TimesMatrix(v, Mat4.Transposed(m))
    ensures Vector4TimesMatrix(v, m) == MatrixTimesVector4(Mat4.Transposed(m), v)
    ensures Vector4TimesMatrix(v, Mat4.Identity) == v
    ensures MatrixTimesVector4(Mat4.Identity, v) == v
  {
    Vector4Transposes(v, m);
    Vector4Identity(v);
  }

  /** The two Vector4 conventions are transposes of each other. */
  lemma Vector4Transposes(v: Vector4, m: Mat4.M4)
    ensures MatrixTimesVector4(m, v) == Vector4TimesMatrix(v, Mat4.Transposed(m))
    ensures Vector4TimesMatrix(v, m) == MatrixTimesVector4(Mat4.Transposed(m), v)
  {
  }

  /** The identity fixes every Vector4 under both conventions. */
  lemma Vector4Identity(v: Vector4)
    ensures Vector4TimesMatrix(v, Mat4.Identity) == v
    ensures MatrixTimesVector4(Mat4.Identity, v) == v
  {
  }

  /** One component of (m1 * m2) * v: the row (p, q, r, s) of m1, whose entries in the
      product are e1 to e4, against m2 * v. */
  lemma ProductRowAgainst(p: real, q: real, r: real, s: real, m2: Mat4.M4, v: Vector4,
                          e1: real, e2: real, e3: real, e4: real)
    requires e1 == p * m2.a1 + q * m2.a2 + r * m2.a3 + s * m2.a4
    requires e2 == p * m2.b1 + q * m2.b2 + r * m2.b3 + s * m2.b4
    requires e3 == p * m2.c1 + q * m2.c2 + r * m2.c3 + s * m2.c4
    requires e4 == p * m2.d1 + q * m2.d2 + r * m2.d3 + s * m2.d4
    ensures RowDot(e1, e2, e3, e4, v) == RowDot(p, q, r, s, MatrixTimesVector4(m2, v))
  {
    RowAgainstColumns(v.x, v.y, v.z, v.w, p, q, r, s, e1, e2, e3, e4,
                      m2.a1, m2.a2, m2.a3, m2.a4, m2.b1, m2.b2, m2.b3, m2.b4,
                      m2.c1, m2.c2, m2.c3, m2.c4, m2.d1, m2.d2, m2.d3, m2.d4);
  }

  /** `ProductRowAgainst` on plain numbers: the row (p, q, r, s) against the columns a, b, c, d
      gives e1 to e4; weighted by (vx, vy, vz, vw), the sum is the same in either order. */
  lemma RowAgainstColumns(vx: real, vy: real, vz: real, vw: real, p: real, q: real, r: real, s: real,
                          e1: real, e2: real, e3: real, e4: real,
                          a1: real, a2: real, a3: real, a4: real, b1: real, b2: real, b3: real, b4: real,
                          c1: real, c2: real, c3: real, c4: real, d1: real, d2: real, d3: real, d4: real)
    requires e1 == p * a1 + q * a2 + r * a3 + s * a4
    requires e2 == p * b1 + q * b2 + r * b3 + s * b4
    requires e3 == p * c1 + q * c2 + r * c3 + s * c4
    requires e4 == p * d1 + q * d2 + r * d3 + s * d4
    ensures vx * e1 + vy * e2 + vz * e3 + vw * e4
         == (vx * a1 + vy * b1 + vz * c1 + vw * d1) * p + (vx * a2 + vy * b2 + vz * c2 + vw * d2) * q
          + (vx * a3 + vy * b3 + vz * c3 + vw * d3) * r + (vx * a4 + vy * b4 + vz * c4 + vw * d4) * s
  {
  }

  /** The column convention composes: (m1 * m2) * v == m1 * (m2 * v). */
  lemma MatrixTimesVector4Composes(m1: Mat4.M4, m2: Mat4.M4, v: Vector4)
    ensures MatrixTimesVector4(Mat4.Mul(m1, m2), v) == MatrixTimesVector4(m1, MatrixTimesVector4(m2, v))
  {
    Mat4.MulRow1(m1, m2);
    Mat4.MulRow2(m1, m2);
    Mat4.MulRow3(m1, m2);
    Mat4.MulRow4(m1, m2);
    ComposedRows(m1, m2, Mat4.Mul(m1, m2), v);
  }

  /** `MatrixTimesVector4Composes` for any p whose entries are those of m1 * m2. */
  lemma ComposedRows(m1: Mat4.M4, m2: Mat4.M4, p: Mat4.M4, v: Vector4)
    requires p.a1 == m1.a1 * m2.a1 + m1.b1 * m2.a2 + m1.c1 * m2.a3 + m1.d1 * m2.a4
    requires p.b1 == m1.a1 * m2.b1 + m1.b1 * m2.b2 + m1.c1 * m2.b3 + m1.d1 * m2.b4
    requires p.c1 == m1.a1 * m2.c1 + m1.b1 * m2.c2 + m1.c1 * m2.c3 + m1.d1 * m2.c4
    requires p.d1 == m1.a1 * m2.d1 + m1.b1 * m2.d2 + m1.c1 * m2.d3 + m1.d1 * m2.d4
    requires p.a2 == m1.a2 * m2.a1 + m1.b2 * m2.a2 + m1.c2 * m2.a3 + m1.d2 * m2.a4
    requires p.b2 == m1.a2 * m2.b1 + m1.b2 * m2.b2 + m1.c2 * m2.b3 + m1.d2 * m2.b4
    requires p.c2 == m1.a2 * m2.c1 + m1.b2 * m2.c2 + m1.c2 * m2.c3 + m1.d2 * m2.c4
    requires p.d2 == m1.a2 * m2.d1 + m1.b2 * m2.d2 + m1.c2 * m2.d3 + m1.d2 * m2.d4
    requires p.a3 == m1.a3 * m2.a1 + m1.b3 * m2.a2 + m1.c3 * m2.a3 + m1.d3 * m2.a4
    requires p.b3 == m1.a3 * m2.b1 + m1.b3 * m2.b2 + m1.c3 * m2.b3 + m1.d3 * m2.b4
    requires p.c3 == m1.a3 * m2.c1 + m1.b3 * m2.c2 + m1.c3 * m2.c3 + m1.d3 * m2.c4
    requires p.d3 == m1.a3 * m2.d1 + m1.b3 * m2.d2 + m1.c3 * m2.d3 + m1.d3 * m2.d4
    requires p.a4 == m1.a4 * m2.a1 + m1.b4 * m2.a2 + m1.c4 * m2.a3 + m1.d4 * m2.a4
    requires p.b4 == m1.a4 * m2.b1 + m1.b4 * m2.b2 + m1.c4 * m2.b3 + m1.d4 * m2.b4
    requires p.c4 == m1.a4 * m2.c1 + m1.b4 * m2.c2 + m1.c4 * m2.c3 + m1.d4 * m2.c4
    requires p.d4 == m1.a4 * m2.d1 + m1.b4 * m2.d2 + m1.c4 * m2.d3 + m1.d4 * m2.d4
    ensures MatrixTimesVector4(p, v) == MatrixTimesVector4(m1, MatrixTimesVector4(m2, v))
  {
    ProductRowAgainst(m1.a1, m1.b1, m1.c1, m1.d1, m2, v, p.a1, p.b1, p.c1, p.d1);
    ProductRowAgainst(m1.a2, m1.b2, m1.c2, m1.d2, m2, v, p.a2, p.b2, p.c2, p.d2);
    ProductRowAgainst(m1.a3, m1.b3, m1.c3, m1.d3, m2, v, p.a3, p.b3, p.c3, p.d3);
    ProductRowAgainst(m1.a4, m1.b4, m1.c4, m1.d4, m2, v, p.a4, p.b4, p.c4, p.d4);
  }

  // ---------------------------------------------------------------------------
  // Vector2 and Matrix3 / Matrix4
  // ---------------------------------------------------------------------------

  /** `v * m` for a Matrix3: the point (x, y, 1) as a row times m, without the third part. */
  function Vector2TimesMatrix3(v: Vector2, m: Mat3.M3): Vector2 {
    Vector2(v.x * m.a1 + v.y * m.a2 + m.a3, v.x * m.b1 + v.y * m.b2 + m.b3)
  }

  /** `v * m` for a Matrix4: the point (x, y, 0, 1) as a row times m, cut to xy. */
  function Vector2TimesMatrix4(v: Vector2, m: Mat4.M4): Vector2 {
    Vector2(v.x * m.a1 + v.y * m.a2 + m.a4, v.x * m.b1 + v.y * m.b2 + m.b4)
  }

  /** `m * v` for a Matrix3, the operator its authors marked as unvalidated: the 2x2 block is
      used as for a column, but the translation is still taken from row 3. */
  function Matrix3TimesVector2(m: Mat3.M3, v: Vector2): Vector2 {
    Vector2(v.x * m.a1 + v.y * m.b1 + m.a3, v.x * m.a2 + v.y * m.b2 + m.b3)
  }

  /** `v.Transform(m)`: the receiver's new value, computed into two temporaries first. */
  function Transform(v: Vector2, m: Mat3.M3): (r: Vector2)
    ensures r == Vector2TimesMatrix3(v, m)
  {
    var x := v.x * m.a1 + v.y * m.a2 + m.a3;
    var y := v.x * m.b1 + v.y * m.b2 + m.b3;
    Vector2(x, y)
  }

  /** The Matrix4 product of a Vector2 is the Vector4 row product on (x, y, 0, 1), cut to
      xy; both Vector2 products fix every point under the identity. */
  lemma Vector2Products(v: Vector2, m: Mat4.M4)
    ensures Vector2TimesMatrix4(v, m) == XY(Vector4TimesMatrix(Vector4(v.x, v.y, 0.0, 1.0), m))
    ensures Vector2TimesMatrix4(v, Mat4.Identity) == v
    ensures Vector2TimesMatrix3(v, Mat3.Identify) == v
  {
  }

  /** The marked `m * v` agrees with `v * m` on every vector exactly when m.a2 == m.b1. */
  lemma Matrix3TimesVector2Iff(m: Mat3.M3)
    ensures (forall v :: Matrix3TimesVector2(m, v) == Vector2TimesMatrix3(v, m)) <==> m.a2 == m.b1
  {
    if forall v :: Matrix3TimesVector2(m, v) == Vector2TimesMatrix3(v, m) {
      var e := Vector2(0.0, 1.0);
      assert Matrix3TimesVector2(m, e).x == Vector2TimesMatrix3(e, m).x;
      assert Matrix3TimesVector2(m, e).x == m.b1 + m.a3;
      assert Vector2TimesMatrix3(e, m).x == m.a2 + m.a3;
    }
    if m.a2 == m.b1 {
      forall v ensures Matrix3TimesVector2(m, v) == Vector2TimesMatrix3(v, m) {
      }
    }
  }

  /** In the row convention a translation, rotation or scaling matrix moves the point as
      expected: by (x, y), counter-clockwise, and along the axes. */
  lemma Vector2ReferenceTransforms(v: Vector2, x: real, y: real, sin: real, cos: real)
    ensures Vector2TimesMatrix3(v, Mat3Properties.TranslationMatrix(x, y)) == Vector2(v.x + x, v.y + y)
    ensures Vector2TimesMatrix3(v, Mat3Properties.RotationMatrix(sin, cos))
         == Vector2(v.x * cos - v.y * sin, v.x * sin + v.y * cos)
    ensures Vector2TimesMatrix3(v, Mat3Properties.ScaleMatrix(x, y)) == Vector2(v.x * x, v.y * y)
  {
  }

  /** One component of v * (m1 * m2), regrouped as (v * m1) * m2: the entries e1, e2, e3
      of a column of m1 * m2 are m1's rows against the column (p, q, r) of m2. */
  lemma ComposedComponent(v: Vector2, m1: Mat3.M3, p: real, q: real, r: real, e1: real, e2: real, e3: real)
    requires m1.c1 == 0.0 && m1.c2 == 0.0 && m1.c3 == 1.0
    requires e1 == m1.a1 * p + m1.b1 * q + m1.c1 * r
    requires e2 == m1.a2 * p + m1.b2 * q + m1.c2 * r
    requires e3 == m1.a3 * p + m1.b3 * q + m1.c3 * r
    ensures v.x * e1 + v.y * e2 + e3
         == (v.x * m1.a1 + v.y * m1.a2 + m1.a3) * p + (v.x * m1.b1 + v.y * m1.b2 + m1.b3) * q + r
  {
  }

  /** For an affine m1, transforming by m1 * m2 is transforming by m1, then by m2. */
  lemma Vector2TimesMatrix3Composes(v: Vector2, m1: Mat3.M3, m2: Mat3.M3)
    requires m1.c1 == 0.0 && m1.c2 == 0.0 && m1.c3 == 1.0
    ensures Vector2TimesMatrix3(v, Mat3.Mul(m1, m2))
         == Vector2TimesMatrix3(Vector2TimesMatrix3(v, m1), m2)
  {
    Mat3.MulRow1(m1, m2);
    Mat3.MulRow2(m1, m2);
    Mat3.MulRow3(m1, m2);
    ComposedEntries(v, m1, m2, Mat3.Mul(m1, m2));
  }

  /** `Vector2TimesMatrix3Composes` for any p whose first two columns are those of m1 * m2. */
  lemma ComposedEntries(v: Vector2, m1: Mat3.M3, m2: Mat3.M3, p: Mat3.M3)
    requires m1.c1 == 0.0 && m1.c2 == 0.0 && m1.c3 == 1.0
    requires p.a1 == m1.a1 * m2.a1 + m1.b1 * m2.a2 + m1.c1 * m2.a3
    requires p.a2 == m1.a2 * m2.a1 + m1.b2 * m2.a2 + m1.c2 * m2.a3
    requires p.a3 == m1.a3 * m2.a1 + m1.b3 * m2.a2 + m1.c3 * m2.a3
    requires p.b1 == m1.a1 * m2.b1 + m1.b1 * m2.b2 + m1.c1 * m2.b3
    requires p.b2 == m1.a2 * m2.b1 + m1.b2 * m2.b2 + m1.c2 * m2.b3
    requires p.b3 == m1.a3 * m2.b1 + m1.b3 * m2.b2 + m1.c3 * m2.b3
    ensures Vector2TimesMatrix3(v, p) == Vector2TimesMatrix3(Vector2TimesMatrix3(v, m1), m2)
  {
    ComposedComponent(v, m1, m2.a1, m2.a2, m2.a3, p.a1, p.a2, p.a3);
    ComposedComponent(v, m1, m2.b1, m2.b2, m2.b3, p.b1, p.b2, p.b3);
  }
}
