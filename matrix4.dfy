/** The 4x4 transform (`Matrix4`). Entries are named a..d for columns 1..4 and 1..4 for rows,
    so a1, b1, c1, d1 is the first row. The pure members work on the value `M4`; the class
    `Matrix4` holds the sixteen mutable fields and its in-place methods are specified by the
    functions of this module on `M4`. */
module Mat4 {
  import opened Vec3
  import opened Outcomes

  datatype M4 = M4(a1: real, b1: real, c1: real, d1: real,
                   a2: real, b2: real, c2: real, d2: real,
                   a3: real, b3: real, c3: real, d3: real,
                   a4: real, b4: real, c4: real, d4: real)

  const Identity := M4(1.0, 0.0, 0.0, 0.0,
                       0.0, 1.0, 0.0, 0.0,
                       0.0, 0.0, 1.0, 0.0,
                       0.0, 0.0, 0.0, 1.0)

  /** The entry in row r and column c, both counted from 1. */
  function Entry(m: M4, r: int, c: int): real
    requires 1 <= r <= 4 && 1 <= c <= 4
  {
    if r == 1 then (if c == 1 then m.a1 else if c == 2 then m.b1 else if c == 3 then m.c1 else m.d1)
    else if r == 2 then (if c == 1 then m.a2 else if c == 2 then m.b2 else if c == 3 then m.c2 else m.d2)
    else if r == 3 then (if c == 1 then m.a3 else if c == 2 then m.b3 else if c == 3 then m.c3 else m.d3)
    else (if c == 1 then m.a4 else if c == 2 then m.b4 else if c == 3 then m.c4 else m.d4)
  }

  /** `ToArray()`: the sixteen entries, row after row. */
  function ToArray(m: M4): (arr: seq<real>)
    ensures |arr| == 16
    ensures forall i :: 0 <= i < 16 ==> arr[i] == Entry(m, i / 4 + 1, i % 4 + 1)
  {
    [m.a1, m.b1, m.c1, m.d1, m.a2, m.b2, m.c2, m.d2,
     m.a3, m.b3, m.c3, m.d3, m.a4, m.b4, m.c4, m.d4]
  }

  /** `Equals` and the operator `==` (for two non-null matrices): entrywise equality. */
  predicate Equals(m1: M4, m2: M4) {
    m1.a1 == m2.a1 && m1.b1 == m2.b1 && m1.c1 == m2.c1 && m1.d1 == m2.d1
    && m1.a2 == m2.a2 && m1.b2 == m2.b2 && m1.c2 == m2.c2 && m1.d2 == m2.d2
    && m1.a3 == m2.a3 && m1.b3 == m2.b3 && m1.c3 == m2.c3 && m1.d3 == m2.d3
    && m1.a4 == m2.a4 && m1.b4 == m2.b4 && m1.c4 == m2.c4 && m1.d4 == m2.d4
  }

  // ---------------------------------------------------------------------------
  // Products
  // ---------------------------------------------------------------------------

  /** `m1 * m2`: row of m1 by column of m2. */
  function Mul(m1: M4, m2: M4): M4 {
    M4(m1.a1 * m2.a1 + m1.b1 * m2.a2 + m1.c1 * m2.a3 + m1.d1 * m2.a4,
       m1.a1 * m2.b1 + m1.b1 * m2.b2 + m1.c1 * m2.b3 + m1.d1 * m2.b4,
       m1.a1 * m2.c1 + m1.b1 * m2.c2 + m1.c1 * m2.c3 + m1.d1 * m2.c4,
       m1.a1 * m2.d1 + m1.b1 * m2.d2 + m1.c1 * m2.d3 + m1.d1 * m2.d4,

       m1.a2 * m2.a1 + m1.b2 * m2.a2 + m1.c2 * m2.a3 + m1.d2 * m2.a4,
       m1.a2 * m2.b1 + m1.b2 * m2.b2 + m1.c2 * m2.b3 + m1.d2 * m2.b4,
       m1.a2 * m2.c1 + m1.b2 * m2.c2 + m1.c2 * m2.c3 + m1.d2 * m2.c4,
       m1.a2 * m2.d1 + m1.b2 * m2.d2 + m1.c2 * m2.d3 + m1.d2 * m2.d4,

       m1.a3 * m2.a1 + m1.b3 * m2.a2 + m1.c3 * m2.a3 + m1.d3 * m2.a4,
       m1.a3 * m2.b1 + m1.b3 * m2.b2 + m1.c3 * m2.b3 + m1.d3 * m2.b4,
       m1.a3 * m2.c1 + m1.b3 * m2.c2 + m1.c3 * m2.c3 + m1.d3 * m2.c4,
       m1.a3 * m2.d1 + m1.b3 * m2.d2 + m1.c3 * m2.d3 + m1.d3 * m2.d4,

       m1.a4 * m2.a1 + m1.b4 * m2.a2 + m1.c4 * m2.a3 + m1.d4 * m2.a4,
       m1.a4 * m2.b1 + m1.b4 * m2.b2 + m1.c4 * m2.b3 + m1.d4 * m2.b4,
       m1.a4 * m2.c1 + m1.b4 * m2.c2 + m1.c4 * m2.c3 + m1.d4 * m2.c4,
       m1.a4 * m2.d1 + m1.b4 * m2.d2 + m1.c4 * m2.d3 + m1.d4 * m2.d4)
  }

  /** Row 1 of a product: row 1 of the left factor times each column of the right. */
  lemma MulRow1(m1: M4, m2: M4)
    ensures Mul(m1, m2).a1 == m1.a1 * m2.a1 + m1.b1 * m2.a2 + m1.c1 * m2.a3 + m1.d1 * m2.a4
    ensures Mul(m1, m2).b1 == m1.a1 * m2.b1 + m1.b1 * m2.b2 + m1.c1 * m2.b3 + m1.d1 * m2.b4
    ensures Mul(m1, m2).c1 == m1.a1 * m2.c1 + m1.b1 * m2.c2 + m1.c1 * m2.c3 + m1.d1 * m2.c4
    ensures Mul(m1, m2).d1 == m1.a1 * m2.d1 + m1.b1 * m2.d2 + m1.c1 * m2.d3 + m1.d1 * m2.d4
  {
  }

  /** Row 2 of a product: row 2 of the left factor times each column of the right. */
  lemma MulRow2(m1: M4, m2: M4)
    ensures Mul(m1, m2).a2 == m1.a2 * m2.a1 + m1.b2 * m2.a2 + m1.c2 * m2.a3 + m1.d2 * m2.a4
    ensures Mul(m1, m2).b2 == m1.a2 * m2.b1 + m1.b2 * m2.b2 + m1.c2 * m2.b3 + m1.d2 * m2.b4
    ensures Mul(m1, m2).c2 == m1.a2 * m2.c1 + m1.b2 * m2.c2 + m1.c2 * m2.c3 + m1.d2 * m2.c4
    ensures Mul(m1, m2).d2 == m1.a2 * m2.d1 + m1.b2 * m2.d2 + m1.c2 * m2.d3 + m1.d2 * m2.d4
  {
  }

  /** Row 3 of a product: row 3 of the left factor times each column of the right. */
  lemma MulRow3(m1: M4, m2: M4)
    ensures Mul(m1, m2).a3 == m1.a3 * m2.a1 + m1.b3 * m2.a2 + m1.c3 * m2.a3 + m1.d3 * m2.a4
    ensures Mul(m1, m2).b3 == m1.a3 * m2.b1 + m1.b3 * m2.b2 + m1.c3 * m2.b3 + m1.d3 * m2.b4
    ensures Mul(m1, m2).c3 == m1.a3 * m2.c1 + m1.b3 * m2.c2 + m1.c3 * m2.c3 + m1.d3 * m2.c4
    ensures Mul(m1, m2).d3 == m1.a3 * m2.d1 + m1.b3 * m2.d2 + m1.c3 * m2.d3 + m1.d3 * m2.d4
  {
  }

  /** Row 4 of a product: row 4 of the left factor times each column of the right. */
  lemma MulRow4(m1: M4, m2: M4)
    ensures Mul(m1, m2).a4 == m1.a4 * m2.a1 + m1.b4 * m2.a2 + m1.c4 * m2.a3 + m1.d4 * m2.a4
    ensures Mul(m1, m2).b4 == m1.a4 * m2.b1 + m1.b4 * m2.b2 + m1.c4 * m2.b3 + m1.d4 * m2.b4
    ensures Mul(m1, m2).c4 == m1.a4 * m2.c1 + m1.b4 * m2.c2 + m1.c4 * m2.c3 + m1.d4 * m2.c4
    ensures Mul(m1, m2).d4 == m1.a4 * m2.d1 + m1.b4 * m2.d2 + m1.c4 * m2.d3 + m1.d4 * m2.d4
  {
  }

  /** `m1 * s` as written: all four rows are the first row of m1 scaled by s. */
  function MulScalar(m1: M4, s: real): M4 {
    M4(m1.a1 * s, m1.b1 * s, m1.c1 * s, m1.d1 * s,
       m1.a1 * s, m1.b1 * s, m1.c1 * s, m1.d1 * s,
       m1.a1 * s, m1.b1 * s, m1.c1 * s, m1.d1 * s,
       m1.a1 * s, m1.b1 * s, m1.c1 * s, m1.d1 * s)
  }

  /** One entry times a scalar. A function of its own, so that a scaled entry stays one term
      when it is itself multiplied. */
  function Times(x: real, s: real): real { x * s }

  /** What `m1 * s` evidently means, and what `Inverse` does with 1/det: every entry scaled by s. */
  function ScaleEntries(m: M4, s: real): M4 {
    M4(Times(m.a1, s), Times(m.b1, s), Times(m.c1, s), Times(m.d1, s),
       Times(m.a2, s), Times(m.b2, s), Times(m.c2, s), Times(m.d2, s),
       Times(m.a3, s), Times(m.b3, s), Times(m.c3, s), Times(m.d3, s),
       Times(m.a4, s), Times(m.b4, s), Times(m.c4, s), Times(m.d4, s))
  }

  // ---------------------------------------------------------------------------
  // In-place transforms, as functions of the matrix before the call
  // ---------------------------------------------------------------------------

  /** `Transpose()` */
  function Transposed(m: M4): M4 {
    M4(m.a1, m.a2, m.a3, m.a4,
       m.b1, m.b2, m.b3, m.b4,
       m.c1, m.c2, m.c3, m.c4,
       m.d1, m.d2, m.d3, m.d4)
  }

  /** `Translate(x, y, z)` past its no-op test: column d of row r gains a_r x + b_r y + c_r z. */
  function Translated(m: M4, x: real, y: real, z: real): M4 {
    m.(d1 := m.d1 + (m.a1 * x + m.b1 * y + m.c1 * z),
       d2 := m.d2 + (m.a2 * x + m.b2 * y + m.c2 * z),
       d3 := m.d3 + (m.a3 * x + m.b3 * y + m.c3 * z),
       d4 := m.d4 + (m.a4 * x + m.b4 * y + m.c4 * z))
  }

  /** `Scale(x, y, z)` past its no-op test: columns a, b, c of rows 1 to 3 scaled by x, y, z. */
  function Scaled(m: M4, x: real, y: real, z: real): M4 {
    m.(a1 := m.a1 * x, b1 := m.b1 * y, c1 := m.c1 * z,
       a2 := m.a2 * x, b2 := m.b2 * y, c2 := m.c2 * z,
       a3 := m.a3 * x, b3 := m.b3 * y, c3 := m.c3 * z)
  }

  /** `RotateX(angle)` past its no-op test, given the sine and cosine of the angle. */
  function RotatedX(m: M4, sin: real, cos: real): M4 {
    m.(b1 := m.b1 * cos + m.c1 * sin, c1 := m.b1 * -sin + m.c1 * cos,
       b2 := m.b2 * cos + m.c2 * sin, c2 := m.b2 * -sin + m.c2 * cos,
       b3 := m.b3 * cos + m.c3 * sin, c3 := m.b3 * -sin + m.c3 * cos,
       b4 := m.b4 * cos + m.c4 * sin, c4 := m.b4 * -sin + m.c4 * cos)
  }

  /** `RotateY(angle)` past its no-op test, given the sine and cosine of the angle. */
  function RotatedY(m: M4, sin: real, cos: real): M4 {
    m.(a1 := m.a1 * cos + m.c1 * -sin, c1 := m.a1 * sin + m.c1 * cos,
       a2 := m.a2 * cos + m.c2 * -sin, c2 := m.a2 * sin + m.c2 * cos,
       a3 := m.a3 * cos + m.c3 * -sin, c3 := m.a3 * sin + m.c3 * cos,
       a4 := m.a4 * cos + m.c4 * -sin, c4 := m.a4 * sin + m.c4 * cos)
  }

  /** `RotateZ(angle)` past its no-op test, given the sine and cosine of the angle. */
  function RotatedZ(m: M4, sin: real, cos: real): M4 {
    m.(a1 := m.a1 * cos + m.b1 * -sin, b1 := m.a1 * sin + m.b1 * cos,
       a2 := m.a2 * cos + m.b2 * -sin, b2 := m.a2 * sin + m.b2 * cos,
       a3 := m.a3 * cos + m.b3 * -sin, b3 := m.a3 * sin + m.b3 * cos,
       a4 := m.a4 * cos + m.b4 * -sin, b4 := m.a4 * sin + m.b4 * cos)
  }

  /** The six Euler orders of `EulerOrder`. */
  datatype EulerOrder = XYZ | XZY | YXZ | YZX | ZXY | ZYX

  /** The sines and cosines of the three Euler angles (about x, y and z) in radians. */
  datatype EulerTrig = EulerTrig(sinA: real, cosA: real, sinB: real, cosB: real, sinC: real, cosC: real)

  /** The rotation block `Rotate(x, y, z, order)` multiplies by (its 3x3 part m2a1..m2c3,
      with d4 = 1), or the exception the call throws for an order without a formula. */
  function EulerBlock(order: EulerOrder, t: EulerTrig): Result<M4> {
    var EulerTrig(sinA, cosA, sinB, cosB, sinC, cosC) := t;
    match order
    case XYZ =>
      Ok(M4(cosB * cosC, -cosB * sinC, sinB, 0.0,
            cosC * sinA * sinB + cosA * sinC, -sinC * sinB * sinA + cosC * cosA, -cosB * sinA, 0.0,
            -cosC * sinB * cosA + sinC * sinA, cosC * sinA + sinC * sinB * cosA, cosB * cosA, 0.0,
            0.0, 0.0, 0.0, 1.0))
    case ZYX =>
      Ok(M4(cosC * cosB, -sinC * cosA + cosC * sinB * sinA, sinC * sinA + cosC * sinB * cosA, 0.0,
            sinC * cosB, cosC * cosA + sinC * sinB * sinA, -cosC * sinA + sinC * sinB * cosA, 0.0,
            -sinB, cosB * sinA, cosB * cosA, 0.0,
            0.0, 0.0, 0.0, 1.0))
    case XZY => Err(NotSupported)
    case YXZ => Err(NotSupported)
    case YZX => Err(NotSupported)
    case ZXY => Err(NotSupported)
  }

  /** `Rotate(x, y, z, order)` once the block is chosen: columns a, b, c of every row become
      that row times the 3x3 part of the block; column d is not written. */
  function RotatedBy(m: M4, r: M4): M4 {
    m.(a1 := m.a1 * r.a1 + m.b1 * r.a2 + m.c1 * r.a3,
       b1 := m.a1 * r.b1 + m.b1 * r.b2 + m.c1 * r.b3,
       c1 := m.a1 * r.c1 + m.b1 * r.c2 + m.c1 * r.c3,
       a2 := m.a2 * r.a1 + m.b2 * r.a2 + m.c2 * r.a3,
       b2 := m.a2 * r.b1 + m.b2 * r.b2 + m.c2 * r.b3,
       c2 := m.a2 * r.c1 + m.b2 * r.c2 + m.c2 * r.c3,
       a3 := m.a3 * r.a1 + m.b3 * r.a2 + m.c3 * r.a3,
       b3 := m.a3 * r.b1 + m.b3 * r.b2 + m.c3 * r.b3,
       c3 := m.a3 * r.c1 + m.b3 * r.c2 + m.c3 * r.c3,
       a4 := m.a4 * r.a1 + m.b4 * r.a2 + m.c4 * r.a3,
       b4 := m.a4 * r.b1 + m.b4 * r.b2 + m.c4 * r.b3,
       c4 := m.a4 * r.c1 + m.b4 * r.c2 + m.c4 * r.c3)
  }

  // ---------------------------------------------------------------------------
  // Determinant and inverse
  // ---------------------------------------------------------------------------

  /** A 3x3 determinant, with its six terms in the order the source writes every minor
      (for the minor of a1: f k p + j o h + n g l - f l o - g j p - h k n). */
  function Det3(x11: real, x12: real, x13: real,
                x21: real, x22: real, x23: real,
                x31: real, x32: real, x33: real): real
  {
    x11 * x22 * x33 + x21 * x32 * x13 + x31 * x12 * x23
    - x11 * x23 * x32 - x12 * x21 * x33 - x13 * x22 * x31
  }

  /** The cofactor determinant that `CanInverse` and `Inverse` compute: expansion along the
      first row, a q - b r + c s - d t, where q, r, s, t are the minors of a1, b1, c1, d1. */
  function Det(m: M4): real {
    m.a1 * Det3(m.b2, m.c2, m.d2, m.b3, m.c3, m.d3, m.b4, m.c4, m.d4)
    - m.b1 * Det3(m.a2, m.c2, m.d2, m.a3, m.c3, m.d3, m.a4, m.c4, m.d4)
    + m.c1 * Det3(m.a2, m.b2, m.d2, m.a3, m.b3, m.d3, m.a4, m.b4, m.d4)
    - m.d1 * Det3(m.a2, m.b2, m.c2, m.a3, m.b3, m.c3, m.a4, m.b4, m.c4)
  }

  /** `CanInverse` */
  predicate CanInverse(m: M4) { Det(m) != 0.0 }

  /** The sign changes `Inverse` applies to eight of the minors (m2b1 = -m2b1 and the like). */
  function Flip(x: real): real { -x }

  /** The matrix `Inverse` scales by 1/det: the minors m2.., sign-alternated, transposed. Entry
      (k, c) is the cofactor of entry (c, k). */
  function Adjugate(m: M4): M4 {
    M4(Det3(m.b2, m.c2, m.d2, m.b3, m.c3, m.d3, m.b4, m.c4, m.d4),
       Flip(Det3(m.b1, m.c1, m.d1, m.b3, m.c3, m.d3, m.b4, m.c4, m.d4)),
       Det3(m.b1, m.c1, m.d1, m.b2, m.c2, m.d2, m.b4, m.c4, m.d4),
       Flip(Det3(m.b1, m.c1, m.d1, m.b2, m.c2, m.d2, m.b3, m.c3, m.d3)),

       Flip(Det3(m.a2, m.c2, m.d2, m.a3, m.c3, m.d3, m.a4, m.c4, m.d4)),
       Det3(m.a1, m.c1, m.d1, m.a3, m.c3, m.d3, m.a4, m.c4, m.d4),
       Flip(Det3(m.a1, m.c1, m.d1, m.a2, m.c2, m.d2, m.a4, m.c4, m.d4)),
       Det3(m.a1, m.c1, m.d1, m.a2, m.c2, m.d2, m.a3, m.c3, m.d3),

       Det3(m.a2, m.b2, m.d2, m.a3, m.b3, m.d3, m.a4, m.b4, m.d4),
       Flip(Det3(m.a1, m.b1, m.d1, m.a3, m.b3, m.d3, m.a4, m.b4, m.d4)),
       Det3(m.a1, m.b1, m.d1, m.a2, m.b2, m.d2, m.a4, m.b4, m.d4),
       Flip(Det3(m.a1, m.b1, m.d1, m.a2, m.b2, m.d2, m.a3, m.b3, m.d3)),

       Flip(Det3(m.a2, m.b2, m.c2, m.a3, m.b3, m.c3, m.a4, m.b4, m.c4)),
       Det3(m.a1, m.b1, m.c1, m.a3, m.b3, m.c3, m.a4, m.b4, m.c4),
       Flip(Det3(m.a1, m.b1, m.c1, m.a2, m.b2, m.c2, m.a4, m.b4, m.c4)),
       Det3(m.a1, m.b1, m.c1, m.a2, m.b2, m.c2, m.a3, m.b3, m.c3))
  }

  /** `Inverse()`: unchanged when the determinant is zero, else the adjugate over it. */
  function Inverted(m: M4): M4 {
    if Det(m) == 0.0 then m else ScaleEntries(Adjugate(m), 1.0 / Det(m))
  }

  // ---------------------------------------------------------------------------
  // Projection and view matrices (every entry is written)
  // ---------------------------------------------------------------------------

  /** `Frustum(left, right, top, bottom, near, far)`, with the entries where the code puts them. */
  function FrustumMatrix(left: real, right: real, top: real, bottom: real, near: real, far: real): M4
    requires right - left != 0.0 && top - bottom != 0.0 && far - near != 0.0
  {
    var (x, y, z) := (right - left, top - bottom, far - near);
    M4(near * 2.0 / x, 0.0, 0.0, 0.0,
       0.0, near * 2.0 / y, 0.0, 0.0,
       (left + right) / x, (top + bottom) / y, -(far + near) / z, -(far * near * 2.0) / z,
       0.0, 0.0, -1.0, 0.0)
  }

  /** `Perspective(angle, widthRate, near, far)`, given tanHalf = tan(angle * pi / 360):
      delegates to `Frustum(-w, w, -h, h, near, far)` with h = near * tanHalf and w = h * widthRate. */
  function PerspectiveMatrix(tanHalf: real, widthRate: real, near: real, far: real): M4
    requires near * tanHalf != 0.0 && near * tanHalf * widthRate != 0.0 && far - near != 0.0
  {
    var topRate := near * tanHalf;
    var w := topRate * widthRate;
    FrustumMatrix(-w, w, -topRate, topRate, near, far)
  }

  /** `Ortho(left, right, bottom, top, near, far)` */
  function OrthoMatrix(left: real, right: real, bottom: real, top: real, near: real, far: real): M4
    requires right - left != 0.0 && top - bottom != 0.0 && far - near != 0.0
  {
    var (x, y, z) := (right - left, top - bottom, far - near);
    M4(2.0 / x, 0.0, 0.0, 0.0,
       0.0, 2.0 / y, 0.0, 0.0,
       0.0, 0.0, -2.0 / z, 0.0,
       -(left + right) / x, -(top + bottom) / y, -(far + near) / z, 1.0)
  }

  /** The forward axis of `LookAt`: (from - to) normalized, given the length of from - to. */
  function LookAtZ(from: Vector3, to: Vector3, zlen: real): Vector3
    requires IsLength(Minus(from, to), zlen) && zlen != 0.0
  {
    Vec3.Normalize(Minus(from, to), zlen)
  }

  /** The right axis of `LookAt`: Cross(up, forward) normalized, given its length. */
  function LookAtX(from: Vector3, to: Vector3, up: Vector3, zlen: real, xlen: real): Vector3
    requires IsLength(Minus(from, to), zlen) && zlen != 0.0
    requires IsLength(Vec3.Cross(up, LookAtZ(from, to, zlen)), xlen) && xlen != 0.0
  {
    Vec3.Normalize(Vec3.Cross(up, LookAtZ(from, to, zlen)), xlen)
  }

  /** `LookAt(from, to, up)`: the right, up and forward axes as columns a, b, c of rows 1 to 3,
      and no translation. */
  function LookAtMatrix(from: Vector3, to: Vector3, up: Vector3, zlen: real, xlen: real): M4
    requires IsLength(Minus(from, to), zlen) && zlen != 0.0
    requires IsLength(Vec3.Cross(up, LookAtZ(from, to, zlen)), xlen) && xlen != 0.0
  {
    var zaxis := LookAtZ(from, to, zlen);
    var xaxis := LookAtX(from, to, up, zlen, xlen);
    var yaxis := Vec3.Cross(zaxis, xaxis);
    M4(xaxis.x, yaxis.x, zaxis.x, 0.0,
       xaxis.y, yaxis.y, zaxis.y, 0.0,
       xaxis.z, yaxis.z, zaxis.z, 0.0,
       0.0, 0.0, 0.0, 1.0)
  }

  // ---------------------------------------------------------------------------
  // The mutable matrix
  // ---------------------------------------------------------------------------

  class Matrix4 {
    var a1: real, b1: real, c1: real, d1: real
    var a2: real, b2: real, c2: real, d2: real
    var a3: real, b3: real, c3: real, d3: real
    var a4: real, b4: real, c4: real, d4: real

    /** The sixteen fields as a value. */
    function Value(): M4
      reads this
    {
      M4(a1, b1, c1, d1, a2, b2, c2, d2, a3, b3, c3, d3, a4, b4, c4, d4)
    }

    /** `new Matrix4()`: the field initializers give the identity. */
    constructor ()
      ensures Value() == Identity
    {
      a1, b1, c1, d1 := 1.0, 0.0, 0.0, 0.0;
      a2, b2, c2, d2 := 0.0, 1.0, 0.0, 0.0;
      a3, b3, c3, d3 := 0.0, 0.0, 1.0, 0.0;
      a4, b4, c4, d4 := 0.0, 0.0, 0.0, 1.0;
    }

    /** `new Matrix4(a1, b1, ..., d4)` */
    constructor FromEntries(a1: real, b1: real, c1: real, d1: real,
                            a2: real, b2: real, c2: real, d2: real,
                            a3: real, b3: real, c3: real, d3: real,
                            a4: real, b4: real, c4: real, d4: real)
      ensures Value() == M4(a1, b1, c1, d1, a2, b2, c2, d2, a3, b3, c3, d3, a4, b4, c4, d4)
    {
      this.a1, this.b1, this.c1, this.d1 := a1, b1, c1, d1;
      this.a2, this.b2, this.c2, this.d2 := a2, b2, c2, d2;
      this.a3, this.b3, this.c3, this.d3 := a3, b3, c3, d3;
      this.a4, this.b4, this.c4, this.d4 := a4, b4, c4, d4;
    }

    /** `new Matrix4(m)`: a copy of m. */
    constructor Copy(m: Matrix4)
      ensures Value() == m.Value()
    {
      a1, b1, c1, d1 := m.a1, m.b1, m.c1, m.d1;
      a2, b2, c2, d2 := m.a2, m.b2, m.c2, m.d2;
      a3, b3, c3, d3 := m.a3, m.b3, m.c3, m.d3;
      a4, b4, c4, d4 := m.a4, m.b4, m.c4, m.d4;
    }

    /** Writes all sixteen fields from a value, one row at a time. */
    method SetValue(m: M4)
      modifies this
      ensures Value() == m
    {
      SetRow1(m.a1, m.b1, m.c1, m.d1);
      SetRow2(m.a2, m.b2, m.c2, m.d2);
      SetRow3(m.a3, m.b3, m.c3, m.d3);
      SetRow4(m.a4, m.b4, m.c4, m.d4);
    }

    method SetRow1(a: real, b: real, c: real, d: real)
      modifies this
      ensures Value() == old(Value()).(a1 := a, b1 := b, c1 := c, d1 := d)
    {
      a1 := a; b1 := b; c1 := c; d1 := d;
    }

    method SetRow2(a: real, b: real, c: real, d: real)
      modifies this
      ensures Value() == old(Value()).(a2 := a, b2 := b, c2 := c, d2 := d)
    {
      a2 := a; b2 := b; c2 := c; d2 := d;
    }

    method SetRow3(a: real, b: real, c: real, d: real)
      modifies this
      ensures Value() == old(Value()).(a3 := a, b3 := b, c3 := c, d3 := d)
    {
      a3 := a; b3 := b; c3 := c; d3 := d;
    }

    method SetRow4(a: real, b: real, c: real, d: real)
      modifies this
      ensures Value() == old(Value()).(a4 := a, b4 := b, c4 := c, d4 := d)
    {
      a4 := a; b4 := b; c4 := c; d4 := d;
    }

    method LoadIdentity() returns (self: Matrix4)
      modifies this
      ensures Value() == Identity && self == this
    {
      SetValue(Identity);
      self := this;
    }

    /** `CopyFrom(m)`: every field takes m's value (m may be this matrix itself). */
    method CopyFrom(m: Matrix4) returns (self: Matrix4)
      modifies this
      ensures Value() == old(m.Value()) && self == this
    {
      SetValue(m.Value());
      self := this;
    }

    /** `RotateX(angle)`, given the sine and cosine of the angle in radians. */
    method RotateX(angle: real, sin: real, cos: real) returns (self: Matrix4)
      modifies this
      ensures self == this
      ensures Value() == if angle == 0.0 then old(Value()) else RotatedX(old(Value()), sin, cos)
    {
      self := this;
      if angle == 0.0 {
        return;
      }
      SetValue(RotatedX(Value(), sin, cos));
    }

    /** `RotateY(angle)`, given the sine and cosine of the angle in radians. */
    method RotateY(angle: real, sin: real, cos: real)
      modifies this
      ensures Value() == if angle == 0.0 then old(Value()) else RotatedY(old(Value()), sin, cos)
    {
      if angle == 0.0 {
        return;
      }
      SetValue(RotatedY(Value(), sin, cos));
    }

    /** `RotateZ(angle)`, given the sine and cosine of the angle in radians. */
    method RotateZ(angle: real, sin: real, cos: real)
      modifies this
      ensures Value() == if angle == 0.0 then old(Value()) else RotatedZ(old(Value()), sin, cos)
    {
      if angle == 0.0 {
        return;
      }
      SetValue(RotatedZ(Value(), sin, cos));
    }

    /** `Rotate(x, y, z, order)` (and its Vector3 overload), given the sines and cosines of the
        three angles: throws NotSupported before writing anything for the four orders without a
        formula, otherwise rewrites columns a, b, c with the order's block. */
    method Rotate(t: EulerTrig, order: EulerOrder) returns (outcome: Outcome)
      modifies this
      ensures EulerBlock(order, t).Err? ==> outcome == Fail(EulerBlock(order, t).error) && Value() == old(Value())
      ensures EulerBlock(order, t).Ok? ==> outcome == Pass && Value() == RotatedBy(old(Value()), EulerBlock(order, t).value)
    {
      var block := EulerBlock(order, t);
      if block.Err? {
        return Fail(block.error);
      }
      SetValue(RotatedBy(Value(), block.value));
      outcome := Pass;
    }

    /** `Translate(x, y, z)` and its Vector3 overload. */
    method Translate(x: real, y: real, z: real) returns (self: Matrix4)
      modifies this
      ensures self == this
      ensures Value() == Translated(old(Value()), x, y, z)
    {
      self := this;
      if x == 0.0 && y == 0.0 && z == 0.0 {
        return;
      }
      SetValue(Translated(Value(), x, y, z));
    }

    /** `Matrix4.CreateTranslate(x, y, z)`: a new identity matrix, translated. */
    static method CreateTranslate(x: real, y: real, z: real) returns (m: Matrix4)
      ensures fresh(m) && m.Value() == Translated(Identity, x, y, z)
    {
      m := new Matrix4();
      var _ := m.Translate(x, y, z);
    }

    /** `Scale(x, y, z)`, also reached from `Scale(factor)` and `Scale(Vector3)`. */
    method Scale(x: real, y: real, z: real)
      modifies this
      ensures Value() == Scaled(old(Value()), x, y, z)
    {
      if x == 1.0 && y == 1.0 && z == 1.0 {
        return;
      }
      SetValue(Scaled(Value(), x, y, z));
    }

    /** `Scale(factor)` */
    method ScaleUniform(factor: real)
      modifies this
      ensures Value() == Scaled(old(Value()), factor, factor, factor)
    {
      Scale(factor, factor, factor);
    }

    /** `Transpose()` */
    method Transpose() returns (self: Matrix4)
      modifies this
      ensures self == this && Value() == Transposed(old(Value()))
    {
      SetValue(Transposed(Value()));
      self := this;
    }

    /** `Inverse()`: left unchanged when the determinant is zero. */
    method Inverse() returns (self: Matrix4)
      modifies this
      ensures self == this && Value() == Inverted(old(Value()))
    {
      self := this;
      var delta := Det(Value());
      if delta == 0.0 {
        return;
      }
      SetValue(ScaleEntries(Adjugate(Value()), 1.0 / delta));
    }

    /** `Frustum(left, right, top, bottom, near, far)`: overwrites all sixteen fields. */
    method Frustum(left: real, right: real, top: real, bottom: real, near: real, far: real) returns (self: Matrix4)
      requires right - left != 0.0 && top - bottom != 0.0 && far - near != 0.0
      modifies this
      ensures self == this && Value() == FrustumMatrix(left, right, top, bottom, near, far)
    {
      SetValue(FrustumMatrix(left, right, top, bottom, near, far));
      self := this;
    }

    /** `Perspective(angle, widthRate, near, far)`, given tanHalf = tan(angle * pi / 360). */
    method Perspective(tanHalf: real, widthRate: real, near: real, far: real) returns (self: Matrix4)
      requires near * tanHalf != 0.0 && near * tanHalf * widthRate != 0.0 && far - near != 0.0
      modifies this
      ensures self == this && Value() == PerspectiveMatrix(tanHalf, widthRate, near, far)
    {
      var topRate := near * tanHalf;
      var w := topRate * widthRate;
      self := Frustum(-w, w, -topRate, topRate, near, far);
    }

    /** `Ortho(left, right, bottom, top, near, far)`: overwrites all sixteen fields. */
    method Ortho(left: real, right: real, bottom: real, top: real, near: real, far: real) returns (self: Matrix4)
      requires right - left != 0.0 && top - bottom != 0.0 && far - near != 0.0
      modifies this
      ensures self == this && Value() == OrthoMatrix(left, right, bottom, top, near, far)
    {
      SetValue(OrthoMatrix(left, right, bottom, top, near, far));
      self := this;
    }

    /** `LookAt(from, to, up)`, given the lengths of from - to and of the unnormalized right axis. */
    method LookAt(from: Vector3, to: Vector3, up: Vector3, zlen: real, xlen: real) returns (self: Matrix4)
      requires IsLength(Minus(from, to), zlen) && zlen != 0.0
      requires IsLength(Vec3.Cross(up, LookAtZ(from, to, zlen)), xlen) && xlen != 0.0
      modifies this
      ensures self == this && Value() == LookAtMatrix(from, to, up, zlen, xlen)
    {
      SetValue(LookAtMatrix(from, to, up, zlen, xlen));
      self := this;
    }
  }
}
