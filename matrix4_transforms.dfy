/** What the in-place transforms of `Matrix4` do, stated against reference matrices: each is
    the matrix times a translation, scaling or rotation matrix (on the right), and each leaves
    the entries it does not name untouched. */
module Mat4Transforms {
  import opened Outcomes
  import opened Mat4
  import Mat4Algebra

  /** The translation by (x, y, z), with the offset in column d (column-vector convention). */
  function TranslationMatrix(x: real, y: real, z: real): M4 {
    M4(1.0, 0.0, 0.0, x,
       0.0, 1.0, 0.0, y,
       0.0, 0.0, 1.0, z,
       0.0, 0.0, 0.0, 1.0)
  }

  /** The scaling by x, y, z along the three axes. */
  function ScaleMatrix(x: real, y: real, z: real): M4 {
    M4(x, 0.0, 0.0, 0.0,
       0.0, y, 0.0, 0.0,
       0.0, 0.0, z, 0.0,
       0.0, 0.0, 0.0, 1.0)
  }

  /** The right-handed rotation about x by the angle whose sine and cosine are given. */
  function AxisX(sin: real, cos: real): M4 {
    M4(1.0, 0.0, 0.0, 0.0,
       0.0, cos, -sin, 0.0,
       0.0, sin, cos, 0.0,
       0.0, 0.0, 0.0, 1.0)
  }

  /** The right-handed rotation about y. */
  function AxisY(sin: real, cos: real): M4 {
    M4(cos, 0.0, sin, 0.0,
       0.0, 1.0, 0.0, 0.0,
       -sin, 0.0, cos, 0.0,
       0.0, 0.0, 0.0, 1.0)
  }

  /** The right-handed rotation about z. */
  function AxisZ(sin: real, cos: real): M4 {
    M4(cos, -sin, 0.0, 0.0,
       sin, cos, 0.0, 0.0,
       0.0, 0.0, 1.0, 0.0,
       0.0, 0.0, 0.0, 1.0)
  }

  /** A block as `Rotate` uses it: a 3x3 part, zero column d and row 4, and d4 = 1. */
  predicate IsLinearBlock(r: M4) {
    r.d1 == 0.0 && r.d2 == 0.0 && r.d3 == 0.0 &&
    r.a4 == 0.0 && r.b4 == 0.0 && r.c4 == 0.0 && r.d4 == 1.0
  }

  // ---------------------------------------------------------------------------
  // Translate
  // ---------------------------------------------------------------------------

  /** `Translate(0, 0, 0)` changes nothing, and otherwise only column d changes. */
  lemma TranslateFootprint(m: M4, x: real, y: real, z: real)
    ensures Translated(m, 0.0, 0.0, 0.0) == m
    ensures Translated(m, x, y, z).(d1 := m.d1, d2 := m.d2, d3 := m.d3, d4 := m.d4) == m
  {
  }

  /** `Translate` multiplies on the right by the translation matrix. */
  lemma TranslateIsPostMultiplication(m: M4, x: real, y: real, z: real)
    ensures Translated(m, x, y, z) == Mul(m, TranslationMatrix(x, y, z))
  {
    var R := TranslationMatrix(x, y, z);
    MulRow1(m, R);
    assert Translated(m, x, y, z).a1 == Mul(m, R).a1 && Translated(m, x, y, z).b1 == Mul(m, R).b1 && Translated(m, x, y, z).c1 == Mul(m, R).c1 && Translated(m, x, y, z).d1 == Mul(m, R).d1;
    MulRow2(m, R);
    assert Translated(m, x, y, z).a2 == Mul(m, R).a2 && Translated(m, x, y, z).b2 == Mul(m, R).b2 && Translated(m, x, y, z).c2 == Mul(m, R).c2 && Translated(m, x, y, z).d2 == Mul(m, R).d2;
    MulRow3(m, R);
    assert Translated(m, x, y, z).a3 == Mul(m, R).a3 && Translated(m, x, y, z).b3 == Mul(m, R).b3 && Translated(m, x, y, z).c3 == Mul(m, R).c3 && Translated(m, x, y, z).d3 == Mul(m, R).d3;
    MulRow4(m, R);
    assert Translated(m, x, y, z).a4 == Mul(m, R).a4 && Translated(m, x, y, z).b4 == Mul(m, R).b4 && Translated(m, x, y, z).c4 == Mul(m, R).c4 && Translated(m, x, y, z).d4 == Mul(m, R).d4;
  }

  /** One row's offsets for two translations add up to the offset for their sum. */
  lemma SumOfOffsets(a: real, b: real, c: real, x1: real, y1: real, z1: real, x2: real, y2: real, z2: real)
    ensures (a * x1 + b * y1 + c * z1) + (a * x2 + b * y2 + c * z2)
         == a * (x1 + x2) + b * (y1 + y2) + c * (z1 + z2)
  {
  }

  /** Row 1 of `TranslateTwice`. */
  lemma TranslateTwiceRow1(m: M4, x1: real, y1: real, z1: real, x2: real, y2: real, z2: real)
    ensures Translated(Translated(m, x1, y1, z1), x2, y2, z2).d1 == Translated(m, x1 + x2, y1 + y2, z1 + z2).d1
  {
    SumOfOffsets(m.a1, m.b1, m.c1, x1, y1, z1, x2, y2, z2);
  }

  /** Row 2 of `TranslateTwice`. */
  lemma TranslateTwiceRow2(m: M4, x1: real, y1: real, z1: real, x2: real, y2: real, z2: real)
    ensures Translated(Translated(m, x1, y1, z1), x2, y2, z2).d2 == Translated(m, x1 + x2, y1 + y2, z1 + z2).d2
  {
    SumOfOffsets(m.a2, m.b2, m.c2, x1, y1, z1, x2, y2, z2);
  }

  /** Row 3 of `TranslateTwice`. */
  lemma TranslateTwiceRow3(m: M4, x1: real, y1: real, z1: real, x2: real, y2: real, z2: real)
    ensures Translated(Translated(m, x1, y1, z1), x2, y2, z2).d3 == Translated(m, x1 + x2, y1 + y2, z1 + z2).d3
  {
    SumOfOffsets(m.a3, m.b3, m.c3, x1, y1, z1, x2, y2, z2);
  }

  /** Row 4 of `TranslateTwice`. */
  lemma TranslateTwiceRow4(m: M4, x1: real, y1: real, z1: real, x2: real, y2: real, z2: real)
    ensures Translated(Translated(m, x1, y1, z1), x2, y2, z2).d4 == Translated(m, x1 + x2, y1 + y2, z1 + z2).d4
  {
    SumOfOffsets(m.a4, m.b4, m.c4, x1, y1, z1, x2, y2, z2);
  }

  /** Two translations in a row are one translation by the sum of the offsets. */
  lemma TranslateTwice(m: M4, x1: real, y1: real, z1: real, x2: real, y2: real, z2: real)
    ensures Translated(Translated(m, x1, y1, z1), x2, y2, z2) == Translated(m, x1 + x2, y1 + y2, z1 + z2)
  {
    TranslateTwiceRow1(m, x1, y1, z1, x2, y2, z2);
    TranslateTwiceRow2(m, x1, y1, z1, x2, y2, z2);
    TranslateTwiceRow3(m, x1, y1, z1, x2, y2, z2);
    TranslateTwiceRow4(m, x1, y1, z1, x2, y2, z2);
  }

  // ---------------------------------------------------------------------------
  // Scale
  // ---------------------------------------------------------------------------

  /** `Scale(1, 1, 1)` changes nothing; otherwise row 4 and column d are never touched. */
  lemma ScaleFootprint(m: M4, x: real, y: real, z: real)
    ensures Scaled(m, 1.0, 1.0, 1.0) == m
    ensures Scaled(m, x, y, z).d1 == m.d1 && Scaled(m, x, y, z).d2 == m.d2 && Scaled(m, x, y, z).d3 == m.d3
    ensures Scaled(m, x, y, z).(a1 := m.a1, b1 := m.b1, c1 := m.c1,
                                a2 := m.a2, b2 := m.b2, c2 := m.c2,
                                a3 := m.a3, b3 := m.b3, c3 := m.c3) == m
  {
  }

  /** `Scale` agrees with multiplying by the scaling matrix exactly when scaling row 4 would
      not change it, since the code leaves a4, b4, c4 alone. In particular it agrees on every
      matrix whose row 4 is (0, 0, 0, w). */
  lemma ScaleIsPostMultiplicationIff(m: M4, x: real, y: real, z: real)
    ensures Scaled(m, x, y, z) == Mul(m, ScaleMatrix(x, y, z))
        <==> m.a4 * x == m.a4 && m.b4 * y == m.b4 && m.c4 * z == m.c4
  {
    ScaleRowsAgree(m, x, y, z);
    ScaleRow4(m, x, y, z);
    Mat4Algebra.EqualsIsEntrywise(Scaled(m, x, y, z), Mul(m, ScaleMatrix(x, y, z)));
  }

  /** Rows 1 to 3 of `Scale` are those of the product with the scaling matrix. */
  lemma ScaleRowsAgree(m: M4, x: real, y: real, z: real)
    ensures Scaled(m, x, y, z).a1 == Mul(m, ScaleMatrix(x, y, z)).a1
    ensures Scaled(m, x, y, z).b1 == Mul(m, ScaleMatrix(x, y, z)).b1
    ensures Scaled(m, x, y, z).c1 == Mul(m, ScaleMatrix(x, y, z)).c1
    ensures Scaled(m, x, y, z).d1 == Mul(m, ScaleMatrix(x, y, z)).d1
    ensures Scaled(m, x, y, z).a2 == Mul(m, ScaleMatrix(x, y, z)).a2
    ensures Scaled(m, x, y, z).b2 == Mul(m, ScaleMatrix(x, y, z)).b2
    ensures Scaled(m, x, y, z).c2 == Mul(m, ScaleMatrix(x, y, z)).c2
    ensures Scaled(m, x, y, z).d2 == Mul(m, ScaleMatrix(x, y, z)).d2
    ensures Scaled(m, x, y, z).a3 == Mul(m, ScaleMatrix(x, y, z)).a3
    ensures Scaled(m, x, y, z).b3 == Mul(m, ScaleMatrix(x, y, z)).b3
    ensures Scaled(m, x, y, z).c3 == Mul(m, ScaleMatrix(x, y, z)).c3
    ensures Scaled(m, x, y, z).d3 == Mul(m, ScaleMatrix(x, y, z)).d3
  {
    MulRow1(m, ScaleMatrix(x, y, z));
    MulRow2(m, ScaleMatrix(x, y, z));
    MulRow3(m, ScaleMatrix(x, y, z));
  }

  /** Row 4: `Scale` keeps it, the product scales a4, b4, c4 by x, y, z. */
  lemma ScaleRow4(m: M4, x: real, y: real, z: real)
    ensures Scaled(m, x, y, z).a4 == m.a4 && Scaled(m, x, y, z).b4 == m.b4
    ensures Scaled(m, x, y, z).c4 == m.c4 && Scaled(m, x, y, z).d4 == m.d4
    ensures Mul(m, ScaleMatrix(x, y, z)).a4 == m.a4 * x && Mul(m, ScaleMatrix(x, y, z)).b4 == m.b4 * y
    ensures Mul(m, ScaleMatrix(x, y, z)).c4 == m.c4 * z && Mul(m, ScaleMatrix(x, y, z)).d4 == m.d4
  {
    MulRow4(m, ScaleMatrix(x, y, z));
  }

  /** Scaling the identity by x, y, z gives the scaling matrix. */
  lemma ScaleIdentity(x: real, y: real, z: real)
    ensures Scaled(Identity, x, y, z) == ScaleMatrix(x, y, z)
  {
  }

  // ---------------------------------------------------------------------------
  // RotateX, RotateY, RotateZ
  // ---------------------------------------------------------------------------

  /** The single-axis rotations write only two columns each: x keeps columns a and d, y keeps
      b and d, z keeps c and d. */
  lemma RotateFootprints(m: M4, sin: real, cos: real)
    ensures RotatedX(m, sin, cos).(b1 := m.b1, b2 := m.b2, b3 := m.b3, b4 := m.b4,
                                   c1 := m.c1, c2 := m.c2, c3 := m.c3, c4 := m.c4) == m
    ensures RotatedY(m, sin, cos).(a1 := m.a1, a2 := m.a2, a3 := m.a3, a4 := m.a4,
                                   c1 := m.c1, c2 := m.c2, c3 := m.c3, c4 := m.c4) == m
    ensures RotatedZ(m, sin, cos).(a1 := m.a1, a2 := m.a2, a3 := m.a3, a4 := m.a4,
                                   b1 := m.b1, b2 := m.b2, b3 := m.b3, b4 := m.b4) == m
  {
  }

  /** A row (a, b, c, d) against the columns of `AxisX(sin, cos)`, as `RotateX` writes it. */
  lemma AxisXRow(a: real, b: real, c: real, d: real, sin: real, cos: real)
    ensures a == a * 1.0 + b * 0.0 + c * 0.0 + d * 0.0
    ensures b * cos + c * sin == a * 0.0 + b * cos + c * sin + d * 0.0
    ensures b * -sin + c * cos == a * 0.0 + b * -sin + c * cos + d * 0.0
    ensures d == a * 0.0 + b * 0.0 + c * 0.0 + d * 1.0
  {
  }

  /** A row (a, b, c, d) against the columns of `AxisY(sin, cos)`, as `RotateY` writes it. */
  lemma AxisYRow(a: real, b: real, c: real, d: real, sin: real, cos: real)
    ensures a * cos + c * -sin == a * cos + b * 0.0 + c * -sin + d * 0.0
    ensures b == a * 0.0 + b * 1.0 + c * 0.0 + d * 0.0
    ensures a * sin + c * cos == a * sin + b * 0.0 + c * cos + d * 0.0
    ensures d == a * 0.0 + b * 0.0 + c * 0.0 + d * 1.0
  {
  }

  /** Row 1 of `RotateXIsPostMultiplication`. */
  lemma RotateXIsPostMultiplicationRow1(m: M4, sin: real, cos: real)
    ensures RotatedX(m, sin, cos).a1 == Mul(m, AxisX(sin, cos)).a1
    ensures RotatedX(m, sin, cos).b1 == Mul(m, AxisX(sin, cos)).b1
    ensures RotatedX(m, sin, cos).c1 == Mul(m, AxisX(sin, cos)).c1
    ensures RotatedX(m, sin, cos).d1 == Mul(m, AxisX(sin, cos)).d1
  {
    MulRow1(m, AxisX(sin, cos));
    AxisXRow(m.a1, m.b1, m.c1, m.d1, sin, cos);
  }

  /** Row 2 of `RotateXIsPostMultiplication`. */
  lemma RotateXIsPostMultiplicationRow2(m: M4, sin: real, cos: real)
    ensures RotatedX(m, sin, cos).a2 == Mul(m, AxisX(sin, cos)).a2
    ensures RotatedX(m, sin, cos).b2 == Mul(m, AxisX(sin, cos)).b2
    ensures RotatedX(m, sin, cos).c2 == Mul(m, AxisX(sin, cos)).c2
    ensures RotatedX(m, sin, cos).d2 == Mul(m, AxisX(sin, cos)).d2
  {
    MulRow2(m, AxisX(sin, cos));
    AxisXRow(m.a2, m.b2, m.c2, m.d2, sin, cos);
  }

  /** Row 3 of `RotateXIsPostMultiplication`. */
  lemma RotateXIsPostMultiplicationRow3(m: M4, sin: real, cos: real)
    ensures RotatedX(m, sin, cos).a3 == Mul(m, AxisX(sin, cos)).a3
    ensures RotatedX(m, sin, cos).b3 == Mul(m, AxisX(sin, cos)).b3
    ensures RotatedX(m, sin, cos).c3 == Mul(m, AxisX(sin, cos)).c3
    ensures RotatedX(m, sin, cos).d3 == Mul(m, AxisX(sin, cos)).d3
  {
    MulRow3(m, AxisX(sin, cos));
    AxisXRow(m.a3, m.b3, m.c3, m.d3, sin, cos);
  }

  /** Row 4 of `RotateXIsPostMultiplication`. */
  lemma RotateXIsPostMultiplicationRow4(m: M4, sin: real, cos: real)
    ensures RotatedX(m, sin, cos).a4 == Mul(m, AxisX(sin, cos)).a4
    ensures RotatedX(m, sin, cos).b4 == Mul(m, AxisX(sin, cos)).b4
    ensures RotatedX(m, sin, cos).c4 == Mul(m, AxisX(sin, cos)).c4
    ensures RotatedX(m, sin, cos).d4 == Mul(m, AxisX(sin, cos)).d4
  {
    MulRow4(m, AxisX(sin, cos));
    AxisXRow(m.a4, m.b4, m.c4, m.d4, sin, cos);
  }

  /** `RotateX` multiplies on the right by the rotation about x. */
  lemma RotateXIsPostMultiplication(m: M4, sin: real, cos: real)
    ensures RotatedX(m, sin, cos) == Mul(m, AxisX(sin, cos))
  {
    RotateXIsPostMultiplicationRow1(m, sin, cos);
    RotateXIsPostMultiplicationRow2(m, sin, cos);
    RotateXIsPostMultiplicationRow3(m, sin, cos);
    RotateXIsPostMultiplicationRow4(m, sin, cos);
  }

  /** Row 1 of `RotateYIsPostMultiplication`. */
  lemma RotateYIsPostMultiplicationRow1(m: M4, sin: real, cos: real)
    ensures RotatedY(m, sin, cos).a1 == Mul(m, AxisY(sin, cos)).a1
    ensures RotatedY(m, sin, cos).b1 == Mul(m, AxisY(sin, cos)).b1
    ensures RotatedY(m, sin, cos).c1 == Mul(m, AxisY(sin, cos)).c1
    ensures RotatedY(m, sin, cos).d1 == Mul(m, AxisY(sin, cos)).d1
  {
    MulRow1(m, AxisY(sin, cos));
    AxisYRow(m.a1, m.b1, m.c1, m.d1, sin, cos);
  }

  /** Row 2 of `RotateYIsPostMultiplication`. */
  lemma RotateYIsPostMultiplicationRow2(m: M4, sin: real, cos: real)
    ensures RotatedY(m, sin, cos).a2 == Mul(m, AxisY(sin, cos)).a2
    ensures RotatedY(m, sin, cos).b2 == Mul(m, AxisY(sin, cos)).b2
    ensures RotatedY(m, sin, cos).c2 == Mul(m, AxisY(sin, cos)).c2
    ensures RotatedY(m, sin, cos).d2 == Mul(m, AxisY(sin, cos)).d2
  {
    MulRow2(m, AxisY(sin, cos));
    AxisYRow(m.a2, m.b2, m.c2, m.d2, sin, cos);
  }

  /** Row 3 of `RotateYIsPostMultiplication`. */
  lemma RotateYIsPostMultiplicationRow3(m: M4, sin: real, cos: real)
    ensures RotatedY(m, sin, cos).a3 == Mul(m, AxisY(sin, cos)).a3
    ensures RotatedY(m, sin, cos).b3 == Mul(m, AxisY(sin, cos)).b3
    ensures RotatedY(m, sin, cos).c3 == Mul(m, AxisY(sin, cos)).c3
    ensures RotatedY(m, sin, cos).d3 == Mul(m, AxisY(sin, cos)).d3
  {
    var y, p := AxisY(sin, cos), RotatedY(m, sin, cos);
    assert y.a1 == cos && y.a2 == 0.0 && y.a3 == -sin && y.a4 == 0.0;
    assert y.b1 == 0.0 && y.b2 == 1.0 && y.b3 == 0.0 && y.b4 == 0.0;
    assert y.c1 == sin && y.c2 == 0.0 && y.c3 == cos && y.c4 == 0.0;
    assert y.d1 == 0.0 && y.d2 == 0.0 && y.d3 == 0.0 && y.d4 == 1.0;
    assert p.a3 == m.a3 * cos + m.c3 * -sin && p.b3 == m.b3;
    assert p.c3 == m.a3 * sin + m.c3 * cos && p.d3 == m.d3;
    MulRow3(m, y);
    AxisYRow(m.a3, m.b3, m.c3, m.d3, sin, cos);
  }

  /** Row 4 of `RotateYIsPostMultiplication`. */
  lemma RotateYIsPostMultiplicationRow4(m: M4, sin: real, cos: real)
    ensures RotatedY(m, sin, cos).a4 == Mul(m, AxisY(sin, cos)).a4
    ensures RotatedY(m, sin, cos).b4 == Mul(m, AxisY(sin, cos)).b4
    ensures RotatedY(m, sin, cos).c4 == Mul(m, AxisY(sin, cos)).c4
    ensures RotatedY(m, sin, cos).d4 == Mul(m, AxisY(sin, cos)).d4
  {
    var y, p := AxisY(sin, cos), RotatedY(m, sin, cos);
    assert y.a1 == cos && y.a2 == 0.0 && y.a3 == -sin && y.a4 == 0.0;
    assert y.b1 == 0.0 && y.b2 == 1.0 && y.b3 == 0.0 && y.b4 == 0.0;
    assert y.c1 == sin && y.c2 == 0.0 && y.c3 == cos && y.c4 == 0.0;
    assert y.d1 == 0.0 && y.d2 == 0.0 && y.d3 == 0.0 && y.d4 == 1.0;
    assert p.a4 == m.a4 * cos + m.c4 * -sin && p.b4 == m.b4;
    assert p.c4 == m.a4 * sin + m.c4 * cos && p.d4 == m.d4;
    MulRow4(m, y);
    AxisYRow(m.a4, m.b4, m.c4, m.d4, sin, cos);
  }

  /** `RotateY` multiplies on the right by the rotation about y. */
  lemma RotateYIsPostMultiplication(m: M4, sin: real, cos: real)
    ensures RotatedY(m, sin, cos) == Mul(m, AxisY(sin, cos))
  {
    RotateYIsPostMultiplicationRow1(m, sin, cos);
    RotateYIsPostMultiplicationRow2(m, sin, cos);
    RotateYIsPostMultiplicationRow3(m, sin, cos);
    RotateYIsPostMultiplicationRow4(m, sin, cos);
  }

  /** Row 1 of `RotateZIsPostMultiplicationByInverseAngle`. */
  lemma RotateZIsPostMultiplicationByInverseAngleRow1(m: M4, sin: real, cos: real)
    ensures RotatedZ(m, sin, cos).a1 == Mul(m, AxisZ(-sin, cos)).a1
    ensures RotatedZ(m, sin, cos).b1 == Mul(m, AxisZ(-sin, cos)).b1
    ensures RotatedZ(m, sin, cos).c1 == Mul(m, AxisZ(-sin, cos)).c1
    ensures RotatedZ(m, sin, cos).d1 == Mul(m, AxisZ(-sin, cos)).d1
  {
    MulRow1(m, AxisZ(-sin, cos));
    AxisZRow(m.a1, m.b1, m.c1, m.d1, sin, cos);
  }

  /** Row 2 of `RotateZIsPostMultiplicationByInverseAngle`. */
  lemma RotateZIsPostMultiplicationByInverseAngleRow2(m: M4, sin: real, cos: real)
    ensures RotatedZ(m, sin, cos).a2 == Mul(m, AxisZ(-sin, cos)).a2
    ensures RotatedZ(m, sin, cos).b2 == Mul(m, AxisZ(-sin, cos)).b2
    ensures RotatedZ(m, sin, cos).c2 == Mul(m, AxisZ(-sin, cos)).c2
    ensures RotatedZ(m, sin, cos).d2 == Mul(m, AxisZ(-sin, cos)).d2
  {
    MulRow2(m, AxisZ(-sin, cos));
    AxisZRow(m.a2, m.b2, m.c2, m.d2, sin, cos);
  }

  /** Row 3 of `RotateZIsPostMultiplicationByInverseAngle`. */
  lemma RotateZIsPostMultiplicationByInverseAngleRow3(m: M4, sin: real, cos: real)
    ensures RotatedZ(m, sin, cos).a3 == Mul(m, AxisZ(-sin, cos)).a3
    ensures RotatedZ(m, sin, cos).b3 == Mul(m, AxisZ(-sin, cos)).b3
    ensures RotatedZ(m, sin, cos).c3 == Mul(m, AxisZ(-sin, cos)).c3
    ensures RotatedZ(m, sin, cos).d3 == Mul(m, AxisZ(-sin, cos)).d3
  {
    MulRow3(m, AxisZ(-sin, cos));
    AxisZRow(m.a3, m.b3, m.c3, m.d3, sin, cos);
  }

  /** Row 4 of `RotateZIsPostMultiplicationByInverseAngle`. */
  lemma RotateZIsPostMultiplicationByInverseAngleRow4(m: M4, sin: real, cos: real)
    ensures RotatedZ(m, sin, cos).a4 == Mul(m, AxisZ(-sin, cos)).a4
    ensures RotatedZ(m, sin, cos).b4 == Mul(m, AxisZ(-sin, cos)).b4
    ensures RotatedZ(m, sin, cos).c4 == Mul(m, AxisZ(-sin, cos)).c4
    ensures RotatedZ(m, sin, cos).d4 == Mul(m, AxisZ(-sin, cos)).d4
  {
    MulRow4(m, AxisZ(-sin, cos));
    AxisZRow(m.a4, m.b4, m.c4, m.d4, sin, cos);
  }

  /** A row (a, b, c, d) against the columns of `AxisZ(-sin, cos)`, as `RotateZ` writes it. */
  lemma AxisZRow(a: real, b: real, c: real, d: real, sin: real, cos: real)
    ensures a * cos + b * -sin == a * cos + b * -sin + c * 0.0 + d * 0.0
    ensures a * sin + b * cos == a * -(-sin) + b * cos + c * 0.0 + d * 0.0
    ensures c == a * 0.0 + b * 0.0 + c * 1.0 + d * 0.0
    ensures d == a * 0.0 + b * 0.0 + c * 0.0 + d * 1.0
  {
  }

  /** `RotateZ` multiplies on the right by the rotation about z through the NEGATED angle: it
      turns the other way from `RotateX`, `RotateY` and the z part of `Rotate`. */
  lemma RotateZIsPostMultiplicationByInverseAngle(m: M4, sin: real, cos: real)
    ensures RotatedZ(m, sin, cos) == Mul(m, AxisZ(-sin, cos))
  {
    RotateZIsPostMultiplicationByInverseAngleRow1(m, sin, cos);
    RotateZIsPostMultiplicationByInverseAngleRow2(m, sin, cos);
    RotateZIsPostMultiplicationByInverseAngleRow3(m, sin, cos);
    RotateZIsPostMultiplicationByInverseAngleRow4(m, sin, cos);
  }

  /** One plane rotation followed by the rotation through the opposite angle restores the
      pair: (p, q) goes to (p1, q1) and back. */
  lemma UndoPlaneRotation(p: real, q: real, p1: real, q1: real, sin: real, cos: real)
    requires sin * sin + cos * cos == 1.0
    requires p1 == p * cos + q * sin && q1 == p * -sin + q * cos
    ensures p1 * cos + q1 * -sin == p
    ensures p1 * -(-sin) + q1 * cos == q
  {
    assert p1 * cos + q1 * -sin == p * (cos * cos + sin * sin);
    assert p1 * -(-sin) + q1 * cos == q * (sin * sin + cos * cos);
  }

  /** Row 1 of `RotateXRoundTrip`. */
  lemma RotateXRoundTripRow1(m: M4, sin: real, cos: real)
    requires sin * sin + cos * cos == 1.0
    ensures RotatedX(RotatedX(m, sin, cos), -sin, cos).b1 == m.b1
    ensures RotatedX(RotatedX(m, sin, cos), -sin, cos).c1 == m.c1
  {
    var r := RotatedX(m, sin, cos);
    UndoPlaneRotation(m.b1, m.c1, r.b1, r.c1, sin, cos);
  }

  /** Row 2 of `RotateXRoundTrip`. */
  lemma RotateXRoundTripRow2(m: M4, sin: real, cos: real)
    requires sin * sin + cos * cos == 1.0
    ensures RotatedX(RotatedX(m, sin, cos), -sin, cos).b2 == m.b2
    ensures RotatedX(RotatedX(m, sin, cos), -sin, cos).c2 == m.c2
  {
    var r := RotatedX(m, sin, cos);
    UndoPlaneRotation(m.b2, m.c2, r.b2, r.c2, sin, cos);
  }

  /** Row 3 of `RotateXRoundTrip`. */
  lemma RotateXRoundTripRow3(m: M4, sin: real, cos: real)
    requires sin * sin + cos * cos == 1.0
    ensures RotatedX(RotatedX(m, sin, cos), -sin, cos).b3 == m.b3
    ensures RotatedX(RotatedX(m, sin, cos), -sin, cos).c3 == m.c3
  {
    var r := RotatedX(m, sin, cos);
    UndoPlaneRotation(m.b3, m.c3, r.b3, r.c3, sin, cos);
  }

  /** Row 4 of `RotateXRoundTrip`. */
  lemma RotateXRoundTripRow4(m: M4, sin: real, cos: real)
    requires sin * sin + cos * cos == 1.0
    ensures RotatedX(RotatedX(m, sin, cos), -sin, cos).b4 == m.b4
    ensures RotatedX(RotatedX(m, sin, cos), -sin, cos).c4 == m.c4
  {
    var r := RotatedX(m, sin, cos);
    UndoPlaneRotation(m.b4, m.c4, r.b4, r.c4, sin, cos);
  }

  /** Rotating about x by an angle and then by its opposite (sine negated) gives back the matrix. */
  lemma RotateXRoundTrip(m: M4, sin: real, cos: real)
    requires sin * sin + cos * cos == 1.0
    ensures RotatedX(RotatedX(m, sin, cos), -sin, cos) == m
  {
    RotateXRoundTripRow1(m, sin, cos);
    RotateXRoundTripRow2(m, sin, cos);
    RotateXRoundTripRow3(m, sin, cos);
    RotateXRoundTripRow4(m, sin, cos);
  }

  /** Row 1 of `RotateYRoundTrip`. */
  lemma RotateYRoundTripRow1(m: M4, sin: real, cos: real)
    requires sin * sin + cos * cos == 1.0
    ensures RotatedY(RotatedY(m, sin, cos), -sin, cos).a1 == m.a1
    ensures RotatedY(RotatedY(m, sin, cos), -sin, cos).c1 == m.c1
  {
    var r := RotatedY(m, sin, cos);
    UndoPlaneRotation(m.a1, m.c1, r.a1, r.c1, -sin, cos);
  }

  /** Row 2 of `RotateYRoundTrip`. */
  lemma RotateYRoundTripRow2(m: M4, sin: real, cos: real)
    requires sin * sin + cos * cos == 1.0
    ensures RotatedY(RotatedY(m, sin, cos), -sin, cos).a2 == m.a2
    ensures RotatedY(RotatedY(m, sin, cos), -sin, cos).c2 == m.c2
  {
    var r := RotatedY(m, sin, cos);
    UndoPlaneRotation(m.a2, m.c2, r.a2, r.c2, -sin, cos);
  }

  /** Row 3 of `RotateYRoundTrip`. */
  lemma RotateYRoundTripRow3(m: M4, sin: real, cos: real)
    requires sin * sin + cos * cos == 1.0
    ensures RotatedY(RotatedY(m, sin, cos), -sin, cos).a3 == m.a3
    ensures RotatedY(RotatedY(m, sin, cos), -sin, cos).c3 == m.c3
  {
    var r := RotatedY(m, sin, cos);
    UndoPlaneRotation(m.a3, m.c3, r.a3, r.c3, -sin, cos);
  }

  /** Row 4 of `RotateYRoundTrip`. */
  lemma RotateYRoundTripRow4(m: M4, sin: real, cos: real)
    requires sin * sin + cos * cos == 1.0
    ensures RotatedY(RotatedY(m, sin, cos), -sin, cos).a4 == m.a4
    ensures RotatedY(RotatedY(m, sin, cos), -sin, cos).c4 == m.c4
  {
    var r := RotatedY(m, sin, cos);
    UndoPlaneRotation(m.a4, m.c4, r.a4, r.c4, -sin, cos);
  }

  /** Rotating about y by an angle and then by its opposite gives back the matrix. */
  lemma RotateYRoundTrip(m: M4, sin: real, cos: real)
    requires sin * sin + cos * cos == 1.0
    ensures RotatedY(RotatedY(m, sin, cos), -sin, cos) == m
  {
    RotateYRoundTripRow1(m, sin, cos);
    RotateYRoundTripRow2(m, sin, cos);
    RotateYRoundTripRow3(m, sin, cos);
    RotateYRoundTripRow4(m, sin, cos);
  }

  /** Row 1 of `RotateZRoundTrip`. */
  lemma RotateZRoundTripRow1(m: M4, sin: real, cos: real)
    requires sin * sin + cos * cos == 1.0
    ensures RotatedZ(RotatedZ(m, sin, cos), -sin, cos).a1 == m.a1
    ensures RotatedZ(RotatedZ(m, sin, cos), -sin, cos).b1 == m.b1
  {
    var r := RotatedZ(m, sin, cos);
    UndoPlaneRotation(m.a1, m.b1, r.a1, r.b1, -sin, cos);
  }

  /** Row 2 of `RotateZRoundTrip`. */
  lemma RotateZRoundTripRow2(m: M4, sin: real, cos: real)
    requires sin * sin + cos * cos == 1.0
    ensures RotatedZ(RotatedZ(m, sin, cos), -sin, cos).a2 == m.a2
    ensures RotatedZ(RotatedZ(m, sin, cos), -sin, cos).b2 == m.b2
  {
    var r := RotatedZ(m, sin, cos);
    UndoPlaneRotation(m.a2, m.b2, r.a2, r.b2, -sin, cos);
  }

  /** Row 3 of `RotateZRoundTrip`. */
  lemma RotateZRoundTripRow3(m: M4, sin: real, cos: real)
    requires sin * sin + cos * cos == 1.0
    ensures RotatedZ(RotatedZ(m, sin, cos), -sin, cos).a3 == m.a3
    ensures RotatedZ(RotatedZ(m, sin, cos), -sin, cos).b3 == m.b3
  {
    var r := RotatedZ(m, sin, cos);
    UndoPlaneRotation(m.a3, m.b3, r.a3, r.b3, -sin, cos);
  }

  /** Row 4 of `RotateZRoundTrip`. */
  lemma RotateZRoundTripRow4(m: M4, sin: real, cos: real)
    requires sin * sin + cos * cos == 1.0
    ensures RotatedZ(RotatedZ(m, sin, cos), -sin, cos).a4 == m.a4
    ensures RotatedZ(RotatedZ(m, sin, cos), -sin, cos).b4 == m.b4
  {
    var r := RotatedZ(m, sin, cos);
    UndoPlaneRotation(m.a4, m.b4, r.a4, r.b4, -sin, cos);
  }

  /** Rotating about z by an angle and then by its opposite gives back the matrix. */
  lemma RotateZRoundTrip(m: M4, sin: real, cos: real)
    requires sin * sin + cos * cos == 1.0
    ensures RotatedZ(RotatedZ(m, sin, cos), -sin, cos) == m
  {
    RotateZRoundTripRow1(m, sin, cos);
    RotateZRoundTripRow2(m, sin, cos);
    RotateZRoundTripRow3(m, sin, cos);
    RotateZRoundTripRow4(m, sin, cos);
  }

  // ---------------------------------------------------------------------------
  // Rotate(x, y, z, order)
  // ---------------------------------------------------------------------------

  /** Exactly the orders XYZ and ZYX have a formula; the other four throw. */
  lemma EulerOrdersSupported(order: EulerOrder, t: EulerTrig)
    ensures EulerBlock(order, t).Ok? <==> order == XYZ || order == ZYX
    ensures EulerBlock(order, t).Err? ==> EulerBlock(order, t).error == NotSupported
    ensures EulerBlock(order, t).Ok? ==> IsLinearBlock(EulerBlock(order, t).value)
  {
  }

  /** `Rotate` never writes column d, whatever the block. */
  lemma RotatedByKeepsColumnD(m: M4, r: M4)
    ensures RotatedBy(m, r).d1 == m.d1 && RotatedBy(m, r).d2 == m.d2
    ensures RotatedBy(m, r).d3 == m.d3 && RotatedBy(m, r).d4 == m.d4
  {
  }

  /** Row 1 of `RotatedByIsPostMultiplication`. */
  lemma RotatedByIsPostMultiplicationRow1(m: M4, r: M4)
    requires IsLinearBlock(r)
    ensures RotatedBy(m, r).a1 == Mul(m, r).a1
    ensures RotatedBy(m, r).b1 == Mul(m, r).b1
    ensures RotatedBy(m, r).c1 == Mul(m, r).c1
    ensures RotatedBy(m, r).d1 == Mul(m, r).d1
  {
    MulRow1(m, r);
  }

  /** Row 2 of `RotatedByIsPostMultiplication`. */
  lemma RotatedByIsPostMultiplicationRow2(m: M4, r: M4)
    requires IsLinearBlock(r)
    ensures RotatedBy(m, r).a2 == Mul(m, r).a2
    ensures RotatedBy(m, r).b2 == Mul(m, r).b2
    ensures RotatedBy(m, r).c2 == Mul(m, r).c2
    ensures RotatedBy(m, r).d2 == Mul(m, r).d2
  {
    MulRow2(m, r);
  }

  /** Row 3 of `RotatedByIsPostMultiplication`. */
  lemma RotatedByIsPostMultiplicationRow3(m: M4, r: M4)
    requires IsLinearBlock(r)
    ensures RotatedBy(m, r).a3 == Mul(m, r).a3
    ensures RotatedBy(m, r).b3 == Mul(m, r).b3
    ensures RotatedBy(m, r).c3 == Mul(m, r).c3
    ensures RotatedBy(m, r).d3 == Mul(m, r).d3
  {
    MulRow3(m, r);
  }

  /** Row 4 of `RotatedByIsPostMultiplication`. */
  lemma RotatedByIsPostMultiplicationRow4(m: M4, r: M4)
    requires IsLinearBlock(r)
    ensures RotatedBy(m, r).a4 == Mul(m, r).a4
    ensures RotatedBy(m, r).b4 == Mul(m, r).b4
    ensures RotatedBy(m, r).c4 == Mul(m, r).c4
    ensures RotatedBy(m, r).d4 == Mul(m, r).d4
  {
    MulRow4(m, r);
  }

  /** With a block of the shape `Rotate` builds, rewriting columns a, b, c is the product. */
  lemma RotatedByIsPostMultiplication(m: M4, r: M4)
    requires IsLinearBlock(r)
    ensures RotatedBy(m, r) == Mul(m, r)
  {
    RotatedByIsPostMultiplicationRow1(m, r);
    RotatedByIsPostMultiplicationRow2(m, r);
    RotatedByIsPostMultiplicationRow3(m, r);
    RotatedByIsPostMultiplicationRow4(m, r);
  }

  /** Entry (1, 1) of `EulerXYZIsProduct`. */
  lemma EulerXYZIsProductAt11(t: EulerTrig)
    ensures EulerBlock(XYZ, t).value.a1 == Mul(Mul(AxisX(t.sinA, t.cosA), AxisY(t.sinB, t.cosB)), AxisZ(t.sinC, t.cosC)).a1
  {
    MulRow1(AxisX(t.sinA, t.cosA), AxisY(t.sinB, t.cosB));
    MulRow1(Mul(AxisX(t.sinA, t.cosA), AxisY(t.sinB, t.cosB)), AxisZ(t.sinC, t.cosC));
  }

  /** Entry (1, 2) of `EulerXYZIsProduct`. */
  lemma EulerXYZIsProductAt12(t: EulerTrig)
    ensures EulerBlock(XYZ, t).value.b1 == Mul(Mul(AxisX(t.sinA, t.cosA), AxisY(t.sinB, t.cosB)), AxisZ(t.sinC, t.cosC)).b1
  {
    MulRow1(AxisX(t.sinA, t.cosA), AxisY(t.sinB, t.cosB));
    MulRow1(Mul(AxisX(t.sinA, t.cosA), AxisY(t.sinB, t.cosB)), AxisZ(t.sinC, t.cosC));
  }

  /** Entry (1, 3) of `EulerXYZIsProduct`. */
  lemma EulerXYZIsProductAt13(t: EulerTrig)
    ensures EulerBlock(XYZ, t).value.c1 == Mul(Mul(AxisX(t.sinA, t.cosA), AxisY(t.sinB, t.cosB)), AxisZ(t.sinC, t.cosC)).c1
  {
    MulRow1(AxisX(t.sinA, t.cosA), AxisY(t.sinB, t.cosB));
    MulRow1(Mul(AxisX(t.sinA, t.cosA), AxisY(t.sinB, t.cosB)), AxisZ(t.sinC, t.cosC));
  }

  /** Entry (1, 4) of `EulerXYZIsProduct`. */
  lemma EulerXYZIsProductAt14(t: EulerTrig)
    ensures EulerBlock(XYZ, t).value.d1 == Mul(Mul(AxisX(t.sinA, t.cosA), AxisY(t.sinB, t.cosB)), AxisZ(t.sinC, t.cosC)).d1
  {
    MulRow1(AxisX(t.sinA, t.cosA), AxisY(t.sinB, t.cosB));
    MulRow1(Mul(AxisX(t.sinA, t.cosA), AxisY(t.sinB, t.cosB)), AxisZ(t.sinC, t.cosC));
  }

  /** Entry (2, 1) of `EulerXYZIsProduct`. */
  lemma EulerXYZIsProductAt21(t: EulerTrig)
    ensures EulerBlock(XYZ, t).value.a2 == Mul(Mul(AxisX(t.sinA, t.cosA), AxisY(t.sinB, t.cosB)), AxisZ(t.sinC, t.cosC)).a2
  {
    MulRow2(AxisX(t.sinA, t.cosA), AxisY(t.sinB, t.cosB));
    MulRow2(Mul(AxisX(t.sinA, t.cosA), AxisY(t.sinB, t.cosB)), AxisZ(t.sinC, t.cosC));
  }

  /** Entry (2, 2) of `EulerXYZIsProduct`. */
  lemma EulerXYZIsProductAt22(t: EulerTrig)
    ensures EulerBlock(XYZ, t).value.b2 == Mul(Mul(AxisX(t.sinA, t.cosA), AxisY(t.sinB, t.cosB)), AxisZ(t.sinC, t.cosC)).b2
  {
    MulRow2(AxisX(t.sinA, t.cosA), AxisY(t.sinB, t.cosB));
    MulRow2(Mul(AxisX(t.sinA, t.cosA), AxisY(t.sinB, t.cosB)), AxisZ(t.sinC, t.cosC));
  }

  /** Entry (2, 3) of `EulerXYZIsProduct`. */
  lemma EulerXYZIsProductAt23(t: EulerTrig)
    ensures EulerBlock(XYZ, t).value.c2 == Mul(Mul(AxisX(t.sinA, t.cosA), AxisY(t.sinB, t.cosB)), AxisZ(t.sinC, t.cosC)).c2
  {
    MulRow2(AxisX(t.sinA, t.cosA), AxisY(t.sinB, t.cosB));
    MulRow2(Mul(AxisX(t.sinA, t.cosA), AxisY(t.sinB, t.cosB)), AxisZ(t.sinC, t.cosC));
  }

  /** Entry (2, 4) of `EulerXYZIsProduct`. */
  lemma EulerXYZIsProductAt24(t: EulerTrig)
    ensures EulerBlock(XYZ, t).value.d2 == Mul(Mul(AxisX(t.sinA, t.cosA), AxisY(t.sinB, t.cosB)), AxisZ(t.sinC, t.cosC)).d2
  {
    MulRow2(AxisX(t.sinA, t.cosA), AxisY(t.sinB, t.cosB));
    MulRow2(Mul(AxisX(t.sinA, t.cosA), AxisY(t.sinB, t.cosB)), AxisZ(t.sinC, t.cosC));
  }

  /** Entry (3, 1) of `EulerXYZIsProduct`. */
  lemma EulerXYZIsProductAt31(t: EulerTrig)
    ensures EulerBlock(XYZ, t).value.a3 == Mul(Mul(AxisX(t.sinA, t.cosA), AxisY(t.sinB, t.cosB)), AxisZ(t.sinC, t.cosC)).a3
  {
    MulRow3(AxisX(t.sinA, t.cosA), AxisY(t.sinB, t.cosB));
    MulRow3(Mul(AxisX(t.sinA, t.cosA), AxisY(t.sinB, t.cosB)), AxisZ(t.sinC, t.cosC));
  }

  /** Entry (3, 2) of `EulerXYZIsProduct`. */
  lemma EulerXYZIsProductAt32(t: EulerTrig)
    ensures EulerBlock(XYZ, t).value.b3 == Mul(Mul(AxisX(t.sinA, t.cosA), AxisY(t.sinB, t.cosB)), AxisZ(t.sinC, t.cosC)).b3
  {
    MulRow3(AxisX(t.sinA, t.cosA), AxisY(t.sinB, t.cosB));
    MulRow3(Mul(AxisX(t.sinA, t.cosA), AxisY(t.sinB, t.cosB)), AxisZ(t.sinC, t.cosC));
  }

  /** Entry (3, 3) of `EulerXYZIsProduct`. */
  lemma EulerXYZIsProductAt33(t: EulerTrig)
    ensures EulerBlock(XYZ, t).value.c3 == Mul(Mul(AxisX(t.sinA, t.cosA), AxisY(t.sinB, t.cosB)), AxisZ(t.sinC, t.cosC)).c3
  {
    MulRow3(AxisX(t.sinA, t.cosA), AxisY(t.sinB, t.cosB));
    MulRow3(Mul(AxisX(t.sinA, t.cosA), AxisY(t.sinB, t.cosB)), AxisZ(t.sinC, t.cosC));
  }

  /** Entry (3, 4) of `EulerXYZIsProduct`. */
  lemma EulerXYZIsProductAt34(t: EulerTrig)
    ensures EulerBlock(XYZ, t).value.d3 == Mul(Mul(AxisX(t.sinA, t.cosA), AxisY(t.sinB, t.cosB)), AxisZ(t.sinC, t.cosC)).d3
  {
    MulRow3(AxisX(t.sinA, t.cosA), AxisY(t.sinB, t.cosB));
    MulRow3(Mul(AxisX(t.sinA, t.cosA), AxisY(t.sinB, t.cosB)), AxisZ(t.sinC, t.cosC));
  }

  /** Entry (4, 1) of `EulerXYZIsProduct`. */
  lemma EulerXYZIsProductAt41(t: EulerTrig)
    ensures EulerBlock(XYZ, t).value.a4 == Mul(Mul(AxisX(t.sinA, t.cosA), AxisY(t.sinB, t.cosB)), AxisZ(t.sinC, t.cosC)).a4
  {
    MulRow4(AxisX(t.sinA, t.cosA), AxisY(t.sinB, t.cosB));
    MulRow4(Mul(AxisX(t.sinA, t.cosA), AxisY(t.sinB, t.cosB)), AxisZ(t.sinC, t.cosC));
  }

  /** Entry (4, 2) of `EulerXYZIsProduct`. */
  lemma EulerXYZIsProductAt42(t: EulerTrig)
    ensures EulerBlock(XYZ, t).value.b4 == Mul(Mul(AxisX(t.sinA, t.cosA), AxisY(t.sinB, t.cosB)), AxisZ(t.sinC, t.cosC)).b4
  {
    MulRow4(AxisX(t.sinA, t.cosA), AxisY(t.sinB, t.cosB));
    MulRow4(Mul(AxisX(t.sinA, t.cosA), AxisY(t.sinB, t.cosB)), AxisZ(t.sinC, t.cosC));
  }

  /** Entry (4, 3) of `EulerXYZIsProduct`. */
  lemma EulerXYZIsProductAt43(t: EulerTrig)
    ensures EulerBlock(XYZ, t).value.c4 == Mul(Mul(AxisX(t.sinA, t.cosA), AxisY(t.sinB, t.cosB)), AxisZ(t.sinC, t.cosC)).c4
  {
    MulRow4(AxisX(t.sinA, t.cosA), AxisY(t.sinB, t.cosB));
    MulRow4(Mul(AxisX(t.sinA, t.cosA), AxisY(t.sinB, t.cosB)), AxisZ(t.sinC, t.cosC));
  }

  /** Entry (4, 4) of `EulerXYZIsProduct`. */
  lemma EulerXYZIsProductAt44(t: EulerTrig)
    ensures EulerBlock(XYZ, t).value.d4 == Mul(Mul(AxisX(t.sinA, t.cosA), AxisY(t.sinB, t.cosB)), AxisZ(t.sinC, t.cosC)).d4
  {
    MulRow4(AxisX(t.sinA, t.cosA), AxisY(t.sinB, t.cosB));
    MulRow4(Mul(AxisX(t.sinA, t.cosA), AxisY(t.sinB, t.cosB)), AxisZ(t.sinC, t.cosC));
  }

  /** The XYZ block rotates about x, then y, then z: Rx * Ry * Rz. */
  lemma EulerXYZIsProduct(t: EulerTrig)
    ensures EulerBlock(XYZ, t)
         == Ok(Mul(Mul(AxisX(t.sinA, t.cosA), AxisY(t.sinB, t.cosB)), AxisZ(t.sinC, t.cosC)))
  {
    EulerXYZIsProductAt11(t);
    EulerXYZIsProductAt12(t);
    EulerXYZIsProductAt13(t);
    EulerXYZIsProductAt14(t);
    EulerXYZIsProductAt21(t);
    EulerXYZIsProductAt22(t);
    EulerXYZIsProductAt23(t);
    EulerXYZIsProductAt24(t);
    EulerXYZIsProductAt31(t);
    EulerXYZIsProductAt32(t);
    EulerXYZIsProductAt33(t);
    EulerXYZIsProductAt34(t);
    EulerXYZIsProductAt41(t);
    EulerXYZIsProductAt42(t);
    EulerXYZIsProductAt43(t);
    EulerXYZIsProductAt44(t);
  }

  /** Entry (1, 1) of `EulerZYXIsProduct`. */
  lemma EulerZYXIsProductAt11(t: EulerTrig)
    ensures EulerBlock(ZYX, t).value.a1 == Mul(Mul(AxisZ(t.sinC, t.cosC), AxisY(t.sinB, t.cosB)), AxisX(t.sinA, t.cosA)).a1
  {
    MulRow1(AxisZ(t.sinC, t.cosC), AxisY(t.sinB, t.cosB));
    MulRow1(Mul(AxisZ(t.sinC, t.cosC), AxisY(t.sinB, t.cosB)), AxisX(t.sinA, t.cosA));
  }

  /** Entry (1, 2) of `EulerZYXIsProduct`. */
  lemma EulerZYXIsProductAt12(t: EulerTrig)
    ensures EulerBlock(ZYX, t).value.b1 == Mul(Mul(AxisZ(t.sinC, t.cosC), AxisY(t.sinB, t.cosB)), AxisX(t.sinA, t.cosA)).b1
  {
    MulRow1(AxisZ(t.sinC, t.cosC), AxisY(t.sinB, t.cosB));
    MulRow1(Mul(AxisZ(t.sinC, t.cosC), AxisY(t.sinB, t.cosB)), AxisX(t.sinA, t.cosA));
  }

  /** Entry (1, 3) of `EulerZYXIsProduct`. */
  lemma EulerZYXIsProductAt13(t: EulerTrig)
    ensures EulerBlock(ZYX, t).value.c1 == Mul(Mul(AxisZ(t.sinC, t.cosC), AxisY(t.sinB, t.cosB)), AxisX(t.sinA, t.cosA)).c1
  {
    MulRow1(AxisZ(t.sinC, t.cosC), AxisY(t.sinB, t.cosB));
    MulRow1(Mul(AxisZ(t.sinC, t.cosC), AxisY(t.sinB, t.cosB)), AxisX(t.sinA, t.cosA));
  }

  /** Entry (1, 4) of `EulerZYXIsProduct`. */
  lemma EulerZYXIsProductAt14(t: EulerTrig)
    ensures EulerBlock(ZYX, t).value.d1 == Mul(Mul(AxisZ(t.sinC, t.cosC), AxisY(t.sinB, t.cosB)), AxisX(t.sinA, t.cosA)).d1
  {
    MulRow1(AxisZ(t.sinC, t.cosC), AxisY(t.sinB, t.cosB));
    MulRow1(Mul(AxisZ(t.sinC, t.cosC), AxisY(t.sinB, t.cosB)), AxisX(t.sinA, t.cosA));
  }

  /** Entry (2, 1) of `EulerZYXIsProduct`. */
  lemma EulerZYXIsProductAt21(t: EulerTrig)
    ensures EulerBlock(ZYX, t).value.a2 == Mul(Mul(AxisZ(t.sinC, t.cosC), AxisY(t.sinB, t.cosB)), AxisX(t.sinA, t.cosA)).a2
  {
    MulRow2(AxisZ(t.sinC, t.cosC), AxisY(t.sinB, t.cosB));
    MulRow2(Mul(AxisZ(t.sinC, t.cosC), AxisY(t.sinB, t.cosB)), AxisX(t.sinA, t.cosA));
  }

  /** Entry (2, 2) of `EulerZYXIsProduct`. */
  lemma EulerZYXIsProductAt22(t: EulerTrig)
    ensures EulerBlock(ZYX, t).value.b2 == Mul(Mul(AxisZ(t.sinC, t.cosC), AxisY(t.sinB, t.cosB)), AxisX(t.sinA, t.cosA)).b2
  {
    MulRow2(AxisZ(t.sinC, t.cosC), AxisY(t.sinB, t.cosB));
    MulRow2(Mul(AxisZ(t.sinC, t.cosC), AxisY(t.sinB, t.cosB)), AxisX(t.sinA, t.cosA));
  }

  /** Entry (2, 3) of `EulerZYXIsProduct`. */
  lemma EulerZYXIsProductAt23(t: EulerTrig)
    ensures EulerBlock(ZYX, t).value.c2 == Mul(Mul(AxisZ(t.sinC, t.cosC), AxisY(t.sinB, t.cosB)), AxisX(t.sinA, t.cosA)).c2
  {
    MulRow2(AxisZ(t.sinC, t.cosC), AxisY(t.sinB, t.cosB));
    MulRow2(Mul(AxisZ(t.sinC, t.cosC), AxisY(t.sinB, t.cosB)), AxisX(t.sinA, t.cosA));
  }

  /** Entry (2, 4) of `EulerZYXIsProduct`. */
  lemma EulerZYXIsProductAt24(t: EulerTrig)
    ensures EulerBlock(ZYX, t).value.d2 == Mul(Mul(AxisZ(t.sinC, t.cosC), AxisY(t.sinB, t.cosB)), AxisX(t.sinA, t.cosA)).d2
  {
    MulRow2(AxisZ(t.sinC, t.cosC), AxisY(t.sinB, t.cosB));
    MulRow2(Mul(AxisZ(t.sinC, t.cosC), AxisY(t.sinB, t.cosB)), AxisX(t.sinA, t.cosA));
  }

  /** Entry (3, 1) of `EulerZYXIsProduct`. */
  lemma EulerZYXIsProductAt31(t: EulerTrig)
    ensures EulerBlock(ZYX, t).value.a3 == Mul(Mul(AxisZ(t.sinC, t.cosC), AxisY(t.sinB, t.cosB)), AxisX(t.sinA, t.cosA)).a3
  {
    MulRow3(AxisZ(t.sinC, t.cosC), AxisY(t.sinB, t.cosB));
    MulRow3(Mul(AxisZ(t.sinC, t.cosC), AxisY(t.sinB, t.cosB)), AxisX(t.sinA, t.cosA));
  }

  /** Entry (3, 2) of `EulerZYXIsProduct`. */
  lemma EulerZYXIsProductAt32(t: EulerTrig)
    ensures EulerBlock(ZYX, t).value.b3 == Mul(Mul(AxisZ(t.sinC, t.cosC), AxisY(t.sinB, t.cosB)), AxisX(t.sinA, t.cosA)).b3
  {
    MulRow3(AxisZ(t.sinC, t.cosC), AxisY(t.sinB, t.cosB));
    MulRow3(Mul(AxisZ(t.sinC, t.cosC), AxisY(t.sinB, t.cosB)), AxisX(t.sinA, t.cosA));
  }

  /** Entry (3, 3) of `EulerZYXIsProduct`. */
  lemma EulerZYXIsProductAt33(t: EulerTrig)
    ensures EulerBlock(ZYX, t).value.c3 == Mul(Mul(AxisZ(t.sinC, t.cosC), AxisY(t.sinB, t.cosB)), AxisX(t.sinA, t.cosA)).c3
  {
    MulRow3(AxisZ(t.sinC, t.cosC), AxisY(t.sinB, t.cosB));
    MulRow3(Mul(AxisZ(t.sinC, t.cosC), AxisY(t.sinB, t.cosB)), AxisX(t.sinA, t.cosA));
  }

  /** Entry (3, 4) of `EulerZYXIsProduct`. */
  lemma EulerZYXIsProductAt34(t: EulerTrig)
    ensures EulerBlock(ZYX, t).value.d3 == Mul(Mul(AxisZ(t.sinC, t.cosC), AxisY(t.sinB, t.cosB)), AxisX(t.sinA, t.cosA)).d3
  {
    MulRow3(AxisZ(t.sinC, t.cosC), AxisY(t.sinB, t.cosB));
    MulRow3(Mul(AxisZ(t.sinC, t.cosC), AxisY(t.sinB, t.cosB)), AxisX(t.sinA, t.cosA));
  }

  /** Entry (4, 1) of `EulerZYXIsProduct`. */
  lemma EulerZYXIsProductAt41(t: EulerTrig)
    ensures EulerBlock(ZYX, t).value.a4 == Mul(Mul(AxisZ(t.sinC, t.cosC), AxisY(t.sinB, t.cosB)), AxisX(t.sinA, t.cosA)).a4
  {
    MulRow4(AxisZ(t.sinC, t.cosC), AxisY(t.sinB, t.cosB));
    MulRow4(Mul(AxisZ(t.sinC, t.cosC), AxisY(t.sinB, t.cosB)), AxisX(t.sinA, t.cosA));
  }

  /** Entry (4, 2) of `EulerZYXIsProduct`. */
  lemma EulerZYXIsProductAt42(t: EulerTrig)
    ensures EulerBlock(ZYX, t).value.b4 == Mul(Mul(AxisZ(t.sinC, t.cosC), AxisY(t.sinB, t.cosB)), AxisX(t.sinA, t.cosA)).b4
  {
    MulRow4(AxisZ(t.sinC, t.cosC), AxisY(t.sinB, t.cosB));
    MulRow4(Mul(AxisZ(t.sinC, t.cosC), AxisY(t.sinB, t.cosB)), AxisX(t.sinA, t.cosA));
  }

  /** Entry (4, 3) of `EulerZYXIsProduct`. */
  lemma EulerZYXIsProductAt43(t: EulerTrig)
    ensures EulerBlock(ZYX, t).value.c4 == Mul(Mul(AxisZ(t.sinC, t.cosC), AxisY(t.sinB, t.cosB)), AxisX(t.sinA, t.cosA)).c4
  {
    MulRow4(AxisZ(t.sinC, t.cosC), AxisY(t.sinB, t.cosB));
    MulRow4(Mul(AxisZ(t.sinC, t.cosC), AxisY(t.sinB, t.cosB)), AxisX(t.sinA, t.cosA));
  }

  /** Entry (4, 4) of `EulerZYXIsProduct`. */
  lemma EulerZYXIsProductAt44(t: EulerTrig)
    ensures EulerBlock(ZYX, t).value.d4 == Mul(Mul(AxisZ(t.sinC, t.cosC), AxisY(t.sinB, t.cosB)), AxisX(t.sinA, t.cosA)).d4
  {
    MulRow4(AxisZ(t.sinC, t.cosC), AxisY(t.sinB, t.cosB));
    MulRow4(Mul(AxisZ(t.sinC, t.cosC), AxisY(t.sinB, t.cosB)), AxisX(t.sinA, t.cosA));
  }

  /** The ZYX block is the product the other way round: Rz * Ry * Rx. */
  lemma EulerZYXIsProduct(t: EulerTrig)
    ensures EulerBlock(ZYX, t)
         == Ok(Mul(Mul(AxisZ(t.sinC, t.cosC), AxisY(t.sinB, t.cosB)), AxisX(t.sinA, t.cosA)))
  {
    EulerZYXIsProductAt11(t);
    EulerZYXIsProductAt12(t);
    EulerZYXIsProductAt13(t);
    EulerZYXIsProductAt14(t);
    EulerZYXIsProductAt21(t);
    EulerZYXIsProductAt22(t);
    EulerZYXIsProductAt23(t);
    EulerZYXIsProductAt24(t);
    EulerZYXIsProductAt31(t);
    EulerZYXIsProductAt32(t);
    EulerZYXIsProductAt33(t);
    EulerZYXIsProductAt34(t);
    EulerZYXIsProductAt41(t);
    EulerZYXIsProductAt42(t);
    EulerZYXIsProductAt43(t);
    EulerZYXIsProductAt44(t);
  }

  /** With only the x angle nonzero, `Rotate` agrees with `RotateX`. */
  lemma EulerSingleAxisX(m: M4, sin: real, cos: real)
    ensures RotatedBy(m, EulerBlock(XYZ, EulerTrig(sin, cos, 0.0, 1.0, 0.0, 1.0)).value) == RotatedX(m, sin, cos)
  {
    assert EulerBlock(XYZ, EulerTrig(sin, cos, 0.0, 1.0, 0.0, 1.0)).value == AxisX(sin, cos);
    RotatedByIsPostMultiplication(m, AxisX(sin, cos));
    RotateXIsPostMultiplication(m, sin, cos);
  }

  /** With only the y angle nonzero, `Rotate` agrees with `RotateY`. */
  lemma EulerSingleAxisY(m: M4, sin: real, cos: real)
    ensures RotatedBy(m, EulerBlock(XYZ, EulerTrig(0.0, 1.0, sin, cos, 0.0, 1.0)).value) == RotatedY(m, sin, cos)
  {
    assert EulerBlock(XYZ, EulerTrig(0.0, 1.0, sin, cos, 0.0, 1.0)).value == AxisY(sin, cos);
    RotatedByIsPostMultiplication(m, AxisY(sin, cos));
    RotateYIsPostMultiplication(m, sin, cos);
  }

  /** With only the z angle nonzero, `Rotate` agrees with `RotateZ` through the opposite angle:
      the two turn z the opposite ways. */
  lemma EulerSingleAxisZ(m: M4, sin: real, cos: real)
    ensures RotatedBy(m, EulerBlock(XYZ, EulerTrig(0.0, 1.0, 0.0, 1.0, sin, cos)).value) == RotatedZ(m, -sin, cos)
  {
    assert EulerBlock(XYZ, EulerTrig(0.0, 1.0, 0.0, 1.0, sin, cos)).value == AxisZ(sin, cos);
    RotatedByIsPostMultiplication(m, AxisZ(sin, cos));
    RotateZIsPostMultiplicationByInverseAngle(m, -sin, cos);
  }
}
