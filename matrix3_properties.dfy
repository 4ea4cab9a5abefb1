/** What the operations of `Matrix3` promise, and the precedence slip in `Inverse`. */
module Mat3Properties {
  import opened Mat3
  import Mat4Transforms

  /** Column c is (0, 0, c3): the shape of a 2D affine transform, on which the in-place
      operations are products. */
  predicate IsAffine(m: M3) { m.c1 == 0.0 && m.c2 == 0.0 }

  /** The rotation by an angle with the given sine and cosine. */
  function RotationMatrix(sin: real, cos: real): M3 {
    M3(cos, sin, 0.0, -sin, cos, 0.0, 0.0, 0.0, 1.0)
  }

  function ScaleMatrix(x: real, y: real): M3 {
    M3(x, 0.0, 0.0, 0.0, y, 0.0, 0.0, 0.0, 1.0)
  }

  function TranslationMatrix(x: real, y: real): M3 {
    M3(1.0, 0.0, 0.0, 0.0, 1.0, 0.0, x, y, 1.0)
  }

  // ---------------------------------------------------------------------------
  // Identity and zero
  // ---------------------------------------------------------------------------

  /** `Identify` is a unit of the product on both sides. */
  lemma MulIdentify(m: M3)
    ensures Mul(Identify, m) == m
    ensures Mul(m, Identify) == m
  {
  }

  /** The three `Create*` factories start from the all-zero `new Matrix3()`, and each
      operation maps the zero matrix to itself, so they all return the zero matrix. */
  lemma CreateFactoriesGiveZero(sin: real, cos: real, x: real, y: real)
    ensures Rotated(Zero, sin, cos) == Zero
    ensures Translated(Zero, x, y) == Zero
    ensures Scaled(Zero, x, y) == Zero
    ensures Zero != Identify
  {
  }

  /** `CreateRotation` as evidently intended: rotate the identity, giving the rotation
      matrix itself. */
  function CreatedRotation(sin: real, cos: real): (r: M3)
    ensures r == RotationMatrix(sin, cos) && IsAffine(r)
  {
    Rotated(Identify, sin, cos)
  }

  /** `CreateTranslation` as evidently intended: translate the identity. */
  function CreatedTranslation(x: real, y: real): (r: M3)
    ensures r == TranslationMatrix(x, y) && IsAffine(r)
  {
    Translated(Identify, x, y)
  }

  /** `CreateScale` as evidently intended: scale the identity. */
  function CreatedScale(x: real, y: real): (r: M3)
    ensures r == ScaleMatrix(x, y) && IsAffine(r)
  {
    Scaled(Identify, x, y)
  }

  // ---------------------------------------------------------------------------
  // Footprints
  // ---------------------------------------------------------------------------

  /** `Rotate` and `Scale` change only a1, b1, a2, b2; `Translate` changes only a3 and b3. None
      of them touches column c. */
  lemma Footprints(m: M3, sin: real, cos: real, x: real, y: real)
    ensures var r := Rotated(m, sin, cos);
      r.c1 == m.c1 && r.c2 == m.c2 && r.a3 == m.a3 && r.b3 == m.b3 && r.c3 == m.c3
    ensures var s := Scaled(m, x, y);
      s.c1 == m.c1 && s.c2 == m.c2 && s.a3 == m.a3 && s.b3 == m.b3 && s.c3 == m.c3
    ensures var t := Translated(m, x, y);
      t.a1 == m.a1 && t.b1 == m.b1 && t.c1 == m.c1 && t.a2 == m.a2 && t.b2 == m.b2 &&
      t.c2 == m.c2 && t.c3 == m.c3
    ensures IsAffine(m) ==>
      IsAffine(Rotated(m, sin, cos)) && IsAffine(Scaled(m, x, y)) &&
      IsAffine(Translated(m, x, y))
  {
  }

  /** `Translate(0, 0)` and `Scale(1, 1)` change nothing; the rotation by angle zero
      (sine 0, cosine 1) changes nothing. */
  lemma NeutralArguments(m: M3)
    ensures Translated(m, 0.0, 0.0) == m
    ensures Scaled(m, 1.0, 1.0) == m
    ensures Rotated(m, 0.0, 1.0) == m
  {
  }

  // ---------------------------------------------------------------------------
  // The operations as products
  // ---------------------------------------------------------------------------

  /** On an affine matrix, `Rotate` multiplies by the rotation on the left. */
  lemma RotateIsPreMultiplication(m: M3, sin: real, cos: real)
    requires IsAffine(m)
    ensures Rotated(m, sin, cos) == Mul(RotationMatrix(sin, cos), m)
  {
  }

  /** On an affine matrix, `Scale` multiplies by the scaling on the left. */
  lemma ScaleIsPreMultiplication(m: M3, x: real, y: real)
    requires IsAffine(m)
    ensures Scaled(m, x, y) == Mul(ScaleMatrix(x, y), m)
  {
  }

  /** On an affine matrix, `Translate` multiplies by the translation on the left. */
  lemma TranslateIsPreMultiplication(m: M3, x: real, y: real)
    requires IsAffine(m)
    ensures Translated(m, x, y) == Mul(TranslationMatrix(x, y), m)
  {
    var (t, p) := (Translated(m, x, y), Mul(TranslationMatrix(x, y), m));
    MulRow1(TranslationMatrix(x, y), m);
    assert t.a1 == p.a1 && t.b1 == p.b1 && t.c1 == p.c1;
    MulRow2(TranslationMatrix(x, y), m);
    assert t.a2 == p.a2 && t.b2 == p.b2 && t.c2 == p.c2;
    MulRow3(TranslationMatrix(x, y), m);
    assert t.a3 == p.a3 && t.b3 == p.b3 && t.c3 == p.c3;
  }

  /** One row's offsets for two translations add up to the offset for their sum. */
  lemma SumOfOffsets(a: real, p: real, q: real, x1: real, y1: real, x2: real, y2: real)
    ensures (a + (p * x1 + q * y1)) + (p * x2 + q * y2) == a + (p * (x1 + x2) + q * (y1 + y2))
  {
  }

  /** Two translations add up, on any matrix. */
  lemma TranslateTwice(m: M3, x1: real, y1: real, x2: real, y2: real)
    ensures Translated(Translated(m, x1, y1), x2, y2) == Translated(m, x1 + x2, y1 + y2)
  {
    var t := Translated(m, x1, y1);
    assert t.a1 == m.a1 && t.a2 == m.a2 && t.b1 == m.b1 && t.b2 == m.b2;
    SumOfOffsets(m.a3, m.a1, m.a2, x1, y1, x2, y2);
    SumOfOffsets(m.b3, m.b1, m.b2, x1, y1, x2, y2);
    var l, r := Translated(t, x2, y2), Translated(m, x1 + x2, y1 + y2);
    assert l.a1 == r.a1 && l.a2 == r.a2 && l.a3 == r.a3;
    assert l.b1 == r.b1 && l.b2 == r.b2 && l.b3 == r.b3;
    assert l.c1 == r.c1 && l.c2 == r.c2 && l.c3 == r.c3;
  }

  /** Two scalings multiply, on any matrix. */
  lemma ScaleTwice(m: M3, x1: real, y1: real, x2: real, y2: real)
    ensures Scaled(Scaled(m, x1, y1), x2, y2) == Scaled(m, x1 * x2, y1 * y2)
  {
  }

  /** Rotating by an angle and then by its opposite (sine negated) restores the matrix. */
  lemma RotateRoundTrip(m: M3, sin: real, cos: real)
    requires sin * sin + cos * cos == 1.0
    ensures Rotated(Rotated(m, sin, cos), -sin, cos) == m
  {
    var r := Rotated(m, sin, cos);
    Mat4Transforms.UndoPlaneRotation(m.a1, m.a2, r.a1, r.a2, sin, cos);
    Mat4Transforms.UndoPlaneRotation(m.b1, m.b2, r.b1, r.b2, sin, cos);
  }

  // ---------------------------------------------------------------------------
  // Inverse
  // ---------------------------------------------------------------------------

  /** Both `Inverse` as written and the intended inverse leave a singular matrix unchanged. */
  lemma InverseOfSingular(m: M3)
    requires Det(m) == 0.0
    ensures InvertedAsWritten(m) == m && Inverted(m) == m
  {
  }

  /** A sum of three products, each scaled by k, is the sum scaled by k. */
  lemma SumScale(a: real, b: real, c: real, x: real, y: real, z: real,
                 sx: real, sy: real, sz: real, k: real, p: real, t: real)
    requires sx == Times(x, k) && sy == Times(y, k) && sz == Times(z, k)
    requires p == a * sx + b * sy + c * sz
    requires t == a * x + b * y + c * z
    ensures p == Times(t, k)
  {
  }

  /** Row 1 against its own cofactors: the determinant. */
  lemma RowAgainstCofactors11(a1: real, b1: real, c1: real, a2: real, b2: real, c2: real, a3: real, b3: real, c3: real, v1: real, v2: real, v3: real, d: real, p: real)
    requires v1 == b2 * c3 - c2 * b3
    requires v2 == c2 * a3 - a2 * c3
    requires v3 == a2 * b3 - b2 * a3
    requires d == Det(M3(a1, b1, c1, a2, b2, c2, a3, b3, c3))
    requires p == a1 * v1 + b1 * v2 + c1 * v3
    ensures p == d
  {
  }

  /** Entry (1, 1) of `MulAdjugate`. */
  lemma AdjugateEntry11(m: M3)
    ensures Mul(m, Adjugate(m)).a1 == Det(m)
  {
    MulRow1(m, Adjugate(m));
    RowAgainstCofactors11(m.a1, m.b1, m.c1, m.a2, m.b2, m.c2, m.a3, m.b3, m.c3,
      Adjugate(m).a1, Adjugate(m).a2, Adjugate(m).a3, Det(m), Mul(m, Adjugate(m)).a1);
  }

  /** Row 1 against the cofactors of row 2: zero, as for a matrix with two equal rows. */
  lemma RowAgainstCofactors12(a1: real, b1: real, c1: real, a2: real, b2: real, c2: real, a3: real, b3: real, c3: real, v1: real, v2: real, v3: real, p: real)
    requires v1 == c1 * b3 - b1 * c3
    requires v2 == a1 * c3 - c1 * a3
    requires v3 == b1 * a3 - a1 * b3
    requires p == a1 * v1 + b1 * v2 + c1 * v3
    ensures p == 0.0
  {
  }

  /** Entry (1, 2) of `MulAdjugate`. */
  lemma AdjugateEntry12(m: M3)
    ensures Mul(m, Adjugate(m)).b1 == 0.0
  {
    MulRow1(m, Adjugate(m));
    RowAgainstCofactors12(m.a1, m.b1, m.c1, m.a2, m.b2, m.c2, m.a3, m.b3, m.c3,
      Adjugate(m).b1, Adjugate(m).b2, Adjugate(m).b3, Mul(m, Adjugate(m)).b1);
  }

  /** Row 1 against the cofactors of row 3: zero, as for a matrix with two equal rows. */
  lemma RowAgainstCofactors13(a1: real, b1: real, c1: real, a2: real, b2: real, c2: real, a3: real, b3: real, c3: real, v1: real, v2: real, v3: real, p: real)
    requires v1 == b1 * c2 - c1 * b2
    requires v2 == c1 * a2 - a1 * c2
    requires v3 == a1 * b2 - b1 * a2
    requires p == a1 * v1 + b1 * v2 + c1 * v3
    ensures p == 0.0
  {
  }

  /** Entry (1, 3) of `MulAdjugate`. */
  lemma AdjugateEntry13(m: M3)
    ensures Mul(m, Adjugate(m)).c1 == 0.0
  {
    MulRow1(m, Adjugate(m));
    RowAgainstCofactors13(m.a1, m.b1, m.c1, m.a2, m.b2, m.c2, m.a3, m.b3, m.c3,
      Adjugate(m).c1, Adjugate(m).c2, Adjugate(m).c3, Mul(m, Adjugate(m)).c1);
  }

  /** Row 2 against the cofactors of row 1: zero, as for a matrix with two equal rows. */
  lemma RowAgainstCofactors21(a1: real, b1: real, c1: real, a2: real, b2: real, c2: real, a3: real, b3: real, c3: real, v1: real, v2: real, v3: real, p: real)
    requires v1 == b2 * c3 - c2 * b3
    requires v2 == c2 * a3 - a2 * c3
    requires v3 == a2 * b3 - b2 * a3
    requires p == a2 * v1 + b2 * v2 + c2 * v3
    ensures p == 0.0
  {
  }

  /** Entry (2, 1) of `MulAdjugate`. */
  lemma AdjugateEntry21(m: M3)
    ensures Mul(m, Adjugate(m)).a2 == 0.0
  {
    MulRow2(m, Adjugate(m));
    RowAgainstCofactors21(m.a1, m.b1, m.c1, m.a2, m.b2, m.c2, m.a3, m.b3, m.c3,
      Adjugate(m).a1, Adjugate(m).a2, Adjugate(m).a3, Mul(m, Adjugate(m)).a2);
  }

  /** Row 2 against its own cofactors: the determinant. */
  lemma RowAgainstCofactors22(a1: real, b1: real, c1: real, a2: real, b2: real, c2: real, a3: real, b3: real, c3: real, v1: real, v2: real, v3: real, d: real, p: real)
    requires v1 == c1 * b3 - b1 * c3
    requires v2 == a1 * c3 - c1 * a3
    requires v3 == b1 * a3 - a1 * b3
    requires d == Det(M3(a1, b1, c1, a2, b2, c2, a3, b3, c3))
    requires p == a2 * v1 + b2 * v2 + c2 * v3
    ensures p == d
  {
  }

  /** Entry (2, 2) of `MulAdjugate`. */
  lemma AdjugateEntry22(m: M3)
    ensures Mul(m, Adjugate(m)).b2 == Det(m)
  {
    MulRow2(m, Adjugate(m));
    RowAgainstCofactors22(m.a1, m.b1, m.c1, m.a2, m.b2, m.c2, m.a3, m.b3, m.c3,
      Adjugate(m).b1, Adjugate(m).b2, Adjugate(m).b3, Det(m), Mul(m, Adjugate(m)).b2);
  }

  /** Row 2 against the cofactors of row 3: zero, as for a matrix with two equal rows. */
  lemma RowAgainstCofactors23(a1: real, b1: real, c1: real, a2: real, b2: real, c2: real, a3: real, b3: real, c3: real, v1: real, v2: real, v3: real, p: real)
    requires v1 == b1 * c2 - c1 * b2
    requires v2 == c1 * a2 - a1 * c2
    requires v3 == a1 * b2 - b1 * a2
    requires p == a2 * v1 + b2 * v2 + c2 * v3
    ensures p == 0.0
  {
  }

  /** Entry (2, 3) of `MulAdjugate`. */
  lemma AdjugateEntry23(m: M3)
    ensures Mul(m, Adjugate(m)).c2 == 0.0
  {
    MulRow2(m, Adjugate(m));
    RowAgainstCofactors23(m.a1, m.b1, m.c1, m.a2, m.b2, m.c2, m.a3, m.b3, m.c3,
      Adjugate(m).c1, Adjugate(m).c2, Adjugate(m).c3, Mul(m, Adjugate(m)).c2);
  }

  /** Row 3 against the cofactors of row 1: zero, as for a matrix with two equal rows. */
  lemma RowAgainstCofactors31(a1: real, b1: real, c1: real, a2: real, b2: real, c2: real, a3: real, b3: real, c3: real, v1: real, v2: real, v3: real, p: real)
    requires v1 == b2 * c3 - c2 * b3
    requires v2 == c2 * a3 - a2 * c3
    requires v3 == a2 * b3 - b2 * a3
    requires p == a3 * v1 + b3 * v2 + c3 * v3
    ensures p == 0.0
  {
  }

  /** Entry (3, 1) of `MulAdjugate`. */
  lemma AdjugateEntry31(m: M3)
    ensures Mul(m, Adjugate(m)).a3 == 0.0
  {
    MulRow3(m, Adjugate(m));
    RowAgainstCofactors31(m.a1, m.b1, m.c1, m.a2, m.b2, m.c2, m.a3, m.b3, m.c3,
      Adjugate(m).a1, Adjugate(m).a2, Adjugate(m).a3, Mul(m, Adjugate(m)).a3);
  }

  /** Row 3 against the cofactors of row 2: zero, as for a matrix with two equal rows. */
  lemma RowAgainstCofactors32(a1: real, b1: real, c1: real, a2: real, b2: real, c2: real, a3: real, b3: real, c3: real, v1: real, v2: real, v3: real, p: real)
    requires v1 == c1 * b3 - b1 * c3
    requires v2 == a1 * c3 - c1 * a3
    requires v3 == b1 * a3 - a1 * b3
    requires p == a3 * v1 + b3 * v2 + c3 * v3
    ensures p == 0.0
  {
  }

  /** Entry (3, 2) of `MulAdjugate`. */
  lemma AdjugateEntry32(m: M3)
    ensures Mul(m, Adjugate(m)).b3 == 0.0
  {
    MulRow3(m, Adjugate(m));
    RowAgainstCofactors32(m.a1, m.b1, m.c1, m.a2, m.b2, m.c2, m.a3, m.b3, m.c3,
      Adjugate(m).b1, Adjugate(m).b2, Adjugate(m).b3, Mul(m, Adjugate(m)).b3);
  }

  /** Row 3 against its own cofactors: the determinant. */
  lemma RowAgainstCofactors33(a1: real, b1: real, c1: real, a2: real, b2: real, c2: real, a3: real, b3: real, c3: real, v1: real, v2: real, v3: real, d: real, p: real)
    requires v1 == b1 * c2 - c1 * b2
    requires v2 == c1 * a2 - a1 * c2
    requires v3 == a1 * b2 - b1 * a2
    requires d == Det(M3(a1, b1, c1, a2, b2, c2, a3, b3, c3))
    requires p == a3 * v1 + b3 * v2 + c3 * v3
    ensures p == d
  {
  }

  /** Entry (3, 3) of `MulAdjugate`. */
  lemma AdjugateEntry33(m: M3)
    ensures Mul(m, Adjugate(m)).c3 == Det(m)
  {
    MulRow3(m, Adjugate(m));
    RowAgainstCofactors33(m.a1, m.b1, m.c1, m.a2, m.b2, m.c2, m.a3, m.b3, m.c3,
      Adjugate(m).c1, Adjugate(m).c2, Adjugate(m).c3, Det(m), Mul(m, Adjugate(m)).c3);
  }

  /** Entry (1, 1) of `MulScaleRight`. */
  lemma ScaleRight11(m: M3, A: M3, k: real)
    ensures Mul(m, ScaleEntries(A, k)).a1 == Times(Mul(m, A).a1, k)
  {
    var S := ScaleEntries(A, k);
    MulRow1(m, S);
    MulRow1(m, A);
    SumScale(m.a1, m.b1, m.c1, A.a1, A.a2, A.a3, S.a1, S.a2, S.a3, k, Mul(m, S).a1, Mul(m, A).a1);
  }

  /** Entry (1, 2) of `MulScaleRight`. */
  lemma ScaleRight12(m: M3, A: M3, k: real)
    ensures Mul(m, ScaleEntries(A, k)).b1 == Times(Mul(m, A).b1, k)
  {
    var S := ScaleEntries(A, k);
    MulRow1(m, S);
    MulRow1(m, A);
    SumScale(m.a1, m.b1, m.c1, A.b1, A.b2, A.b3, S.b1, S.b2, S.b3, k, Mul(m, S).b1, Mul(m, A).b1);
  }

  /** Entry (1, 3) of `MulScaleRight`. */
  lemma ScaleRight13(m: M3, A: M3, k: real)
    ensures Mul(m, ScaleEntries(A, k)).c1 == Times(Mul(m, A).c1, k)
  {
    var S := ScaleEntries(A, k);
    MulRow1(m, S);
    MulRow1(m, A);
    SumScale(m.a1, m.b1, m.c1, A.c1, A.c2, A.c3, S.c1, S.c2, S.c3, k, Mul(m, S).c1, Mul(m, A).c1);
  }

  /** Entry (2, 1) of `MulScaleRight`. */
  lemma ScaleRight21(m: M3, A: M3, k: real)
    ensures Mul(m, ScaleEntries(A, k)).a2 == Times(Mul(m, A).a2, k)
  {
    var S := ScaleEntries(A, k);
    MulRow2(m, S);
    MulRow2(m, A);
    SumScale(m.a2, m.b2, m.c2, A.a1, A.a2, A.a3, S.a1, S.a2, S.a3, k, Mul(m, S).a2, Mul(m, A).a2);
  }

  /** Entry (2, 2) of `MulScaleRight`. */
  lemma ScaleRight22(m: M3, A: M3, k: real)
    ensures Mul(m, ScaleEntries(A, k)).b2 == Times(Mul(m, A).b2, k)
  {
    var S := ScaleEntries(A, k);
    MulRow2(m, S);
    MulRow2(m, A);
    SumScale(m.a2, m.b2, m.c2, A.b1, A.b2, A.b3, S.b1, S.b2, S.b3, k, Mul(m, S).b2, Mul(m, A).b2);
  }

  /** Entry (2, 3) of `MulScaleRight`. */
  lemma ScaleRight23(m: M3, A: M3, k: real)
    ensures Mul(m, ScaleEntries(A, k)).c2 == Times(Mul(m, A).c2, k)
  {
    var S := ScaleEntries(A, k);
    MulRow2(m, S);
    MulRow2(m, A);
    SumScale(m.a2, m.b2, m.c2, A.c1, A.c2, A.c3, S.c1, S.c2, S.c3, k, Mul(m, S).c2, Mul(m, A).c2);
  }

  /** Entry (3, 1) of `MulScaleRight`. */
  lemma ScaleRight31(m: M3, A: M3, k: real)
    ensures Mul(m, ScaleEntries(A, k)).a3 == Times(Mul(m, A).a3, k)
  {
    var S := ScaleEntries(A, k);
    MulRow3(m, S);
    MulRow3(m, A);
    SumScale(m.a3, m.b3, m.c3, A.a1, A.a2, A.a3, S.a1, S.a2, S.a3, k, Mul(m, S).a3, Mul(m, A).a3);
  }

  /** Entry (3, 2) of `MulScaleRight`. */
  lemma ScaleRight32(m: M3, A: M3, k: real)
    ensures Mul(m, ScaleEntries(A, k)).b3 == Times(Mul(m, A).b3, k)
  {
    var S := ScaleEntries(A, k);
    MulRow3(m, S);
    MulRow3(m, A);
    SumScale(m.a3, m.b3, m.c3, A.b1, A.b2, A.b3, S.b1, S.b2, S.b3, k, Mul(m, S).b3, Mul(m, A).b3);
  }

  /** Entry (3, 3) of `MulScaleRight`. */
  lemma ScaleRight33(m: M3, A: M3, k: real)
    ensures Mul(m, ScaleEntries(A, k)).c3 == Times(Mul(m, A).c3, k)
  {
    var S := ScaleEntries(A, k);
    MulRow3(m, S);
    MulRow3(m, A);
    SumScale(m.a3, m.b3, m.c3, A.c1, A.c2, A.c3, S.c1, S.c2, S.c3, k, Mul(m, S).c3, Mul(m, A).c3);
  }

  /** The matrix times its adjugate is the determinant times the identity. */
  lemma MulAdjugate(m: M3)
    ensures Mul(m, Adjugate(m)) == ScaleEntries(Identify, Det(m))
  {
    AdjugateEntry11(m);
    AdjugateEntry12(m);
    AdjugateEntry13(m);
    AdjugateEntry21(m);
    AdjugateEntry22(m);
    AdjugateEntry23(m);
    AdjugateEntry31(m);
    AdjugateEntry32(m);
    AdjugateEntry33(m);
  }

  /** Scaling the right factor of a product scales the product. */
  lemma MulScaleRight(m: M3, A: M3, k: real)
    ensures Mul(m, ScaleEntries(A, k)) == ScaleEntries(Mul(m, A), k)
  {
    ScaleRight11(m, A, k);
    ScaleRight12(m, A, k);
    ScaleRight13(m, A, k);
    ScaleRight21(m, A, k);
    ScaleRight22(m, A, k);
    ScaleRight23(m, A, k);
    ScaleRight31(m, A, k);
    ScaleRight32(m, A, k);
    ScaleRight33(m, A, k);
  }

  /** For a nonzero determinant the intended inverse is a right inverse: the matrix times it
      is the identity. */
  lemma InvertedIsInverse(m: M3)
    requires Det(m) != 0.0
    ensures Mul(m, Inverted(m)) == Identify
  {
    var k := 1.0 / Det(m);
    MulAdjugate(m);
    MulScaleRight(m, Adjugate(m), k);
    assert Det(m) * k == 1.0;
  }

  /** The second product of every cofactor is zero. */
  predicate SecondProductsVanish(m: M3) {
    m.c2 * m.b3 == 0.0 && m.b1 * m.c3 == 0.0 && m.c1 * m.b2 == 0.0 &&
    m.a2 * m.c3 == 0.0 && m.c1 * m.a3 == 0.0 && m.a1 * m.c2 == 0.0 &&
    m.b2 * m.a3 == 0.0 && m.a1 * m.b3 == 0.0 && m.b1 * m.a2 == 0.0
  }

  /** One entry: k * x * y - q equals k * (x * y - q) exactly when k is 1 or q is 0. */
  lemma MisplacedReciprocal(x: real, y: real, q: real, k: real, w: real, a: real, v: real)
    requires w == Misplaced(k, x, y, q) && a == x * y - q && v == Times(a, k)
    ensures w == v <==> k == 1.0 || q == 0.0
  {
    assert v == k * x * y - k * q;
    assert w - v == q * (k - 1.0);
  }

  /** Entry a1 of `AsWrittenEntriesIff`. */
  lemma AsWrittenEntryIffA1(m: M3, k: real)
    ensures AsWrittenEntries(m, k).a1 == ScaleEntries(Adjugate(m), k).a1 <==> k == 1.0 || m.c2 * m.b3 == 0.0
  {
    MisplacedReciprocal(m.b2, m.c3, m.c2 * m.b3, k, AsWrittenEntries(m, k).a1, Adjugate(m).a1, ScaleEntries(Adjugate(m), k).a1);
  }

  /** Entry b1 of `AsWrittenEntriesIff`. */
  lemma AsWrittenEntryIffB1(m: M3, k: real)
    ensures AsWrittenEntries(m, k).b1 == ScaleEntries(Adjugate(m), k).b1 <==> k == 1.0 || m.b1 * m.c3 == 0.0
  {
    MisplacedReciprocal(m.c1, m.b3, m.b1 * m.c3, k, AsWrittenEntries(m, k).b1, Adjugate(m).b1, ScaleEntries(Adjugate(m), k).b1);
  }

  /** Entry c1 of `AsWrittenEntriesIff`. */
  lemma AsWrittenEntryIffC1(m: M3, k: real)
    ensures AsWrittenEntries(m, k).c1 == ScaleEntries(Adjugate(m), k).c1 <==> k == 1.0 || m.c1 * m.b2 == 0.0
  {
    MisplacedReciprocal(m.b1, m.c2, m.c1 * m.b2, k, AsWrittenEntries(m, k).c1, Adjugate(m).c1, ScaleEntries(Adjugate(m), k).c1);
  }

  /** Entry a2 of `AsWrittenEntriesIff`. */
  lemma AsWrittenEntryIffA2(m: M3, k: real)
    ensures AsWrittenEntries(m, k).a2 == ScaleEntries(Adjugate(m), k).a2 <==> k == 1.0 || m.a2 * m.c3 == 0.0
  {
    MisplacedReciprocal(m.c2, m.a3, m.a2 * m.c3, k, AsWrittenEntries(m, k).a2, Adjugate(m).a2, ScaleEntries(Adjugate(m), k).a2);
  }

  /** Entry b2 of `AsWrittenEntriesIff`. */
  lemma AsWrittenEntryIffB2(m: M3, k: real)
    ensures AsWrittenEntries(m, k).b2 == ScaleEntries(Adjugate(m), k).b2 <==> k == 1.0 || m.c1 * m.a3 == 0.0
  {
    MisplacedReciprocal(m.a1, m.c3, m.c1 * m.a3, k, AsWrittenEntries(m, k).b2, Adjugate(m).b2, ScaleEntries(Adjugate(m), k).b2);
  }

  /** Entry c2 of `AsWrittenEntriesIff`. */
  lemma AsWrittenEntryIffC2(m: M3, k: real)
    ensures AsWrittenEntries(m, k).c2 == ScaleEntries(Adjugate(m), k).c2 <==> k == 1.0 || m.a1 * m.c2 == 0.0
  {
    MisplacedReciprocal(m.c1, m.a2, m.a1 * m.c2, k, AsWrittenEntries(m, k).c2, Adjugate(m).c2, ScaleEntries(Adjugate(m), k).c2);
  }

  /** Entry a3 of `AsWrittenEntriesIff`. */
  lemma AsWrittenEntryIffA3(m: M3, k: real)
    ensures AsWrittenEntries(m, k).a3 == ScaleEntries(Adjugate(m), k).a3 <==> k == 1.0 || m.b2 * m.a3 == 0.0
  {
    MisplacedReciprocal(m.a2, m.b3, m.b2 * m.a3, k, AsWrittenEntries(m, k).a3, Adjugate(m).a3, ScaleEntries(Adjugate(m), k).a3);
  }

  /** Entry b3 of `AsWrittenEntriesIff`. */
  lemma AsWrittenEntryIffB3(m: M3, k: real)
    ensures AsWrittenEntries(m, k).b3 == ScaleEntries(Adjugate(m), k).b3 <==> k == 1.0 || m.a1 * m.b3 == 0.0
  {
    MisplacedReciprocal(m.b1, m.a3, m.a1 * m.b3, k, AsWrittenEntries(m, k).b3, Adjugate(m).b3, ScaleEntries(Adjugate(m), k).b3);
  }

  /** Entry c3 of `AsWrittenEntriesIff`. */
  lemma AsWrittenEntryIffC3(m: M3, k: real)
    ensures AsWrittenEntries(m, k).c3 == ScaleEntries(Adjugate(m), k).c3 <==> k == 1.0 || m.b1 * m.a2 == 0.0
  {
    MisplacedReciprocal(m.a1, m.b2, m.b1 * m.a2, k, AsWrittenEntries(m, k).c3, Adjugate(m).c3, ScaleEntries(Adjugate(m), k).c3);
  }

  /** Two matrices are equal exactly when their entries are. */
  lemma Entrywise(w: M3, v: M3)
    ensures w == v <==> w.a1 == v.a1 && w.b1 == v.b1 && w.c1 == v.c1 && w.a2 == v.a2 && w.b2 == v.b2 &&
                        w.c2 == v.c2 && w.a3 == v.a3 && w.b3 == v.b3 && w.c3 == v.c3
  {
  }

  /** Nine equalities, each holding exactly when one flag or its own condition does, hold
      together exactly when the flag or all nine conditions do. */
  lemma AllOrFlag(flag: bool, e1: bool, e2: bool, e3: bool, e4: bool, e5: bool, e6: bool, e7: bool, e8: bool, e9: bool,
                  z1: bool, z2: bool, z3: bool, z4: bool, z5: bool, z6: bool, z7: bool, z8: bool, z9: bool)
    requires e1 == (flag || z1) && e2 == (flag || z2) && e3 == (flag || z3) && e4 == (flag || z4) && e5 == (flag || z5)
    requires e6 == (flag || z6) && e7 == (flag || z7) && e8 == (flag || z8) && e9 == (flag || z9)
    ensures (e1 && e2 && e3 && e4 && e5 && e6 && e7 && e8 && e9) ==
            (flag || (z1 && z2 && z3 && z4 && z5 && z6 && z7 && z8 && z9))
  {
  }

  /** The entries `Inverse` writes are the adjugate scaled by k exactly when k is 1 or every
      second product is zero. */
  lemma AsWrittenEntriesIff(m: M3, k: real)
    ensures AsWrittenEntries(m, k) == ScaleEntries(Adjugate(m), k) <==> k == 1.0 || SecondProductsVanish(m)
  {
    assert SecondProductsVanish(m) <==>
      m.c2 * m.b3 == 0.0 && m.b1 * m.c3 == 0.0 && m.c1 * m.b2 == 0.0 &&
      m.a2 * m.c3 == 0.0 && m.c1 * m.a3 == 0.0 && m.a1 * m.c2 == 0.0 &&
      m.b2 * m.a3 == 0.0 && m.a1 * m.b3 == 0.0 && m.b1 * m.a2 == 0.0 by {
    }
    var (w, v) := (AsWrittenEntries(m, k), ScaleEntries(Adjugate(m), k));
    Entrywise(w, v);
    AsWrittenEntryIffA1(m, k);
    AsWrittenEntryIffB1(m, k);
    AsWrittenEntryIffC1(m, k);
    AsWrittenEntryIffA2(m, k);
    AsWrittenEntryIffB2(m, k);
    AsWrittenEntryIffC2(m, k);
    AsWrittenEntryIffA3(m, k);
    AsWrittenEntryIffB3(m, k);
    AsWrittenEntryIffC3(m, k);
    AllOrFlag(k == 1.0,
      w.a1 == v.a1, w.b1 == v.b1, w.c1 == v.c1, w.a2 == v.a2, w.b2 == v.b2,
      w.c2 == v.c2, w.a3 == v.a3, w.b3 == v.b3, w.c3 == v.c3,
      m.c2 * m.b3 == 0.0, m.b1 * m.c3 == 0.0, m.c1 * m.b2 == 0.0, m.a2 * m.c3 == 0.0, m.c1 * m.a3 == 0.0,
      m.a1 * m.c2 == 0.0, m.b2 * m.a3 == 0.0, m.a1 * m.b3 == 0.0, m.b1 * m.a2 == 0.0);
  }

  /** `Inverse` as written gives the inverse exactly when the determinant is 0 (both leave the
      matrix alone) or 1 (the misplaced reciprocal is 1), or when every second product is zero. */
  lemma InverseAsWrittenIff(m: M3)
    ensures InvertedAsWritten(m) == Inverted(m) <==>
      Det(m) == 0.0 || Det(m) == 1.0 || SecondProductsVanish(m)
  {
    var d := Det(m);
    if d != 0.0 {
      var k := 1.0 / d;
      AsWrittenEntriesIff(m, k);
      assert k == 1.0 <==> d == 1.0 by {
        assert k * d == 1.0;
      }
    }
  }

  /** A matrix of determinant 2 with a nonzero second product (c2 * b3 = 1). */
  const Skewed := M3(2.0, 0.0, 0.0, 0.0, 1.0, 1.0, 0.0, 1.0, 2.0)

  lemma SkewedShape()
    ensures Det(Skewed) == 2.0 && !SecondProductsVanish(Skewed)
  {
    assert Skewed.c2 * Skewed.b3 == 1.0;
    assert !SecondProductsVanish(Skewed);
  }

  /** On `Skewed`, `Inverse` as written is not the inverse: with the reciprocal 1/2 of the
      determinant, the entries it writes differ from half the adjugate. */
  lemma InverseCounterexample()
    ensures Det(Skewed) == 2.0
    ensures AsWrittenEntries(Skewed, 0.5) != ScaleEntries(Adjugate(Skewed), 0.5)
  {
    SkewedShape();
    AsWrittenEntriesIff(Skewed, 0.5);
  }
}
