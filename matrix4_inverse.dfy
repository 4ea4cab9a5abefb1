/** The inverse that `Inverse` computes is a right inverse for `operator *`: m times its
    adjugate is det times the identity, expanding every row of m against the cofactors of
    every row. The expansions are written out with `Mono`, a product of four entries taken
    from rows 1, 2, 3, 4 in that order, so that equal terms meet as equal expressions. */
module Mat4Inverse {
  import opened Mat4

  /** A product of four entries, one from each row, in row order. */
  function Mono(w: real, x: real, y: real, z: real): real { w * x * y * z }


  /** The determinant by the Leibniz formula: one signed product for each permutation of the
      columns, an entry from every row. */
  function Leibniz(m: M4): real {
    Mono(m.a1, m.b2, m.c3, m.d4)
    - Mono(m.a1, m.b2, m.d3, m.c4)
    - Mono(m.a1, m.c2, m.b3, m.d4)
    + Mono(m.a1, m.c2, m.d3, m.b4)
    + Mono(m.a1, m.d2, m.b3, m.c4)
    - Mono(m.a1, m.d2, m.c3, m.b4)
    - Mono(m.b1, m.a2, m.c3, m.d4)
    + Mono(m.b1, m.a2, m.d3, m.c4)
    + Mono(m.b1, m.c2, m.a3, m.d4)
    - Mono(m.b1, m.c2, m.d3, m.a4)
    - Mono(m.b1, m.d2, m.a3, m.c4)
    + Mono(m.b1, m.d2, m.c3, m.a4)
    + Mono(m.c1, m.a2, m.b3, m.d4)
    - Mono(m.c1, m.a2, m.d3, m.b4)
    - Mono(m.c1, m.b2, m.a3, m.d4)
    + Mono(m.c1, m.b2, m.d3, m.a4)
    + Mono(m.c1, m.d2, m.a3, m.b4)
    - Mono(m.c1, m.d2, m.b3, m.a4)
    - Mono(m.d1, m.a2, m.b3, m.c4)
    + Mono(m.d1, m.a2, m.c3, m.b4)
    + Mono(m.d1, m.b2, m.a3, m.c4)
    - Mono(m.d1, m.b2, m.c3, m.a4)
    - Mono(m.d1, m.c2, m.a3, m.b4)
    + Mono(m.d1, m.c2, m.b3, m.a4)
  }

  /** The cofactor determinant of `CanInverse` and `Inverse` is the determinant. */
  lemma DetIsLeibniz(m: M4)
    ensures Det(m) == Leibniz(m)
  {
    ExpandRow1(m.a1, m.b2, m.c2, m.d2, m.b3, m.c3, m.d3, m.b4, m.c4, m.d4, Det3(m.b2, m.c2, m.d2, m.b3, m.c3, m.d3, m.b4, m.c4, m.d4));
    ExpandRow1(m.b1, m.a2, m.c2, m.d2, m.a3, m.c3, m.d3, m.a4, m.c4, m.d4, Det3(m.a2, m.c2, m.d2, m.a3, m.c3, m.d3, m.a4, m.c4, m.d4));
    ExpandRow1(m.c1, m.a2, m.b2, m.d2, m.a3, m.b3, m.d3, m.a4, m.b4, m.d4, Det3(m.a2, m.b2, m.d2, m.a3, m.b3, m.d3, m.a4, m.b4, m.d4));
    ExpandRow1(m.d1, m.a2, m.b2, m.c2, m.a3, m.b3, m.c3, m.a4, m.b4, m.c4, Det3(m.a2, m.b2, m.c2, m.a3, m.b3, m.c3, m.a4, m.b4, m.c4));
  }


  /** `CanInverse` holds exactly when the determinant is nonzero, and `Inverse` leaves a
      matrix it cannot invert as it was. */
  lemma CanInverseIff(m: M4)
    ensures CanInverse(m) <==> Leibniz(m) != 0.0
    ensures !CanInverse(m) ==> Inverted(m) == m
  {
    DetIsLeibniz(m);
  }

  /** An entry of row 1 times a minor built from the other three rows, term by term. */
  lemma ExpandRow1(x: real, x11: real, x12: real, x13: real, x21: real, x22: real, x23: real, x31: real, x32: real, x33: real, v: real)
    requires v == Det3(x11, x12, x13, x21, x22, x23, x31, x32, x33)
    ensures x * v == Mono(x, x11, x22, x33) + Mono(x, x13, x21, x32) + Mono(x, x12, x23, x31) - Mono(x, x11, x23, x32) - Mono(x, x12, x21, x33) - Mono(x, x13, x22, x31)
  {
  }

  lemma ExpandRowFlipped1(x: real, x11: real, x12: real, x13: real, x21: real, x22: real, x23: real, x31: real, x32: real, x33: real, v: real)
    requires v == Flip(Det3(x11, x12, x13, x21, x22, x23, x31, x32, x33))
    ensures x * v == -Mono(x, x11, x22, x33) - Mono(x, x13, x21, x32) - Mono(x, x12, x23, x31) + Mono(x, x11, x23, x32) + Mono(x, x12, x21, x33) + Mono(x, x13, x22, x31)
  {
  }

  /** An entry of row 2 times a minor built from the other three rows, term by term. */
  lemma ExpandRow2(x: real, x11: real, x12: real, x13: real, x21: real, x22: real, x23: real, x31: real, x32: real, x33: real, v: real)
    requires v == Det3(x11, x12, x13, x21, x22, x23, x31, x32, x33)
    ensures x * v == Mono(x11, x, x22, x33) + Mono(x13, x, x21, x32) + Mono(x12, x, x23, x31) - Mono(x11, x, x23, x32) - Mono(x12, x, x21, x33) - Mono(x13, x, x22, x31)
  {
  }

  lemma ExpandRowFlipped2(x: real, x11: real, x12: real, x13: real, x21: real, x22: real, x23: real, x31: real, x32: real, x33: real, v: real)
    requires v == Flip(Det3(x11, x12, x13, x21, x22, x23, x31, x32, x33))
    ensures x * v == -Mono(x11, x, x22, x33) - Mono(x13, x, x21, x32) - Mono(x12, x, x23, x31) + Mono(x11, x, x23, x32) + Mono(x12, x, x21, x33) + Mono(x13, x, x22, x31)
  {
  }

  /** An entry of row 3 times a minor built from the other three rows, term by term. */
  lemma ExpandRow3(x: real, x11: real, x12: real, x13: real, x21: real, x22: real, x23: real, x31: real, x32: real, x33: real, v: real)
    requires v == Det3(x11, x12, x13, x21, x22, x23, x31, x32, x33)
    ensures x * v == Mono(x11, x22, x, x33) + Mono(x13, x21, x, x32) + Mono(x12, x23, x, x31) - Mono(x11, x23, x, x32) - Mono(x12, x21, x, x33) - Mono(x13, x22, x, x31)
  {
  }

  lemma ExpandRowFlipped3(x: real, x11: real, x12: real, x13: real, x21: real, x22: real, x23: real, x31: real, x32: real, x33: real, v: real)
    requires v == Flip(Det3(x11, x12, x13, x21, x22, x23, x31, x32, x33))
    ensures x * v == -Mono(x11, x22, x, x33) - Mono(x13, x21, x, x32) - Mono(x12, x23, x, x31) + Mono(x11, x23, x, x32) + Mono(x12, x21, x, x33) + Mono(x13, x22, x, x31)
  {
  }

  /** An entry of row 4 times a minor built from the other three rows, term by term. */
  lemma ExpandRow4(x: real, x11: real, x12: real, x13: real, x21: real, x22: real, x23: real, x31: real, x32: real, x33: real, v: real)
    requires v == Det3(x11, x12, x13, x21, x22, x23, x31, x32, x33)
    ensures x * v == Mono(x11, x22, x33, x) + Mono(x13, x21, x32, x) + Mono(x12, x23, x31, x) - Mono(x11, x23, x32, x) - Mono(x12, x21, x33, x) - Mono(x13, x22, x31, x)
  {
  }

  lemma ExpandRowFlipped4(x: real, x11: real, x12: real, x13: real, x21: real, x22: real, x23: real, x31: real, x32: real, x33: real, v: real)
    requires v == Flip(Det3(x11, x12, x13, x21, x22, x23, x31, x32, x33))
    ensures x * v == -Mono(x11, x22, x33, x) - Mono(x13, x21, x32, x) - Mono(x12, x23, x31, x) + Mono(x11, x23, x32, x) + Mono(x12, x21, x33, x) + Mono(x13, x22, x31, x)
  {
  }

  /** Row 1 against the cofactors of row 1: the determinant, expanded along row 1. */
  lemma RowAgainstCofactors11(a1: real, b1: real, c1: real, d1: real, a2: real, b2: real, c2: real, d2: real, a3: real, b3: real, c3: real, d3: real, a4: real, b4: real, c4: real, d4: real, v1: real, v2: real, v3: real, v4: real, d: real)
    requires v1 == Det3(b2, c2, d2, b3, c3, d3, b4, c4, d4)
    requires v2 == Flip(Det3(a2, c2, d2, a3, c3, d3, a4, c4, d4))
    requires v3 == Det3(a2, b2, d2, a3, b3, d3, a4, b4, d4)
    requires v4 == Flip(Det3(a2, b2, c2, a3, b3, c3, a4, b4, c4))
    requires d == Det(M4(a1, b1, c1, d1, a2, b2, c2, d2, a3, b3, c3, d3, a4, b4, c4, d4))
    ensures a1 * v1 + b1 * v2 + c1 * v3 + d1 * v4 == d
  {
  }

  /** Entry (1, 1) of `MulAdjugate`. */
  lemma AdjugateEntry11(m: M4)
    ensures Mul(m, Adjugate(m)).a1 == Det(m)
  {
    MulRow1(m, Adjugate(m));
    RowAgainstCofactors11(m.a1, m.b1, m.c1, m.d1, m.a2, m.b2, m.c2, m.d2, m.a3, m.b3, m.c3, m.d3, m.a4, m.b4, m.c4, m.d4,
      Adjugate(m).a1, Adjugate(m).a2, Adjugate(m).a3, Adjugate(m).a4, Det(m));
  }

  /** Row 1 against the cofactors of row 2: zero, as for a matrix with two equal rows. */
  lemma RowAgainstCofactors12(a1: real, b1: real, c1: real, d1: real, a2: real, b2: real, c2: real, d2: real, a3: real, b3: real, c3: real, d3: real, a4: real, b4: real, c4: real, d4: real, v1: real, v2: real, v3: real, v4: real)
    requires v1 == Flip(Det3(b1, c1, d1, b3, c3, d3, b4, c4, d4))
    requires v2 == Det3(a1, c1, d1, a3, c3, d3, a4, c4, d4)
    requires v3 == Flip(Det3(a1, b1, d1, a3, b3, d3, a4, b4, d4))
    requires v4 == Det3(a1, b1, c1, a3, b3, c3, a4, b4, c4)
    ensures a1 * v1 + b1 * v2 + c1 * v3 + d1 * v4 == 0.0
  {
  }

  /** Entry (1, 2) of `MulAdjugate`. */
  lemma AdjugateEntry12(m: M4)
    ensures Mul(m, Adjugate(m)).b1 == 0.0
  {
    MulRow1(m, Adjugate(m));
    RowAgainstCofactors12(m.a1, m.b1, m.c1, m.d1, m.a2, m.b2, m.c2, m.d2, m.a3, m.b3, m.c3, m.d3, m.a4, m.b4, m.c4, m.d4,
      Adjugate(m).b1, Adjugate(m).b2, Adjugate(m).b3, Adjugate(m).b4);
  }

  /** Row 1 against the cofactors of row 3: zero, as for a matrix with two equal rows. */
  lemma RowAgainstCofactors13(a1: real, b1: real, c1: real, d1: real, a2: real, b2: real, c2: real, d2: real, a3: real, b3: real, c3: real, d3: real, a4: real, b4: real, c4: real, d4: real, v1: real, v2: real, v3: real, v4: real)
    requires v1 == Det3(b1, c1, d1, b2, c2, d2, b4, c4, d4)
    requires v2 == Flip(Det3(a1, c1, d1, a2, c2, d2, a4, c4, d4))
    requires v3 == Det3(a1, b1, d1, a2, b2, d2, a4, b4, d4)
    requires v4 == Flip(Det3(a1, b1, c1, a2, b2, c2, a4, b4, c4))
    ensures a1 * v1 + b1 * v2 + c1 * v3 + d1 * v4 == 0.0
  {
  }

  /** Entry (1, 3) of `MulAdjugate`. */
  lemma AdjugateEntry13(m: M4)
    ensures Mul(m, Adjugate(m)).c1 == 0.0
  {
    MulRow1(m, Adjugate(m));
    RowAgainstCofactors13(m.a1, m.b1, m.c1, m.d1, m.a2, m.b2, m.c2, m.d2, m.a3, m.b3, m.c3, m.d3, m.a4, m.b4, m.c4, m.d4,
      Adjugate(m).c1, Adjugate(m).c2, Adjugate(m).c3, Adjugate(m).c4);
  }

  /** Row 1 against the cofactors of row 4: zero, as for a matrix with two equal rows. */
  lemma RowAgainstCofactors14(a1: real, b1: real, c1: real, d1: real, a2: real, b2: real, c2: real, d2: real, a3: real, b3: real, c3: real, d3: real, a4: real, b4: real, c4: real, d4: real, v1: real, v2: real, v3: real, v4: real)
    requires v1 == Flip(Det3(b1, c1, d1, b2, c2, d2, b3, c3, d3))
    requires v2 == Det3(a1, c1, d1, a2, c2, d2, a3, c3, d3)
    requires v3 == Flip(Det3(a1, b1, d1, a2, b2, d2, a3, b3, d3))
    requires v4 == Det3(a1, b1, c1, a2, b2, c2, a3, b3, c3)
    ensures a1 * v1 + b1 * v2 + c1 * v3 + d1 * v4 == 0.0
  {
  }

  /** Entry (1, 4) of `MulAdjugate`. */
  lemma AdjugateEntry14(m: M4)
    ensures Mul(m, Adjugate(m)).d1 == 0.0
  {
    MulRow1(m, Adjugate(m));
    RowAgainstCofactors14(m.a1, m.b1, m.c1, m.d1, m.a2, m.b2, m.c2, m.d2, m.a3, m.b3, m.c3, m.d3, m.a4, m.b4, m.c4, m.d4,
      Adjugate(m).d1, Adjugate(m).d2, Adjugate(m).d3, Adjugate(m).d4);
  }

  /** Row 2 against the cofactors of row 1: zero, as for a matrix with two equal rows. */
  lemma RowAgainstCofactors21(a1: real, b1: real, c1: real, d1: real, a2: real, b2: real, c2: real, d2: real, a3: real, b3: real, c3: real, d3: real, a4: real, b4: real, c4: real, d4: real, v1: real, v2: real, v3: real, v4: real)
    requires v1 == Det3(b2, c2, d2, b3, c3, d3, b4, c4, d4)
    requires v2 == Flip(Det3(a2, c2, d2, a3, c3, d3, a4, c4, d4))
    requires v3 == Det3(a2, b2, d2, a3, b3, d3, a4, b4, d4)
    requires v4 == Flip(Det3(a2, b2, c2, a3, b3, c3, a4, b4, c4))
    ensures a2 * v1 + b2 * v2 + c2 * v3 + d2 * v4 == 0.0
  {
  }

  /** Entry (2, 1) of `MulAdjugate`. */
  lemma AdjugateEntry21(m: M4)
    ensures Mul(m, Adjugate(m)).a2 == 0.0
  {
    MulRow2(m, Adjugate(m));
    RowAgainstCofactors21(m.a1, m.b1, m.c1, m.d1, m.a2, m.b2, m.c2, m.d2, m.a3, m.b3, m.c3, m.d3, m.a4, m.b4, m.c4, m.d4,
      Adjugate(m).a1, Adjugate(m).a2, Adjugate(m).a3, Adjugate(m).a4);
  }

  /** Row 2 against the cofactors of row 2: the determinant, expanded along row 2. */
  lemma RowAgainstCofactors22(a1: real, b1: real, c1: real, d1: real, a2: real, b2: real, c2: real, d2: real, a3: real, b3: real, c3: real, d3: real, a4: real, b4: real, c4: real, d4: real, v1: real, v2: real, v3: real, v4: real, d: real)
    requires v1 == Flip(Det3(b1, c1, d1, b3, c3, d3, b4, c4, d4))
    requires v2 == Det3(a1, c1, d1, a3, c3, d3, a4, c4, d4)
    requires v3 == Flip(Det3(a1, b1, d1, a3, b3, d3, a4, b4, d4))
    requires v4 == Det3(a1, b1, c1, a3, b3, c3, a4, b4, c4)
    requires d == Det(M4(a1, b1, c1, d1, a2, b2, c2, d2, a3, b3, c3, d3, a4, b4, c4, d4))
    ensures a2 * v1 + b2 * v2 + c2 * v3 + d2 * v4 == d
  {
    ExpandRowFlipped2(a2, b1, c1, d1, b3, c3, d3, b4, c4, d4, v1);
    ExpandRow2(b2, a1, c1, d1, a3, c3, d3, a4, c4, d4, v2);
    ExpandRowFlipped2(c2, a1, b1, d1, a3, b3, d3, a4, b4, d4, v3);
    ExpandRow2(d2, a1, b1, c1, a3, b3, c3, a4, b4, c4, v4);
    ExpandRow1(a1, b2, c2, d2, b3, c3, d3, b4, c4, d4, Det3(b2, c2, d2, b3, c3, d3, b4, c4, d4));
    ExpandRow1(b1, a2, c2, d2, a3, c3, d3, a4, c4, d4, Det3(a2, c2, d2, a3, c3, d3, a4, c4, d4));
    ExpandRow1(c1, a2, b2, d2, a3, b3, d3, a4, b4, d4, Det3(a2, b2, d2, a3, b3, d3, a4, b4, d4));
    ExpandRow1(d1, a2, b2, c2, a3, b3, c3, a4, b4, c4, Det3(a2, b2, c2, a3, b3, c3, a4, b4, c4));
  }

  /** Entry (2, 2) of `MulAdjugate`. */
  lemma AdjugateEntry22(m: M4)
    ensures Mul(m, Adjugate(m)).b2 == Det(m)
  {
    MulRow2(m, Adjugate(m));
    RowAgainstCofactors22(m.a1, m.b1, m.c1, m.d1, m.a2, m.b2, m.c2, m.d2, m.a3, m.b3, m.c3, m.d3, m.a4, m.b4, m.c4, m.d4,
      Adjugate(m).b1, Adjugate(m).b2, Adjugate(m).b3, Adjugate(m).b4, Det(m));
  }

  /** Row 2 against the cofactors of row 3: zero, as for a matrix with two equal rows. */
  lemma RowAgainstCofactors23(a1: real, b1: real, c1: real, d1: real, a2: real, b2: real, c2: real, d2: real, a3: real, b3: real, c3: real, d3: real, a4: real, b4: real, c4: real, d4: real, v1: real, v2: real, v3: real, v4: real)
    requires v1 == Det3(b1, c1, d1, b2, c2, d2, b4, c4, d4)
    requires v2 == Flip(Det3(a1, c1, d1, a2, c2, d2, a4, c4, d4))
    requires v3 == Det3(a1, b1, d1, a2, b2, d2, a4, b4, d4)
    requires v4 == Flip(Det3(a1, b1, c1, a2, b2, c2, a4, b4, c4))
    ensures a2 * v1 + b2 * v2 + c2 * v3 + d2 * v4 == 0.0
  {
  }

  /** Entry (2, 3) of `MulAdjugate`. */
  lemma AdjugateEntry23(m: M4)
    ensures Mul(m, Adjugate(m)).c2 == 0.0
  {
    MulRow2(m, Adjugate(m));
    RowAgainstCofactors23(m.a1, m.b1, m.c1, m.d1, m.a2, m.b2, m.c2, m.d2, m.a3, m.b3, m.c3, m.d3, m.a4, m.b4, m.c4, m.d4,
      Adjugate(m).c1, Adjugate(m).c2, Adjugate(m).c3, Adjugate(m).c4);
  }

  /** Row 2 against the cofactors of row 4: zero, as for a matrix with two equal rows. */
  lemma RowAgainstCofactors24(a1: real, b1: real, c1: real, d1: real, a2: real, b2: real, c2: real, d2: real, a3: real, b3: real, c3: real, d3: real, a4: real, b4: real, c4: real, d4: real, v1: real, v2: real, v3: real, v4: real)
    requires v1 == Flip(Det3(b1, c1, d1, b2, c2, d2, b3, c3, d3))
    requires v2 == Det3(a1, c1, d1, a2, c2, d2, a3, c3, d3)
    requires v3 == Flip(Det3(a1, b1, d1, a2, b2, d2, a3, b3, d3))
    requires v4 == Det3(a1, b1, c1, a2, b2, c2, a3, b3, c3)
    ensures a2 * v1 + b2 * v2 + c2 * v3 + d2 * v4 == 0.0
  {
  }

  /** Entry (2, 4) of `MulAdjugate`. */
  lemma AdjugateEntry24(m: M4)
    ensures Mul(m, Adjugate(m)).d2 == 0.0
  {
    MulRow2(m, Adjugate(m));
    RowAgainstCofactors24(m.a1, m.b1, m.c1, m.d1, m.a2, m.b2, m.c2, m.d2, m.a3, m.b3, m.c3, m.d3, m.a4, m.b4, m.c4, m.d4,
      Adjugate(m).d1, Adjugate(m).d2, Adjugate(m).d3, Adjugate(m).d4);
  }

  /** Row 3 against the cofactors of row 1: zero, as for a matrix with two equal rows. */
  lemma RowAgainstCofactors31(a1: real, b1: real, c1: real, d1: real, a2: real, b2: real, c2: real, d2: real, a3: real, b3: real, c3: real, d3: real, a4: real, b4: real, c4: real, d4: real, v1: real, v2: real, v3: real, v4: real)
    requires v1 == Det3(b2, c2, d2, b3, c3, d3, b4, c4, d4)
    requires v2 == Flip(Det3(a2, c2, d2, a3, c3, d3, a4, c4, d4))
    requires v3 == Det3(a2, b2, d2, a3, b3, d3, a4, b4, d4)
    requires v4 == Flip(Det3(a2, b2, c2, a3, b3, c3, a4, b4, c4))
    ensures a3 * v1 + b3 * v2 + c3 * v3 + d3 * v4 == 0.0
  {
  }

  /** Entry (3, 1) of `MulAdjugate`. */
  lemma AdjugateEntry31(m: M4)
    ensures Mul(m, Adjugate(m)).a3 == 0.0
  {
    MulRow3(m, Adjugate(m));
    RowAgainstCofactors31(m.a1, m.b1, m.c1, m.d1, m.a2, m.b2, m.c2, m.d2, m.a3, m.b3, m.c3, m.d3, m.a4, m.b4, m.c4, m.d4,
      Adjugate(m).a1, Adjugate(m).a2, Adjugate(m).a3, Adjugate(m).a4);
  }

  /** Row 3 against the cofactors of row 2: zero, as for a matrix with two equal rows. */
  lemma RowAgainstCofactors32(a1: real, b1: real, c1: real, d1: real, a2: real, b2: real, c2: real, d2: real, a3: real, b3: real, c3: real, d3: real, a4: real, b4: real, c4: real, d4: real, v1: real, v2: real, v3: real, v4: real)
    requires v1 == Flip(Det3(b1, c1, d1, b3, c3, d3, b4, c4, d4))
    requires v2 == Det3(a1, c1, d1, a3, c3, d3, a4, c4, d4)
    requires v3 == Flip(Det3(a1, b1, d1, a3, b3, d3, a4, b4, d4))
    requires v4 == Det3(a1, b1, c1, a3, b3, c3, a4, b4, c4)
    ensures a3 * v1 + b3 * v2 + c3 * v3 + d3 * v4 == 0.0
  {
  }

  /** Entry (3, 2) of `MulAdjugate`. */
  lemma AdjugateEntry32(m: M4)
    ensures Mul(m, Adjugate(m)).b3 == 0.0
  {
    MulRow3(m, Adjugate(m));
    RowAgainstCofactors32(m.a1, m.b1, m.c1, m.d1, m.a2, m.b2, m.c2, m.d2, m.a3, m.b3, m.c3, m.d3, m.a4, m.b4, m.c4, m.d4,
      Adjugate(m).b1, Adjugate(m).b2, Adjugate(m).b3, Adjugate(m).b4);
  }

  /** Row 3 against the cofactors of row 3: the determinant, expanded along row 3. */
  lemma RowAgainstCofactors33(a1: real, b1: real, c1: real, d1: real, a2: real, b2: real, c2: real, d2: real, a3: real, b3: real, c3: real, d3: real, a4: real, b4: real, c4: real, d4: real, v1: real, v2: real, v3: real, v4: real, d: real)
    requires v1 == Det3(b1, c1, d1, b2, c2, d2, b4, c4, d4)
    requires v2 == Flip(Det3(a1, c1, d1, a2, c2, d2, a4, c4, d4))
    requires v3 == Det3(a1, b1, d1, a2, b2, d2, a4, b4, d4)
    requires v4 == Flip(Det3(a1, b1, c1, a2, b2, c2, a4, b4, c4))
    requires d == Det(M4(a1, b1, c1, d1, a2, b2, c2, d2, a3, b3, c3, d3, a4, b4, c4, d4))
    ensures a3 * v1 + b3 * v2 + c3 * v3 + d3 * v4 == d
  {
    ExpandRow3(a3, b1, c1, d1, b2, c2, d2, b4, c4, d4, v1);
    ExpandRowFlipped3(b3, a1, c1, d1, a2, c2, d2, a4, c4, d4, v2);
    ExpandRow3(c3, a1, b1, d1, a2, b2, d2, a4, b4, d4, v3);
    ExpandRowFlipped3(d3, a1, b1, c1, a2, b2, c2, a4, b4, c4, v4);
    ExpandRow1(a1, b2, c2, d2, b3, c3, d3, b4, c4, d4, Det3(b2, c2, d2, b3, c3, d3, b4, c4, d4));
    ExpandRow1(b1, a2, c2, d2, a3, c3, d3, a4, c4, d4, Det3(a2, c2, d2, a3, c3, d3, a4, c4, d4));
    ExpandRow1(c1, a2, b2, d2, a3, b3, d3, a4, b4, d4, Det3(a2, b2, d2, a3, b3, d3, a4, b4, d4));
    ExpandRow1(d1, a2, b2, c2, a3, b3, c3, a4, b4, c4, Det3(a2, b2, c2, a3, b3, c3, a4, b4, c4));
  }

  /** Entry (3, 3) of `MulAdjugate`. */
  lemma AdjugateEntry33(m: M4)
    ensures Mul(m, Adjugate(m)).c3 == Det(m)
  {
    MulRow3(m, Adjugate(m));
    RowAgainstCofactors33(m.a1, m.b1, m.c1, m.d1, m.a2, m.b2, m.c2, m.d2, m.a3, m.b3, m.c3, m.d3, m.a4, m.b4, m.c4, m.d4,
      Adjugate(m).c1, Adjugate(m).c2, Adjugate(m).c3, Adjugate(m).c4, Det(m));
  }

  /** Row 3 against the cofactors of row 4: zero, as for a matrix with two equal rows. */
  lemma RowAgainstCofactors34(a1: real, b1: real, c1: real, d1: real, a2: real, b2: real, c2: real, d2: real, a3: real, b3: real, c3: real, d3: real, a4: real, b4: real, c4: real, d4: real, v1: real, v2: real, v3: real, v4: real)
    requires v1 == Flip(Det3(b1, c1, d1, b2, c2, d2, b3, c3, d3))
    requires v2 == Det3(a1, c1, d1, a2, c2, d2, a3, c3, d3)
    requires v3 == Flip(Det3(a1, b1, d1, a2, b2, d2, a3, b3, d3))
    requires v4 == Det3(a1, b1, c1, a2, b2, c2, a3, b3, c3)
    ensures a3 * v1 + b3 * v2 + c3 * v3 + d3 * v4 == 0.0
  {
  }

  /** Entry (3, 4) of `MulAdjugate`. */
  lemma AdjugateEntry34(m: M4)
    ensures Mul(m, Adjugate(m)).d3 == 0.0
  {
    MulRow3(m, Adjugate(m));
    RowAgainstCofactors34(m.a1, m.b1, m.c1, m.d1, m.a2, m.b2, m.c2, m.d2, m.a3, m.b3, m.c3, m.d3, m.a4, m.b4, m.c4, m.d4,
      Adjugate(m).d1, Adjugate(m).d2, Adjugate(m).d3, Adjugate(m).d4);
  }

  /** Row 4 against the cofactors of row 1: zero, as for a matrix with two equal rows. */
  lemma RowAgainstCofactors41(a1: real, b1: real, c1: real, d1: real, a2: real, b2: real, c2: real, d2: real, a3: real, b3: real, c3: real, d3: real, a4: real, b4: real, c4: real, d4: real, v1: real, v2: real, v3: real, v4: real)
    requires v1 == Det3(b2, c2, d2, b3, c3, d3, b4, c4, d4)
    requires v2 == Flip(Det3(a2, c2, d2, a3, c3, d3, a4, c4, d4))
    requires v3 == Det3(a2, b2, d2, a3, b3, d3, a4, b4, d4)
    requires v4 == Flip(Det3(a2, b2, c2, a3, b3, c3, a4, b4, c4))
    ensures a4 * v1 + b4 * v2 + c4 * v3 + d4 * v4 == 0.0
  {
  }

  /** Entry (4, 1) of `MulAdjugate`. */
  lemma AdjugateEntry41(m: M4)
    ensures Mul(m, Adjugate(m)).a4 == 0.0
  {
    MulRow4(m, Adjugate(m));
    RowAgainstCofactors41(m.a1, m.b1, m.c1, m.d1, m.a2, m.b2, m.c2, m.d2, m.a3, m.b3, m.c3, m.d3, m.a4, m.b4, m.c4, m.d4,
      Adjugate(m).a1, Adjugate(m).a2, Adjugate(m).a3, Adjugate(m).a4);
  }

  /** Row 4 against the cofactors of row 2: zero, as for a matrix with two equal rows. */
  lemma RowAgainstCofactors42(a1: real, b1: real, c1: real, d1: real, a2: real, b2: real, c2: real, d2: real, a3: real, b3: real, c3: real, d3: real, a4: real, b4: real, c4: real, d4: real, v1: real, v2: real, v3: real, v4: real)
    requires v1 == Flip(Det3(b1, c1, d1, b3, c3, d3, b4, c4, d4))
    requires v2 == Det3(a1, c1, d1, a3, c3, d3, a4, c4, d4)
    requires v3 == Flip(Det3(a1, b1, d1, a3, b3, d3, a4, b4, d4))
    requires v4 == Det3(a1, b1, c1, a3, b3, c3, a4, b4, c4)
    ensures a4 * v1 + b4 * v2 + c4 * v3 + d4 * v4 == 0.0
  {
  }

  /** Entry (4, 2) of `MulAdjugate`. */
  lemma AdjugateEntry42(m: M4)
    ensures Mul(m, Adjugate(m)).b4 == 0.0
  {
    MulRow4(m, Adjugate(m));
    RowAgainstCofactors42(m.a1, m.b1, m.c1, m.d1, m.a2, m.b2, m.c2, m.d2, m.a3, m.b3, m.c3, m.d3, m.a4, m.b4, m.c4, m.d4,
      Adjugate(m).b1, Adjugate(m).b2, Adjugate(m).b3, Adjugate(m).b4);
  }

  /** Row 4 against the cofactors of row 3: zero, as for a matrix with two equal rows. */
  lemma RowAgainstCofactors43(a1: real, b1: real, c1: real, d1: real, a2: real, b2: real, c2: real, d2: real, a3: real, b3: real, c3: real, d3: real, a4: real, b4: real, c4: real, d4: real, v1: real, v2: real, v3: real, v4: real)
    requires v1 == Det3(b1, c1, d1, b2, c2, d2, b4, c4, d4)
    requires v2 == Flip(Det3(a1, c1, d1, a2, c2, d2, a4, c4, d4))
    requires v3 == Det3(a1, b1, d1, a2, b2, d2, a4, b4, d4)
    requires v4 == Flip(Det3(a1, b1, c1, a2, b2, c2, a4, b4, c4))
    ensures a4 * v1 + b4 * v2 + c4 * v3 + d4 * v4 == 0.0
  {
  }

  /** Entry (4, 3) of `MulAdjugate`. */
  lemma AdjugateEntry43(m: M4)
    ensures Mul(m, Adjugate(m)).c4 == 0.0
  {
    MulRow4(m, Adjugate(m));
    RowAgainstCofactors43(m.a1, m.b1, m.c1, m.d1, m.a2, m.b2, m.c2, m.d2, m.a3, m.b3, m.c3, m.d3, m.a4, m.b4, m.c4, m.d4,
      Adjugate(m).c1, Adjugate(m).c2, Adjugate(m).c3, Adjugate(m).c4);
  }

  /** Row 4 against the cofactors of row 4: the determinant, expanded along row 4. */
  lemma RowAgainstCofactors44(a1: real, b1: real, c1: real, d1: real, a2: real, b2: real, c2: real, d2: real, a3: real, b3: real, c3: real, d3: real, a4: real, b4: real, c4: real, d4: real, v1: real, v2: real, v3: real, v4: real, d: real)
    requires v1 == Flip(Det3(b1, c1, d1, b2, c2, d2, b3, c3, d3))
    requires v2 == Det3(a1, c1, d1, a2, c2, d2, a3, c3, d3)
    requires v3 == Flip(Det3(a1, b1, d1, a2, b2, d2, a3, b3, d3))
    requires v4 == Det3(a1, b1, c1, a2, b2, c2, a3, b3, c3)
    requires d == Det(M4(a1, b1, c1, d1, a2, b2, c2, d2, a3, b3, c3, d3, a4, b4, c4, d4))
    ensures a4 * v1 + b4 * v2 + c4 * v3 + d4 * v4 == d
  {
    ExpandRowFlipped4(a4, b1, c1, d1, b2, c2, d2, b3, c3, d3, v1);
    ExpandRow4(b4, a1, c1, d1, a2, c2, d2, a3, c3, d3, v2);
    ExpandRowFlipped4(c4, a1, b1, d1, a2, b2, d2, a3, b3, d3, v3);
    ExpandRow4(d4, a1, b1, c1, a2, b2, c2, a3, b3, c3, v4);
    ExpandRow1(a1, b2, c2, d2, b3, c3, d3, b4, c4, d4, Det3(b2, c2, d2, b3, c3, d3, b4, c4, d4));
    ExpandRow1(b1, a2, c2, d2, a3, c3, d3, a4, c4, d4, Det3(a2, c2, d2, a3, c3, d3, a4, c4, d4));
    ExpandRow1(c1, a2, b2, d2, a3, b3, d3, a4, b4, d4, Det3(a2, b2, d2, a3, b3, d3, a4, b4, d4));
    ExpandRow1(d1, a2, b2, c2, a3, b3, c3, a4, b4, c4, Det3(a2, b2, c2, a3, b3, c3, a4, b4, c4));
  }

  /** Entry (4, 4) of `MulAdjugate`. */
  lemma AdjugateEntry44(m: M4)
    ensures Mul(m, Adjugate(m)).d4 == Det(m)
  {
    MulRow4(m, Adjugate(m));
    RowAgainstCofactors44(m.a1, m.b1, m.c1, m.d1, m.a2, m.b2, m.c2, m.d2, m.a3, m.b3, m.c3, m.d3, m.a4, m.b4, m.c4, m.d4,
      Adjugate(m).d1, Adjugate(m).d2, Adjugate(m).d3, Adjugate(m).d4, Det(m));
  }

  /** The adjugate is the inverse up to the determinant: m * adj(m) = det(m) * I. */
  lemma MulAdjugate(m: M4)
    ensures Mul(m, Adjugate(m)) == M4(Det(m), 0.0, 0.0, 0.0,
                                      0.0, Det(m), 0.0, 0.0,
                                      0.0, 0.0, Det(m), 0.0,
                                      0.0, 0.0, 0.0, Det(m))
  {
    AdjugateEntry11(m);
    AdjugateEntry12(m);
    AdjugateEntry13(m);
    AdjugateEntry14(m);
    AdjugateEntry21(m);
    AdjugateEntry22(m);
    AdjugateEntry23(m);
    AdjugateEntry24(m);
    AdjugateEntry31(m);
    AdjugateEntry32(m);
    AdjugateEntry33(m);
    AdjugateEntry34(m);
    AdjugateEntry41(m);
    AdjugateEntry42(m);
    AdjugateEntry43(m);
    AdjugateEntry44(m);
  }

  /** Scaling the right factor of a row-by-column sum scales the sum. */
  lemma SumScale(a: real, b: real, c: real, d: real, x: real, y: real, z: real, w: real,
                 sx: real, sy: real, sz: real, sw: real, k: real, p: real, t: real)
    requires sx == Times(x, k) && sy == Times(y, k) && sz == Times(z, k) && sw == Times(w, k)
    requires p == a * sx + b * sy + c * sz + d * sw
    requires t == a * x + b * y + c * z + d * w
    ensures p == Times(t, k)
  {
  }

  /** Entry (1, 1) of `MulScaleRight`. */
  lemma ScaleRight11(m: M4, A: M4, k: real)
    ensures Mul(m, ScaleEntries(A, k)).a1 == Times(Mul(m, A).a1, k)
  {
    var S := ScaleEntries(A, k);
    MulRow1(m, S);
    MulRow1(m, A);
    SumScale(m.a1, m.b1, m.c1, m.d1, A.a1, A.a2, A.a3, A.a4, S.a1, S.a2, S.a3, S.a4, k, Mul(m, S).a1, Mul(m, A).a1);
  }

  /** Entry (1, 2) of `MulScaleRight`. */
  lemma ScaleRight12(m: M4, A: M4, k: real)
    ensures Mul(m, ScaleEntries(A, k)).b1 == Times(Mul(m, A).b1, k)
  {
    var S := ScaleEntries(A, k);
    MulRow1(m, S);
    MulRow1(m, A);
    SumScale(m.a1, m.b1, m.c1, m.d1, A.b1, A.b2, A.b3, A.b4, S.b1, S.b2, S.b3, S.b4, k, Mul(m, S).b1, Mul(m, A).b1);
  }

  /** Entry (1, 3) of `MulScaleRight`. */
  lemma ScaleRight13(m: M4, A: M4, k: real)
    ensures Mul(m, ScaleEntries(A, k)).c1 == Times(Mul(m, A).c1, k)
  {
    var S := ScaleEntries(A, k);
    MulRow1(m, S);
    MulRow1(m, A);
    SumScale(m.a1, m.b1, m.c1, m.d1, A.c1, A.c2, A.c3, A.c4, S.c1, S.c2, S.c3, S.c4, k, Mul(m, S).c1, Mul(m, A).c1);
  }

  /** Entry (1, 4) of `MulScaleRight`. */
  lemma ScaleRight14(m: M4, A: M4, k: real)
    ensures Mul(m, ScaleEntries(A, k)).d1 == Times(Mul(m, A).d1, k)
  {
    var S := ScaleEntries(A, k);
    MulRow1(m, S);
    MulRow1(m, A);
    SumScale(m.a1, m.b1, m.c1, m.d1, A.d1, A.d2, A.d3, A.d4, S.d1, S.d2, S.d3, S.d4, k, Mul(m, S).d1, Mul(m, A).d1);
  }

  /** Entry (2, 1) of `MulScaleRight`. */
  lemma ScaleRight21(m: M4, A: M4, k: real)
    ensures Mul(m, ScaleEntries(A, k)).a2 == Times(Mul(m, A).a2, k)
  {
    var S := ScaleEntries(A, k);
    MulRow2(m, S);
    MulRow2(m, A);
    SumScale(m.a2, m.b2, m.c2, m.d2, A.a1, A.a2, A.a3, A.a4, S.a1, S.a2, S.a3, S.a4, k, Mul(m, S).a2, Mul(m, A).a2);
  }

  /** Entry (2, 2) of `MulScaleRight`. */
  lemma ScaleRight22(m: M4, A: M4, k: real)
    ensures Mul(m, ScaleEntries(A, k)).b2 == Times(Mul(m, A).b2, k)
  {
    var S := ScaleEntries(A, k);
    MulRow2(m, S);
    MulRow2(m, A);
    SumScale(m.a2, m.b2, m.c2, m.d2, A.b1, A.b2, A.b3, A.b4, S.b1, S.b2, S.b3, S.b4, k, Mul(m, S).b2, Mul(m, A).b2);
  }

  /** Entry (2, 3) of `MulScaleRight`. */
  lemma ScaleRight23(m: M4, A: M4, k: real)
    ensures Mul(m, ScaleEntries(A, k)).c2 == Times(Mul(m, A).c2, k)
  {
    var S := ScaleEntries(A, k);
    MulRow2(m, S);
    MulRow2(m, A);
    SumScale(m.a2, m.b2, m.c2, m.d2, A.c1, A.c2, A.c3, A.c4, S.c1, S.c2, S.c3, S.c4, k, Mul(m, S).c2, Mul(m, A).c2);
  }

  /** Entry (2, 4) of `MulScaleRight`. */
  lemma ScaleRight24(m: M4, A: M4, k: real)
    ensures Mul(m, ScaleEntries(A, k)).d2 == Times(Mul(m, A).d2, k)
  {
    var S := ScaleEntries(A, k);
    MulRow2(m, S);
    MulRow2(m, A);
    SumScale(m.a2, m.b2, m.c2, m.d2, A.d1, A.d2, A.d3, A.d4, S.d1, S.d2, S.d3, S.d4, k, Mul(m, S).d2, Mul(m, A).d2);
  }

  /** Entry (3, 1) of `MulScaleRight`. */
  lemma ScaleRight31(m: M4, A: M4, k: real)
    ensures Mul(m, ScaleEntries(A, k)).a3 == Times(Mul(m, A).a3, k)
  {
    var S := ScaleEntries(A, k);
    MulRow3(m, S);
    MulRow3(m, A);
    SumScale(m.a3, m.b3, m.c3, m.d3, A.a1, A.a2, A.a3, A.a4, S.a1, S.a2, S.a3, S.a4, k, Mul(m, S).a3, Mul(m, A).a3);
  }

  /** Entry (3, 2) of `MulScaleRight`. */
  lemma ScaleRight32(m: M4, A: M4, k: real)
    ensures Mul(m, ScaleEntries(A, k)).b3 == Times(Mul(m, A).b3, k)
  {
    var S := ScaleEntries(A, k);
    MulRow3(m, S);
    MulRow3(m, A);
    SumScale(m.a3, m.b3, m.c3, m.d3, A.b1, A.b2, A.b3, A.b4, S.b1, S.b2, S.b3, S.b4, k, Mul(m, S).b3, Mul(m, A).b3);
  }

  /** Entry (3, 3) of `MulScaleRight`. */
  lemma ScaleRight33(m: M4, A: M4, k: real)
    ensures Mul(m, ScaleEntries(A, k)).c3 == Times(Mul(m, A).c3, k)
  {
    var S := ScaleEntries(A, k);
    MulRow3(m, S);
    MulRow3(m, A);
    SumScale(m.a3, m.b3, m.c3, m.d3, A.c1, A.c2, A.c3, A.c4, S.c1, S.c2, S.c3, S.c4, k, Mul(m, S).c3, Mul(m, A).c3);
  }

  /** Entry (3, 4) of `MulScaleRight`. */
  lemma ScaleRight34(m: M4, A: M4, k: real)
    ensures Mul(m, ScaleEntries(A, k)).d3 == Times(Mul(m, A).d3, k)
  {
    var S := ScaleEntries(A, k);
    MulRow3(m, S);
    MulRow3(m, A);
    SumScale(m.a3, m.b3, m.c3, m.d3, A.d1, A.d2, A.d3, A.d4, S.d1, S.d2, S.d3, S.d4, k, Mul(m, S).d3, Mul(m, A).d3);
  }

  /** Entry (4, 1) of `MulScaleRight`. */
  lemma ScaleRight41(m: M4, A: M4, k: real)
    ensures Mul(m, ScaleEntries(A, k)).a4 == Times(Mul(m, A).a4, k)
  {
    var S := ScaleEntries(A, k);
    MulRow4(m, S);
    MulRow4(m, A);
    SumScale(m.a4, m.b4, m.c4, m.d4, A.a1, A.a2, A.a3, A.a4, S.a1, S.a2, S.a3, S.a4, k, Mul(m, S).a4, Mul(m, A).a4);
  }

  /** Entry (4, 2) of `MulScaleRight`. */
  lemma ScaleRight42(m: M4, A: M4, k: real)
    ensures Mul(m, ScaleEntries(A, k)).b4 == Times(Mul(m, A).b4, k)
  {
    var S := ScaleEntries(A, k);
    MulRow4(m, S);
    MulRow4(m, A);
    SumScale(m.a4, m.b4, m.c4, m.d4, A.b1, A.b2, A.b3, A.b4, S.b1, S.b2, S.b3, S.b4, k, Mul(m, S).b4, Mul(m, A).b4);
  }

  /** Entry (4, 3) of `MulScaleRight`. */
  lemma ScaleRight43(m: M4, A: M4, k: real)
    ensures Mul(m, ScaleEntries(A, k)).c4 == Times(Mul(m, A).c4, k)
  {
    var S := ScaleEntries(A, k);
    MulRow4(m, S);
    MulRow4(m, A);
    SumScale(m.a4, m.b4, m.c4, m.d4, A.c1, A.c2, A.c3, A.c4, S.c1, S.c2, S.c3, S.c4, k, Mul(m, S).c4, Mul(m, A).c4);
  }

  /** Entry (4, 4) of `MulScaleRight`. */
  lemma ScaleRight44(m: M4, A: M4, k: real)
    ensures Mul(m, ScaleEntries(A, k)).d4 == Times(Mul(m, A).d4, k)
  {
    var S := ScaleEntries(A, k);
    MulRow4(m, S);
    MulRow4(m, A);
    SumScale(m.a4, m.b4, m.c4, m.d4, A.d1, A.d2, A.d3, A.d4, S.d1, S.d2, S.d3, S.d4, k, Mul(m, S).d4, Mul(m, A).d4);
  }

  /** Scaling the right factor of a product scales the product. */
  lemma MulScaleRight(m: M4, A: M4, k: real)
    ensures Mul(m, ScaleEntries(A, k)) == ScaleEntries(Mul(m, A), k)
  {
    ScaleRight11(m, A, k);
    ScaleRight12(m, A, k);
    ScaleRight13(m, A, k);
    ScaleRight14(m, A, k);
    ScaleRight21(m, A, k);
    ScaleRight22(m, A, k);
    ScaleRight23(m, A, k);
    ScaleRight24(m, A, k);
    ScaleRight31(m, A, k);
    ScaleRight32(m, A, k);
    ScaleRight33(m, A, k);
    ScaleRight34(m, A, k);
    ScaleRight41(m, A, k);
    ScaleRight42(m, A, k);
    ScaleRight43(m, A, k);
    ScaleRight44(m, A, k);
  }

  /** For a matrix with a nonzero determinant, the matrix times its inverse is the identity. */
  lemma InverseIsRightInverse(m: M4)
    requires CanInverse(m)
    ensures Mul(m, Inverted(m)) == Identity
  {
    var k := 1.0 / Det(m);
    assert Times(Det(m), k) == 1.0 && Times(0.0, k) == 0.0;
    MulAdjugate(m);
    MulScaleRight(m, Adjugate(m), k);
  }
}
