/** Algebraic facts about `Matrix4` values: the product, the transpose, equality and the
    scalar product. */
module Mat4Algebra {
  import opened Mat4
  import opened Mat4Inverse

  /** The identity (what `LoadIdentity` and the default constructor give) is a two-sided unit. */
  lemma MulIdentity(m: M4)
    ensures Mul(Identity, m) == m && Mul(m, Identity) == m
  {
  }

  /** `Transpose` swaps row and column indices. */
  lemma TransposeSwapsIndices(m: M4, r: int, c: int)
    requires 1 <= r <= 4 && 1 <= c <= 4
    ensures Entry(Transposed(m), r, c) == Entry(m, c, r)
  {
  }

  /** Transposing twice gives the matrix back, and the identity is its own transpose. */
  lemma TransposeInvolution(m: M4)
    ensures Transposed(Transposed(m)) == m
    ensures Transposed(Identity) == Identity
  {
  }

  /** `Equals`, `==` and `!=` on two matrices compare all sixteen entries. */
  lemma EqualsIsEntrywise(m1: M4, m2: M4)
    ensures Equals(m1, m2) <==> m1 == m2
    ensures Equals(m1, m2) <==> ToArray(m1) == ToArray(m2)
  {
    if ToArray(m1) == ToArray(m2) {
      assert forall i :: 0 <= i < 16 ==> ToArray(m1)[i] == ToArray(m2)[i];
    }
  }

  /** `m * s` as written: every row of the result is the first row of m times s, so the
      identity times 2 is not the identity with every entry doubled. */
  lemma MulScalarCounterexample()
    ensures MulScalar(Identity, 2.0).a2 == 2.0 && MulScalar(Identity, 2.0).b2 == 0.0
    ensures MulScalar(Identity, 2.0) != ScaleEntries(Identity, 2.0)
  {
    assert ScaleEntries(Identity, 2.0).b2 == Times(1.0, 2.0) == 2.0;
  }

  /** The corrected scalar product is the product with s times the identity. */
  lemma ScaleEntriesIsProductWithScaledIdentity(m: M4, s: real)
    ensures ScaleEntries(m, s) == Mul(m, ScaleEntries(Identity, s))
  {
    MulIdentity(m);
    MulScaleRight(m, Identity, s);
  }
}
