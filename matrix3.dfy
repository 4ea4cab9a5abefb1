/** The 3x3 matrix (`Matrix3`) used for 2D transforms. As in `Matrix4`, a1, b1, c1 is the first
    row. The in-place operations work on the 2x2 block a1, b1, a2, b2 and on the translation
    a3, b3 of the last row; column c is left alone, so they compose like the matching products
    only on matrices whose column c is (0, 0, c3). */
module Mat3 {

  datatype M3 = M3(a1: real, b1: real, c1: real,
                   a2: real, b2: real, c2: real,
                   a3: real, b3: real, c3: real)

  /** What `new Matrix3()` holds: no field initializers, so every entry is zero. */
  const Zero := M3(0.0, 0.0, 0.0, 0.0, 0.0, 0.0, 0.0, 0.0, 0.0)

  /** `Matrix3.Identify` */
  const Identify := M3(1.0, 0.0, 0.0, 0.0, 1.0, 0.0, 0.0, 0.0, 1.0)

  /** The entry in row r and column c, both counted from 1. */
  function Entry(m: M3, r: int, c: int): real
    requires 1 <= r <= 3 && 1 <= c <= 3
  {
    if r == 1 then (if c == 1 then m.a1 else if c == 2 then m.b1 else m.c1)
    else if r == 2 then (if c == 1 then m.a2 else if c == 2 then m.b2 else m.c2)
    else (if c == 1 then m.a3 else if c == 2 then m.b3 else m.c3)
  }

  /** `ToArray()`: the nine entries, row after row. */
  function ToArray(m: M3): (arr: seq<real>)
    ensures |arr| == 9
    ensures forall i :: 0 <= i < 9 ==> arr[i] == Entry(m, i / 3 + 1, i % 3 + 1)
  {
    [m.a1, m.b1, m.c1, m.a2, m.b2, m.c2, m.a3, m.b3, m.c3]
  }

  /** `m1 * m2`: row of m1 by column of m2. */
  function Mul(m1: M3, m2: M3): M3 {
    M3(m1.a1 * m2.a1 + m1.b1 * m2.a2 + m1.c1 * m2.a3,
       m1.a1 * m2.b1 + m1.b1 * m2.b2 + m1.c1 * m2.b3,
       m1.a1 * m2.c1 + m1.b1 * m2.c2 + m1.c1 * m2.c3,

       m1.a2 * m2.a1 + m1.b2 * m2.a2 + m1.c2 * m2.a3,
       m1.a2 * m2.b1 + m1.b2 * m2.b2 + m1.c2 * m2.b3,
       m1.a2 * m2.c1 + m1.b2 * m2.c2 + m1.c2 * m2.c3,

       m1.a3 * m2.a1 + m1.b3 * m2.a2 + m1.c3 * m2.a3,
       m1.a3 * m2.b1 + m1.b3 * m2.b2 + m1.c3 * m2.b3,
       m1.a3 * m2.c1 + m1.b3 * m2.c2 + m1.c3 * m2.c3)
  }

  /** Row 1 of a product: each entry is row 1 of m1 against a column of m2. */
  lemma MulRow1(m1: M3, m2: M3)
    ensures Mul(m1, m2).a1 == m1.a1 * m2.a1 + m1.b1 * m2.a2 + m1.c1 * m2.a3
    ensures Mul(m1, m2).b1 == m1.a1 * m2.b1 + m1.b1 * m2.b2 + m1.c1 * m2.b3
    ensures Mul(m1, m2).c1 == m1.a1 * m2.c1 + m1.b1 * m2.c2 + m1.c1 * m2.c3
  {
  }

  /** Row 2 of a product: each entry is row 2 of m1 against a column of m2. */
  lemma MulRow2(m1: M3, m2: M3)
    ensures Mul(m1, m2).a2 == m1.a2 * m2.a1 + m1.b2 * m2.a2 + m1.c2 * m2.a3
    ensures Mul(m1, m2).b2 == m1.a2 * m2.b1 + m1.b2 * m2.b2 + m1.c2 * m2.b3
    ensures Mul(m1, m2).c2 == m1.a2 * m2.c1 + m1.b2 * m2.c2 + m1.c2 * m2.c3
  {
  }

  /** Row 3 of a product: each entry is row 3 of m1 against a column of m2. */
  lemma MulRow3(m1: M3, m2: M3)
    ensures Mul(m1, m2).a3 == m1.a3 * m2.a1 + m1.b3 * m2.a2 + m1.c3 * m2.a3
    ensures Mul(m1, m2).b3 == m1.a3 * m2.b1 + m1.b3 * m2.b2 + m1.c3 * m2.b3
    ensures Mul(m1, m2).c3 == m1.a3 * m2.c1 + m1.b3 * m2.c2 + m1.c3 * m2.c3
  {
  }

  // ---------------------------------------------------------------------------
  // In-place transforms, as functions of the matrix before the call
  // ---------------------------------------------------------------------------

  /** `Rotate(angle)`, given the sine and cosine of the angle in radians. */
  function Rotated(m: M3, sin: real, cos: real): M3 {
    m.(a1 := m.a1 * cos + m.a2 * sin, b1 := m.b1 * cos + m.b2 * sin,
       a2 := m.a1 * -sin + m.a2 * cos, b2 := m.b1 * -sin + m.b2 * cos)
  }

  /** `Scale(x, y)` */
  function Scaled(m: M3, x: real, y: real): M3 {
    m.(a1 := m.a1 * x, b1 := m.b1 * x, a2 := m.a2 * y, b2 := m.b2 * y)
  }

  /** `Translate(x, y)` */
  function Translated(m: M3, x: real, y: real): M3 {
    m.(a3 := m.a3 + (m.a1 * x + m.a2 * y), b3 := m.b3 + (m.b1 * x + m.b2 * y))
  }

  // ---------------------------------------------------------------------------
  // Inverse
  // ---------------------------------------------------------------------------

  /** The determinant, expanded along the first row as `Inverse` computes it. */
  function Det(m: M3): real {
    m.a1 * m.b2 * m.c3 - m.a1 * m.c2 * m.b3 + m.b1 * m.c2 * m.a3
    - m.b1 * m.a2 * m.c3 + m.c1 * m.a2 * m.b3 - m.c1 * m.b2 * m.a3
  }

  /** The adjugate: entry (r, c) is the cofactor of entry (c, r). */
  function Adjugate(m: M3): M3 {
    M3(m.b2 * m.c3 - m.c2 * m.b3, m.c1 * m.b3 - m.b1 * m.c3, m.b1 * m.c2 - m.c1 * m.b2,
       m.c2 * m.a3 - m.a2 * m.c3, m.a1 * m.c3 - m.c1 * m.a3, m.c1 * m.a2 - m.a1 * m.c2,
       m.a2 * m.b3 - m.b2 * m.a3, m.b1 * m.a3 - m.a1 * m.b3, m.a1 * m.b2 - m.b1 * m.a2)
  }

  /** One entry as `Inverse()` computes it from the reciprocal k of the determinant: k
      multiplies only the first product of the cofactor x * y - q. */
  function Misplaced(k: real, x: real, y: real, q: real): real { k * x * y - q }

  /** The entries `Inverse()` writes, given the reciprocal k of the determinant; entry a1 is
      k * e * i - f * h where the inverse has k * (e * i - f * h). */
  function AsWrittenEntries(m: M3, k: real): M3 {
    M3(Misplaced(k, m.b2, m.c3, m.c2 * m.b3), Misplaced(k, m.c1, m.b3, m.b1 * m.c3), Misplaced(k, m.b1, m.c2, m.c1 * m.b2),
       Misplaced(k, m.c2, m.a3, m.a2 * m.c3), Misplaced(k, m.a1, m.c3, m.c1 * m.a3), Misplaced(k, m.c1, m.a2, m.a1 * m.c2),
       Misplaced(k, m.a2, m.b3, m.b2 * m.a3), Misplaced(k, m.b1, m.a3, m.a1 * m.b3), Misplaced(k, m.a1, m.b2, m.b1 * m.a2))
  }

  /** `Inverse()` as written: unchanged when the determinant is zero. */
  function InvertedAsWritten(m: M3): M3 {
    var det := Det(m);
    if det == 0.0 then m else AsWrittenEntries(m, 1.0 / det)
  }

  /** One entry times a scalar. A function of its own, so that a scaled entry stays one term
      in the proofs about products. */
  function Times(x: real, s: real): real { x * s }

  /** Every entry times s. */
  function ScaleEntries(m: M3, s: real): M3 {
    M3(Times(m.a1, s), Times(m.b1, s), Times(m.c1, s),
       Times(m.a2, s), Times(m.b2, s), Times(m.c2, s),
       Times(m.a3, s), Times(m.b3, s), Times(m.c3, s))
  }

  /** What `Inverse()` evidently means: the whole adjugate divided by the determinant, and the
      matrix unchanged when the determinant is zero. */
  function Inverted(m: M3): M3 {
    var det := Det(m);
    if det == 0.0 then m else ScaleEntries(Adjugate(m), 1.0 / det)
  }

  // ---------------------------------------------------------------------------
  // The mutable matrix
  // ---------------------------------------------------------------------------

  class Matrix3 {
    var a1: real, b1: real, c1: real
    var a2: real, b2: real, c2: real
    var a3: real, b3: real, c3: real

    /** The nine fields as a value. */
    function Value(): M3
      reads this
    {
      M3(a1, b1, c1, a2, b2, c2, a3, b3, c3)
    }

    /** `new Matrix3()`: the all-zero matrix, not the identity. */
    constructor ()
      ensures Value() == Zero
    {
      a1, b1, c1 := 0.0, 0.0, 0.0;
      a2, b2, c2 := 0.0, 0.0, 0.0;
      a3, b3, c3 := 0.0, 0.0, 0.0;
    }

    /** `new Matrix3(a1, b1, ..., c3)` */
    constructor FromEntries(a1: real, b1: real, c1: real,
                            a2: real, b2: real, c2: real,
                            a3: real, b3: real, c3: real)
      ensures Value() == M3(a1, b1, c1, a2, b2, c2, a3, b3, c3)
    {
      this.a1, this.b1, this.c1 := a1, b1, c1;
      this.a2, this.b2, this.c2 := a2, b2, c2;
      this.a3, this.b3, this.c3 := a3, b3, c3;
    }

    /** `new Matrix3(mat2)`: a copy of mat2. */
    constructor Copy(mat2: Matrix3)
      ensures Value() == mat2.Value()
    {
      a1, b1, c1 := mat2.a1, mat2.b1, mat2.c1;
      a2, b2, c2 := mat2.a2, mat2.b2, mat2.c2;
      a3, b3, c3 := mat2.a3, mat2.b3, mat2.c3;
    }

    /** Writes all nine fields from a value. */
    method SetValue(m: M3)
      modifies this
      ensures Value() == m
    {
      a1, b1, c1 := m.a1, m.b1, m.c1;
      a2, b2, c2 := m.a2, m.b2, m.c2;
      a3, b3, c3 := m.a3, m.b3, m.c3;
    }

    method LoadIdentity() returns (self: Matrix3)
      modifies this
      ensures self == this && Value() == Identify
    {
      SetValue(Identify);
      self := this;
    }

    /** `CopyFrom(m2)`: every field takes m2's value (m2 may be this matrix itself). */
    method CopyFrom(m2: Matrix3) returns (self: Matrix3)
      modifies this
      ensures self == this && Value() == old(m2.Value())
    {
      SetValue(m2.Value());
      self := this;
    }

    /** `Clone()`: a new matrix with the same entries. */
    method Clone() returns (m: Matrix3)
      ensures fresh(m) && m.Value() == Value()
    {
      m := new Matrix3.Copy(this);
    }

    /** `Rotate(angle)`, given the sine and cosine of the angle in radians. */
    method Rotate(sin: real, cos: real) returns (self: Matrix3)
      modifies this
      ensures self == this && Value() == Rotated(old(Value()), sin, cos)
    {
      var na1 := a1 * cos + a2 * sin;
      var nb1 := b1 * cos + b2 * sin;
      var na2 := a1 * -sin + a2 * cos;
      var nb2 := b1 * -sin + b2 * cos;
      a1, b1 := na1, nb1;
      a2, b2 := na2, nb2;
      self := this;
    }

    /** `Scale(x, y)` */
    method Scale(x: real, y: real) returns (self: Matrix3)
      modifies this
      ensures self == this && Value() == Scaled(old(Value()), x, y)
    {
      a1 := a1 * x; b1 := b1 * x;
      a2 := a2 * y; b2 := b2 * y;
      self := this;
    }

    /** `Translate(x, y)` and its Vector2 overload. */
    method Translate(x: real, y: real) returns (self: Matrix3)
      modifies this
      ensures self == this && Value() == Translated(old(Value()), x, y)
    {
      a3 := a3 + (a1 * x + a2 * y);
      b3 := b3 + (b1 * x + b2 * y);
      self := this;
    }

    /** `Matrix3.CreateRotation(angle)`: rotates a new, all-zero matrix, so stays zero. */
    static method CreateRotation(sin: real, cos: real) returns (m: Matrix3)
      ensures fresh(m) && m.Value() == Rotated(Zero, sin, cos)
    {
      m := new Matrix3();
      m := m.Rotate(sin, cos);
    }

    /** `Matrix3.CreateTranslation(x, y)`: translates a new, all-zero matrix. */
    static method CreateTranslation(x: real, y: real) returns (m: Matrix3)
      ensures fresh(m) && m.Value() == Translated(Zero, x, y)
    {
      m := new Matrix3();
      m := m.Translate(x, y);
    }

    /** `Matrix3.CreateScale(x, y)`: scales a new, all-zero matrix. */
    static method CreateScale(x: real, y: real) returns (m: Matrix3)
      ensures fresh(m) && m.Value() == Scaled(Zero, x, y)
    {
      m := new Matrix3();
      m := m.Scale(x, y);
    }

    /** `Inverse()`: left unchanged when the determinant is zero, otherwise overwritten with
        the entries it computes from the reciprocal of the determinant. */
    method Inverse()
      modifies this
      ensures Value() == InvertedAsWritten(old(Value()))
    {
      var det := Det(Value());
      if det == 0.0 {
        return;
      }
      det := 1.0 / det;
      SetValue(AsWrittenEntries(Value(), det));
    }
  }
}
