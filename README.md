# cs-graphics-math in Dafny

A model of the geometry kernel of cs-graphics-math: the vector value types `Vector2`,
`Vector3` and `Vector4`, the mutable matrix classes `Matrix3` and `Matrix4`, the axis-aligned
boxes `BoundingBox2D` and `BoundingBox3D`, and the three intersection tests of `Ray`.

Scalars are `real`, so every statement holds under exact arithmetic. Where the library calls
`Math.Sin`, `Math.Cos`, `Math.Tan` or `Math.Sqrt`, the model takes the result as a parameter:
a sine and cosine pair, `tanHalf`, or a length `len` tied to its vector by
`IsLength(v, len)` (`len >= 0` and `len * len == Dot(v, v)`).

How the C# forms map to Dafny:
- Structs (vectors, boxes) become datatypes. A struct mutator becomes a function that
  returns the new value. `Ray` is a class with public mutable fields in the source, but the
  library only reads them after its constructor has set them, so the model treats a ray as a
  value. The parameterless `new Ray()` (every field zero) is the value
  `Ray(Zero, Zero, Zero)`; the model has no constructor function for it. The exceptions are `Vector3.Average`, `BoundingBox3D.ExpandTo`,
  `BoundingBox3D.FromVertices` and `BoundingBox2D.FromVectices`, which loop in the source and
  are methods with loop invariants.
- `Matrix4` and `Matrix3` are classes with the 16 and 9 mutable fields of the source.
  `Value()` reads a class's fields as an `M4` or `M3` value. Every in-place method ensures
  `Value() == F(old(Value()))` for a function `F` of the model. The lemmas then state what `F`
  means: a footprint, a product with a reference matrix, a round trip, or an inverse.

Modules:
- `Outcomes`: `Result` and `Outcome`, and the two exceptions the core throws.
- `Vec2`, `Vec3` and `Vec4`: the vector types.
- `Transforms`: the products of vectors with matrices, kept apart so that the vector modules
  need no matrix.
- `Mat4`: the `Matrix4` class and the functions that specify it.
- `Mat4Algebra`, `Mat4Inverse`, `Mat4Transforms` and `Mat4Projection`: the properties of
  `Mat4`.
- `Mat3`: the `Matrix3` class and its functions; `Mat3Properties` holds their properties.
- `Box2` and `Box3`: the two box types.
- `Rays`: the ray, its three intersection tests, and `BoundingBox3D.Intersects`, which only
  forwards to the ray.

Facts the proofs bring out about the code as written:
- `Matrix4.RotateZ(a)` turns the opposite way from the z block of `Rotate(0, 0, a, XYZ)`.
  `RotateX` and `RotateY` agree with their Euler blocks.
- `Matrix4.Frustum` puts the off-centre terms (l + r)/x and (t + b)/y in row 3. The OpenGL
  matrix of `glFrustum` (OpenGL 2.1 specification, section 2.11.2) has them in column 3.
  So the two agree exactly on frusta that are symmetric about the view axis.
- `Matrix4.Ortho` is the transpose of the `glOrtho` matrix, with the translation in row 4.
- `Ray.IntersectsBoundingBox` reports `t = tmin` on every hit. From an origin inside the box
  tmin is the entry point behind the origin, so the reported t is negative or zero
  (`Rays.SlabFromInside`): it is not the first point the ray reaches.
- `Matrix4.Rotate` rejects the four orders XZY, YXZ, YZX and ZXY with `NotSupportedException`
  and writes nothing; XYZ and ZYX are the two orders it applies.
- The two conventions for a vector times a matrix meet in `Transforms`. `v * m` treats v as a
  row vector. `m * v` treats v as a column vector. `Vector2`'s `m * v` agrees with `v * m` for
  every v exactly when `m.a2 == m.b1`.

## Model

| member | source | states |
|---|---|---|
| Vec3.Splat | src/Vector3.cs:33-36 | definition of `new Vector3(v)`: v in all three components |
| Vec3.Set | src/Vector3.cs:55-60 | definition of `Set`: the new value is (x, y, z); `AddOverwrites` relates `Add` to it |
| Vec3.Add | src/Vector3.cs:48-53 | definition of `Add` as written: it assigns (x, y, z); properties in `AddOverwrites` and `AddCounterexample` |
| Vec3.AddIntended | src/Vector3.cs:48-53 | the corrected `Add`, which adds (x, y, z) to the receiver; properties in `AddIntendedIsPlus` |
| Vec3.Plus | src/Vector3.cs:62-65 | definition of `v1 + v2`, componentwise; `Sum` and `Average` are built on it |
| Vec3.PlusScalar | src/Vector3.cs:67-75 | definition of `v1 + v` and `v + v1` for a scalar v: v added to every component |
| Vec3.Minus | src/Vector3.cs:77-80 | definition of `v1 - v2`, componentwise |
| Vec3.Neg | src/Vector3.cs:82-85 | definition of unary `-v`; `CrossAnticommutative` is stated with it |
| Vec3.Abs | src/Vector3.cs:194-197 | each component of the result is nonnegative and is the input's component or its negation |
| Vec3.Scale | src/Vector3.cs:87-90 | definition of `v * d`; `ScaleSides` relates it to `d * v` |
| Vec3.ScaleLeft | src/Vector3.cs:92-95 | definition of `d * v`; `ScaleSides` relates it to `v * d` |
| Vec3.Cross | src/Vector3.cs:97-106 | definition of `Cross` and of `v1 * v2`; properties in `CrossAnticommutative` and `CrossOrthogonal` |
| Vec3.Div | src/Vector3.cs:124-128 | definition of `v / d` as multiplication by 1 / d; used by `Average` |
| Vec3.ScalarDiv | src/Vector3.cs:130-133 | definition of `d / v`, componentwise, for nonzero components |
| Vec3.DivComponents | src/Vector3.cs:135-138 | definition of `v1 / v2`, componentwise, for nonzero components of v2 |
| Vec3.Dot | src/Vector3.cs:140-143 | definition of `Dot`; properties in `DotProperties` and `CrossOrthogonal` |
| Vec3.IsLength | src/Vector3.cs:145-153 | what `Length` returns: the nonnegative square root of `Dot(v, v)` |
| Vec3.Normalize | src/Vector3.cs:155-165 | definition of both `Normalize` overloads, given the length; properties in `NormalizeIsUnit` |
| Vec3.Equals | src/Vector3.cs:230-240 | definition of `Equals` and `==`; properties in `EqualityOperators` |
| Vec3.NotEquals | src/Vector3.cs:242-245 | definition of `!=`; properties in `EqualityOperators` |
| Vec3.Sum | src/Vector3.cs:203-208 | the sum the loop of `Average` accumulates; properties in `SumOfCopies` |
| Vec3.AddOverwrites | src/Vector3.cs:48-60 | `Add(x, y, z)` leaves exactly (x, y, z), like `Set`; it equals the sum only when the vector was zero |
| Vec3.AddCounterexample | src/Vector3.cs:48-53 | `One.Add(1, 1, 1)` is `One`, where adding would give (2, 2, 2) |
| Vec3.AddIntendedIsPlus | src/Vector3.cs:48-53 | the corrected `Add` is `v + (x, y, z)`, and subtracting v gives back (x, y, z) |
| Vec3.CrossAnticommutative | src/Vector3.cs:97-106 | `Cross(a, b) == -Cross(b, a)` |
| Vec3.CrossOrthogonal | src/Vector3.cs:102-106 | the cross product has dot product 0 with both inputs |
| Vec3.DotProperties | src/Vector3.cs:140-143 | `Dot` is symmetric and `Dot(v, v) >= 0` |
| Vec3.AbsProperties | src/Vector3.cs:194-197 | `Abs` is idempotent, `Abs(-v) == Abs(v)`, and `Abs(v) == v` exactly when no component is negative |
| Vec3.EqualityOperators | src/Vector3.cs:230-245 | `==` is componentwise equality, `!=` is its negation |
| Vec3.ScaleSides | src/Vector3.cs:87-95 | `v * d` and `d * v` are the same vector |
| Vec3.NormalizeIsUnit | src/Vector3.cs:155-165 | dividing a nonzero vector by its length gives a vector of length 1 |
| Vec3.Average | src/Vector3.cs:199-211 | the loop returns `Zero` for no arguments, else the sum of the arguments over their count |
| Vec3.SumOfCopies | src/Vector3.cs:199-211 | the sum of n copies of v is v scaled by n |
| Vec3.AverageOfCopies | src/Vector3.cs:199-211 | the average of n > 0 copies of v is v |
| Vec2.Plus | src/Vector2.cs:89-92 | definition of `v1 + v2`, componentwise |
| Vec2.Minus | src/Vector2.cs:94-97 | definition of `v1 - v2`, componentwise |
| Vec2.Neg | src/Vector2.cs:138-141 | definition of unary `-v` |
| Vec2.Abs | src/Vector2.cs:174-177 | each component of the result is nonnegative and is the input's component or its negation |
| Vec2.Scale | src/Vector2.cs:99-107 | definition of `v * s` for a float or double s |
| Vec2.MulComponents | src/Vector2.cs:109-112 | definition of `v * s` for a vector s; `EqualityAndSymmetry` shows it is symmetric |
| Vec2.Div | src/Vector2.cs:133-136 | definition of `v / s` for nonzero s |
| Vec2.Dot | src/Vector2.cs:169-172 | definition of `Dot`; `EqualityAndSymmetry` shows it is symmetric |
| Vec2.Less | src/Vector2.cs:143-146 | definition of `<`; properties in `ComparisonProperties` and `ComparisonsNotComplements` |
| Vec2.Greater | src/Vector2.cs:148-151 | definition of `>`; properties in `ComparisonProperties` and `ComparisonsNotComplements` |
| Vec2.LessEq | src/Vector2.cs:153-156 | definition of `<=`; properties in `ComparisonProperties` |
| Vec2.GreaterEq | src/Vector2.cs:158-161 | definition of `>=`; properties in `ComparisonProperties` |
| Vec2.Equal | src/Vector2.cs:186-189 | definition of `==`; properties in `EqualityAndSymmetry` |
| Vec2.NotEqual | src/Vector2.cs:191-194 | definition of `!=`; `EqualityAndSymmetry` shows it is the complement of `==` |
| Vec2.Equals | src/Vector2.cs:196-202 | definition of `Equals`; `EqualityAndSymmetry` shows it agrees with `==` |
| Vec2.Transpose | src/Vector2.cs:74-80 | definition of `Transpose`; properties in `TransposeInvolution` |
| Vec2.IsLength | src/Vector2.cs:51 | what `Length` returns: the nonnegative square root of `Dot(v, v)` |
| Vec2.NormalizeOf | src/Vector2.cs:163-167 | definition of the static `Normalize(v)`, given the length; properties in `NormalizeAgrees` |
| Vec2.UnitAfterDivision | src/Vector2.cs:63-72 | dividing both components of a nonzero vector by its length gives a vector whose dot product with itself is 1 |
| Vec2.Normalize | src/Vector2.cs:63-72 | a zero-length vector is left alone and `Zero` is returned; otherwise the receiver becomes the returned unit vector |
| Vec2.NormalizeAgrees | src/Vector2.cs:163-167 | the instance `Normalize` and the static `Normalize(v)` return the same unit vector |
| Vec2.TransposeInvolution | src/Vector2.cs:74-80 | `Transpose` swaps x and y, and twice restores the vector |
| Vec2.ComparisonProperties | src/Vector2.cs:143-161 | `<` and `>` are strict, imply `<=` and `>=`, are converses, and `<=` with `>=` is equality |
| Vec2.ComparisonsNotComplements | src/Vector2.cs:143-151 | (0, 1) and (1, 0) are neither `<` nor `>` each other |
| Vec2.EqualityAndSymmetry | src/Vector2.cs:99-112 | `==` and `!=` are complements, `Equals` agrees with `==`, and `Dot` and componentwise `*` are symmetric |
| Vec2.AbsProperties | src/Vector2.cs:174-177 | `Abs` is idempotent, `Abs(-v) == Abs(v)`, and `Abs(v) == v` exactly when no component is negative |
| Vec4.FromScalar | src/Vector4.cs:33-36 | definition of `new Vector4(v)`: v in x, y, z and w = 1; properties in `ConstructorsSetW` |
| Vec4.FromXYZ | src/Vector4.cs:38-41 | definition of `new Vector4(x, y, z)`: w = 1; properties in `ConstructorsSetW` |
| Vec4.FromVector3W | src/Vector4.cs:48-51 | definition of `new Vector4(v, w)`; `ConstructorsSetW` shows it keeps w |
| Vec4.FromVector3 | src/Vector4.cs:43-46 | definition of `new Vector4(v)` for a Vector3 v, which delegates with w = 1; properties in `ConstructorsSetW` |
| Vec4.XYZ | src/Vector4.cs:63 | definition of the `XYZ` property; `ConstructorsSetW` shows it undoes the Vector3 constructors |
| Vec4.XY | src/Vector4.cs:65 | definition of the `XY` property: the x and y components |
| Vec4.Plus | src/Vector4.cs:72-75 | definition of `v1 + v2`, componentwise |
| Vec4.PlusVector3 | src/Vector4.cs:77-80 | definition of `v1 + n` for a Vector3 n; `CrossAndMixedPlus` shows it drops v1.w and sets w = 1 |
| Vec4.PlusScalar | src/Vector4.cs:82-85 | definition of `v1 + p` for a scalar p, added to all four components |
| Vec4.Neg | src/Vector4.cs:87-90 | definition of unary `-v` |
| Vec4.Minus | src/Vector4.cs:92-95 | definition of `v1 - v2`, componentwise |
| Vec4.Cross | src/Vector4.cs:97-101 | definition of `v1 * v2`; `CrossAndMixedPlus` shows it is the cross product of the xyz parts with w = 1 |
| Vec4.Scale | src/Vector4.cs:121-129 | definition of `v * s` and `s * v` |
| Vec4.Div | src/Vector4.cs:131-134 | definition of `v / s` for nonzero s |
| Vec4.DivComponents | src/Vector4.cs:136-139 | definition of `v1 / v2`, componentwise, for nonzero components of v2 |
| Vec4.Dot | src/Vector4.cs:141-144 | definition of `Dot`; `Normalize` is stated with it |
| Vec4.IsLength | src/Vector4.cs:146-154 | what `Length` returns: the nonnegative square root of `Dot(v, v)` |
| Vec4.Similar | src/Vector4.cs:187-193 | definition of `Similar`: every component within epsilon; properties in `SimilarProperties` |
| Vec4.Abs | src/Vector4.cs:189-192 | `Math.Abs` as `Similar` uses it |
| Vec4.Equal | src/Vector4.cs:195-198 | definition of `==`; properties in `EqualityOperators` |
| Vec4.NotEqual | src/Vector4.cs:200-203 | definition of `!=`; `EqualityOperators` shows it is the complement of `==` |
| Vec4.Equals | src/Vector4.cs:205-208 | definition of `Equals`, which delegates to `==`; properties in `EqualityOperators` |
| Vec4.Normalize | src/Vector4.cs:156-163 | a zero-length vector is returned unchanged; otherwise the result has length 1 |
| Vec4.ConstructorsSetW | src/Vector4.cs:33-61 | the 1-, 3-argument and Vector3 constructors set w = 1; the (Vector3, w) one keeps w |
| Vec4.CrossAndMixedPlus | src/Vector4.cs:77-101 | `v1 * v2` is the cross product of the xyz parts with w = 1; `v + Vector3` drops v.w and sets w = 1 |
| Vec4.SimilarProperties | src/Vector4.cs:187-193 | for epsilon >= 0, `Similar` is reflexive and symmetric, and `==` implies it |
| Vec4.EqualityOperators | src/Vector4.cs:195-208 | `==` is componentwise, `!=` is its complement, `Equals` agrees with `==` |
| Transforms.Vector3TimesMatrix | src/Vector3.cs:108-114 | definition of `v * m` for a Vector3 (row convention, translation from row 4); properties in `Vector3Conventions` and `Vector3TimesMatrixIsPoint` |
| Transforms.MatrixTimesVector3 | src/Vector3.cs:116-122 | definition of `m * v` for a Vector3 (column convention, translation from column d); properties in `Vector3Conventions`, `MatrixTimesVector3IsPoint`, `TranslateMovesPoint` and `ScaleScalesPoint` |
| Transforms.Vector4TimesMatrix | src/Vector4.cs:103-110 | definition of `v * m` for a Vector4; properties in `Vector4Conventions` |
| Transforms.MatrixTimesVector4 | src/Vector4.cs:112-119 | definition of `m * v` for a Vector4; properties in `Vector4Conventions` and `MatrixTimesVector4Composes` |
| Transforms.Vector2TimesMatrix3 | src/Vector2.cs:114-118 | definition of `v * m` for a Matrix3; properties in `Vector2ReferenceTransforms` and `Vector2TimesMatrix3Composes` |
| Transforms.Vector2TimesMatrix4 | src/Vector2.cs:120-124 | definition of `v * m` for a Matrix4; properties in `Vector2Products` |
| Transforms.Matrix3TimesVector2 | src/Vector2.cs:126-131 | definition of `m * v` for a Matrix3 as written; properties in `Matrix3TimesVector2Iff` |
| Transforms.Vector4Transposes | src/Vector4.cs:103-119 | `m * v` is `v * Transpose(m)`, and `v * m` is `Transpose(m) * v` |
| Transforms.Vector4Identity | src/Vector4.cs:103-119 | the identity fixes every Vector4 on either side |
| Transforms.TranslationMatrixMoves | src/Vector3.cs:116-122 | `m * v` with the translation matrix moves v by (x, y, z) |
| Transforms.Vector3Conventions | src/Vector3.cs:108-122 | `v * m` is `Transpose(m) * v` and the reverse; both leave v alone for the identity |
| Transforms.Vector3TimesMatrixIsPoint | src/Vector3.cs:108-114 | `v * m` is the xyz part of the point (v, 1) times m |
| Transforms.MatrixTimesVector3IsPoint | src/Vector3.cs:116-122 | `m * v` is the xyz part of m times the point (v, 1) |
| Transforms.TranslateMovesPoint | src/Matrix4.cs:254-264 | after `Translate(x, y, z)`, `m * v` is the old `m * (v + (x, y, z))`; the translation matrix moves v by (x, y, z) |
| Transforms.ScaleScalesPoint | src/Matrix4.cs:281-292 | after `Scale(x, y, z)`, `m * v` is the old m applied to v scaled componentwise |
| Transforms.Vector4Conventions | src/Vector4.cs:103-119 | `m * v` is `v * Transpose(m)` and the reverse; both leave v alone for the identity |
| Transforms.MatrixTimesVector4Composes | src/Vector4.cs:112-119 | `(m1 * m2) * v == m1 * (m2 * v)` |
| Transforms.Transform | src/Vector2.cs:41-47 | `Transform(m)` sets the receiver to exactly `v * m` |
| Transforms.Vector2Products | src/Vector2.cs:114-125 | `v * Matrix4` is the xy part of (x, y, 0, 1) times m; both products leave v alone for the identity |
| Transforms.Matrix3TimesVector2Iff | src/Vector2.cs:114-131 | `m * v` agrees with `v * m` for every v exactly when `m.a2 == m.b1` |
| Transforms.Vector2ReferenceTransforms | src/Vector2.cs:114-118 | `v *` the translation, rotation and scale matrices moves, rotates and scales v |
| Transforms.Vector2TimesMatrix3Composes | src/Vector2.cs:114-118 | for an affine m1, `v * (m1 * m2) == (v * m1) * m2` |
| Mat4.Entry | src/Matrix4.cs:33-36 | the field in row r and column c: a..d are columns 1..4 and the digit is the row; `ToArray` and `TransposeSwapsIndices` are stated with it |
| Mat4.Equals | src/Matrix4.cs:486-496 | definition of `Equals` and of `==` on two non-null matrices, entry by entry; properties in `Mat4Algebra.EqualsIsEntrywise` |
| Mat4.Mul | src/Matrix4.cs:412-434 | definition of `m1 * m2`, row of m1 by column of m2; properties in `Mat4Algebra.MulIdentity`, `Mat4Inverse.MulAdjugate` and the `...IsPostMultiplication` lemmas |
| Mat4.MulScalar | src/Matrix4.cs:436-443 | definition of `m1 * s` as written, every row the scaled first row; properties in `Mat4Algebra.MulScalarCounterexample` |
| Mat4.ScaleEntries | src/Matrix4.cs:374-377 | every entry times s, as `Inverse` scales by 1/det and as `m1 * s` evidently means; properties in `Mat4Algebra.ScaleEntriesIsProductWithScaledIdentity` |
| Mat4.Transposed | src/Matrix4.cs:384-410 | the value `Transpose` leaves; properties in `Mat4Algebra.TransposeSwapsIndices` and `Mat4Algebra.TransposeInvolution` |
| Mat4.Translated | src/Matrix4.cs:259-262 | the value `Translate` leaves past its no-op test; properties in `Mat4Transforms.TranslateFootprint`, `TranslateIsPostMultiplication` and `TranslateTwice` |
| Mat4.Scaled | src/Matrix4.cs:288-290 | the value `Scale` leaves past its no-op test; properties in `Mat4Transforms.ScaleFootprint` and `ScaleIsPostMultiplicationIff` |
| Mat4.RotatedX | src/Matrix4.cs:79-97 | the value `RotateX` leaves, given sine and cosine; properties in `Mat4Transforms.RotateXIsPostMultiplication` and `RotateXRoundTrip` |
| Mat4.RotatedY | src/Matrix4.cs:111-129 | the value `RotateY` leaves, given sine and cosine; properties in `Mat4Transforms.RotateYIsPostMultiplication` and `RotateYRoundTrip` |
| Mat4.RotatedZ | src/Matrix4.cs:141-159 | the value `RotateZ` leaves, given sine and cosine; properties in `Mat4Transforms.RotateZIsPostMultiplicationByInverseAngle` and `RotateZRoundTrip` |
| Mat4.EulerBlock | src/Matrix4.cs:185-220 | the rotation block of each Euler order, or `NotSupported`; properties in `Mat4Transforms.EulerOrdersSupported`, `EulerXYZIsProduct` and `EulerZYXIsProduct` |
| Mat4.RotatedBy | src/Matrix4.cs:222-242 | the value `Rotate` leaves once the block is chosen; properties in `Mat4Transforms.RotatedByKeepsColumnD` and `RotatedByIsPostMultiplication` |
| Mat4.Det3 | src/Matrix4.cs:304-314 | one 3x3 minor, with its six terms in the order the code writes them; `Mat4Inverse.DetIsLeibniz` is built on it |
| Mat4.Det | src/Matrix4.cs:304-316 | the cofactor determinant `delta`; properties in `Mat4Inverse.DetIsLeibniz` |
| Mat4.CanInverse | src/Matrix4.cs:294-320 | definition of `CanInverse`; properties in `Mat4Inverse.CanInverseIff` |
| Mat4.Adjugate | src/Matrix4.cs:349-372 | the minors, sign-flipped and transposed, that `Inverse` scales; properties in `Mat4Inverse.MulAdjugate` |
| Mat4.Inverted | src/Matrix4.cs:322-380 | the value `Inverse` leaves; properties in `Mat4Inverse.CanInverseIff` and `Mat4Inverse.InverseIsRightInverse` |
| Mat4.FrustumMatrix | src/Matrix4.cs:514-524 | the sixteen entries `Frustum` writes; properties in `Mat4Projection.FrustumShape` and `FrustumIsGLFrustumIff` |
| Mat4.PerspectiveMatrix | src/Matrix4.cs:526-533 | the entries `Perspective` writes through `Frustum`; properties in `Mat4Projection.PerspectiveFlipsVertical` |
| Mat4.OrthoMatrix | src/Matrix4.cs:535-550 | the sixteen entries `Ortho` writes; properties in `Mat4Projection.OrthoIsTransposedGLOrtho` |
| Mat4.LookAtZ | src/Matrix4.cs:554 | the forward axis of `LookAt`; properties in `Mat4Projection.LookAtIsRotation` |
| Mat4.LookAtX | src/Matrix4.cs:555 | the right axis of `LookAt`; properties in `Mat4Projection.LookAtIsRotation` |
| Mat4.LookAtMatrix | src/Matrix4.cs:552-566 | the sixteen entries `LookAt` writes; properties in `Mat4Projection.LookAtShape` and `LookAtIsRotation` |
| Mat4.ToArray | src/Matrix4.cs:568-578 | 16 entries, entry i is row i / 4 + 1, column i % 4 + 1 |
| Mat4.Matrix4.constructor | src/Matrix4.cs:33-41 | a new matrix is the identity |
| Mat4.Matrix4.FromEntries | src/Matrix4.cs:42-51 | the matrix holds the sixteen given entries |
| Mat4.Matrix4.Copy | src/Matrix4.cs:53-56 | the new matrix is entrywise equal to the given one |
| Mat4.Matrix4.LoadIdentity | src/Matrix4.cs:58-66 | the matrix becomes the identity |
| Mat4.Matrix4.CopyFrom | src/Matrix4.cs:468-476 | the matrix becomes entrywise equal to the given one |
| Mat4.Matrix4.RotateX | src/Matrix4.cs:70-100 | angle 0 changes nothing; otherwise the matrix becomes `RotatedX` of the old one |
| Mat4.Matrix4.RotateY | src/Matrix4.cs:102-130 | angle 0 changes nothing; otherwise `RotatedY` of the old matrix |
| Mat4.Matrix4.RotateZ | src/Matrix4.cs:132-160 | angle 0 changes nothing; otherwise `RotatedZ` of the old matrix |
| Mat4.Matrix4.Rotate | src/Matrix4.cs:167-252 | an unsupported order fails with `NotSupported` and changes nothing; XYZ and ZYX apply their block |
| Mat4.Matrix4.Translate | src/Matrix4.cs:254-264 | the matrix becomes `Translated` of the old one |
| Mat4.Matrix4.CreateTranslate | src/Matrix4.cs:266-269 | a fresh identity, translated |
| Mat4.Matrix4.Scale | src/Matrix4.cs:281-292 | the matrix becomes `Scaled` of the old one |
| Mat4.Matrix4.ScaleUniform | src/Matrix4.cs:271-274 | `Scale(f)` is `Scale(f, f, f)` |
| Mat4.Matrix4.Transpose | src/Matrix4.cs:384-410 | the matrix becomes its transpose |
| Mat4.Matrix4.Inverse | src/Matrix4.cs:322-382 | the matrix becomes `Inverted` of the old one |
| Mat4.Matrix4.Frustum | src/Matrix4.cs:514-524 | all 16 entries become `FrustumMatrix` |
| Mat4.Matrix4.Perspective | src/Matrix4.cs:526-533 | all 16 entries become `PerspectiveMatrix` |
| Mat4.Matrix4.Ortho | src/Matrix4.cs:535-550 | all 16 entries become `OrthoMatrix` |
| Mat4.Matrix4.LookAt | src/Matrix4.cs:552-566 | all 16 entries become `LookAtMatrix` |
| Mat4Algebra.MulIdentity | src/Matrix4.cs:412-434 | the identity is a unit of the product on both sides |
| Mat4Algebra.TransposeSwapsIndices | src/Matrix4.cs:384-410 | the transpose has entry (c, r) at (r, c) |
| Mat4Algebra.TransposeInvolution | src/Matrix4.cs:384-410 | transposing twice restores the matrix; the identity is its own transpose |
| Mat4Algebra.EqualsIsEntrywise | src/Matrix4.cs:445-496 | `Equals` holds exactly when the matrices are equal, and exactly when their `ToArray` agree |
| Mat4Algebra.MulScalarCounterexample | src/Matrix4.cs:436-443 | `Identity * 2` has 2 at (2, 1) and 0 at (2, 2), so it is not the scaled identity |
| Mat4Algebra.ScaleEntriesIsProductWithScaledIdentity | src/Matrix4.cs:436-443 | the corrected `m * s` scales every entry, and equals m times s times the identity |
| Mat4Inverse.Leibniz | src/Matrix4.cs:316 | the Leibniz determinant, the independent reference for `delta`; related by `DetIsLeibniz` |
| Mat4Inverse.DetIsLeibniz | src/Matrix4.cs:294-320 | the cofactor determinant is the Leibniz determinant |
| Mat4Inverse.CanInverseIff | src/Matrix4.cs:294-344 | `CanInverse` holds exactly when the determinant is nonzero; otherwise `Inverse` changes nothing |
| Mat4Inverse.MulAdjugate | src/Matrix4.cs:346-377 | m times the adjugate `Inverse` computes is det times the identity |
| Mat4Inverse.MulScaleRight | src/Matrix4.cs:346-377 | scaling the right factor of a product scales the product |
| Mat4Inverse.InverseIsRightInverse | src/Matrix4.cs:322-382 | for nonzero determinant, m times its inverse is the identity |
| Mat4Transforms.TranslationMatrix | src/Matrix4.cs:254-264 | the reference translation matrix; related to `Translate` by `TranslateIsPostMultiplication` |
| Mat4Transforms.ScaleMatrix | src/Matrix4.cs:281-292 | the reference scale matrix; related to `Scale` by `ScaleIsPostMultiplicationIff` and `ScaleIdentity` |
| Mat4Transforms.AxisX | src/Matrix4.cs:79-80 | the reference rotation about x; related to `RotateX` by `RotateXIsPostMultiplication` |
| Mat4Transforms.AxisY | src/Matrix4.cs:111-112 | the reference rotation about y; related to `RotateY` by `RotateYIsPostMultiplication` |
| Mat4Transforms.AxisZ | src/Matrix4.cs:141-142 | the reference rotation about z; `RotateZIsPostMultiplicationByInverseAngle` shows `RotateZ(a)` multiplies by it at -a |
| Mat4Transforms.IsLinearBlock | src/Matrix4.cs:185-214 | the shape of every block `Rotate` supports; `EulerOrdersSupported` proves both have it |
| Mat4Transforms.TranslateFootprint | src/Matrix4.cs:254-264 | `Translate(0, 0, 0)` changes nothing; otherwise only column d changes |
| Mat4Transforms.TranslateIsPostMultiplication | src/Matrix4.cs:254-264 | `Translate` is the product with the translation matrix on the right |
| Mat4Transforms.TranslateTwice | src/Matrix4.cs:254-264 | two translations are one by the summed offsets |
| Mat4Transforms.ScaleFootprint | src/Matrix4.cs:281-292 | `Scale(1, 1, 1)` changes nothing; otherwise only columns a, b, c of rows 1-3 change |
| Mat4Transforms.ScaleIsPostMultiplicationIff | src/Matrix4.cs:281-292 | `Scale` equals the right product with the scale matrix exactly when scaling would leave row 4 unchanged (`a4 * x == a4`, `b4 * y == b4`, `c4 * z == c4`), because `Scale` never writes row 4; so it agrees on every matrix whose row 4 is (0, 0, 0, w) |
| Mat4Transforms.ScaleIdentity | src/Matrix4.cs:281-292 | scaling the identity gives the scale matrix |
| Mat4Transforms.RotateFootprints | src/Matrix4.cs:70-160 | each axis rotation changes only the two columns of its plane: b and c for X, a and c for Y, a and b for Z |
| Mat4Transforms.RotateXIsPostMultiplication | src/Matrix4.cs:70-100 | `RotateX` is the product with the x-axis rotation on the right |
| Mat4Transforms.RotateYIsPostMultiplication | src/Matrix4.cs:102-130 | `RotateY` is the product with the y-axis rotation on the right |
| Mat4Transforms.RotateZIsPostMultiplicationByInverseAngle | src/Matrix4.cs:132-160 | `RotateZ(a)` is the product with the z-axis rotation through -a |
| Mat4Transforms.RotateXRoundTrip | src/Matrix4.cs:70-100 | rotating by a and then by -a restores the matrix |
| Mat4Transforms.RotateYRoundTrip | src/Matrix4.cs:102-130 | rotating by a and then by -a restores the matrix |
| Mat4Transforms.RotateZRoundTrip | src/Matrix4.cs:132-160 | rotating by a and then by -a restores the matrix |
| Mat4Transforms.EulerOrdersSupported | src/Matrix4.cs:185-220 | exactly XYZ and ZYX have a block; the others give `NotSupported`; a block touches only the linear part |
| Mat4Transforms.RotatedByKeepsColumnD | src/Matrix4.cs:239-242 | `Rotate` never writes column d |
| Mat4Transforms.RotatedByIsPostMultiplication | src/Matrix4.cs:223-242 | applying a block is the product with the block on the right |
| Mat4Transforms.EulerXYZIsProduct | src/Matrix4.cs:187-200 | the XYZ block is the product of the x, y and z rotations in that order |
| Mat4Transforms.EulerZYXIsProduct | src/Matrix4.cs:202-214 | the ZYX block is the product of the z, y and x rotations in that order |
| Mat4Transforms.EulerSingleAxisX | src/Matrix4.cs:70-100 | `Rotate(a, 0, 0, XYZ)` agrees with `RotateX(a)` |
| Mat4Transforms.EulerSingleAxisY | src/Matrix4.cs:102-130 | `Rotate(0, a, 0, XYZ)` agrees with `RotateY(a)` |
| Mat4Transforms.EulerSingleAxisZ | src/Matrix4.cs:132-160 | `Rotate(0, 0, a, XYZ)` agrees with `RotateZ(-a)` |
| Mat4Projection.GLFrustum | src/Matrix4.cs:514-524 | the frustum matrix of section 2.11.2 of the OpenGL 2.1 specification, the reference for `Frustum`; related by `FrustumIsGLFrustumIff` |
| Mat4Projection.GLOrtho | src/Matrix4.cs:535-550 | the orthographic matrix of section 2.11.2 of the OpenGL 2.1 specification, the reference for `Ortho`; related by `OrthoIsTransposedGLOrtho` |
| Mat4Projection.PerspectiveIntended | src/Matrix4.cs:526-533 | the corrected `Perspective`, with top and bottom in `Frustum`'s order; properties in `PerspectiveIntendedIsGLFrustum` |
| Mat4Projection.FrustumShape | src/Matrix4.cs:514-524 | row 4 is (0, 0, -1, 0), rows 1 and 2 hold only their diagonal, 2 near / width and 2 near / height |
| Mat4Projection.FrustumIsGLFrustumIff | src/Matrix4.cs:514-524 | `Frustum` equals the `glFrustum` matrix exactly when the frustum is symmetric |
| Mat4Projection.PerspectiveFlipsVertical | src/Matrix4.cs:526-533 | `Perspective` is `glFrustum(-w, w, -h, h)` with the sign of entry (2, 2) flipped |
| Mat4Projection.PerspectiveIntendedIsGLFrustum | src/Matrix4.cs:526-533 | the corrected `Perspective` is the `glFrustum(-w, w, -h, h)` matrix |
| Mat4Projection.OrthoIsTransposedGLOrtho | src/Matrix4.cs:535-550 | `Ortho` is the transpose of the `glOrtho` matrix; its column d is (0, 0, 0, 1) |
| Mat4Projection.NormalizeKeepsOrthogonal | src/Matrix4.cs:552-566 | normalizing keeps a vector orthogonal to z |
| Mat4Projection.UnitFrame | src/Matrix4.cs:552-566 | the cross product of two orthogonal unit vectors is a unit vector orthogonal to both |
| Mat4Projection.LookAtShape | src/Matrix4.cs:552-566 | row 4 is (0, 0, 0, 1) and column d is 0 above it |
| Mat4Projection.LookAtIsRotation | src/Matrix4.cs:552-566 | columns a, b, c are unit vectors, pairwise orthogonal, with b = c × a |
| Mat3.Entry | src/Matrix3.cs:31-33 | the field in row r and column c: a..c are columns 1..3 and the digit is the row; `ToArray` is stated with it |
| Mat3.Mul | src/Matrix3.cs:132-146 | definition of `m1 * m2`, row of m1 by column of m2; properties in `Mat3Properties.MulIdentify`, `MulAdjugate` and the `...IsPreMultiplication` lemmas |
| Mat3.Rotated | src/Matrix3.cs:95-106 | the value `Rotate` leaves, given sine and cosine; properties in `Mat3Properties.RotateIsPreMultiplication`, `RotateRoundTrip` and `Footprints` |
| Mat3.Scaled | src/Matrix3.cs:111-117 | the value `Scale` leaves; properties in `Mat3Properties.ScaleIsPreMultiplication`, `ScaleTwice` and `Footprints` |
| Mat3.Translated | src/Matrix3.cs:124-130 | the value `Translate` leaves; properties in `Mat3Properties.TranslateIsPreMultiplication`, `TranslateTwice` and `Footprints` |
| Mat3.Det | src/Matrix3.cs:169 | the determinant `Inverse` computes; properties in `Mat3Properties.MulAdjugate` |
| Mat3.Adjugate | src/Matrix3.cs:174-176 | the cofactors the entries of `Inverse` are meant to be, transposed; properties in `Mat3Properties.MulAdjugate` |
| Mat3.Misplaced | src/Matrix3.cs:174-176 | one entry as written, k multiplying only the first product; properties in `Mat3Properties.AsWrittenEntriesIff` |
| Mat3.AsWrittenEntries | src/Matrix3.cs:174-180 | the nine entries `Inverse` writes; properties in `Mat3Properties.AsWrittenEntriesIff` and `InverseCounterexample` |
| Mat3.InvertedAsWritten | src/Matrix3.cs:163-181 | the value `Inverse` leaves as written; properties in `Mat3Properties.InverseOfSingular` and `InverseAsWrittenIff` |
| Mat3.ScaleEntries | src/Matrix3.cs:172-176 | every entry times s, the scaling by 1/det that `Inverse` intends; properties in `Mat3Properties.MulScaleRight` |
| Mat3.Inverted | src/Matrix3.cs:163-181 | the corrected `Inverse`, the adjugate over det; properties in `Mat3Properties.InvertedIsInverse` |
| Mat3.ToArray | src/Matrix3.cs:183-192 | 9 entries, entry i is row i / 3 + 1, column i % 3 + 1 |
| Mat3.Matrix3.constructor | src/Matrix3.cs:31-50 | a new matrix is all zeros |
| Mat3.Matrix3.FromEntries | src/Matrix3.cs:52-59 | the matrix holds the nine given entries |
| Mat3.Matrix3.Copy | src/Matrix3.cs:61-64 | the new matrix is entrywise equal to the given one |
| Mat3.Matrix3.LoadIdentity | src/Matrix3.cs:66-73 | the matrix becomes `Identify` |
| Mat3.Matrix3.CopyFrom | src/Matrix3.cs:75-82 | the matrix becomes entrywise equal to the given one |
| Mat3.Matrix3.Clone | src/Matrix3.cs:84-87 | a fresh matrix entrywise equal to this one |
| Mat3.Matrix3.Rotate | src/Matrix3.cs:89-109 | the matrix becomes `Rotated` of the old one |
| Mat3.Matrix3.Scale | src/Matrix3.cs:111-117 | the matrix becomes `Scaled` of the old one |
| Mat3.Matrix3.Translate | src/Matrix3.cs:119-130 | the matrix becomes `Translated` of the old one |
| Mat3.Matrix3.CreateRotation | src/Matrix3.cs:148-151 | a fresh zero matrix, rotated |
| Mat3.Matrix3.CreateTranslation | src/Matrix3.cs:153-156 | a fresh zero matrix, translated |
| Mat3.Matrix3.CreateScale | src/Matrix3.cs:158-161 | a fresh zero matrix, scaled |
| Mat3.Matrix3.Inverse | src/Matrix3.cs:163-181 | the matrix becomes `InvertedAsWritten` of the old one |
| Mat3Properties.IsAffine | src/Matrix3.cs:89-130 | the shape on which the in-place operations are products: column c is (0, 0, c3); `Footprints` shows they keep it |
| Mat3Properties.RotationMatrix | src/Matrix3.cs:95-96 | the reference rotation; related to `Rotate` by `RotateIsPreMultiplication` and to the factory by `CreatedRotation` |
| Mat3Properties.ScaleMatrix | src/Matrix3.cs:111-117 | the reference scaling; related to `Scale` by `ScaleIsPreMultiplication` and to the factory by `CreatedScale` |
| Mat3Properties.TranslationMatrix | src/Matrix3.cs:124-130 | the reference translation; related to `Translate` by `TranslateIsPreMultiplication` and to the factory by `CreatedTranslation` |
| Mat3Properties.SecondProductsVanish | src/Matrix3.cs:174-176 | every subtracted product of the entries as written is zero; the condition in `AsWrittenEntriesIff` and `InverseAsWrittenIff` |
| Mat3Properties.MulScaleRight | src/Matrix3.cs:172-180 | scaling the right factor of a product scales the product |
| Mat3Properties.MulIdentify | src/Matrix3.cs:132-146 | `Identify` is a unit of the product on both sides |
| Mat3Properties.CreateFactoriesGiveZero | src/Matrix3.cs:148-161 | rotating, translating or scaling the zero matrix gives zero, which is not `Identify` |
| Mat3Properties.CreatedRotation | src/Matrix3.cs:148-151 | the corrected factory is the rotation matrix and is affine |
| Mat3Properties.CreatedTranslation | src/Matrix3.cs:153-156 | the corrected factory is the translation matrix and is affine |
| Mat3Properties.CreatedScale | src/Matrix3.cs:158-161 | the corrected factory is the scale matrix and is affine |
| Mat3Properties.Footprints | src/Matrix3.cs:89-130 | `Rotate` and `Scale` change only a1, b1, a2, b2; `Translate` only a3, b3; all keep the affine shape |
| Mat3Properties.NeutralArguments | src/Matrix3.cs:89-130 | translating by 0, scaling by 1 and rotating by 0 change nothing |
| Mat3Properties.RotateIsPreMultiplication | src/Matrix3.cs:89-109 | on an affine matrix, `Rotate` is the product with the rotation matrix on the left |
| Mat3Properties.ScaleIsPreMultiplication | src/Matrix3.cs:111-117 | on an affine matrix, `Scale` is the product with the scale matrix on the left |
| Mat3Properties.TranslateIsPreMultiplication | src/Matrix3.cs:119-130 | on an affine matrix, `Translate` is the product with the translation matrix on the left |
| Mat3Properties.TranslateTwice | src/Matrix3.cs:119-130 | two translations are one by the summed offsets |
| Mat3Properties.ScaleTwice | src/Matrix3.cs:111-117 | two scalings are one by the products of the factors |
| Mat3Properties.RotateRoundTrip | src/Matrix3.cs:89-109 | rotating by a and then by -a restores the matrix |
| Mat3Properties.InverseOfSingular | src/Matrix3.cs:169-170 | a zero determinant leaves the matrix unchanged |
| Mat3Properties.MulAdjugate | src/Matrix3.cs:163-181 | m times its adjugate is det times `Identify` |
| Mat3Properties.InvertedIsInverse | src/Matrix3.cs:163-181 | for nonzero determinant, m times the corrected inverse is `Identify` |
| Mat3Properties.AsWrittenEntriesIff | src/Matrix3.cs:172-180 | the entries as written are the scaled adjugate exactly when the reciprocal is 1 or every subtracted product is 0 |
| Mat3Properties.InverseAsWrittenIff | src/Matrix3.cs:163-181 | `Inverse` as written is the inverse exactly when det is 0 or 1 or every subtracted product is 0 |
| Mat3Properties.InverseCounterexample | src/Matrix3.cs:172-180 | on a matrix of determinant 2, the entries as written are not half the adjugate |
| Box3.Valid | src/BoundingBox3D.cs:29 | min <= max in every component; kept by `ExpandedKeepsValid` and established by `FromVertices` |
| Box3.FromOrigin | src/BoundingBox3D.cs:39-42 | definition of `FromOrigin`; properties in `FromOriginRoundTrip` and `OriginSizeRoundTrip` |
| Box3.Size | src/BoundingBox3D.cs:54-57 | the `Size` property, max - min; properties in `FromOriginRoundTrip` |
| Box3.Origin | src/BoundingBox3D.cs:59-62 | the `Origin` property, the centre; properties in `FromOriginRoundTrip` and `OriginSizeRoundTrip` |
| Box3.Contains | src/BoundingBox3D.cs:83-88 | definition of `Contains(v)`, closed on every axis; properties in `ContainsOwnCorners` and `ExpandedContainsAll` |
| Box3.ContainsBox | src/BoundingBox3D.cs:90-93 | definition of `Contains(bbox)`; properties in `ContainsBoxMeansAllPoints` and `ExpandToBoxContains` |
| Box3.ExpandedBy | src/BoundingBox3D.cs:68-74 | one pass of the `ExpandTo` loop body; properties in `ExpandedByStep` |
| Box3.ExpandedByAll | src/BoundingBox3D.cs:64-76 | the box after the `ExpandTo` loop; properties in `ExpandedContainsAll`, `ExpandedGrows`, `ExpandedKeepsValid`, `ExpandedNoOpInside` and `ExpandedIsLeast` |
| Box3.Grows | src/BoundingBox3D.cs:64-76 | the second box lies outside the first on every face; `ExpandedGrows` and `GrowsTransitive` are stated with it |
| Box3.ExpandTo | src/BoundingBox3D.cs:64-76 | the loop contains every point, only grows the box, and keeps min <= max |
| Box3.ExpandToBox | src/BoundingBox3D.cs:78-81 | the result contains the other box and only grows |
| Box3.FromVertices | src/BoundingBox3D.cs:44-52 | no vertices fail with `IndexOutOfRange`; otherwise a valid box that contains every vertex |
| Box3.ExpandedByStep | src/BoundingBox3D.cs:68-74 | one step contains the point, only grows, keeps validity, and changes nothing for a contained point |
| Box3.GrowsTransitive | src/BoundingBox3D.cs:68-74 | growing is transitive and keeps contained points contained |
| Box3.ExpandedContainsAll | src/BoundingBox3D.cs:64-76 | after expanding, every point is contained |
| Box3.ExpandedGrows | src/BoundingBox3D.cs:64-76 | expanding never shrinks the box |
| Box3.ExpandedKeepsValid | src/BoundingBox3D.cs:64-76 | expanding a valid box keeps it valid |
| Box3.ExpandedNoOpInside | src/BoundingBox3D.cs:64-76 | expanding to points already inside changes nothing |
| Box3.ExpandedIsLeast | src/BoundingBox3D.cs:64-76 | any box containing the start box and the points contains the result |
| Box3.ExpandToBoxContains | src/BoundingBox3D.cs:78-93 | after `ExpandTo(box)`, `Contains(box)` holds and so does `Contains` for every point of that box |
| Box3.ContainsBoxMeansAllPoints | src/BoundingBox3D.cs:83-93 | if b contains box c, b contains every point c contains |
| Box3.ContainsOwnCorners | src/BoundingBox3D.cs:83-93 | a valid box contains its corners and itself: containment is closed |
| Box3.FromVerticesContainsAll | src/BoundingBox3D.cs:44-52 | the box from vertices contains every vertex |
| Box3.FromVerticesIsLeast | src/BoundingBox3D.cs:44-52 | every box containing the vertices contains the box from vertices |
| Box3.FromOriginRoundTrip | src/BoundingBox3D.cs:39-62 | `FromOrigin(o, s)` has `Size` s and `Origin` o |
| Box3.OriginSizeRoundTrip | src/BoundingBox3D.cs:39-62 | `FromOrigin(Origin(b), Size(b))` is b |
| Box2.FromBounds | src/BoundingBox2D.cs:35-38 | definition of `new BoundingBox2D(minx, miny, maxx, maxy)`: min and max from the four bounds |
| Box2.Valid | src/BoundingBox2D.cs:32-33 | min <= max in both components; kept by `ExpandToProperties` and `ExpandedKeepsValid` |
| Box2.Width | src/BoundingBox2D.cs:46-50 | the `Width` getter; `SetExtentRoundTrip` shows it returns what the setter set |
| Box2.SetWidth | src/BoundingBox2D.cs:46-50 | the `Width` setter, which moves max.x; properties in `SetExtentRoundTrip` |
| Box2.Height | src/BoundingBox2D.cs:52-56 | the `Height` getter; `SetExtentRoundTrip` shows it returns what the setter set |
| Box2.SetHeight | src/BoundingBox2D.cs:52-56 | the `Height` setter, which moves max.y; properties in `SetExtentRoundTrip` |
| Box2.Size | src/BoundingBox2D.cs:58-64 | the `Size` getter, max - min; kept or scaled as `InflateProperties`, `SetOriginRoundTrip` and `OperatorProperties` state |
| Box2.Origin | src/BoundingBox2D.cs:66-71 | the `Origin` getter, min plus half the size; properties in `SetOriginRoundTrip` |
| Box2.SetOrigin | src/BoundingBox2D.cs:72-77 | the `Origin` setter; properties in `SetOriginRoundTrip` |
| Box2.ExpandTo | src/BoundingBox2D.cs:80-88 | definition of `ExpandTo(v)`, edge by edge; properties in `ExpandToProperties` |
| Box2.ExpandToBox | src/BoundingBox2D.cs:90-96 | definition of `ExpandTo(box)`; properties in `ExpandToBoxCovers` |
| Box2.Inflate | src/BoundingBox2D.cs:98-111 | definition of both `Inflate` overloads; properties in `InflateProperties` |
| Box2.Shift | src/BoundingBox2D.cs:174-179 | definition of `box + v`; properties in `OperatorProperties` |
| Box2.Unshift | src/BoundingBox2D.cs:181-186 | definition of `box - v`; properties in `OperatorProperties` |
| Box2.ScaleBy | src/BoundingBox2D.cs:188-193 | definition of `box * s`; properties in `OperatorProperties` |
| Box2.IntersectsCorners | src/BoundingBox2D.cs:123-131 | definition of `Intersects(amin, amax, bmin, bmax)`, its four early exits in order; properties in `IntersectsIffCommonPoint` |
| Box2.Intersects | src/BoundingBox2D.cs:113-121 | definition of `a.Intersects(b)` and `Intersects(a, b)`; properties in `IntersectsSymmetric`, `TouchingBoxesIntersect` and `IntersectsIffCommonPoint` |
| Box2.Contains | src/BoundingBox2D.cs:133-136 | definition of `Contains(p)`, strict on both axes; properties in `ContainsIsStrict` and `ContainsImpliesCovers` |
| Box2.Covers | src/BoundingBox2D.cs:80-88 | the closed rectangle, which `ExpandTo` establishes; the relation in `ExpandToProperties` |
| Box2.FromTwoVertices | src/BoundingBox2D.cs:138-144 | definition of `FromVectices(v1, v2)`; properties in `FromTwoVerticesIsMinMax` |
| Box2.FromTriangle | src/BoundingBox2D.cs:163-172 | definition of `FromTriangle`; properties in `FromTriangleIsMinMax` and `FromTriangleOrderFree` |
| Box2.ExpandedByAll | src/BoundingBox2D.cs:156-159 | the box the loop of `FromVectices(vs)` builds; properties in `ExpandedCoversAll`, `ExpandedKeepsValid` and `ExpandedIsLeast` |
| Box2.Grows | src/BoundingBox2D.cs:80-88 | the second box lies outside the first on every edge; `ExpandToProperties` and `GrowsTransitive` are stated with it |
| Box2.MinMax3 | src/BoundingBox2D.cs:163-172 | the componentwise min and max of three vertices, the independent reference for `FromTriangle` |
| Box2.FromVertices | src/BoundingBox2D.cs:146-161 | no vertices give the zero box, one gives that point, more give a valid box covering all of them |
| Box2.ExpandToProperties | src/BoundingBox2D.cs:80-88 | after `ExpandTo(v)`, min <= v <= max, the box only grows, stays valid, is the least such box, and is unchanged for a covered point |
| Box2.ExpandToBoxCovers | src/BoundingBox2D.cs:90-96 | the result covers both corners of the other box and only grows |
| Box2.GrowsTransitive | src/BoundingBox2D.cs:80-88 | growing is transitive and keeps covered points covered |
| Box2.ExpandedCoversAll | src/BoundingBox2D.cs:146-161 | expanding to a sequence covers every point and only grows |
| Box2.ExpandedKeepsValid | src/BoundingBox2D.cs:146-161 | expanding a valid box keeps it valid |
| Box2.ExpandedIsLeast | src/BoundingBox2D.cs:146-161 | any box covering the start box and the points covers the result |
| Box2.FromVerticesCoversAll | src/BoundingBox2D.cs:146-161 | the box from vertices is valid and covers every vertex |
| Box2.FromVerticesIsLeast | src/BoundingBox2D.cs:146-161 | any box covering the vertices covers the box from vertices |
| Box2.FromTwoVerticesIsMinMax | src/BoundingBox2D.cs:138-144 | the box of two vertices is their componentwise min and max, whatever their order |
| Box2.FromTriangleIsMinMax | src/BoundingBox2D.cs:163-172 | the box of a triangle is the componentwise min and max, the same as expanding from v1 |
| Box2.FromTriangleOrderFree | src/BoundingBox2D.cs:163-172 | the box of a triangle does not depend on the vertex order |
| Box2.ContainsIsStrict | src/BoundingBox2D.cs:133-136 | a point on the boundary, a corner, or a vertex the box was built from is not contained |
| Box2.ContainsImpliesCovers | src/BoundingBox2D.cs:133-136 | a contained point lies in the closed rectangle |
| Box2.IntersectsSymmetric | src/BoundingBox2D.cs:113-131 | `Intersects(a, b)` is `Intersects(b, a)` |
| Box2.TouchingBoxesIntersect | src/BoundingBox2D.cs:123-131 | boxes that only share an edge intersect |
| Box2.IntersectsIffCommonPoint | src/BoundingBox2D.cs:113-131 | two valid boxes intersect exactly when some point lies in both |
| Box2.InflateProperties | src/BoundingBox2D.cs:98-111 | `Inflate(x, y)` grows `Size` by (x, y) and keeps `Origin` |
| Box2.SetOriginRoundTrip | src/BoundingBox2D.cs:66-78 | setting `Origin` keeps `Size`, and getting it returns the set value |
| Box2.SetExtentRoundTrip | src/BoundingBox2D.cs:46-56 | the `Width`/`Height` setters keep min and the other extent, and the getter returns the set value |
| Box2.OperatorProperties | src/BoundingBox2D.cs:174-193 | `+ v` and `- v` keep `Size`, move `Origin` by v and undo each other; `* s` scales `Size` by s |
| Rays.PointAt | src/Ray.cs:65 | the point origin + t·d, in which the hit points and the slab lemmas are stated |
| Rays.Point4 | src/Ray.cs:62 | `new Vector4(origin, 1)`: a point with w = 1 |
| Rays.Direction4 | src/Ray.cs:54 | `new Vector4(dir, 0)`: a direction with w = 0 |
| Rays.IntersectsPlane | src/Ray.cs:51-68 | definition of `IntersectsPlane` with its two `out` values; properties in `IntersectsPlaneReports`, `ParallelRayMisses`, `PlaneHitIsOnPlane` and `PlaneExample` |
| Rays.PlaneAlongRay | src/Ray.cs:62-65 | the plane equation at origin + t·d is the value at origin plus t times the value at d |
| Rays.Normal | src/Ray.cs:82 | the triangle's normal pd = (v2 - v1) × (v3 - v2); `TriangleHitOnPlane` is stated with it |
| Rays.TrianglePlane | src/Ray.cs:84-86 | the plane l of the triangle, scaled by 1 / len; `TrianglePlaneAt` gives its value at a point |
| Rays.TrianglePlaneAt | src/Ray.cs:86 | the plane l at q is (pd · q - pd · v1) / len |
| Rays.TriangleTestDefined | src/Ray.cs:84-88 | the two divisions of the triangle test have nonzero divisors: the normal and the ray's angle with the plane |
| Rays.TriangleT | src/Ray.cs:88 | the parameter t of the triangle test; `TriangleHitIff` reports it as the `out t` |
| Rays.InsideEdges | src/Ray.cs:98-109 | the three same-side tests; the condition in `TriangleHitIff` |
| Rays.IntersectsTriangle | src/Ray.cs:77-111 | definition of the full triangle test with `out t` and `out hit`; properties in `TriangleOutOfRange`, `TriangleHitIff` and `TriangleHitOnPlane` |
| Rays.IntersectsTriangleAny | src/Ray.cs:70-75 | definition of the overload without `out` parameters as written; properties in `TriangleAnyIgnoresBounds` and `TriangleAnyOverreports` |
| Rays.SlabNear | src/Ray.cs:143 | the nearer crossing of one axis, `Math.Min(t1, t2)` |
| Rays.SlabFar | src/Ray.cs:134 | the farther crossing of one axis, `Math.Max(t1, t2)` |
| Rays.SlabTestDefined | src/Ray.cs:123 | every component of dir is nonzero, so `1.0f / this.dir` is defined over exact reals |
| Rays.TMax | src/Ray.cs:123-134 | tmax, the nearest far crossing; `InBoxIffInSlabs` shows the ray leaves the box there |
| Rays.TMin | src/Ray.cs:123-143 | tmin, the farthest near crossing; `InBoxIffInSlabs` shows the ray enters the box there |
| Rays.IntersectsBoundingBox | src/Ray.cs:120-154 | definition of the slab test with `out t`; properties in `SlabResult`, `SlabTestMeaning` and `SlabExamples` |
| Rays.InSlab | src/Ray.cs:127-134 | s lies between the two crossings of one axis; `SlabAxis` shows what it means |
| Rays.InBoxIffAllSlabs | src/Ray.cs:127-132 | the ray's point at s lies in a valid box exactly when s lies in all three slabs |
| Rays.AllSlabsIffWindow | src/Ray.cs:134-143 | s lies in all three slabs exactly when tmin <= s <= tmax |
| Rays.NewRay | src/Ray.cs:39-44 | the ray keeps origin and direction, and `normalizedDir` has length 1 |
| Rays.IntersectsPlaneReports | src/Ray.cs:51-68 | hit is origin + t·dir on every path, and the result is exactly t > 0 |
| Rays.ParallelRayMisses | src/Ray.cs:54-58 | a ray parallel to the plane gives false with t = 0 and hit = origin |
| Rays.PlaneHitIsOnPlane | src/Ray.cs:60-67 | for a non-parallel ray, hit lies on the plane, and t is the only parameter that does |
| Rays.PlaneExample | src/Ray.cs:51-68 | the ray from (0, 0, 5) down z meets the plane z = 0 at t = 5, at the origin |
| Rays.TriangleOutOfRange | src/Ray.cs:90-94 | t outside [mint, maxt] gives false with hit = (0, 0, 0) |
| Rays.TriangleHitIff | src/Ray.cs:77-111 | the result is true exactly when mint <= t <= maxt and hit passes the three edge tests; in range, hit is origin + t·normalizedDir |
| Rays.TriangleHitOnPlane | src/Ray.cs:80-96 | in range, hit lies on the triangle's plane |
| Rays.TriangleAnyIgnoresBounds | src/Ray.cs:70-75 | the overload without out parameters gives the same answer for any mint and maxt: that of [0, 99999999] |
| Rays.TriangleAnyOverreports | src/Ray.cs:70-75 | a hit before mint is reported by that overload while the full test with [mint, maxt] rejects it |
| Rays.IntersectsTriangleWithin | src/Ray.cs:70-75 | the corrected overload is true exactly when t is in [mint, maxt] and the edge tests pass |
| Rays.SlabResult | src/Ray.cs:120-154 | the result is tmax >= 0 and tmin <= tmax; t is tmin on a hit and tmax on both misses |
| Rays.SlabAxis | src/Ray.cs:127-132 | the slab window of one axis holds s exactly when origin + s·dir lies between the faces |
| Rays.InBoxIffInSlabs | src/Ray.cs:120-154 | origin + s·dir lies in a valid box exactly when tmin <= s <= tmax |
| Rays.SlabTestMeaning | src/Ray.cs:120-154 | for a valid box, the result is true exactly when some point of the ray at s >= 0 lies in the box, and on a hit the ray's point at the reported t lies in the box; that t is tmin, which is negative when the origin is inside (see `SlabFromInside`) |
| Rays.SlabFromInside | src/Ray.cs:120-154 | from an origin inside the box the test always succeeds, and the reported t = tmin is <= 0 |
| Rays.IntersectsBoundingBoxAny | src/Ray.cs:113-117 | the overload without out parameters is true exactly when the ray meets the valid box |
| Rays.BoxIntersects | src/BoundingBox3D.cs:100-103 | `bbox.Intersects(ray, out t)` gives a t whose point lies in the box on a hit |
| Rays.BoxIntersectsAny | src/BoundingBox3D.cs:95-98 | `bbox.Intersects(ray)` is true exactly when the ray meets the valid box |
| Rays.BoxQueriesAgree | src/BoundingBox3D.cs:95-103 | the box's queries and the ray's give the same answers |
| Rays.SlabExamples | src/Ray.cs:120-154 | a ray from (0, 0, -5) towards the unit box hits at t = 4; the reversed ray misses with t = tmax = -4; a ray from the centre along (1, 1, 1) hits with t = -1 |

## Left out

- Floating point: the model computes over exact reals. Rounding, NaN and ±infinity are not
  modelled, so neither is the slab test's behaviour for a ray parallel to an axis (1/0 = ∞).
- Rays.IntersectsBoundingBox, Rays.IntersectsBoundingBoxAny, Rays.BoxIntersects and Rays.BoxIntersectsAny: require every component of the direction to be nonzero, because the source divides by them.
- Rays.IntersectsTriangle: requires a nonzero normal length and a ray that is not parallel to the triangle's plane, because the source divides by both.
- Mat4.Matrix4.Frustum, Mat4.Matrix4.Perspective and Mat4.Matrix4.Ortho: require nonzero extents, because the source divides by them.
- Mat4.Matrix4.LookAt: requires `from != to` and `up` not parallel to the view axis, because the source normalizes those vectors.
- `Vector3 / d` and `Vector4 / s`: the divisor must be nonzero, because the source divides by it.
- Transcendental functions: `Length`, `Distance`, `AngleOf`, `CloseTo`, the `Angle` property and the degree-to-radian conversions are not modelled. `Math.Sin`, `Cos`, `Tan` and `Sqrt` results are parameters of the operations that use them.
- Normalize: the length of a nonzero vector is a parameter `len` with `len * len == Dot(v, v)`. The non-zero branch of `Normalize` is therefore stated for that `len`.
- Rays.NewRay: `normalizedDir` is computed from a given length of `dir`, not with `Math.Sqrt`.
- `Randomly` (System.Random), `ToString`, `GetHashCode` (a float-to-int cast after `Math.Round`) and `Ceiling` of Vector3 are not modelled: they depend on float rounding and casts, which the model over reals does not have.
- The XY, XZ and YZ projections of `Vector3`, its explicit cast to `Vector2`, and `Vector4.XYZ` and `XY` are field selections. They appear in the model as helpers without contracts of their own.
- Mat4.Matrix4.Rotate: the `default:` label of the switch (src/Matrix4.cs:187) sends an `EulerOrder` value outside the six named ones, such as a cast integer, to the XYZ block. `Mat4.EulerOrder` has only the six named constructors, so the model cannot express such a value.
- The overloads `Matrix4.Scale(Vector3)` and `Rotate(Vector3, order)` forward their components, so only the component forms are modelled.
- Reference semantics: `Matrix4 ==` and `!=` also compare null references, which the model does not have. Only value equality is modelled. A struct method that returns `this` (ExpandTo) returns the new value.
- `Const.EPSILON` and `Const.PI` are not part of this model: epsilon is a parameter of `Similar`. `ITriangle3D` is not part of this model: a triangle is three vertices.
- Mat3.Matrix3.Inverse: the class method keeps the source's precedence slip. The corrected inverse (`Mat3.Inverted`) is a function of the model, not a method of the class.

## Findings

| source | as written | input that shows it | evidently intended | confidence | as-written member | corrected member |
|---|---|---|---|---|---|---|
| src/Vector3.cs:48-53 | `Add(x, y, z)` assigns x, y, z to the components, like `Set` | `Vector3.One.Add(1, 1, 1)` leaves (1, 1, 1) | the components grow by x, y, z, giving (2, 2, 2) | high; not executed | Vec3.AddCounterexample | Vec3.AddIntendedIsPlus |
| src/Matrix4.cs:436-443 | `m * s` fills all four rows with row 1 scaled by s | `Identity * 2` has 2 at (2, 1) and 0 at (2, 2) | every entry scaled by s | high; not executed | Mat4Algebra.MulScalarCounterexample | Mat4Algebra.ScaleEntriesIsProductWithScaledIdentity |
| src/Matrix3.cs:172-180 | each entry is `k * x * y - q`, where k is 1/det, so the reciprocal multiplies only the first product | the matrix with rows (2, 0, 0), (0, 1, 1), (0, 1, 2), determinant 2 | `k * (x * y - q)`, the adjugate over the determinant | high; not executed | Mat3Properties.InverseCounterexample | Mat3Properties.InvertedIsInverse |
| src/Matrix3.cs:148-161 | `CreateRotation`, `CreateTranslation` and `CreateScale` start from `new Matrix3()`, which is all zeros, so every result is zero | `CreateScale(2, 2)` is the zero matrix | start from `Identify`, giving the rotation, translation or scale matrix | high; not executed | Mat3Properties.CreateFactoriesGiveZero | Mat3Properties.CreatedScale |
| src/Matrix4.cs:526-533 | `Perspective` calls `Frustum(-w, w, -h, h, ...)`, whose parameters are (left, right, top, bottom), so top = -h and bottom = h | any valid angle: entry (2, 2) is -near/h | top = h and bottom = -h, the `glFrustum(-w, w, -h, h)` matrix with entry (2, 2) = near/h | medium; not executed | Mat4Projection.PerspectiveFlipsVertical | Mat4Projection.PerspectiveIntendedIsGLFrustum |
| src/Ray.cs:70-75 | the overload without out parameters ignores its mint and maxt and tests [0, 99999999] | a triangle hit at t = 1 with mint = 2: that overload reports true | test the given [mint, maxt] | high; not executed | Rays.TriangleAnyOverreports | Rays.IntersectsTriangleWithin |
