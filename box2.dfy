/** Axis-aligned rectangles (the `BoundingBox2D` struct). A box is a value: the mutators
    (`ExpandTo`, `Inflate`, the property setters, the operators) return the box's new value,
    which is also what the source returns from them. */
module Box2 {
  import opened Vec2

  datatype BoundingBox2D = BoundingBox2D(min: Vector2, max: Vector2)

  /** `new BoundingBox2D()`: both corners at the origin. */
  const Default := BoundingBox2D(Vec2.Zero, Vec2.Zero)

  /** `new BoundingBox2D(minx, miny, maxx, maxy)` */
  function FromBounds(minx: real, miny: real, maxx: real, maxy: real): BoundingBox2D {
    BoundingBox2D(Vector2(minx, miny), Vector2(maxx, maxy))
  }

  /** min <= max in both components. */
  predicate Valid(b: BoundingBox2D) { LessEq(b.min, b.max) }

  // ---------------------------------------------------------------------------
  // Properties (getters and setters)
  // ---------------------------------------------------------------------------

  /** the `Width` getter */
  function Width(b: BoundingBox2D): real { b.max.x - b.min.x }

  /** the `Width` setter: moves the right edge, keeping min. */
  function SetWidth(b: BoundingBox2D, value: real): BoundingBox2D {
    b.(max := b.max.(x := b.min.x + value))
  }

  /** the `Height` getter */
  function Height(b: BoundingBox2D): real { b.max.y - b.min.y }

  /** the `Height` setter: moves the top edge, keeping min. */
  function SetHeight(b: BoundingBox2D, value: real): BoundingBox2D {
    b.(max := b.max.(y := b.min.y + value))
  }

  /** the `Size` getter */
  function Size(b: BoundingBox2D): Vector2 { Minus(b.max, b.min) }

  /** the `Origin` getter: min plus half the size. */
  function Origin(b: BoundingBox2D): Vector2 { Plus(b.min, Scale(Size(b), 0.5)) }

  /** the `Origin` setter: both corners placed half the size away from the value. */
  function SetOrigin(b: BoundingBox2D, value: Vector2): BoundingBox2D {
    var halfSize := Scale(Size(b), 0.5);
    BoundingBox2D(Minus(value, halfSize), Plus(value, halfSize))
  }

  // ---------------------------------------------------------------------------
  // Mutators
  // ---------------------------------------------------------------------------

  /** `ExpandTo(v)`: each edge moves out to v if v lies beyond it. */
  function ExpandTo(b: BoundingBox2D, v: Vector2): BoundingBox2D {
    BoundingBox2D(
      Vector2(if b.min.x > v.x then v.x else b.min.x, if b.min.y > v.y then v.y else b.min.y),
      Vector2(if b.max.x < v.x then v.x else b.max.x, if b.max.y < v.y then v.y else b.max.y))
  }

  /** `ExpandTo(box)`: expands to the other box's min corner, then to its max corner. */
  function ExpandToBox(b: BoundingBox2D, c: BoundingBox2D): BoundingBox2D {
    ExpandTo(ExpandTo(b, c.min), c.max)
  }

  /** `Inflate(x, y)` and `Inflate(v)`: min moves by -(x, y)/2 and max by +(x, y)/2. */
  function Inflate(b: BoundingBox2D, x: real, y: real): BoundingBox2D {
    var v := Vector2(x, y);
    BoundingBox2D(Minus(b.min, Scale(v, 0.5)), Plus(b.max, Scale(v, 0.5)))
  }

  /** `box + v` */
  function Shift(b: BoundingBox2D, v: Vector2): BoundingBox2D {
    BoundingBox2D(Plus(b.min, v), Plus(b.max, v))
  }

  /** `box - v` */
  function Unshift(b: BoundingBox2D, v: Vector2): BoundingBox2D {
    BoundingBox2D(Minus(b.min, v), Minus(b.max, v))
  }

  /** `box * s`: both corners scaled. */
  function ScaleBy(b: BoundingBox2D, s: real): BoundingBox2D {
    BoundingBox2D(Scale(b.min, s), Scale(b.max, s))
  }

  // ---------------------------------------------------------------------------
  // Queries
  // ---------------------------------------------------------------------------

  /** `Intersects(amin, amax, bmin, bmax)`: false as soon as one box lies wholly to one side of
      the other, on any axis. */
  predicate IntersectsCorners(amin: Vector2, amax: Vector2, bmin: Vector2, bmax: Vector2) {
    if amax.x < bmin.x then false
    else if amin.x > bmax.x then false
    else if amax.y < bmin.y then false
    else if amin.y > bmax.y then false
    else true
  }

  /** `Intersects(a, b)` and `a.Intersects(b)` */
  predicate Intersects(a: BoundingBox2D, b: BoundingBox2D) {
    IntersectsCorners(a.min, a.max, b.min, b.max)
  }

  /** `Contains(p)`: strictly inside on both axes. */
  predicate Contains(b: BoundingBox2D, p: Vector2) {
    p.x > b.min.x && p.x < b.max.x && p.y > b.min.y && p.y < b.max.y
  }

  /** p lies in the closed rectangle: the relation `ExpandTo` establishes. */
  predicate Covers(b: BoundingBox2D, p: Vector2) { LessEq(b.min, p) && LessEq(p, b.max) }

  // ---------------------------------------------------------------------------
  // Construction from vertices
  // ---------------------------------------------------------------------------

  /** `FromVectices(v1, v2)`: the box of v1 alone, expanded to v2. */
  function FromTwoVertices(v1: Vector2, v2: Vector2): BoundingBox2D {
    ExpandTo(BoundingBox2D(v1, v1), v2)
  }

  /** `FromTriangle(v1, v2, v3)`: the box of v1 alone, expanded to v2 and then to v3. */
  function FromTriangle(v1: Vector2, v2: Vector2, v3: Vector2): BoundingBox2D {
    ExpandTo(ExpandTo(BoundingBox2D(v1, v1), v2), v3)
  }

  /** The box after expanding b to each of vs in order. */
  function ExpandedByAll(b: BoundingBox2D, vs: seq<Vector2>): BoundingBox2D {
    if vs == [] then b else ExpandTo(ExpandedByAll(b, vs[..|vs| - 1]), vs[|vs| - 1])
  }

  /** `FromVectices(vs)`: the default box for no vertices, the box of the first vertex alone
      for one, and otherwise that box expanded to each of the others in turn. */
  method FromVertices(vs: seq<Vector2>) returns (box: BoundingBox2D)
    ensures |vs| == 0 ==> box == Default
    ensures |vs| == 1 ==> box == BoundingBox2D(vs[0], vs[0])
    ensures |vs| > 0 ==> box == ExpandedByAll(BoundingBox2D(vs[0], vs[0]), vs[1..])
    ensures |vs| > 0 ==> Valid(box) && forall j :: 0 <= j < |vs| ==> Covers(box, vs[j])
  {
    box := Default;
    if |vs| < 1 {
      return;
    }
    box := box.(min := vs[0]);
    box := box.(max := box.min);
    if |vs| < 2 {
      return;
    }
    var i := 1;
    while i < |vs|
      invariant 1 <= i <= |vs|
      invariant box == ExpandedByAll(BoundingBox2D(vs[0], vs[0]), vs[1..i])
    {
      assert vs[1..i + 1][..i - 1] == vs[1..i];
      box := ExpandTo(box, vs[i]);
      i := i + 1;
    }
    assert vs[1..i] == vs[1..];
    FromVerticesCoversAll(vs);
  }

  // ---------------------------------------------------------------------------
  // Properties
  // ---------------------------------------------------------------------------

  /** b2 lies outside b1 on every edge. */
  predicate Grows(b1: BoundingBox2D, b2: BoundingBox2D) {
    LessEq(b2.min, b1.min) && GreaterEq(b2.max, b1.max)
  }

  /** After `ExpandTo(v)`, min <= v <= max; the box only grows, stays valid, is unchanged when v
      was already covered, and is the least box around b and v. */
  lemma ExpandToProperties(b: BoundingBox2D, v: Vector2, c: BoundingBox2D)
    ensures Covers(ExpandTo(b, v), v)
    ensures Grows(b, ExpandTo(b, v))
    ensures Valid(b) ==> Valid(ExpandTo(b, v))
    ensures Covers(b, v) ==> ExpandTo(b, v) == b
    ensures Covers(c, b.min) && Covers(c, b.max) && Covers(c, v)
            ==> Covers(c, ExpandTo(b, v).min) && Covers(c, ExpandTo(b, v).max)
  {
  }

  /** After `ExpandTo(box)` the other box's corners are covered. */
  lemma ExpandToBoxCovers(b: BoundingBox2D, c: BoundingBox2D)
    ensures Covers(ExpandToBox(b, c), c.min) && Covers(ExpandToBox(b, c), c.max)
    ensures Grows(b, ExpandToBox(b, c))
  {
  }

  /** Growing is transitive and carries coverage of a point along. */
  lemma GrowsTransitive(b1: BoundingBox2D, b2: BoundingBox2D, b3: BoundingBox2D, p: Vector2)
    requires Grows(b1, b2) && Grows(b2, b3)
    ensures Grows(b1, b3)
    ensures Covers(b2, p) ==> Covers(b3, p)
  {
  }

  /** Expanding to a list covers every element of it. */
  lemma {:induction false} ExpandedCoversAll(b: BoundingBox2D, vs: seq<Vector2>)
    ensures forall j :: 0 <= j < |vs| ==> Covers(ExpandedByAll(b, vs), vs[j])
    ensures Grows(b, ExpandedByAll(b, vs))
  {
    if vs != [] {
      var init := vs[..|vs| - 1];
      var prev := ExpandedByAll(b, init);
      var last := vs[|vs| - 1];
      ExpandedCoversAll(b, init);
      ExpandToProperties(prev, last, prev);
      GrowsTransitive(b, prev, ExpandTo(prev, last), last);
      forall j | 0 <= j < |vs|
        ensures Covers(ExpandedByAll(b, vs), vs[j])
      {
        if j < |vs| - 1 {
          assert vs[j] == init[j];
          GrowsTransitive(prev, prev, ExpandTo(prev, last), vs[j]);
        }
      }
    }
  }

  /** Expanding keeps min <= max. */
  lemma {:induction false} ExpandedKeepsValid(b: BoundingBox2D, vs: seq<Vector2>)
    requires Valid(b)
    ensures Valid(ExpandedByAll(b, vs))
  {
    if vs != [] {
      ExpandedKeepsValid(b, vs[..|vs| - 1]);
      ExpandToProperties(ExpandedByAll(b, vs[..|vs| - 1]), vs[|vs| - 1], b);
    }
  }

  /** Expanding to a list gives the least box around b and the list. */
  lemma {:induction false} ExpandedIsLeast(b: BoundingBox2D, vs: seq<Vector2>, c: BoundingBox2D)
    requires Covers(c, b.min) && Covers(c, b.max)
    requires forall j :: 0 <= j < |vs| ==> Covers(c, vs[j])
    ensures Covers(c, ExpandedByAll(b, vs).min) && Covers(c, ExpandedByAll(b, vs).max)
  {
    if vs != [] {
      var init := vs[..|vs| - 1];
      forall j | 0 <= j < |init|
        ensures Covers(c, init[j])
      {
        assert init[j] == vs[j];
      }
      ExpandedIsLeast(b, init, c);
      ExpandToProperties(ExpandedByAll(b, init), vs[|vs| - 1], c);
    }
  }

  /** The box built from a non-empty list covers all of it and is valid. */
  lemma FromVerticesCoversAll(vs: seq<Vector2>)
    requires |vs| > 0
    ensures Valid(ExpandedByAll(BoundingBox2D(vs[0], vs[0]), vs[1..]))
    ensures forall j :: 0 <= j < |vs| ==> Covers(ExpandedByAll(BoundingBox2D(vs[0], vs[0]), vs[1..]), vs[j])
  {
    var start := BoundingBox2D(vs[0], vs[0]);
    ExpandedCoversAll(start, vs[1..]);
    ExpandedKeepsValid(start, vs[1..]);
    forall j | 0 <= j < |vs|
      ensures Covers(ExpandedByAll(start, vs[1..]), vs[j])
    {
      if j > 0 {
        assert vs[j] == vs[1..][j - 1];
      }
    }
  }

  /** The box built from a non-empty list is the least box covering it: its edges are the
      componentwise minima and maxima of the vertices. */
  lemma FromVerticesIsLeast(vs: seq<Vector2>, c: BoundingBox2D)
    requires |vs| > 0
    requires forall j :: 0 <= j < |vs| ==> Covers(c, vs[j])
    ensures Covers(c, ExpandedByAll(BoundingBox2D(vs[0], vs[0]), vs[1..]).min)
    ensures Covers(c, ExpandedByAll(BoundingBox2D(vs[0], vs[0]), vs[1..]).max)
  {
    forall j | 0 <= j < |vs[1..]|
      ensures Covers(c, vs[1..][j])
    {
      assert vs[1..][j] == vs[j + 1];
    }
    ExpandedIsLeast(BoundingBox2D(vs[0], vs[0]), vs[1..], c);
  }

  /** The smaller and the larger of two numbers, for stating the boxes of a few vertices. */
  function Min(a: real, b: real): real { if a <= b then a else b }
  function Max(a: real, b: real): real { if a >= b then a else b }

  /** `FromVectices(v1, v2)` gives the componentwise minimum and maximum, so the order of the
      two vertices does not matter. */
  lemma FromTwoVerticesIsMinMax(v1: Vector2, v2: Vector2)
    ensures FromTwoVertices(v1, v2)
         == BoundingBox2D(Vector2(Min(v1.x, v2.x), Min(v1.y, v2.y)), Vector2(Max(v1.x, v2.x), Max(v1.y, v2.y)))
    ensures FromTwoVertices(v1, v2) == FromTwoVertices(v2, v1)
  {
  }

  /** The box of three vertices, spelt out with Min and Max. */
  function MinMax3(v1: Vector2, v2: Vector2, v3: Vector2): BoundingBox2D {
    BoundingBox2D(Vector2(Min(Min(v1.x, v2.x), v3.x), Min(Min(v1.y, v2.y), v3.y)),
                  Vector2(Max(Max(v1.x, v2.x), v3.x), Max(Max(v1.y, v2.y), v3.y)))
  }

  /** The minimum and maximum of three numbers do not depend on their order. */
  lemma MinMax3Symmetric(a: real, b: real, c: real)
    ensures Min(Min(a, b), c) == Min(Min(b, a), c) == Min(Min(a, c), b)
    ensures Max(Max(a, b), c) == Max(Max(b, a), c) == Max(Max(a, c), b)
  {
  }

  /** `FromTriangle` gives the componentwise minimum and maximum of its three vertices, and
      agrees with `FromVectices` on the same list. */
  lemma FromTriangleIsMinMax(v1: Vector2, v2: Vector2, v3: Vector2)
    ensures FromTriangle(v1, v2, v3) == MinMax3(v1, v2, v3)
    ensures FromTriangle(v1, v2, v3) == ExpandedByAll(BoundingBox2D(v1, v1), [v2, v3])
  {
    var start := BoundingBox2D(v1, v1);
    assert [v2, v3][..1] == [v2];
    assert [v2][..0] == [];
    assert ExpandedByAll(start, [v2]) == ExpandTo(ExpandedByAll(start, []), v2) == ExpandTo(start, v2);
  }

  /** `FromTriangle` does not depend on the order of its vertices. */
  lemma FromTriangleOrderFree(v1: Vector2, v2: Vector2, v3: Vector2)
    ensures FromTriangle(v1, v2, v3) == FromTriangle(v2, v1, v3) == FromTriangle(v1, v3, v2)
  {
    FromTriangleIsMinMax(v1, v2, v3);
    FromTriangleIsMinMax(v2, v1, v3);
    FromTriangleIsMinMax(v1, v3, v2);
    MinMax3Symmetric(v1.x, v2.x, v3.x);
    MinMax3Symmetric(v1.y, v2.y, v3.y);
  }

  /** `Contains` is strict: no point of the edges is contained, so neither corner of a box, nor
      the first vertex of a box built from two vertices, is contained in it. */
  lemma ContainsIsStrict(b: BoundingBox2D, p: Vector2, v1: Vector2, v2: Vector2)
    requires p.x == b.min.x || p.x == b.max.x || p.y == b.min.y || p.y == b.max.y
    ensures !Contains(b, p)
    ensures !Contains(b, b.min) && !Contains(b, b.max)
    ensures !Contains(FromTwoVertices(v1, v2), v1) && !Contains(FromTwoVertices(v1, v2), v2)
  {
  }

  /** `Contains` implies the closed relation `Covers`. */
  lemma ContainsImpliesCovers(b: BoundingBox2D, p: Vector2)
    requires Contains(b, p)
    ensures Covers(b, p)
  {
  }

  /** `Intersects` is symmetric. */
  lemma IntersectsSymmetric(a: BoundingBox2D, b: BoundingBox2D)
    ensures Intersects(a, b) <==> Intersects(b, a)
  {
  }

  /** `Intersects` is closed: boxes that share only an edge intersect. */
  lemma TouchingBoxesIntersect(a: BoundingBox2D, b: BoundingBox2D)
    requires Valid(a) && Valid(b)
    requires a.max.x == b.min.x && a.min.y <= b.max.y && b.min.y <= a.max.y
    ensures Intersects(a, b)
  {
  }

  /** For valid boxes, `Intersects` holds exactly when some point lies in both closed boxes. */
  lemma IntersectsIffCommonPoint(a: BoundingBox2D, b: BoundingBox2D)
    requires Valid(a) && Valid(b)
    ensures Intersects(a, b) <==> exists p :: Covers(a, p) && Covers(b, p)
  {
    if Intersects(a, b) {
      var p := Vector2(Max(a.min.x, b.min.x), Max(a.min.y, b.min.y));
      assert Covers(a, p) && Covers(b, p);
    }
  }

  /** `Inflate(x, y)` grows the size by (x, y) and keeps the origin. */
  lemma InflateProperties(b: BoundingBox2D, x: real, y: real)
    ensures Size(Inflate(b, x, y)) == Plus(Size(b), Vector2(x, y))
    ensures Origin(Inflate(b, x, y)) == Origin(b)
  {
  }

  /** Setting `Origin` keeps the size, and a later get returns the value set. */
  lemma SetOriginRoundTrip(b: BoundingBox2D, value: Vector2)
    ensures Size(SetOrigin(b, value)) == Size(b)
    ensures Origin(SetOrigin(b, value)) == value
  {
  }

  /** The `Width` and `Height` setters keep min and the other extent, and a later get returns the
      value set. */
  lemma SetExtentRoundTrip(b: BoundingBox2D, value: real)
    ensures SetWidth(b, value).min == b.min && Width(SetWidth(b, value)) == value
    ensures Height(SetWidth(b, value)) == Height(b)
    ensures SetHeight(b, value).min == b.min && Height(SetHeight(b, value)) == value
    ensures Width(SetHeight(b, value)) == Width(b)
  {
  }

  /** `box + v` and `box - v` move both corners by v, keep the size, and undo each other;
      `box * s` scales the size by s. */
  lemma OperatorProperties(b: BoundingBox2D, v: Vector2, s: real)
    ensures Size(Shift(b, v)) == Size(b) && Size(Unshift(b, v)) == Size(b)
    ensures Origin(Shift(b, v)) == Plus(Origin(b), v)
    ensures Unshift(Shift(b, v), v) == b && Shift(Unshift(b, v), v) == b
    ensures Size(ScaleBy(b, s)) == Scale(Size(b), s)
  {
  }
}
