/** Axis-aligned boxes in space (the `BoundingBox3D` struct). A box is a value: `ExpandTo`,
    which the source runs on the struct's own fields, is a method that returns the new value.
    Intersection with a ray lives in module Rays, which imports this one. */
module Box3 {
  import opened Vec3
  import opened Outcomes

  datatype BoundingBox3D = BoundingBox3D(min: Vector3, max: Vector3)

  /** `BoundingBox3D.Zero` */
  const Zero := BoundingBox3D(Vec3.Zero, Vec3.Zero)

  /** min <= max in every component: what construction and expansion keep. */
  predicate Valid(b: BoundingBox3D) {
    b.min.x <= b.max.x && b.min.y <= b.max.y && b.min.z <= b.max.z
  }

  /** `FromOrigin(origin, size)`: the corners origin -/+ size / 2. */
  function FromOrigin(origin: Vector3, size: Vector3): BoundingBox3D {
    BoundingBox3D(Minus(origin, Div(size, 2.0)), Plus(origin, Div(size, 2.0)))
  }

  /** the `Size` property */
  function Size(b: BoundingBox3D): Vector3 { Minus(b.max, b.min) }

  /** the `Origin` property: the centre of the box. */
  function Origin(b: BoundingBox3D): Vector3 { Plus(b.min, Div(Minus(b.max, b.min), 2.0)) }

  /** `Contains(v)`: closed in every axis. */
  predicate Contains(b: BoundingBox3D, v: Vector3) {
    v.x >= b.min.x && v.x <= b.max.x
    && v.y >= b.min.y && v.y <= b.max.y
    && v.z >= b.min.z && v.z <= b.max.z
  }

  /** `Contains(bbox)`: both corners of the other box are contained. */
  predicate ContainsBox(b: BoundingBox3D, c: BoundingBox3D) {
    Contains(b, c.min) && Contains(b, c.max)
  }

  // ---------------------------------------------------------------------------
  // Expansion
  // ---------------------------------------------------------------------------

  /** One pass of the `ExpandTo` loop body: each face moves out to v if v lies beyond it. */
  function ExpandedBy(b: BoundingBox3D, v: Vector3): BoundingBox3D {
    BoundingBox3D(
      Vector3(if b.min.x > v.x then v.x else b.min.x,
              if b.min.y > v.y then v.y else b.min.y,
              if b.min.z > v.z then v.z else b.min.z),
      Vector3(if b.max.x < v.x then v.x else b.max.x,
              if b.max.y < v.y then v.y else b.max.y,
              if b.max.z < v.z then v.z else b.max.z))
  }

  /** The box after the `ExpandTo` loop has visited vs in order. */
  function ExpandedByAll(b: BoundingBox3D, vs: seq<Vector3>): BoundingBox3D {
    if vs == [] then b else ExpandedBy(ExpandedByAll(b, vs[..|vs| - 1]), vs[|vs| - 1])
  }

  /** b2 lies outside b1 on every face: b2 is at least as large as b1. */
  predicate Grows(b1: BoundingBox3D, b2: BoundingBox3D) {
    b2.min.x <= b1.min.x && b2.min.y <= b1.min.y && b2.min.z <= b1.min.z
    && b2.max.x >= b1.max.x && b2.max.y >= b1.max.y && b2.max.z >= b1.max.z
  }

  /** `ExpandTo(params vs)`: the loop over vs, moving the faces of the box outwards. */
  method ExpandTo(b: BoundingBox3D, vs: seq<Vector3>) returns (r: BoundingBox3D)
    ensures r == ExpandedByAll(b, vs)
    ensures forall j :: 0 <= j < |vs| ==> Contains(r, vs[j])
    ensures Grows(b, r)
    ensures Valid(b) ==> Valid(r)
  {
    var lo, hi := b.min, b.max;
    var i := 0;
    while i < |vs|
      invariant 0 <= i <= |vs|
      invariant BoundingBox3D(lo, hi) == ExpandedByAll(b, vs[..i])
    {
      var v := vs[i];
      if lo.x > v.x { lo := lo.(x := v.x); }
      if lo.y > v.y { lo := lo.(y := v.y); }
      if lo.z > v.z { lo := lo.(z := v.z); }

      if hi.x < v.x { hi := hi.(x := v.x); }
      if hi.y < v.y { hi := hi.(y := v.y); }
      if hi.z < v.z { hi := hi.(z := v.z); }
      assert vs[..i + 1][..i] == vs[..i];
      i := i + 1;
    }
    assert vs[..i] == vs;
    r := BoundingBox3D(lo, hi);
    ExpandedContainsAll(b, vs);
    ExpandedGrows(b, vs);
    if Valid(b) {
      ExpandedKeepsValid(b, vs);
    }
  }

  /** `ExpandTo(box)`: expands to the other box's two corners, so it ends up containing it. */
  method ExpandToBox(b: BoundingBox3D, c: BoundingBox3D) returns (r: BoundingBox3D)
    ensures r == ExpandedByAll(b, [c.min, c.max])
    ensures ContainsBox(r, c)
    ensures Grows(b, r)
  {
    r := ExpandTo(b, [c.min, c.max]);
  }

  /** `FromVertices(vs)`: starts from the box of vs[0] alone (reading vs[0] of an empty array
      throws) and expands to the rest, one vertex at a time. */
  method FromVertices(vs: seq<Vector3>) returns (r: Result<BoundingBox3D>)
    ensures |vs| == 0 ==> r == Err(IndexOutOfRange)
    ensures |vs| > 0 ==> r.Ok? && r.value == ExpandedByAll(BoundingBox3D(vs[0], vs[0]), vs[1..])
    ensures r.Ok? ==> Valid(r.value) && forall j :: 0 <= j < |vs| ==> Contains(r.value, vs[j])
  {
    if |vs| == 0 {
      return Err(IndexOutOfRange);
    }
    var bbox := BoundingBox3D(vs[0], vs[0]);
    var i := 1;
    while i < |vs|
      invariant 1 <= i <= |vs|
      invariant bbox == ExpandedByAll(BoundingBox3D(vs[0], vs[0]), vs[1..i])
    {
      var next := ExpandTo(bbox, [vs[i]]);
      assert vs[1..i + 1][..i - 1] == vs[1..i];
      assert next == ExpandedBy(bbox, vs[i]);
      bbox := next;
      i := i + 1;
    }
    assert vs[1..i] == vs[1..];
    FromVerticesContainsAll(vs);
    ExpandedKeepsValid(BoundingBox3D(vs[0], vs[0]), vs[1..]);
    r := Ok(bbox);
  }

  // ---------------------------------------------------------------------------
  // Properties of expansion
  // ---------------------------------------------------------------------------

  /** One step contains its point, grows the box, keeps it valid, and changes nothing when the
      point is already inside. */
  lemma ExpandedByStep(b: BoundingBox3D, v: Vector3)
    ensures Contains(ExpandedBy(b, v), v)
    ensures Grows(b, ExpandedBy(b, v))
    ensures Valid(b) ==> Valid(ExpandedBy(b, v))
    ensures Contains(b, v) ==> ExpandedBy(b, v) == b
  {
  }

  /** Growing is transitive, and it carries containment of a point along. */
  lemma GrowsTransitive(b1: BoundingBox3D, b2: BoundingBox3D, b3: BoundingBox3D, v: Vector3)
    requires Grows(b1, b2) && Grows(b2, b3)
    ensures Grows(b1, b3)
    ensures Contains(b2, v) ==> Contains(b3, v)
  {
  }

  /** The expanded box contains every point it was expanded to. */
  lemma {:induction false} ExpandedContainsAll(b: BoundingBox3D, vs: seq<Vector3>)
    ensures forall j :: 0 <= j < |vs| ==> Contains(ExpandedByAll(b, vs), vs[j])
  {
    if vs != [] {
      var init := vs[..|vs| - 1];
      var prev := ExpandedByAll(b, init);
      var last := vs[|vs| - 1];
      ExpandedContainsAll(b, init);
      ExpandedByStep(prev, last);
      forall j | 0 <= j < |vs|
        ensures Contains(ExpandedByAll(b, vs), vs[j])
      {
        if j < |vs| - 1 {
          assert vs[j] == init[j];
          GrowsTransitive(prev, prev, ExpandedBy(prev, last), vs[j]);
        }
      }
    }
  }

  /** Expansion never shrinks the box. */
  lemma {:induction false} ExpandedGrows(b: BoundingBox3D, vs: seq<Vector3>)
    ensures Grows(b, ExpandedByAll(b, vs))
  {
    if vs != [] {
      var prev := ExpandedByAll(b, vs[..|vs| - 1]);
      ExpandedGrows(b, vs[..|vs| - 1]);
      ExpandedByStep(prev, vs[|vs| - 1]);
      GrowsTransitive(b, prev, ExpandedBy(prev, vs[|vs| - 1]), b.min);
    }
  }

  /** Expansion keeps min <= max. */
  lemma {:induction false} ExpandedKeepsValid(b: BoundingBox3D, vs: seq<Vector3>)
    requires Valid(b)
    ensures Valid(ExpandedByAll(b, vs))
  {
    if vs != [] {
      ExpandedKeepsValid(b, vs[..|vs| - 1]);
      ExpandedByStep(ExpandedByAll(b, vs[..|vs| - 1]), vs[|vs| - 1]);
    }
  }

  /** Expanding to points that are already inside leaves the box as it was. */
  lemma {:induction false} ExpandedNoOpInside(b: BoundingBox3D, vs: seq<Vector3>)
    requires forall j :: 0 <= j < |vs| ==> Contains(b, vs[j])
    ensures ExpandedByAll(b, vs) == b
  {
    if vs != [] {
      ExpandedNoOpInside(b, vs[..|vs| - 1]);
      ExpandedByStep(b, vs[|vs| - 1]);
    }
  }

  /** The expanded box is the least box around b and vs: any box c that contains b's corners
      and every point of vs contains the expanded box too. */
  lemma {:induction false} ExpandedIsLeast(b: BoundingBox3D, vs: seq<Vector3>, c: BoundingBox3D)
    requires ContainsBox(c, b)
    requires forall j :: 0 <= j < |vs| ==> Contains(c, vs[j])
    ensures ContainsBox(c, ExpandedByAll(b, vs))
  {
    if vs != [] {
      var init := vs[..|vs| - 1];
      forall j | 0 <= j < |init|
        ensures Contains(c, init[j])
      {
        assert init[j] == vs[j];
      }
      ExpandedIsLeast(b, init, c);
      assert Contains(c, vs[|vs| - 1]);
    }
  }

  /** `ExpandTo(box)` then `Contains(box)`: the box holds both corners of the other one, and
      with them, for a valid other box, every point of it. */
  lemma ExpandToBoxContains(b: BoundingBox3D, c: BoundingBox3D, v: Vector3)
    requires Contains(c, v)
    ensures ContainsBox(ExpandedByAll(b, [c.min, c.max]), c)
    ensures Contains(ExpandedByAll(b, [c.min, c.max]), v)
  {
    ExpandedContainsAll(b, [c.min, c.max]);
  }

  /** `Contains(box)` on closed intervals: both corners inside, and then every point of the other
      box inside too. */
  lemma ContainsBoxMeansAllPoints(b: BoundingBox3D, c: BoundingBox3D, v: Vector3)
    requires ContainsBox(b, c) && Contains(c, v)
    ensures Contains(b, v)
  {
  }

  /** A box contains its own corners when it is valid: containment is closed. */
  lemma ContainsOwnCorners(b: BoundingBox3D)
    requires Valid(b)
    ensures Contains(b, b.min) && Contains(b, b.max) && ContainsBox(b, b)
  {
  }

  /** The box `FromVertices` builds contains every vertex. */
  lemma FromVerticesContainsAll(vs: seq<Vector3>)
    requires |vs| > 0
    ensures forall j :: 0 <= j < |vs| ==> Contains(ExpandedByAll(BoundingBox3D(vs[0], vs[0]), vs[1..]), vs[j])
  {
    var start := BoundingBox3D(vs[0], vs[0]);
    ExpandedContainsAll(start, vs[1..]);
    ExpandedGrows(start, vs[1..]);
    forall j | 0 <= j < |vs|
      ensures Contains(ExpandedByAll(start, vs[1..]), vs[j])
    {
      if j > 0 {
        assert vs[j] == vs[1..][j - 1];
      }
    }
  }

  /** The box `FromVertices` builds is the least box containing the vertices: its faces are the
      componentwise minima and maxima. */
  lemma FromVerticesIsLeast(vs: seq<Vector3>, c: BoundingBox3D)
    requires |vs| > 0
    requires forall j :: 0 <= j < |vs| ==> Contains(c, vs[j])
    ensures ContainsBox(c, ExpandedByAll(BoundingBox3D(vs[0], vs[0]), vs[1..]))
  {
    forall j | 0 <= j < |vs[1..]|
      ensures Contains(c, vs[1..][j])
    {
      assert vs[1..][j] == vs[j + 1];
    }
    ExpandedIsLeast(BoundingBox3D(vs[0], vs[0]), vs[1..], c);
  }

  // ---------------------------------------------------------------------------
  // Origin and size
  // ---------------------------------------------------------------------------

  /** Half of a number, added to itself, is the number. */
  lemma HalvesAdd(s: real)
    ensures s * (1.0 / 2.0) + s * (1.0 / 2.0) == s
  {
  }

  /** `FromOrigin(o, s)` has size s and origin o. */
  lemma FromOriginRoundTrip(o: Vector3, s: Vector3)
    ensures Size(FromOrigin(o, s)) == s
    ensures Origin(FromOrigin(o, s)) == o
  {
    HalvesAdd(s.x);
    HalvesAdd(s.y);
    HalvesAdd(s.z);
    assert Size(FromOrigin(o, s)) == s;
  }

  /** A box rebuilt from its own origin and size is the same box. */
  lemma OriginSizeRoundTrip(b: BoundingBox3D)
    ensures FromOrigin(Origin(b), Size(b)) == b
  {
    var s := Size(b);
    HalvesAdd(s.x);
    HalvesAdd(s.y);
    HalvesAdd(s.z);
  }
}
