/** Rays and their intersection tests (the `Ray` class), with the intersection queries of
    `BoundingBox3D`, which only delegate to the ray. `Ray` is a class with public mutable
    fields, but the library only reads them once the constructor has set them, so a ray is
    modelled as a value; `new Ray()` is `Ray(Zero, Zero, Zero)`. The tests' `out` parameters
    are fields of their results. */
module Rays {
  import opened Vec3
  import Vec4
  import Box3

  /** The origin, the direction, and the unit direction the constructor computes. */
  datatype Ray = Ray(origin: Vector3, dir: Vector3, normalizedDir: Vector3)

  /** `new Ray(origin, dir)`, given the length of dir. */
  function NewRay(origin: Vector3, dir: Vector3, len: real): (r: Ray)
    requires IsLength(dir, len) && len != 0.0
    ensures r.origin == origin && r.dir == dir
    ensures Dot(r.normalizedDir, r.normalizedDir) == 1.0
  {
    NormalizeIsUnit(dir, len);
    Ray(origin, dir, Vec3.Normalize(dir, len))
  }

  /** The point origin + t * d. */
  function PointAt(origin: Vector3, t: real, d: Vector3): Vector3 { Plus(origin, ScaleLeft(t, d)) }

  /** The result of a test with a parameter and a hit point (`out t`, `out hit`). */
  datatype Hit = Hit(result: bool, t: real, point: Vector3)

  /** The point (x, y, z, 1), or the direction (x, y, z, 0), as a Vector4. */
  function Point4(v: Vector3): Vec4.Vector4 { Vec4.FromVector3W(v, 1.0) }
  function Direction4(v: Vector3): Vec4.Vector4 { Vec4.FromVector3W(v, 0.0) }

  // ---------------------------------------------------------------------------
  // Ray and plane
  // ---------------------------------------------------------------------------

  /** `IntersectsPlane(plane, out t, out hit)`: t solves plane . (origin + t dir, 1) = 0 with the
      unnormalized direction, or is 0 for a ray parallel to the plane; the hit point is computed
      either way, and the test passes only in front of the origin. */
  function IntersectsPlane(ray: Ray, plane: Vec4.Vector4): Hit {
    var dirScale := Vec4.Dot(plane, Direction4(ray.dir));
    var t := if dirScale == 0.0 then 0.0 else -Vec4.Dot(plane, Point4(ray.origin)) / dirScale;
    var hit := PointAt(ray.origin, t, ray.dir);
    Hit(t > 0.0, t, hit)
  }

  /** The plane equation at origin + t d is affine in t. */
  lemma PlaneAlongRay(plane: Vec4.Vector4, origin: Vector3, t: real, d: Vector3)
    ensures Vec4.Dot(plane, Point4(PointAt(origin, t, d)))
         == Vec4.Dot(plane, Point4(origin)) + t * Vec4.Dot(plane, Direction4(d))
  {
    var p := PointAt(origin, t, d);
    calc {
      Vec4.Dot(plane, Point4(p));
      plane.x * (origin.x + t * d.x) + plane.y * (origin.y + t * d.y)
        + plane.z * (origin.z + t * d.z) + plane.w * 1.0;
      { Distribute(plane.x, origin.x, t, d.x);
        Distribute(plane.y, origin.y, t, d.y);
        Distribute(plane.z, origin.z, t, d.z); }
      (plane.x * origin.x + t * (plane.x * d.x)) + (plane.y * origin.y + t * (plane.y * d.y))
        + (plane.z * origin.z + t * (plane.z * d.z)) + plane.w * 1.0;
      Vec4.Dot(plane, Point4(origin)) + t * Vec4.Dot(plane, Direction4(d));
    }
  }

  /** n (o + t d) = n o + t (n d) */
  lemma Distribute(n: real, o: real, t: real, d: real)
    ensures n * (o + t * d) == n * o + t * (n * d)
  {
  }

  /** a + (-a / b) b = 0 for b != 0 */
  lemma RootOfAffine(a: real, b: real)
    requires b != 0.0
    ensures a + (-a / b) * b == 0.0
  {
  }

  /** The parameter and hit point `IntersectsPlane` reports are always related by
      hit = origin + t dir, whatever the result, and the result is exactly t > 0. */
  lemma IntersectsPlaneReports(ray: Ray, plane: Vec4.Vector4)
    ensures IntersectsPlane(ray, plane).point == PointAt(ray.origin, IntersectsPlane(ray, plane).t, ray.dir)
    ensures IntersectsPlane(ray, plane).result <==> IntersectsPlane(ray, plane).t > 0.0
  {
  }

  /** A ray parallel to the plane gets t = 0 and the origin as its hit point, and misses. */
  lemma ParallelRayMisses(ray: Ray, plane: Vec4.Vector4)
    requires Vec4.Dot(plane, Direction4(ray.dir)) == 0.0
    ensures IntersectsPlane(ray, plane) == Hit(false, 0.0, PointAt(ray.origin, 0.0, ray.dir))
    ensures IntersectsPlane(ray, plane).point == ray.origin
  {
  }

  /** For a ray not parallel to the plane, the hit point lies on the plane, and t is the only
      parameter at which the ray meets it: the test passes exactly when the ray meets the plane
      in front of its origin. */
  lemma PlaneHitIsOnPlane(ray: Ray, plane: Vec4.Vector4, s: real)
    requires Vec4.Dot(plane, Direction4(ray.dir)) != 0.0
    ensures Vec4.Dot(plane, Point4(IntersectsPlane(ray, plane).point)) == 0.0
    ensures Vec4.Dot(plane, Point4(PointAt(ray.origin, s, ray.dir))) == 0.0
            ==> s == IntersectsPlane(ray, plane).t
  {
    var a := Vec4.Dot(plane, Point4(ray.origin));
    var b := Vec4.Dot(plane, Direction4(ray.dir));
    var r := IntersectsPlane(ray, plane);
    assert r.t == -a / b;
    PlaneAlongRay(plane, ray.origin, r.t, ray.dir);
    RootOfAffine(a, b);
    PlaneAlongRay(plane, ray.origin, s, ray.dir);
    if a + s * b == 0.0 {
      UniqueRoot(a, b, s);
    }
  }

  /** The only root of a + s b, for b != 0, is -a / b. */
  lemma UniqueRoot(a: real, b: real, s: real)
    requires b != 0.0 && a + s * b == 0.0
    ensures s == -a / b
  {
    assert s * b == -a;
  }

  /** A ray from (0, 0, 5) straight down meets the plane z = 0 at t = 5, at the origin. */
  lemma PlaneExample()
    ensures IntersectsPlane(Ray(Vector3(0.0, 0.0, 5.0), Vector3(0.0, 0.0, -1.0), Vector3(0.0, 0.0, -1.0)),
                            Vec4.Vector4(0.0, 0.0, 1.0, 0.0))
         == Hit(true, 5.0, Vec3.Zero)
  {
  }

  // ---------------------------------------------------------------------------
  // Ray and triangle
  // ---------------------------------------------------------------------------

  /** The three vertices an `ITriangle3D` exposes. */
  datatype Triangle = Triangle(v1: Vector3, v2: Vector3, v3: Vector3)

  /** The triangle's normal pd = (v2 - v1) x (v3 - v2), not normalized. */
  function Normal(tri: Triangle): Vector3 { Cross(Minus(tri.v2, tri.v1), Minus(tri.v3, tri.v2)) }

  /** The plane l of the triangle: (pd, -pd . v1) scaled by 1 / len, len the length of pd. */
  function TrianglePlane(tri: Triangle, len: real): Vec4.Vector4
    requires len != 0.0
  {
    var pd := Normal(tri);
    Vec4.Scale(Vec4.Vector4(pd.x, pd.y, pd.z, Dot(Neg(pd), tri.v1)), 1.0 / len)
  }

  /** What `IntersectsTriangle` demands of its inputs over exact reals: a triangle with a
      nonzero normal whose length is len, and a ray not parallel to its plane (in floating point
      either case divides by zero). */
  predicate TriangleTestDefined(ray: Ray, tri: Triangle, len: real) {
    IsLength(Normal(tri), len) && len != 0.0
    && Vec4.Dot(TrianglePlane(tri, len), Direction4(ray.normalizedDir)) != 0.0
  }

  /** The parameter of the ray's meeting with the triangle's plane, along the unit direction. */
  function TriangleT(ray: Ray, tri: Triangle, len: real): real
    requires TriangleTestDefined(ray, tri, len)
  {
    var l := TrianglePlane(tri, len);
    -Vec4.Dot(l, Point4(ray.origin)) / Vec4.Dot(l, Direction4(ray.normalizedDir))
  }

  /** The three same-side tests: hit lies on the inner side of each edge, seen along pd. */
  predicate InsideEdges(tri: Triangle, hit: Vector3) {
    var pd := Normal(tri);
    Dot(pd, Cross(Minus(tri.v2, tri.v1), Minus(hit, tri.v1))) >= 0.0
    && Dot(pd, Cross(Minus(tri.v3, tri.v2), Minus(hit, tri.v2))) >= 0.0
    && Dot(pd, Cross(Minus(tri.v1, tri.v3), Minus(hit, tri.v3))) >= 0.0
  }

  /** `IntersectsTriangle(triangle, out t, out hit, mint, maxt)`: rejects a t outside
      [mint, maxt] with hit = (0, 0, 0); otherwise computes the hit point and rejects it at the
      first edge it lies outside of. */
  function IntersectsTriangle(ray: Ray, tri: Triangle, len: real, mint: real, maxt: real): Hit
    requires TriangleTestDefined(ray, tri, len)
  {
    var (p, pv) := (ray.origin, ray.normalizedDir);
    var (v1, v2, v3) := (tri.v1, tri.v2, tri.v3);
    var pd := Normal(tri);
    var t := TriangleT(ray, tri, len);
    if t < mint || t > maxt then Hit(false, t, Vector3(0.0, 0.0, 0.0))
    else
      var hit := PointAt(p, t, pv);
      if Dot(pd, Cross(Minus(v2, v1), Minus(hit, v1))) < 0.0 then Hit(false, t, hit)
      else if Dot(pd, Cross(Minus(v3, v2), Minus(hit, v2))) < 0.0 then Hit(false, t, hit)
      else if Dot(pd, Cross(Minus(v1, v3), Minus(hit, v3))) < 0.0 then Hit(false, t, hit)
      else Hit(true, t, hit)
  }

  /** The defaults of `mint` and `maxt`. */
  const DefaultMinT := 0.0
  const DefaultMaxT := 99999999.0

  /** `IntersectsTriangle(triangle, mint, maxt)`: calls the full test without passing its own
      bounds on, so the defaults are always used. */
  function IntersectsTriangleAny(ray: Ray, tri: Triangle, len: real, mint: real, maxt: real): bool
    requires TriangleTestDefined(ray, tri, len)
  {
    IntersectsTriangle(ray, tri, len, DefaultMinT, DefaultMaxT).result
  }

  /** Outside [mint, maxt] the test fails with hit = (0, 0, 0). */
  lemma TriangleOutOfRange(ray: Ray, tri: Triangle, len: real, mint: real, maxt: real)
    requires TriangleTestDefined(ray, tri, len)
    requires TriangleT(ray, tri, len) < mint || TriangleT(ray, tri, len) > maxt
    ensures IntersectsTriangle(ray, tri, len, mint, maxt) == Hit(false, TriangleT(ray, tri, len), Vec3.Zero)
  {
  }

  /** The triangle test passes exactly when t is within [mint, maxt] and the hit point
      origin + t normalizedDir passes all three edge tests; in range, that is the hit point it
      reports, pass or fail. */
  lemma TriangleHitIff(ray: Ray, tri: Triangle, len: real, mint: real, maxt: real)
    requires TriangleTestDefined(ray, tri, len)
    ensures var r := IntersectsTriangle(ray, tri, len, mint, maxt);
            r.t == TriangleT(ray, tri, len)
            && (r.result <==> mint <= r.t <= maxt && InsideEdges(tri, PointAt(ray.origin, r.t, ray.normalizedDir)))
            && (mint <= r.t <= maxt ==> r.point == PointAt(ray.origin, r.t, ray.normalizedDir))
  {
  }

  /** (-pd) . v == -(pd . v) */
  lemma DotNeg(pd: Vector3, v: Vector3)
    ensures Dot(Neg(pd), v) == -Dot(pd, v)
  {
  }

  /** The triangle's plane l, at a point q, is (pd . q - pd . v1) / len. */
  lemma TrianglePlaneAt(tri: Triangle, len: real, q: Vector3)
    requires len != 0.0
    ensures Vec4.Dot(TrianglePlane(tri, len), Point4(q)) == (Dot(Normal(tri), q) - Dot(Normal(tri), tri.v1)) * (1.0 / len)
  {
    var pd := Normal(tri);
    var k := 1.0 / len;
    DotNeg(pd, tri.v1);
    calc {
      Vec4.Dot(TrianglePlane(tri, len), Point4(q));
      (pd.x * k) * q.x + (pd.y * k) * q.y + (pd.z * k) * q.z + (Dot(Neg(pd), tri.v1) * k) * 1.0;
      { ScaledSum(pd.x, pd.y, pd.z, Dot(Neg(pd), tri.v1), q.x, q.y, q.z, k); }
      (pd.x * q.x + pd.y * q.y + pd.z * q.z + Dot(Neg(pd), tri.v1)) * k;
    }
  }

  /** (a k) x + (b k) y + (c k) z + (d k) 1 == (a x + b y + c z + d) k */
  lemma ScaledSum(a: real, b: real, c: real, d: real, x: real, y: real, z: real, k: real)
    ensures (a * k) * x + (b * k) * y + (c * k) * z + (d * k) * 1.0 == (a * x + b * y + c * z + d) * k
  {
  }

  /** A product with a nonzero factor vanishes only when the other factor does. */
  lemma ZeroProduct(a: real, k: real)
    requires k != 0.0 && a * k == 0.0
    ensures a == 0.0
  {
  }

  /** Within [mint, maxt], the hit point lies on the triangle's plane: pd . hit == pd . v1. */
  lemma TriangleHitOnPlane(ray: Ray, tri: Triangle, len: real, mint: real, maxt: real)
    requires TriangleTestDefined(ray, tri, len)
    requires mint <= TriangleT(ray, tri, len) <= maxt
    ensures Dot(Normal(tri), IntersectsTriangle(ray, tri, len, mint, maxt).point) == Dot(Normal(tri), tri.v1)
  {
    var l := TrianglePlane(tri, len);
    var a := Vec4.Dot(l, Point4(ray.origin));
    var b := Vec4.Dot(l, Direction4(ray.normalizedDir));
    var t := TriangleT(ray, tri, len);
    var hit := PointAt(ray.origin, t, ray.normalizedDir);
    assert IntersectsTriangle(ray, tri, len, mint, maxt).point == hit;
    assert t == -a / b;
    PlaneAlongRay(l, ray.origin, t, ray.normalizedDir);
    RootOfAffine(a, b);
    TrianglePlaneAt(tri, len, hit);
    assert 1.0 / len != 0.0;
    ZeroProduct(Dot(Normal(tri), hit) - Dot(Normal(tri), tri.v1), 1.0 / len);
  }

  /** The overload without `out` parameters ignores the bounds it is given: any two pairs of
      bounds give the same answer, the one of the full test with the defaults. */
  lemma TriangleAnyIgnoresBounds(ray: Ray, tri: Triangle, len: real, mint1: real, maxt1: real, mint2: real, maxt2: real)
    requires TriangleTestDefined(ray, tri, len)
    ensures IntersectsTriangleAny(ray, tri, len, mint1, maxt1) == IntersectsTriangleAny(ray, tri, len, mint2, maxt2)
    ensures IntersectsTriangleAny(ray, tri, len, mint1, maxt1)
         == IntersectsTriangle(ray, tri, len, DefaultMinT, DefaultMaxT).result
  {
  }

  /** The overload without `out` parameters, as written, answers for the default bounds: a ray
      that meets the triangle at a t below the caller's mint is rejected by the full test with
      that mint, yet reported as a hit. */
  lemma TriangleAnyOverreports(ray: Ray, tri: Triangle, len: real, mint: real, maxt: real)
    requires TriangleTestDefined(ray, tri, len)
    requires IntersectsTriangle(ray, tri, len, DefaultMinT, DefaultMaxT).result
    requires TriangleT(ray, tri, len) < mint
    ensures !IntersectsTriangle(ray, tri, len, mint, maxt).result
    ensures IntersectsTriangleAny(ray, tri, len, mint, maxt)
  {
  }

  /** The overload as evidently intended, passing its bounds on to the full test. */
  function IntersectsTriangleWithin(ray: Ray, tri: Triangle, len: real, mint: real, maxt: real): (r: bool)
    requires TriangleTestDefined(ray, tri, len)
    ensures r <==> mint <= TriangleT(ray, tri, len) <= maxt
                   && InsideEdges(tri, PointAt(ray.origin, TriangleT(ray, tri, len), ray.normalizedDir))
    ensures mint == DefaultMinT && maxt == DefaultMaxT ==> r == IntersectsTriangleAny(ray, tri, len, mint, maxt)
  {
    TriangleHitIff(ray, tri, len, mint, maxt);
    IntersectsTriangle(ray, tri, len, mint, maxt).result
  }

  // ---------------------------------------------------------------------------
  // Ray and axis-aligned box: the slab method
  // ---------------------------------------------------------------------------

  /** `Math.Min` and `Math.Max` */
  function Min(a: real, b: real): real { if a <= b then a else b }
  function Max(a: real, b: real): real { if a >= b then a else b }

  /** The parameters at which the ray crosses the two planes of one axis, lo and hi, given the
      reciprocal frac of the direction's component on that axis: the nearer one... */
  function SlabNear(lo: real, hi: real, o: real, frac: real): real { Min((lo - o) * frac, (hi - o) * frac) }

  /** ... and the farther one. */
  function SlabFar(lo: real, hi: real, o: real, frac: real): real { Max((lo - o) * frac, (hi - o) * frac) }

  /** The ray's direction has no zero component: over exact reals, the slab test divides by
      each of them. */
  predicate SlabTestDefined(ray: Ray) { ray.dir.x != 0.0 && ray.dir.y != 0.0 && ray.dir.z != 0.0 }

  /** tmax: the nearest of the three far crossings. */
  function TMax(ray: Ray, bbox: Box3.BoundingBox3D): real
    requires SlabTestDefined(ray)
  {
    var dirfrac := ScalarDiv(1.0, ray.dir);
    Min(Min(SlabFar(bbox.min.x, bbox.max.x, ray.origin.x, dirfrac.x),
            SlabFar(bbox.min.y, bbox.max.y, ray.origin.y, dirfrac.y)),
        SlabFar(bbox.min.z, bbox.max.z, ray.origin.z, dirfrac.z))
  }

  /** tmin: the farthest of the three near crossings. */
  function TMin(ray: Ray, bbox: Box3.BoundingBox3D): real
    requires SlabTestDefined(ray)
  {
    var dirfrac := ScalarDiv(1.0, ray.dir);
    Max(Max(SlabNear(bbox.min.x, bbox.max.x, ray.origin.x, dirfrac.x),
            SlabNear(bbox.min.y, bbox.max.y, ray.origin.y, dirfrac.y)),
        SlabNear(bbox.min.z, bbox.max.z, ray.origin.z, dirfrac.z))
  }

  /** The result of the slab test and its `out t`. */
  datatype BoxHit = BoxHit(result: bool, t: real)

  /** `IntersectsBoundingBox(bbox, out t)`: fails with t = tmax when the box is behind the ray
      (tmax < 0) and when the slabs do not overlap (tmin > tmax); passes with t = tmin. */
  function IntersectsBoundingBox(ray: Ray, bbox: Box3.BoundingBox3D): BoxHit
    requires SlabTestDefined(ray)
  {
    var tmax := TMax(ray, bbox);
    if tmax < 0.0 then BoxHit(false, tmax)
    else
      var tmin := TMin(ray, bbox);
      if tmin > tmax then BoxHit(false, tmax)
      else BoxHit(true, tmin)
  }

  /** The test passes exactly when tmax >= 0 and tmin <= tmax, reporting t = tmin; on either
      failure it reports tmax, not tmin. */
  lemma SlabResult(ray: Ray, bbox: Box3.BoundingBox3D)
    requires SlabTestDefined(ray)
    ensures IntersectsBoundingBox(ray, bbox).result <==> TMax(ray, bbox) >= 0.0 && TMin(ray, bbox) <= TMax(ray, bbox)
    ensures IntersectsBoundingBox(ray, bbox).t
         == if IntersectsBoundingBox(ray, bbox).result then TMin(ray, bbox) else TMax(ray, bbox)
  {
  }

  /** a <= b scaled by a positive k stays a <= b, by a negative k it turns round. */
  lemma ScaleOrder(a: real, b: real, k: real)
    ensures k > 0.0 ==> (a <= b <==> a * k <= b * k)
    ensures k < 0.0 ==> (a <= b <==> a * k >= b * k)
  {
    if k > 0.0 {
      assert (b - a) * k == b * k - a * k;
      if a <= b {
        assert (b - a) * k >= 0.0;
      } else {
        assert (a - b) * k > 0.0;
      }
    } else if k < 0.0 {
      assert (b - a) * k == b * k - a * k;
      if a <= b {
        assert (b - a) * (-k) >= 0.0;
      } else {
        assert (a - b) * (-k) > 0.0;
      }
    }
  }

  /** Whether s lies within the slab of one axis: between its near and far crossings. */
  predicate InSlab(lo: real, hi: real, o: real, d: real, s: real)
    requires d != 0.0
  {
    SlabNear(lo, hi, o, 1.0 / d) <= s <= SlabFar(lo, hi, o, 1.0 / d)
  }

  /** A product by the reciprocal of d, times d, gives back the first factor. */
  lemma ReciprocalCancels(a: real, d: real)
    requires d != 0.0
    ensures (a * (1.0 / d)) * d == a
  {
    assert (a * (1.0 / d)) * d == a * ((1.0 / d) * d);
  }

  /** `SlabAxis` for a direction pointing up the axis: lo is crossed first. */
  lemma SlabAxisRising(lo: real, hi: real, o: real, d: real, s: real)
    requires lo <= hi && d > 0.0
    ensures InSlab(lo, hi, o, d, s) <==> lo <= o + s * d <= hi
  {
    var t1, t2 := (lo - o) * (1.0 / d), (hi - o) * (1.0 / d);
    ReciprocalCancels(lo - o, d);
    ReciprocalCancels(hi - o, d);
    assert 1.0 / d > 0.0 by { assert d * (1.0 / d) == 1.0; }
    ScaleOrder(lo - o, hi - o, 1.0 / d);
    assert t1 <= t2;
    assert SlabNear(lo, hi, o, 1.0 / d) == t1;
    assert SlabFar(lo, hi, o, 1.0 / d) == t2;
    ScaleOrder(t1, s, d);
    assert t1 <= s <==> lo <= o + s * d;
    ScaleOrder(s, t2, d);
    assert s <= t2 <==> o + s * d <= hi;
  }

  /** `SlabAxis` for a direction pointing down the axis: hi is crossed first. */
  lemma SlabAxisFalling(lo: real, hi: real, o: real, d: real, s: real)
    requires lo <= hi && d < 0.0
    ensures InSlab(lo, hi, o, d, s) <==> lo <= o + s * d <= hi
  {
    var t1, t2 := (lo - o) * (1.0 / d), (hi - o) * (1.0 / d);
    ReciprocalCancels(lo - o, d);
    ReciprocalCancels(hi - o, d);
    assert 1.0 / d < 0.0 by { assert d * (1.0 / d) == 1.0; }
    ScaleOrder(lo - o, hi - o, 1.0 / d);
    assert t2 <= t1;
    assert SlabNear(lo, hi, o, 1.0 / d) == t2;
    assert SlabFar(lo, hi, o, 1.0 / d) == t1;
    ScaleOrder(t2, s, d);
    assert t2 <= s <==> o + s * d <= hi;
    ScaleOrder(s, t1, d);
    assert s <= t1 <==> lo <= o + s * d;
  }

  /** One axis of the slab method: for a box valid on this axis and d != 0, s lies between the
      near and far crossings exactly when o + s d lies between lo and hi. */
  lemma SlabAxis(lo: real, hi: real, o: real, d: real, s: real)
    requires lo <= hi && d != 0.0
    ensures InSlab(lo, hi, o, d, s) <==> lo <= o + s * d <= hi
  {
    if d > 0.0 {
      SlabAxisRising(lo, hi, o, d, s);
    } else {
      SlabAxisFalling(lo, hi, o, d, s);
    }
  }

  /** s lies in all three windows [n_i, f_i] exactly when it lies between the largest n_i and
      the smallest f_i. */
  lemma CommonWindow(n1: real, f1: real, n2: real, f2: real, n3: real, f3: real, s: real)
    ensures Max(Max(n1, n2), n3) <= s <= Min(Min(f1, f2), f3)
        <==> n1 <= s <= f1 && n2 <= s <= f2 && n3 <= s <= f3
  {
  }

  /** The point origin + s d lies in the box exactly when each coordinate lies between the
      box's bounds on that axis. */
  lemma ContainsAlongRay(bbox: Box3.BoundingBox3D, o: Vector3, s: real, d: Vector3)
    ensures Box3.Contains(bbox, PointAt(o, s, d))
        <==> (bbox.min.x <= o.x + s * d.x <= bbox.max.x
              && bbox.min.y <= o.y + s * d.y <= bbox.max.y
              && bbox.min.z <= o.z + s * d.z <= bbox.max.z)
  {
  }

  /** tmin and tmax in terms of the per-axis crossings. */
  lemma SlabWindow(ray: Ray, bbox: Box3.BoundingBox3D)
    requires SlabTestDefined(ray)
    ensures TMin(ray, bbox)
         == Max(Max(SlabNear(bbox.min.x, bbox.max.x, ray.origin.x, 1.0 / ray.dir.x),
                    SlabNear(bbox.min.y, bbox.max.y, ray.origin.y, 1.0 / ray.dir.y)),
                SlabNear(bbox.min.z, bbox.max.z, ray.origin.z, 1.0 / ray.dir.z))
    ensures TMax(ray, bbox)
         == Min(Min(SlabFar(bbox.min.x, bbox.max.x, ray.origin.x, 1.0 / ray.dir.x),
                    SlabFar(bbox.min.y, bbox.max.y, ray.origin.y, 1.0 / ray.dir.y)),
                SlabFar(bbox.min.z, bbox.max.z, ray.origin.z, 1.0 / ray.dir.z))
  {
  }

  /** s lies in all three slabs exactly when the ray's point at s lies in the box... */
  lemma InBoxIffAllSlabs(ray: Ray, bbox: Box3.BoundingBox3D, s: real)
    requires SlabTestDefined(ray) && Box3.Valid(bbox)
    ensures Box3.Contains(bbox, PointAt(ray.origin, s, ray.dir))
        <==> InSlab(bbox.min.x, bbox.max.x, ray.origin.x, ray.dir.x, s)
             && InSlab(bbox.min.y, bbox.max.y, ray.origin.y, ray.dir.y, s)
             && InSlab(bbox.min.z, bbox.max.z, ray.origin.z, ray.dir.z, s)
  {
    var (o, d, lo, hi) := (ray.origin, ray.dir, bbox.min, bbox.max);
    ContainsAlongRay(bbox, o, s, d);
    AllAxes(lo.x, hi.x, o.x, d.x, lo.y, hi.y, o.y, d.y, lo.z, hi.z, o.z, d.z, s);
  }

  /** `SlabAxis` on the three axes at once. */
  lemma AllAxes(lox: real, hix: real, ox: real, dx: real, loy: real, hiy: real, oy: real, dy: real,
                loz: real, hiz: real, oz: real, dz: real, s: real)
    requires lox <= hix && loy <= hiy && loz <= hiz && dx != 0.0 && dy != 0.0 && dz != 0.0
    ensures (lox <= ox + s * dx <= hix && loy <= oy + s * dy <= hiy && loz <= oz + s * dz <= hiz)
         == (InSlab(lox, hix, ox, dx, s) && InSlab(loy, hiy, oy, dy, s) && InSlab(loz, hiz, oz, dz, s))
  {
    SlabAxis(lox, hix, ox, dx, s);
    SlabAxis(loy, hiy, oy, dy, s);
    SlabAxis(loz, hiz, oz, dz, s);
  }

  /** ... and exactly when tmin <= s <= tmax. */
  lemma AllSlabsIffWindow(ray: Ray, bbox: Box3.BoundingBox3D, s: real)
    requires SlabTestDefined(ray)
    ensures InSlab(bbox.min.x, bbox.max.x, ray.origin.x, ray.dir.x, s)
             && InSlab(bbox.min.y, bbox.max.y, ray.origin.y, ray.dir.y, s)
             && InSlab(bbox.min.z, bbox.max.z, ray.origin.z, ray.dir.z, s)
        <==> TMin(ray, bbox) <= s <= TMax(ray, bbox)
  {
    var (o, d, lo, hi) := (ray.origin, ray.dir, bbox.min, bbox.max);
    SlabWindow(ray, bbox);
    CommonWindow(SlabNear(lo.x, hi.x, o.x, 1.0 / d.x), SlabFar(lo.x, hi.x, o.x, 1.0 / d.x),
                 SlabNear(lo.y, hi.y, o.y, 1.0 / d.y), SlabFar(lo.y, hi.y, o.y, 1.0 / d.y),
                 SlabNear(lo.z, hi.z, o.z, 1.0 / d.z), SlabFar(lo.z, hi.z, o.z, 1.0 / d.z), s);
  }

  /** The ray's point at parameter s lies in the box exactly when s lies in all three slabs. */
  lemma InBoxIffInSlabs(ray: Ray, bbox: Box3.BoundingBox3D, s: real)
    requires SlabTestDefined(ray) && Box3.Valid(bbox)
    ensures Box3.Contains(bbox, PointAt(ray.origin, s, ray.dir))
        <==> TMin(ray, bbox) <= s <= TMax(ray, bbox)
  {
    InBoxIffAllSlabs(ray, bbox, s);
    AllSlabsIffWindow(ray, bbox, s);
  }

  /** For a valid box, the slab test passes exactly when the ray meets the box at some parameter
      s >= 0; when it passes, the ray's point at the reported t lies in the box. */
  lemma SlabTestMeaning(ray: Ray, bbox: Box3.BoundingBox3D)
    requires SlabTestDefined(ray)
    ensures Box3.Valid(bbox) ==>
              (IntersectsBoundingBox(ray, bbox).result
               <==> exists s :: s >= 0.0 && Box3.Contains(bbox, PointAt(ray.origin, s, ray.dir)))
    ensures Box3.Valid(bbox) && IntersectsBoundingBox(ray, bbox).result
        ==> Box3.Contains(bbox, PointAt(ray.origin, IntersectsBoundingBox(ray, bbox).t, ray.dir))
  {
    if !Box3.Valid(bbox) {
      return;
    }
    var tmin, tmax := TMin(ray, bbox), TMax(ray, bbox);
    if IntersectsBoundingBox(ray, bbox).result {
      var s := Max(tmin, 0.0);
      InBoxIffInSlabs(ray, bbox, s);
      InBoxIffInSlabs(ray, bbox, tmin);
    }
    if exists s :: s >= 0.0 && Box3.Contains(bbox, PointAt(ray.origin, s, ray.dir)) {
      var s :| s >= 0.0 && Box3.Contains(bbox, PointAt(ray.origin, s, ray.dir));
      InBoxIffInSlabs(ray, bbox, s);
    }
  }

  /** `IntersectsBoundingBox(bbox)`: the same answer as the overload with `out t`, which, for a
      valid box, is whether the ray meets the box in front of, or at, its origin. */
  function IntersectsBoundingBoxAny(ray: Ray, bbox: Box3.BoundingBox3D): (r: bool)
    requires SlabTestDefined(ray)
    ensures Box3.Valid(bbox) ==> (r <==> exists s :: s >= 0.0 && Box3.Contains(bbox, PointAt(ray.origin, s, ray.dir)))
  {
    SlabTestMeaning(ray, bbox);
    IntersectsBoundingBox(ray, bbox).result
  }

  /** `BoundingBox3D.Intersects(ray, out t)`: the ray's slab test against this box. */
  function BoxIntersects(bbox: Box3.BoundingBox3D, ray: Ray): (r: BoxHit)
    requires SlabTestDefined(ray)
    ensures Box3.Valid(bbox) && r.result ==> Box3.Contains(bbox, PointAt(ray.origin, r.t, ray.dir))
  {
    SlabTestMeaning(ray, bbox);
    IntersectsBoundingBox(ray, bbox)
  }

  /** `BoundingBox3D.Intersects(ray)`: the ray's slab test against this box. */
  function BoxIntersectsAny(bbox: Box3.BoundingBox3D, ray: Ray): (r: bool)
    requires SlabTestDefined(ray)
    ensures Box3.Valid(bbox) ==> (r <==> exists s :: s >= 0.0 && Box3.Contains(bbox, PointAt(ray.origin, s, ray.dir)))
  {
    IntersectsBoundingBoxAny(ray, bbox)
  }

  /** Both box queries and both ray overloads give the same answer. */
  lemma BoxQueriesAgree(bbox: Box3.BoundingBox3D, ray: Ray)
    requires SlabTestDefined(ray)
    ensures BoxIntersects(bbox, ray) == IntersectsBoundingBox(ray, bbox)
    ensures BoxIntersectsAny(bbox, ray) == IntersectsBoundingBoxAny(ray, bbox) == BoxIntersects(bbox, ray).result
  {
  }

  /** From an origin inside the box the slab test always passes, and the t it reports is
      tmin <= 0: the entry point behind the origin, not a point the ray reaches. */
  lemma SlabFromInside(ray: Ray, bbox: Box3.BoundingBox3D)
    requires SlabTestDefined(ray) && Box3.Contains(bbox, ray.origin)
    ensures IntersectsBoundingBox(ray, bbox).result
    ensures IntersectsBoundingBox(ray, bbox).t <= 0.0
  {
    assert Box3.Valid(bbox);
    assert PointAt(ray.origin, 0.0, ray.dir) == ray.origin;
    InBoxIffInSlabs(ray, bbox, 0.0);
    SlabResult(ray, bbox);
  }

  /** The box [-1, 1]^3 and a ray from (0, 0, -5) with direction (0.25, 0.25, 1): the slab test
      passes at t = 4, where the ray enters through the face z = -1. Pointing the other way, the
      box is behind the ray and the test fails with t = tmax < 0. From the centre along
      (1, 1, 1) the test passes with t = -1, the parameter of the corner behind the origin. */
  lemma SlabExamples()
    ensures IntersectsBoundingBox(Ray(Vector3(0.0, 0.0, -5.0), Vector3(0.25, 0.25, 1.0), Vector3(0.0, 0.0, 0.0)),
                                  Box3.BoundingBox3D(Vector3(-1.0, -1.0, -1.0), Vector3(1.0, 1.0, 1.0)))
         == BoxHit(true, 4.0)
    ensures IntersectsBoundingBox(Ray(Vector3(0.0, 0.0, -5.0), Vector3(-0.25, -0.25, -1.0), Vector3(0.0, 0.0, 0.0)),
                                  Box3.BoundingBox3D(Vector3(-1.0, -1.0, -1.0), Vector3(1.0, 1.0, 1.0)))
         == BoxHit(false, -4.0)
    ensures IntersectsBoundingBox(Ray(Vector3(0.0, 0.0, 0.0), Vector3(1.0, 1.0, 1.0), Vector3(0.0, 0.0, 0.0)),
                                  Box3.BoundingBox3D(Vector3(-1.0, -1.0, -1.0), Vector3(1.0, 1.0, 1.0)))
         == BoxHit(true, -1.0)
  {
  }
}
