/** Scene primitives and their ray tests (src/strahl/primitives.rs).
    `sqrt` and `norm` are parameters: the model says nothing about how they
    round, only (where a lemma needs it) that a square root is exact. */
module Primitives {
  import opened Vectors
  import opened Rays
  import opened Hits
  import opened Wrappers

  /** `Sphere { pos, radius }`; the constructor is `Sphere::new`. */
  datatype Sphere = Sphere(pos: Vec4, radius: real)

  /** `Plane { pos, normal }`: a point on the plane and its normal. */
  datatype Plane = Plane(pos: Vec4, normal: Vec4)

  /** `AABB { min, max }`: stored in a scene, but it has no hit test. */
  datatype Aabb = Aabb(min: Vec4, max: Vec4)

  /** `Primitive`: a shape tagged with the index of its material. */
  datatype Primitive =
    | SpherePrimitive(sphere: Sphere, mat: U32)
    | PlanePrimitive(plane: Plane, mat: U32)
    | AabbPrimitive(box: Aabb, mat: U32)

  /** `Sphere::primitive`: the sphere itself, tagged with `mat`. */
  function SphereToPrimitive(s: Sphere, mat: U32): (p: Primitive)
    ensures p.SpherePrimitive? && p.sphere == s && p.mat == mat
  {
    SpherePrimitive(s, mat)
  }

  /** `Plane::primitive`: the plane itself, tagged with `mat`. */
  function PlaneToPrimitive(pl: Plane, mat: U32): (p: Primitive)
    ensures p.PlanePrimitive? && p.plane == pl && p.mat == mat
  {
    PlanePrimitive(pl, mat)
  }

  //######################################################################
  // Sphere
  //######################################################################

  /** The surface of the sphere, as its squared distance from the centre. */
  predicate OnSphere(s: Sphere, p: Vec4)
  {
    SquareLength(Sub(p, s.pos)) == s.radius * s.radius
  }

  /** `a`, `b` and `c` of the test: the points `origin + t * direction` on the
      sphere are the roots of `a t^2 + 2 b t + c`. */
  function QuadA(r: Ray): real
  {
    SquareLength(r.direction)
  }

  function QuadB(s: Sphere, r: Ray): real
  {
    Dot(Sub(r.origin, s.pos), r.direction)
  }

  function QuadC(s: Sphere, r: Ray): real
  {
    SquareLength(Sub(r.origin, s.pos)) - s.radius * s.radius
  }

  /** `b * b - a * c`. It is positive only for a ray that has a direction, so
      the divisions by `a` below are defined whenever the test reaches them. */
  function Discriminant(s: Sphere, r: Ray): (disc: real)
    ensures disc > 0.0 ==> QuadA(r) > 0.0
  {
    NeedsDirection(s, r);
    QuadraticDiscriminant(QuadA(r), QuadB(s, r), QuadC(s, r))
  }

  /** `b * b - a * c`. */
  function QuadraticDiscriminant(a: real, b: real, c: real): real
  {
    b * b - a * c
  }

  lemma NeedsDirection(s: Sphere, r: Ray)
    ensures QuadraticDiscriminant(QuadA(r), QuadB(s, r), QuadC(s, r)) > 0.0 ==> QuadA(r) > 0.0
  {
    var a, b, c := QuadA(r), QuadB(s, r), QuadC(s, r);
    QuadANonNegative(r);
    if a == 0.0 {
      DirectionlessRay(r);
      NoDirectionNoProjection(s, r);
    }
    NoDirectionNoDiscriminant(a, b, c);
  }

  lemma QuadANonNegative(r: Ray)
    ensures QuadA(r) >= 0.0
  {
  }

  lemma DirectionlessRay(r: Ray)
    requires QuadA(r) == 0.0
    ensures r.direction == Zero()
  {
  }

  lemma NoDirectionNoProjection(s: Sphere, r: Ray)
    requires r.direction == Zero()
    ensures QuadB(s, r) == 0.0
  {
  }

  lemma NoDirectionNoDiscriminant(a: real, b: real, c: real)
    requires a >= 0.0 && (a == 0.0 ==> b == 0.0)
    ensures QuadraticDiscriminant(a, b, c) > 0.0 ==> a > 0.0
  {
    if a == 0.0 {
      assert b * b - a * c == 0.0;
    }
  }

  /** `depth1`, the candidate tried first. */
  function NearRoot(s: Sphere, r: Ray, sqrt: real -> real): real
    requires Discriminant(s, r) > 0.0
  {
    (-QuadB(s, r) - sqrt(Discriminant(s, r))) / QuadA(r)
  }

  /** `depth2`, tried when `depth1` is outside the window. */
  function FarRoot(s: Sphere, r: Ray, sqrt: real -> real): real
    requires Discriminant(s, r) > 0.0
  {
    (-QuadB(s, r) + sqrt(Discriminant(s, r))) / QuadA(r)
  }

  /** The depth the sphere test reports, if any: nothing unless the
      discriminant is strictly positive (a tangent ray misses), then the
      near candidate if it is inside `(min, max)`, else the far one if it is. */
  function SphereRoot(s: Sphere, r: Ray, min: real, max: real, sqrt: real -> real): (t: Option<real>)
    ensures t.Some? ==> min < t.value < max && Discriminant(s, r) > 0.0
    ensures Discriminant(s, r) <= 0.0 ==> t == None
  {
    if Discriminant(s, r) > 0.0 then
      var near := NearRoot(s, r, sqrt);
      if min < near < max then Some(near)
      else
        var far := FarRoot(s, r, sqrt);
        if min < far < max then Some(far) else None
    else
      None
  }

  /** What a sphere hit at depth `t` writes into `out`: the depth, the point
      reached, and the normal `norm((point - pos) / a)`; the division is by
      `a = |direction|^2`, as the source has it, not by the radius. */
  function SphereRecord(s: Sphere, r: Ray, t: real, out: HitInfo, norm: Vec4 -> Vec4): (h: HitInfo)
    requires QuadA(r) > 0.0
    ensures h.depth == t && h.point == PointAt(r, t)
    ensures h.normal == norm(DivScalar(Sub(PointAt(r, t), s.pos), QuadA(r)))
    ensures h.u == out.u && h.v == out.v && h.material == out.material
  {
    var point := PointAt(r, t);
    out.(depth := t, point := point, normal := norm(DivScalar(Sub(point, s.pos), QuadA(r))))
  }

  /** `Hitable for Sphere::hit`: the record is written only on a hit. */
  method SphereHit(s: Sphere, r: Ray, out: HitInfo, min: real, max: real,
                   sqrt: real -> real, norm: Vec4 -> Vec4)
    returns (hit: bool, res: HitInfo)
    ensures hit <==> SphereRoot(s, r, min, max, sqrt).Some?
    ensures hit ==> res == SphereRecord(s, r, SphereRoot(s, r, min, max, sqrt).value, out, norm)
    ensures HitContract(r, out, min, max, hit, res)
  {
    var op := Sub(r.origin, s.pos);
    var a := SquareLength(r.direction);
    var b := Dot(op, r.direction);
    var c := SquareLength(op) - s.radius * s.radius;
    var discriminant := QuadraticDiscriminant(a, b, c);
    assert discriminant == Discriminant(s, r);
    res := out;
    if discriminant > 0.0 {
      var sqDiscriminant := sqrt(discriminant);
      var depth1 := (-b - sqDiscriminant) / a;
      assert depth1 == NearRoot(s, r, sqrt);
      if depth1 > min && depth1 < max {
        res := res.(depth := depth1);
        res := res.(point := PointAt(r, res.depth));
        res := res.(normal := norm(DivScalar(Sub(res.point, s.pos), a)));
        assert SphereRoot(s, r, min, max, sqrt) == Some(depth1);
        assert res == SphereRecord(s, r, depth1, out, norm);
        return true, res;
      }
      var depth2 := (-b + sqDiscriminant) / a;
      assert depth2 == FarRoot(s, r, sqrt);
      if depth2 > min && depth2 < max {
        res := res.(depth := depth2);
        res := res.(point := PointAt(r, res.depth));
        res := res.(normal := norm(DivScalar(Sub(res.point, s.pos), a)));
        assert SphereRoot(s, r, min, max, sqrt) == Some(depth2);
        assert res == SphereRecord(s, r, depth2, out, norm);
        return true, res;
      }
      assert SphereRoot(s, r, min, max, sqrt) == None;
    }
    return false, res;
  }

  /** `sqrt` gives the exact, non-negative square root of `x`. */
  predicate ExactRoot(sqrt: real -> real, x: real)
  {
    0.0 <= sqrt(x) && sqrt(x) * sqrt(x) == x
  }

  /** `sqrt` never returns a negative number for a non-negative argument. */
  ghost predicate RootsNonNegative(sqrt: real -> real)
  {
    forall x :: 0.0 <= x ==> 0.0 <= sqrt(x)
  }

  /** With a non-negative square root, the near candidate is not beyond the far one. */
  lemma RootsOrdered(s: Sphere, r: Ray, sqrt: real -> real)
    requires Discriminant(s, r) > 0.0
    requires 0.0 <= sqrt(Discriminant(s, r))
    ensures NearRoot(s, r, sqrt) <= FarRoot(s, r, sqrt)
  {
    var a, b, q := QuadA(r), QuadB(s, r), sqrt(Discriminant(s, r));
    Quotient(-b - q, a, NearRoot(s, r, sqrt));
    Quotient(-b + q, a, FarRoot(s, r, sqrt));
    assert a * (FarRoot(s, r, sqrt) - NearRoot(s, r, sqrt)) == 2.0 * q;
  }

  /** Shrinking the upper bound to `m` keeps the reported depth if it is
      below `m`, and loses it otherwise: the sphere has no other root in the
      smaller window. This is what lets the scene pass its best depth on. */
  lemma RootWindowShrink(s: Sphere, r: Ray, min: real, m: real, max: real, sqrt: real -> real)
    requires m <= max
    requires RootsNonNegative(sqrt)
    ensures var t := SphereRoot(s, r, min, max, sqrt);
      SphereRoot(s, r, min, m, sqrt) == if t.Some? && t.value < m then t else None
  {
    if Discriminant(s, r) > 0.0 {
      RootsOrdered(s, r, sqrt);
    }
  }

  /** The sphere's squared distance from a point of the ray, as a quadratic in `t`. */
  lemma OnSphereQuadratic(s: Sphere, r: Ray, t: real)
    ensures SquareLength(Sub(PointAt(r, t), s.pos)) - s.radius * s.radius
         == QuadA(r) * t * t + 2.0 * QuadB(s, r) * t + QuadC(s, r)
  {
  }

  /** With an exact square root, both candidates lie on the sphere, and these
      are its only points on the ray. */
  lemma CandidatesAreTheCrossings(s: Sphere, r: Ray, t: real, sqrt: real -> real)
    requires Discriminant(s, r) > 0.0
    requires ExactRoot(sqrt, Discriminant(s, r))
    ensures OnSphere(s, PointAt(r, t)) <==> t == NearRoot(s, r, sqrt) || t == FarRoot(s, r, sqrt)
  {
    OnSphereQuadratic(s, r, t);
    QuadraticRoots(QuadA(r), QuadB(s, r), QuadC(s, r), sqrt(Discriminant(s, r)), t);
  }

  /** With an exact square root, a reported depth is a point of the sphere. */
  lemma SphereRootOnSurface(s: Sphere, r: Ray, min: real, max: real, sqrt: real -> real)
    requires Discriminant(s, r) > 0.0 ==> ExactRoot(sqrt, Discriminant(s, r))
    ensures SphereRoot(s, r, min, max, sqrt).Some? ==>
      OnSphere(s, PointAt(r, SphereRoot(s, r, min, max, sqrt).value))
  {
    var t := SphereRoot(s, r, min, max, sqrt);
    if t.Some? {
      CandidatesAreTheCrossings(s, r, t.value, sqrt);
    }
  }

  /** With an exact square root and a ray that is not tangent, the test
      reports the nearest crossing inside the window: any point of the
      sphere reached at a depth in `(min, max)` is a hit no nearer than the
      reported one. */
  lemma SphereRootIsNearest(s: Sphere, r: Ray, min: real, max: real, t: real, sqrt: real -> real)
    requires Discriminant(s, r) != 0.0
    requires Discriminant(s, r) > 0.0 ==> ExactRoot(sqrt, Discriminant(s, r))
    requires min < t < max && OnSphere(s, PointAt(r, t))
    ensures SphereRoot(s, r, min, max, sqrt).Some?
    ensures SphereRoot(s, r, min, max, sqrt).value <= t
  {
    if Discriminant(s, r) < 0.0 {
      MissWithoutDiscriminant(s, r, t);
      assert false;
    }
    CandidatesAreTheCrossings(s, r, t, sqrt);
    CandidateBound(s, r, min, max, t, sqrt);
  }

  /** A ray with a negative discriminant does not meet the sphere at all. */
  lemma MissWithoutDiscriminant(s: Sphere, r: Ray, t: real)
    requires Discriminant(s, r) < 0.0
    ensures !OnSphere(s, PointAt(r, t))
  {
    OnSphereQuadratic(s, r, t);
    NoRealRoot(QuadA(r), QuadB(s, r), QuadC(s, r), t);
  }

  /** A candidate inside the window bounds the reported depth from above. */
  lemma CandidateBound(s: Sphere, r: Ray, min: real, max: real, t: real, sqrt: real -> real)
    requires Discriminant(s, r) > 0.0 && 0.0 <= sqrt(Discriminant(s, r))
    requires min < t < max && (t == NearRoot(s, r, sqrt) || t == FarRoot(s, r, sqrt))
    ensures SphereRoot(s, r, min, max, sqrt).Some?
    ensures SphereRoot(s, r, min, max, sqrt).value <= t
  {
    RootsOrdered(s, r, sqrt);
  }

  /** `t = x / a` exactly when `a * t = x`. */
  lemma Quotient(x: real, a: real, t: real)
    requires a != 0.0
    ensures t == x / a <==> a * t == x
  {
  }

  /** A product is zero exactly when a factor is. */
  lemma ZeroProduct(x: real, y: real)
    ensures x * y == 0.0 <==> x == 0.0 || y == 0.0
  {
    if x > 0.0 && y > 0.0 {
      PositiveProduct(x, y);
    } else if x > 0.0 && y < 0.0 {
      PositiveProduct(x, -y);
    } else if x < 0.0 && y > 0.0 {
      PositiveProduct(-x, y);
    } else if x < 0.0 && y < 0.0 {
      PositiveProduct(-x, -y);
    }
  }

  /** With `q` an exact root of `b^2 - a c` and `a > 0`, the roots of
      `a t^2 + 2 b t + c` are `(-b - q) / a` and `(-b + q) / a`. */
  lemma QuadraticRoots(a: real, b: real, c: real, q: real, t: real)
    requires a > 0.0 && q * q == b * b - a * c
    ensures a * t * t + 2.0 * b * t + c == 0.0 <==> t == (-b - q) / a || t == (-b + q) / a
  {
    var e := a * t + b;
    assert a * (a * t * t + 2.0 * b * t + c) == (e + q) * (e - q);
    ZeroProduct(a, a * t * t + 2.0 * b * t + c);
    ZeroProduct(e + q, e - q);
    Quotient(-b - q, a, t);
    Quotient(-b + q, a, t);
  }

  /** A quadratic with `a > 0` and a negative discriminant has no root. */
  lemma NoRealRoot(a: real, b: real, c: real, t: real)
    requires QuadraticDiscriminant(a, b, c) < 0.0
    ensures a * t * t + 2.0 * b * t + c != 0.0
  {
    var e := a * t + b;
    Square(e);
    assert a * (a * t * t + 2.0 * b * t + c) == e * Id(e) - (b * b - a * c);
  }

  //######################################################################
  // Plane
  //######################################################################

  /** The plane through `pos` orthogonal to `normal`. */
  predicate OnPlane(pl: Plane, p: Vec4)
  {
    Dot(Sub(p, pl.pos), pl.normal) == 0.0
  }

  /** The depth the plane test reports, if any: only a ray running along the
      normal (`normal . direction > 0`) is tested, and the crossing depth
      `(pos - origin) . normal / denom` must lie inside `(min, max)`. */
  function PlaneRoot(pl: Plane, r: Ray, min: real, max: real): (t: Option<real>)
    ensures t.Some? ==> min < t.value < max && Dot(pl.normal, r.direction) > 0.0
    ensures Dot(pl.normal, r.direction) <= 0.0 ==> t == None
  {
    var denom := Dot(pl.normal, r.direction);
    if denom > 0.0 then
      var depth := Dot(Sub(pl.pos, r.origin), pl.normal) / denom;
      if min < depth < max then Some(depth) else None
    else
      None
  }

  /** A ray that is not parallel to the plane crosses it at exactly one depth. */
  lemma PlaneCrossing(pl: Plane, r: Ray, t: real)
    requires Dot(pl.normal, r.direction) != 0.0
    ensures OnPlane(pl, PointAt(r, t)) <==>
      t == Dot(Sub(pl.pos, r.origin), pl.normal) / Dot(pl.normal, r.direction)
  {
    var denom := Dot(pl.normal, r.direction);
    assert Dot(Sub(PointAt(r, t), pl.pos), pl.normal)
        == t * denom - Dot(Sub(pl.pos, r.origin), pl.normal);
    Quotient(Dot(Sub(pl.pos, r.origin), pl.normal), denom, t);
  }

  /** The plane test reports exactly the crossing, when it is inside the window
      and the ray runs along the normal. */
  lemma PlaneRootIsTheCrossing(pl: Plane, r: Ray, min: real, max: real, t: real)
    ensures PlaneRoot(pl, r, min, max) == Some(t) <==>
      Dot(pl.normal, r.direction) > 0.0 && min < t < max && OnPlane(pl, PointAt(r, t))
  {
    if Dot(pl.normal, r.direction) > 0.0 {
      PlaneCrossing(pl, r, t);
    }
  }

  /** What a plane hit at depth `t` writes: depth, the plane's own normal and
      the point reached. */
  function PlaneRecord(pl: Plane, r: Ray, t: real, out: HitInfo): (h: HitInfo)
    ensures h.depth == t && h.point == PointAt(r, t) && h.normal == pl.normal
    ensures h.u == out.u && h.v == out.v && h.material == out.material
  {
    out.(depth := t, normal := pl.normal, point := PointAt(r, t))
  }

  /** `Hitable for Plane::hit`: the record is written only on a hit. */
  method PlaneHit(pl: Plane, r: Ray, out: HitInfo, min: real, max: real)
    returns (hit: bool, res: HitInfo)
    ensures hit <==> PlaneRoot(pl, r, min, max).Some?
    ensures hit ==> res == PlaneRecord(pl, r, PlaneRoot(pl, r, min, max).value, out)
    ensures HitContract(r, out, min, max, hit, res)
  {
    var denom := Dot(pl.normal, r.direction);
    res := out;
    if denom > 0.0 {
      var depth := Dot(Sub(pl.pos, r.origin), pl.normal) / denom;
      if depth > min && depth < max {
        res := res.(depth := depth);
        res := res.(normal := pl.normal);
        res := res.(point := PointAt(r, res.depth));
        return true, res;
      }
    }
    return false, res;
  }
}
