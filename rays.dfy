/** Rays (src/strahl/ray.rs): an origin and a direction. */
module Rays {
  import opened Vectors

  /** `Ray { origin, direction }`; the datatype constructor is `Ray::new`,
      which stores both vectors unchanged. */
  datatype Ray = Ray(origin: Vec4, direction: Vec4)

  /** `Ray::invalid`: a ray that starts at the origin and goes nowhere. */
  function Invalid(): (r: Ray)
    ensures SquareLength(r.origin) == 0.0 && SquareLength(r.direction) == 0.0
    ensures forall d :: PointAt(r, d) == Zero()
  {
    Ray(Zero(), Zero())
  }

  /** `point_at`: `origin + direction * dist`, lane by lane. */
  function PointAt(r: Ray, dist: real): (p: Vec4)
    ensures forall i :: 0 <= i < 4 ==> Lane(p, i) == Lane(r.origin, i) + Lane(r.direction, i) * dist
  {
    Add(r.origin, Scale(r.direction, dist))
  }

  /** At distance zero a ray is at its origin. */
  lemma PointAtZero(r: Ray)
    ensures PointAt(r, 0.0) == r.origin
  {
  }

  /** Walking `s` and then `t` along a ray is walking `s + t`. */
  lemma PointAtAdditive(r: Ray, s: real, t: real)
    ensures PointAt(Ray(PointAt(r, s), r.direction), t) == PointAt(r, s + t)
  {
  }

  /** The offset from the origin is the direction scaled by the distance. */
  lemma PointAtOffset(r: Ray, t: real)
    ensures Sub(PointAt(r, t), r.origin) == Scale(r.direction, t)
  {
  }
}
