/** Hit records and the contract every hit test keeps (src/strahl/hit.rs). */
module Hits {
  import opened Vectors
  import opened Rays

  /** A Rust `u32`. */
  type U32 = n: int | 0 <= n < 0x1_0000_0000

  /** `HitInfo`: where a ray met a surface, the surface normal there, the
      distance along the ray, texture coordinates and the material tag. */
  datatype HitInfo = HitInfo(point: Vec4, normal: Vec4, depth: real, u: real, v: real, material: U32)

  /** `HitInfo::new`: every field zero. */
  function NewHitInfo(): (h: HitInfo)
    ensures h.point == Zero() && h.normal == Zero()
    ensures h.depth == 0.0 && h.u == 0.0 && h.v == 0.0 && h.material == 0
  {
    HitInfo(Splat(0.0), Splat(0.0), 0.0, 0.0, 0.0, 0)
  }

  /** The promise behind `Hitable::hit(r, out, min, max) -> bool`: a reported
      hit lies strictly inside the window `(min, max)` at the point the ray
      reaches at that depth; when nothing is reported, `out` (here `res`
      against the incoming `out`) is left as it was. */
  predicate HitContract(r: Ray, out: HitInfo, min: real, max: real, hit: bool, res: HitInfo)
  {
    (hit ==> min < res.depth < max && res.point == PointAt(r, res.depth)) &&
    (!hit ==> res == out)
  }
}
