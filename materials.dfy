/** Materials and the scatter protocol (src/strahl/material.rs).
    Each `scatter` overwrites the ray and the material record it is handed
    and returns whether the path goes on; here the overwritten values are
    returned, beside the flag. The random unit vector a scatter draws
    (`random_in_unit_sphere`) is the parameter `rnd`, and `norm` is a
    parameter too. */
module Materials {
  import opened Vectors
  import opened Rays
  import opened Hits

  /** `MaterialInfo`: what a surface multiplies into the path and what it adds to it. */
  datatype MaterialInfo = MaterialInfo(attenuation: Vec4, emission: Vec4)

  /** `MaterialInfo::new`: the neutral record, which neither scales nor adds light. */
  function NewMaterialInfo(): (m: MaterialInfo)
    ensures forall c :: Mul(m.attenuation, c) == c && Add(m.emission, c) == c
  {
    MaterialInfo(One(), Zero())
  }

  /** `Lambertian { albedo }`: a diffuse surface. */
  datatype Lambertian = Lambertian(albedo: Vec4)

  /** `Emissive { emissive }`: a light source. */
  datatype Emissive = Emissive(emissive: Vec4)

  /** `Metal { albedo, roughness }`: a mirror, blurred by `roughness`. */
  datatype Metal = Metal(albedo: Vec4, roughness: real)

  /** `Background { color, strength }`: the sky gradient. */
  datatype Background = Background(color: Vec4, strength: real)

  /** `Material`: the closed set of surfaces. */
  datatype Material =
    | LambertianMaterial(lambertian: Lambertian)
    | EmissiveMaterial(emitter: Emissive)
    | MetalMaterial(metal: Metal)
    | BackgroundMaterial(background: Background)

  //######################################################################
  // Constructors and `material()`
  //######################################################################

  /** `Lambertian::new(r, g, b)`: the albedo is the colour with w = 0. */
  function NewLambertian(red: real, green: real, blue: real): (m: Lambertian)
    ensures m.albedo.x == red && m.albedo.y == green && m.albedo.z == blue && m.albedo.w == 0.0
  {
    Lambertian(From3(red, green, blue))
  }

  /** `Emissive::new(r, g, b)`: the emitted colour with w = 0. */
  function NewEmissive(red: real, green: real, blue: real): (m: Emissive)
    ensures m.emissive.x == red && m.emissive.y == green && m.emissive.z == blue && m.emissive.w == 0.0
  {
    Emissive(From3(red, green, blue))
  }

  /** `Metal::new(r, g, b, roughness)`: the albedo with w = 0 and the roughness as given. */
  function NewMetal(red: real, green: real, blue: real, roughness: real): (m: Metal)
    ensures m.albedo.x == red && m.albedo.y == green && m.albedo.z == blue && m.albedo.w == 0.0
    ensures m.roughness == roughness
  {
    Metal(From3(red, green, blue), roughness)
  }

  /** `Background::new(color, strength)`: both kept as given. */
  function NewBackground(color: Vec4, strength: real): (m: Background)
    ensures m.color == color && m.strength == strength
  {
    Background(color, strength)
  }

  /** The four `material()` methods: the surface itself, wrapped in its variant. */
  function LambertianToMaterial(m: Lambertian): (r: Material)
    ensures r.LambertianMaterial? && r.lambertian == m
  {
    LambertianMaterial(m)
  }

  function EmissiveToMaterial(m: Emissive): (r: Material)
    ensures r.EmissiveMaterial? && r.emitter == m
  {
    EmissiveMaterial(m)
  }

  function MetalToMaterial(m: Metal): (r: Material)
    ensures r.MetalMaterial? && r.metal == m
  {
    MetalMaterial(m)
  }

  function BackgroundToMaterial(m: Background): (r: Material)
    ensures r.BackgroundMaterial? && r.background == m
  {
    BackgroundMaterial(m)
  }

  //######################################################################
  // What each scatter leaves behind
  //######################################################################

  /** A diffuse bounce: the path goes on from the hit point towards
      `norm(normal + rnd)`, scaled by the albedo, with no light added. */
  predicate LambertianOutcome(m: Lambertian, hit: HitInfo, rnd: Vec4, norm: Vec4 -> Vec4,
                              cont: bool, next: Ray, written: MaterialInfo)
  {
    cont && next == Ray(hit.point, norm(Add(hit.normal, rnd))) &&
    written == MaterialInfo(m.albedo, Zero())
  }

  /** A light: the path ends, the ray is untouched, the light is added unscaled. */
  predicate EmissiveOutcome(m: Emissive, r: Ray, cont: bool, next: Ray, written: MaterialInfo)
  {
    !cont && next == r && written == MaterialInfo(One(), m.emissive)
  }

  /** The direction a metal bounce leaves in, before normalising: the mirror
      image of the incoming direction, perturbed by `roughness * rnd` only
      when the roughness is positive. */
  function MetalTarget(m: Metal, d: Vec4, n: Vec4, rnd: Vec4): (t: Vec4)
    ensures m.roughness <= 0.0 ==> t == Reflect(d, n)
    ensures m.roughness > 0.0 ==> Sub(t, Reflect(d, n)) == Scale(rnd, m.roughness)
  {
    var target := Reflect(d, n);
    if m.roughness > 0.0 then Add(target, Scale(rnd, m.roughness)) else target
  }

  /** A mirror bounce: the path leaves the hit point along the normalised
      target, scaled by the albedo, with no light added; it goes on only if
      the new direction points to the normal's side. */
  predicate MetalOutcome(m: Metal, r: Ray, hit: HitInfo, rnd: Vec4, norm: Vec4 -> Vec4,
                         cont: bool, next: Ray, written: MaterialInfo)
  {
    next == Ray(hit.point, norm(MetalTarget(m, r.direction, hit.normal, rnd))) &&
    written == MaterialInfo(m.albedo, Zero()) &&
    (cont <==> Dot(next.direction, hit.normal) > 0.0)
  }

  /** The sky gradient at parameter `t`: `(splat(1 - t) + t * color) * strength`. */
  function Blend(color: Vec4, strength: real, t: real): Vec4
  {
    Scale(Add(Splat(1.0 - t), Scale(color, t)), strength)
  }

  /** The sky colour for a ray direction, as written: with
      `t = norm(d).y + 1`, the blend `(splat(1 - t) + t * color) * strength`. */
  function BackgroundEmission(m: Background, d: Vec4, norm: Vec4 -> Vec4): (e: Vec4)
    ensures norm(d).y == -1.0 ==> e == Splat(m.strength)
    ensures norm(d).y == 0.0 ==> e == Scale(m.color, m.strength)
  {
    Blend(m.color, m.strength, norm(d).y + 1.0)
  }

  /** The sky colour with the gradient parameter remapped into `[0, 1]`:
      `t = 0.5 * (norm(d).y + 1)`, the blend of src/main.rs:29. Straight down
      gives white light, straight up the full sky colour. */
  function BackgroundEmissionIntended(m: Background, d: Vec4, norm: Vec4 -> Vec4): (e: Vec4)
    ensures norm(d).y == -1.0 ==> e == Splat(m.strength)
    ensures norm(d).y == 1.0 ==> e == Scale(m.color, m.strength)
  {
    Blend(m.color, m.strength, 0.5 * (norm(d).y + 1.0))
  }

  /** The sky: the path ends, the ray is untouched, the gradient is added unscaled. */
  predicate BackgroundOutcome(m: Background, r: Ray, norm: Vec4 -> Vec4,
                              cont: bool, next: Ray, written: MaterialInfo)
  {
    !cont && next == r && written == MaterialInfo(One(), BackgroundEmission(m, r.direction, norm))
  }

  /** The outcome of scattering off `m`: the outcome of its variant. */
  predicate Outcome(m: Material, r: Ray, hit: HitInfo, rnd: Vec4, norm: Vec4 -> Vec4,
                    cont: bool, next: Ray, written: MaterialInfo)
  {
    match m
    case LambertianMaterial(l) => LambertianOutcome(l, hit, rnd, norm, cont, next, written)
    case EmissiveMaterial(e) => EmissiveOutcome(e, r, cont, next, written)
    case MetalMaterial(mt) => MetalOutcome(mt, r, hit, rnd, norm, cont, next, written)
    case BackgroundMaterial(b) => BackgroundOutcome(b, r, norm, cont, next, written)
  }

  //######################################################################
  // The scatter methods
  //######################################################################

  /** `Scatter for Lambertian`. */
  method LambertianScatter(m: Lambertian, r: Ray, hit: HitInfo, outMat: MaterialInfo,
                           rnd: Vec4, norm: Vec4 -> Vec4)
    returns (cont: bool, next: Ray, written: MaterialInfo)
    ensures LambertianOutcome(m, hit, rnd, norm, cont, next, written)
  {
    var target := Add(Add(hit.point, hit.normal), rnd);
    assert Sub(target, hit.point) == Add(hit.normal, rnd);
    next := Ray(hit.point, norm(Sub(target, hit.point)));
    written := outMat.(attenuation := m.albedo);
    written := written.(emission := Zero());
    cont := true;
  }

  /** `Scatter for Emissive`. */
  method EmissiveScatter(m: Emissive, r: Ray, hit: HitInfo, outMat: MaterialInfo)
    returns (cont: bool, next: Ray, written: MaterialInfo)
    ensures EmissiveOutcome(m, r, cont, next, written)
  {
    next := r;
    written := outMat.(attenuation := One());
    written := written.(emission := m.emissive);
    cont := false;
  }

  /** `Scatter for Metal`. */
  method MetalScatter(m: Metal, r: Ray, hit: HitInfo, outMat: MaterialInfo,
                      rnd: Vec4, norm: Vec4 -> Vec4)
    returns (cont: bool, next: Ray, written: MaterialInfo)
    ensures MetalOutcome(m, r, hit, rnd, norm, cont, next, written)
  {
    var target := Reflect(r.direction, hit.normal);
    if m.roughness > 0.0 {
      target := Add(target, Scale(rnd, m.roughness));
    }
    next := Ray(hit.point, norm(target));
    written := outMat.(attenuation := m.albedo);
    written := written.(emission := Zero());
    cont := Dot(next.direction, hit.normal) > 0.0;
  }

  /** `Scatter for Background`. */
  method BackgroundScatter(m: Background, r: Ray, hit: HitInfo, outMat: MaterialInfo,
                           norm: Vec4 -> Vec4)
    returns (cont: bool, next: Ray, written: MaterialInfo)
    ensures BackgroundOutcome(m, r, norm, cont, next, written)
  {
    var t := norm(r.direction).y + 1.0;
    written := outMat.(emission := Scale(Add(Splat(1.0 - t), Scale(m.color, t)), m.strength));
    written := written.(attenuation := One());
    next := r;
    cont := false;
  }

  /** `Scatter for Material`: exactly the wrapped variant's scatter. Only
      diffuse and metal surfaces can continue a path, only lights and the sky
      add light, and those two leave the ray as it was. */
  method Scatter(m: Material, r: Ray, hit: HitInfo, outMat: MaterialInfo,
                 rnd: Vec4, norm: Vec4 -> Vec4)
    returns (cont: bool, next: Ray, written: MaterialInfo)
    ensures Outcome(m, r, hit, rnd, norm, cont, next, written)
    ensures cont ==> m.LambertianMaterial? || m.MetalMaterial?
    ensures m.EmissiveMaterial? || m.BackgroundMaterial? ==> next == r && written.attenuation == One()
    ensures written.emission != Zero() ==> m.EmissiveMaterial? || m.BackgroundMaterial?
  {
    match m
    case LambertianMaterial(l) =>
      cont, next, written := LambertianScatter(l, r, hit, outMat, rnd, norm);
    case EmissiveMaterial(e) =>
      cont, next, written := EmissiveScatter(e, r, hit, outMat);
    case MetalMaterial(mt) =>
      cont, next, written := MetalScatter(mt, r, hit, outMat, rnd, norm);
    case BackgroundMaterial(b) =>
      cont, next, written := BackgroundScatter(b, r, hit, outMat, norm);
  }

  //######################################################################
  // Properties
  //######################################################################

  /** A smooth metal (roughness <= 0) with a unit normal, whose `norm` keeps
      the mirror direction's orientation (it scales it by some `k > 0`),
      continues the path exactly when the ray came in against the normal. */
  lemma SmoothMetalContinuesIffIncoming(m: Metal, d: Vec4, n: Vec4, rnd: Vec4,
                                        norm: Vec4 -> Vec4, k: real)
    requires m.roughness <= 0.0 && Dot(n, n) == 1.0
    requires k > 0.0 && norm(Reflect(d, n)) == Scale(Reflect(d, n), k)
    ensures Dot(norm(MetalTarget(m, d, n, rnd)), n) > 0.0 <==> Dot(d, n) < 0.0
  {
    ReflectMirrors(d, n);
    var e := Reflect(d, n);
    assert Dot(Scale(e, k), n) == k * Dot(e, n);
    SignOfProduct(k, Dot(e, n));
  }

  /** With `k > 0`, `k * x` has the sign of `x`. */
  lemma SignOfProduct(k: real, x: real)
    requires k > 0.0
    ensures k * x > 0.0 <==> x > 0.0
  {
    if x > 0.0 {
      PositiveProduct(k, x);
    } else if x < 0.0 {
      PositiveProduct(k, -x);
    }
  }

  /** For directions that do not point up (`-1 <= norm(d).y <= 0`), a sky
      colour and a strength in range give a light in `[0, strength]` in
      every lane. */
  lemma BackgroundBoundedBelowHorizon(m: Background, d: Vec4, norm: Vec4 -> Vec4)
    requires -1.0 <= norm(d).y <= 0.0 && 0.0 <= m.strength
    requires forall i :: 0 <= i < 4 ==> 0.0 <= Lane(m.color, i) <= 1.0
    ensures forall i :: 0 <= i < 4 ==> 0.0 <= Lane(BackgroundEmission(m, d, norm), i) <= m.strength
  {
    BlendInRange(m.color, m.strength, norm(d).y + 1.0);
  }

  /** With the remapped gradient, every direction (`-1 <= norm(d).y <= 1`),
      a sky colour and a strength in range give a light in `[0, strength]`
      in every lane. */
  lemma BackgroundIntendedBounded(m: Background, d: Vec4, norm: Vec4 -> Vec4)
    requires -1.0 <= norm(d).y <= 1.0 && 0.0 <= m.strength
    requires forall i :: 0 <= i < 4 ==> 0.0 <= Lane(m.color, i) <= 1.0
    ensures forall i :: 0 <= i < 4 ==>
      0.0 <= Lane(BackgroundEmissionIntended(m, d, norm), i) <= m.strength
  {
    BlendInRange(m.color, m.strength, 0.5 * (norm(d).y + 1.0));
  }

  /** For `t` in `[0, 1]`, a colour in `[0, 1]` and `s >= 0`, the gradient
      stays in `[0, s]` in every lane. */
  lemma BlendInRange(color: Vec4, s: real, t: real)
    requires 0.0 <= t <= 1.0 && 0.0 <= s
    requires forall i :: 0 <= i < 4 ==> 0.0 <= Lane(color, i) <= 1.0
    ensures forall i :: 0 <= i < 4 ==> 0.0 <= Lane(Blend(color, s, t), i) <= s
  {
    var e := Blend(color, s, t);
    forall i | 0 <= i < 4
      ensures 0.0 <= Lane(e, i) <= s
    {
      var c := Lane(color, i);
      assert Lane(e, i) == ((1.0 - t) + t * c) * s;
      BlendBounded(t, c, s);
    }
  }

  /** `0 <= ((1 - t) + t c) s <= s` for `t, c` in `[0, 1]` and `s >= 0`. */
  lemma BlendBounded(t: real, c: real, s: real)
    requires 0.0 <= t <= 1.0 && 0.0 <= c <= 1.0 && 0.0 <= s
    ensures 0.0 <= ((1.0 - t) + t * c) * s <= s
  {
    var x := (1.0 - t) + t * c;
    if t > 0.0 && c > 0.0 {
      PositiveProduct(t, c);
    }
    if t > 0.0 && c < 1.0 {
      PositiveProduct(t, 1.0 - c);
    }
    assert 0.0 <= x <= 1.0;
    if s > 0.0 && x > 0.0 {
      PositiveProduct(x, s);
    }
    if s > 0.0 && x < 1.0 {
      PositiveProduct(1.0 - x, s);
    }
  }

  /** For a ray straight up, `t = 2` and the gradient leaves `[0, 1]`: a dim
      sky colour gives a negative light. */
  lemma BackgroundNegativeStraightUp()
    ensures BackgroundEmission(Background(From3(0.2, 0.4, 0.6), 1.0), From3(0.0, 1.0, 0.0),
                               v => From3(0.0, 1.0, 0.0)).x < 0.0
  {
  }
}
