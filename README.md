# strahl core, modelled in Dafny

strahl is a small Monte-Carlo path tracer written in Rust. This project models
the parts of it whose behaviour can be stated exactly:

- the scene's nearest-hit search (`Scene::hit`): it walks the primitive list and
  passes the best depth found so far on as the next upper bound;
- the sphere and plane hit tests, which write an out-record only on a hit;
- the material scatter protocol: whether a path goes on, what it multiplies in
  and adds, and whether the ray is replaced;
- the supporting algebra: `Ray`, the structural `Vec4` operations, `Mat4`
  products and the quaternion product, inverse and rotation.

Modelling choices:

- Every `f32` is a `real`, so every fact proved is exact. A `Vec4` is a datatype
  of four reals (`vectors.dfy`).
- `sqrt`, `norm` and the random unit vector are parameters of the members that
  use them (`sqrt`, `norm`, `rnd`). Where a lemma needs a property of one, it
  states it as a hypothesis: an exact or non-negative root, or a `norm` that
  keeps orientation.
- `Scene` is a class whose `container` is a `seq<Primitive>`. `Add` appends to
  it, and `Hit` is a loop proved against the recursive function `Nearest`.
- The sphere, plane, scene and scatter operations write through `&mut`. They are
  methods that return the new record beside the result flag. For the hit tests,
  `res` is what `out` holds afterwards.
- The scene matches on `Primitive::SphereT`, a variant that does not exist
  (src/strahl/scene.rs:44 against src/strahl/primitives.rs:29). The model takes
  the evident intent: spheres are tested and every other primitive is skipped.
- `Vec4::set(s, 3)` is called by the quaternion code but is not defined in
  `vec.rs`. It is modelled as "replace lane 3" (`SetW`).
- The four `Mul` impls for `Quat` all call `multiply`, so they are one
  function, `Multiply`.
- `Mat4` stores its four vectors as rows, whatever the "column layout" comment
  says: `Mat4 * Vec4` takes the dot product of row `i` with the vector.
- The sphere normal is `norm((point - pos) / a)` with `a = |direction|^2`, as
  the source has it, not a division by the radius.

## Model

| member | source | states |
|---|---|---|
| Vectors.Splat | src/strahl/vec.rs:290-294 | `From<f32>` puts the scalar in every lane |
| Vectors.From3 | src/strahl/vec.rs:21-25 | keeps x, y, z and sets w to zero |
| Vectors.FromArray3 | src/strahl/vec.rs:278-282 | lanes 0-2 are the array entries, w is zero; the same vector as `from3` |
| Vectors.SetW | src/strahl/quaternion.rs:47 | `set(_, 3)` replaces lane 3 and keeps lanes 0-2 |
| Vectors.DotIsLaneSum | src/strahl/vec.rs:96-98 | `dot` is the sum of all four lanes of the lane-wise product |
| Vectors.Dot3 | src/strahl/vec.rs:100-102 | `dot3` is the sum of the x, y and z lane products, which is `dot` without the w lane's product |
| Vectors.Dot3IgnoresW | src/strahl/vec.rs:100-102 | changing either w lane does not change `dot3` |
| Vectors.SquareLength | src/strahl/vec.rs:104-106 | never negative, and zero exactly for the zero vector |
| Vectors.Swizzle | src/strahl/vec.rs:90-94 | lane k of the result is lane `i_k` of the input |
| Vectors.SwizzleIdentity | src/strahl/vec.rs:90-94 | the shuffle `0, 1, 2, 3` is the identity |
| Vectors.Cross3Validate | src/strahl/vec.rs:161-168 | the cross product is orthogonal (in `dot3`) to both factors |
| Vectors.Cross3 | src/strahl/vec.rs:145-153 | the shuffle formula equals `cross3_validate` in every lane, with w zero |
| Vectors.CrossSelfIsZero | src/strahl/vec.rs:161-168 | `cross3_validate(a, a)` is zero |
| Vectors.CrossAntiCommutes | src/strahl/vec.rs:161-168 | `cross3_validate(a, b) == -cross3_validate(b, a)` |
| Vectors.ReflectMirrors | src/strahl/vec.rs:170-173 | about a unit normal, the reflection negates the normal component |
| Vectors.ReflectInvolution | src/strahl/vec.rs:170-173 | about a unit normal, reflecting twice gives the incoming direction back |
| Vectors.Min | src/strahl/vec.rs:223-226 | each lane is one of the two inputs' lanes and below both |
| Vectors.Max | src/strahl/vec.rs:228-231 | each lane is one of the two inputs' lanes and above both |
| Vectors.Clamp | src/strahl/vec.rs:243-246 | with `lo <= hi` the result lies in `[lo, hi]`, and a vector already inside comes back unchanged |
| Vectors.ClampScalar | src/strahl/vec.rs:248-251 | `clamp` against two splats; with `lo <= hi` every lane is in `[lo, hi]` |
| Vectors.Sign | src/strahl/vec.rs:253-259 | per lane: -1 for negative, 0 for zero, +1 for positive |
| Vectors.SignTimesValueIsAbs | src/strahl/vec.rs:253-259 | `sign(v) * v` is the lane-wise absolute value |
| Vectors.ZeroIsNeutral | src/strahl/vec.rs:27-31 | adding `zero()` on either side leaves a vector unchanged |
| Vectors.OneIsNeutral | src/strahl/vec.rs:33-37 | the lane-wise product with `one()` on either side leaves a vector unchanged |
| Vectors.SubUndoesAdd | src/strahl/vec.rs:328-414 | `(a + b) - b == a` and `(a - b) + b == a` |
| Vectors.AddCommutes | src/strahl/vec.rs:328-334 | `a + b == b + a` |
| Vectors.MulCommutes | src/strahl/vec.rs:488-502 | `a * b == b * a` lane-wise |
| Vectors.NegIsInverse | src/strahl/vec.rs:650-656 | `v + (-v)` is `zero()`, and `a - v` is `a + (-v)` |
| Vectors.ScaleIsMulSplat | src/strahl/vec.rs:520-552 | `v * s` (either operand order) is the lane-wise product with `splat(s)`, and it distributes over `+` |
| Vectors.DivScalar | src/strahl/vec.rs:598-604 | for `s != 0`, `(v / s) * s == v` |
| Vectors.DivScalarIsScale | src/strahl/vec.rs:598-604 | dividing by a non-zero scalar is scaling by its reciprocal |
| Vectors.ScalarDiv | src/strahl/vec.rs:618-634 | `s / v` as written: every lane times the input lane is 1, whatever `s` is |
| Vectors.ScalarDivIgnoresNumerator | src/strahl/vec.rs:618-634 | two numerators give the same result, and `2 / one()` is not `splat(2)` |
| Vectors.ScalarDivIntended | src/strahl/vec.rs:618-634 | the intended division: every lane times the input lane is `s`; it agrees with the code when `s = 1` |
| Vectors.Equal | src/strahl/vec.rs:640-644 | `==` holds exactly when the vectors are equal |
| Rays.Invalid | src/strahl/ray.rs:17-22 | zero origin and zero direction, so every point of it is the origin |
| Rays.PointAt | src/strahl/ray.rs:24-27 | lane i is `origin_i + direction_i * dist` |
| Rays.PointAtZero | src/strahl/ray.rs:24-27 | `point_at(0)` is the origin |
| Rays.PointAtAdditive | src/strahl/ray.rs:24-27 | walking `s` and then `t` along a ray is walking `s + t` |
| Rays.PointAtOffset | src/strahl/ray.rs:24-27 | the offset from the origin is `direction * t` |
| Hits.NewHitInfo | src/strahl/hit.rs:17-20 | every field is zero |
| Primitives.SphereToPrimitive | src/strahl/primitives.rs:45-48 | wraps the sphere unchanged, with the given material tag |
| Primitives.PlaneToPrimitive | src/strahl/primitives.rs:102-105 | wraps the plane unchanged, with the given material tag |
| Primitives.Discriminant | src/strahl/primitives.rs:55-59 | a positive discriminant implies `a > 0`, so the divisions by `a` are defined |
| Primitives.SphereRoot | src/strahl/primitives.rs:61-87 | a reported depth lies in `(min, max)` and needs a strictly positive discriminant; a tangent or missing ray reports nothing |
| Primitives.SphereRecord | src/strahl/primitives.rs:70-72 | the depth, the point `point_at(depth)` and the normal `norm((point - pos) / a)` are written, and u, v and material are kept |
| Primitives.SphereHit | src/strahl/primitives.rs:53-88 | a hit exactly when `SphereRoot` reports a depth; then `out` gets that record, otherwise it is untouched; the `Hitable` contract holds |
| Primitives.RootsOrdered | src/strahl/primitives.rs:66-76 | with a non-negative root, `depth1 <= depth2` |
| Primitives.RootWindowShrink | src/strahl/primitives.rs:68-78 | lowering the upper bound keeps a reported depth below it and otherwise loses it |
| Primitives.OnSphereQuadratic | src/strahl/primitives.rs:55-59 | the squared distance to the centre minus `radius^2` along the ray is `a t^2 + 2 b t + c` |
| Primitives.CandidatesAreTheCrossings | src/strahl/primitives.rs:63-76 | with an exact root, `depth1` and `depth2` are exactly the depths where the ray is on the sphere |
| Primitives.SphereRootOnSurface | src/strahl/primitives.rs:66-84 | with an exact root, a reported point lies on the sphere |
| Primitives.SphereRootIsNearest | src/strahl/primitives.rs:61-84 | with an exact root and a non-tangent ray, any crossing in `(min, max)` is reported, at that depth or nearer |
| Primitives.MissWithoutDiscriminant | src/strahl/primitives.rs:59-61 | with a negative discriminant the ray never reaches the sphere |
| Primitives.CandidateBound | src/strahl/primitives.rs:66-84 | a candidate inside the window is reported, at that depth or nearer |
| Primitives.QuadraticRoots | src/strahl/primitives.rs:63-76 | with `q^2 = b^2 - a c` and `a > 0`, the roots of `a t^2 + 2 b t + c` are `(-b - q)/a` and `(-b + q)/a` |
| Primitives.NoRealRoot | src/strahl/primitives.rs:61 | a negative discriminant leaves the quadratic without a root |
| Primitives.PlaneRoot | src/strahl/primitives.rs:112-127 | a reported depth lies in `(min, max)` and needs `dot(normal, direction) > 0`; otherwise nothing is reported |
| Primitives.PlaneCrossing | src/strahl/primitives.rs:116 | a ray not parallel to the plane is on it exactly at depth `(pos - origin) . normal / denom` |
| Primitives.PlaneRootIsTheCrossing | src/strahl/primitives.rs:112-127 | the test reports `t` exactly when the ray runs along the normal, `t` is in the window and the ray is on the plane there |
| Primitives.PlaneRecord | src/strahl/primitives.rs:120-122 | the depth, the plane's own normal and `point_at(depth)` are written, and u, v and material are kept |
| Primitives.PlaneHit | src/strahl/primitives.rs:110-128 | a hit exactly when `PlaneRoot` reports a depth; then `out` gets that record, otherwise it is untouched; the `Hitable` contract holds |
| Scenes.Start | src/strahl/scene.rs:28-29 | the starting best record is the zero record with depth `max` |
| Scenes.Step | src/strahl/scene.rs:31-47 | a turn keeps `best`, or (for a sphere only) replaces it with a strictly nearer hit above `min`, tagged with that primitive's material |
| Scenes.Nearest | src/strahl/scene.rs:28-49 | the best depth never exceeds `max`; below `max` it is a real hit above `min`, and at `max` the record is the starting one |
| Scenes.Scene.constructor | src/strahl/scene.rs:13-16 | a new scene is empty |
| Scenes.Scene.Add | src/strahl/scene.rs:18-21 | the primitive is appended and earlier entries are unchanged |
| Scenes.Scene.Hit | src/strahl/scene.rs:26-58 | the loop computes `Nearest`; a hit exactly when its depth is in `(min, max)`, then `out` is that record, otherwise `out` is untouched; an empty scene never hits |
| Scenes.RootOf | src/strahl/scene.rs:42-45 | only a sphere reports a depth of its own, and it lies in `(min, max)` |
| Scenes.NearestIsFirstMinimum | src/strahl/scene.rs:28-49 | the reported depth is at most every sphere's own depth, and a hit was produced by the first primitive reaching it (ties keep insertion order), with its material |
| Scenes.HitIffSomeSphereHits | src/strahl/scene.rs:41-57 | the scene reports a hit exactly when some sphere, tested alone, would |
| Scenes.NonSpheresAreSkipped | src/strahl/scene.rs:42-47 | a scene without spheres returns the starting record |
| Scenes.AddingNonSphereChangesNothing | src/strahl/scene.rs:42-47 | appending a plane or a box leaves the search result as it was |
| Materials.NewMaterialInfo | src/strahl/material.rs:15-22 | the neutral record: attenuation all ones and emission all zeros |
| Materials.NewLambertian | src/strahl/material.rs:71-74 | the albedo is the colour with w = 0 |
| Materials.NewEmissive | src/strahl/material.rs:103-106 | the emitted colour with w = 0 |
| Materials.NewMetal | src/strahl/material.rs:131-134 | the albedo with w = 0 and the roughness as given |
| Materials.NewBackground | src/strahl/material.rs:168-171 | colour and strength as given |
| Materials.LambertianToMaterial | src/strahl/material.rs:76-79 | `material()` wraps the surface unchanged |
| Materials.EmissiveToMaterial | src/strahl/material.rs:108-111 | `material()` wraps the surface unchanged |
| Materials.MetalToMaterial | src/strahl/material.rs:136-139 | `material()` wraps the surface unchanged |
| Materials.BackgroundToMaterial | src/strahl/material.rs:173-176 | `material()` wraps the surface unchanged |
| Materials.MetalTarget | src/strahl/material.rs:146-151 | with roughness <= 0 the target is the pure reflection; otherwise it differs from it by `roughness * rnd` |
| Materials.BackgroundEmission | src/strahl/material.rs:183-184 | straight down the light is `splat(strength)`; for a horizontal direction it is `color * strength` |
| Materials.LambertianScatter | src/strahl/material.rs:84-94 | continues, leaves the hit point along `norm(normal + rnd)`, attenuation = albedo, emission = zero |
| Materials.EmissiveScatter | src/strahl/material.rs:116-122 | stops, the ray is untouched, attenuation = one, emission = the emitted colour |
| Materials.MetalScatter | src/strahl/material.rs:144-159 | leaves the hit point along `norm(target)`, attenuation = albedo, emission = zero; continues exactly when the new direction points to the normal's side |
| Materials.BackgroundScatter | src/strahl/material.rs:181-187 | stops, the ray is untouched, attenuation = one, emission = the sky gradient |
| Materials.Scatter | src/strahl/material.rs:196-207 | exactly the wrapped variant's outcome; only diffuse and metal continue, and only lights and the sky add light and keep the ray |
| Materials.SmoothMetalContinuesIffIncoming | src/strahl/material.rs:146-158 | a smooth metal continues exactly when the ray came in against the normal |
| Materials.BackgroundBoundedBelowHorizon | src/strahl/material.rs:183-184 | for directions not pointing up, the sky light is in `[0, strength]` per lane |
| Materials.BackgroundNegativeStraightUp | src/strahl/material.rs:183-184 | straight up, a dim sky colour gives a negative light |
| Materials.BackgroundEmissionIntended | src/main.rs:29 | with `t = 0.5 * (norm(d).y + 1)`: straight down the light is `splat(strength)`, straight up it is `color * strength` |
| Materials.BlendInRange | src/strahl/material.rs:184 | for `t` in [0, 1], a colour in [0, 1] and `strength >= 0`, every lane of the gradient is in [0, strength] |
| Materials.BackgroundIntendedBounded | src/main.rs:29 | with the remapped `t`, every direction gives a light in [0, strength] in every lane |
| Matrices.Identity | src/strahl/mat.rs:13-22 | `Mat4::new` has 1 on the diagonal and 0 elsewhere |
| Matrices.Transpose | src/strahl/mat.rs:24-34 | entry (i, j) of the transpose is entry (j, i) |
| Matrices.TransposeInvolution | src/strahl/mat.rs:24-34 | transposing twice gives the matrix back |
| Matrices.IdentitySymmetric | src/strahl/mat.rs:13-34 | the identity is its own transpose |
| Matrices.Apply | src/strahl/mat.rs:73-76 | lane i of `m * v` is the dot product of row i with `v` |
| Matrices.MulVec | src/strahl/mat.rs:36-39 | `mul_vec` is `m * v` with w set to zero |
| Matrices.MulMat | src/strahl/mat.rs:50-62 | entry (i, j) is row i of `a` dotted with column j of `b` |
| Matrices.MulMatEntry | src/strahl/mat.rs:50-62 | entry (i, j) is the sum over k of `a[i][k] * b[k][j]` |
| Matrices.IdentityApply | src/strahl/mat.rs:13-76 | `identity * v == v` |
| Matrices.IdentityMulLeft | src/strahl/mat.rs:13-62 | `identity * m == m` |
| Matrices.IdentityMulRight | src/strahl/mat.rs:13-62 | `m * identity == m` |
| Matrices.ApplyProduct | src/strahl/mat.rs:50-76 | `(a * b) * v == a * (b * v)` |
| Matrices.TransposeProduct | src/strahl/mat.rs:24-62 | the transpose of `a * b` is `transpose(b) * transpose(a)` |
| Matrices.Equal | src/strahl/mat.rs:84-86 | `==` holds exactly when all four rows are equal |
| Quaternions.Conjugate | src/strahl/quaternion.rs:21-24 | negates x, y, z and keeps w |
| Quaternions.ConjugateInvolution | src/strahl/quaternion.rs:21-24 | conjugating twice gives the quaternion back |
| Quaternions.Multiply | src/strahl/quaternion.rs:37-50 | the scalar part is `w1 w2 - dot3`, and the whole result is the Hamilton product |
| Quaternions.RightUnit | src/strahl/quaternion.rs:37-50 | multiplying by (0, 0, 0, 1) on the right gives `q` |
| Quaternions.LeftUnit | src/strahl/quaternion.rs:37-50 | multiplying by (0, 0, 0, 1) on the left gives `q` |
| Quaternions.ConjugateOfProduct | src/strahl/quaternion.rs:21-50 | the conjugate of a product is the product of the conjugates, in reverse order |
| Quaternions.ProductWithConjugate | src/strahl/quaternion.rs:21-50 | `q * conj(q)` and `conj(q) * q` are the scalar `square_length(q)` |
| Quaternions.ScaleRight | src/strahl/quaternion.rs:37-50 | the product is linear in its right factor |
| Quaternions.ScaleLeft | src/strahl/quaternion.rs:37-50 | the product is linear in its left factor |
| Quaternions.InverseIsInverse | src/strahl/quaternion.rs:26-29 | with a non-zero length, `q * inverse(q)` and `inverse(q) * q` are (0, 0, 0, 1) |
| Quaternions.RotateBySandwich | src/strahl/quaternion.rs:32-35 | `rotate(v)` is `q v conj(q)` divided by `square_length(q)` |
| Quaternions.RotateByScalar | src/strahl/quaternion.rs:32-35 | rotating by a non-zero quaternion with no vector part leaves `v` unchanged |
| Quaternions.RotateKeepsScalar | src/strahl/quaternion.rs:31-35 | rotation keeps the w lane, so a point with w = 0 comes back with w = 0 |

## Left out

- Randomness: `random_in_unit_sphere` is the parameter `rnd`. The camera's
  sampling loops, the camera itself, tone mapping, textures and `main`
  (image buffers, file output) are not part of this model.
- IEEE `f32` behaviour is not modelled: rounding, NaN, infinity, signed zero
  and the bit tricks `fast_inv_sqrt` and `abs`. Every result here is exact.
- `sqrt`, `length`, `norm`/`normalize`, `exp` and `pow` are not modelled. Where
  they are needed, `sqrt` and `norm` are parameters with no fixed behaviour.
- The `*Assign` operators and `normalize` mutate a vector in place. The model
  has only the value-returning operators they mirror.
- Division by zero is excluded, because over `f32` it yields infinity or NaN.
  This is the reason for the `requires` on `DivScalar`, `ScalarDiv`,
  `ScalarDivIntended` and `Inverse`, and on the divisions by `a` in the sphere
  test.
- Quaternions.Inverse: no contract of its own. What `inverse` is for is stated
  by `InverseIsInverse`.
- Vectors.Dot, Vectors.Reflect, Quaternions.Rotate, Primitives.NearRoot and
  Primitives.FarRoot have no contract of their own either. A contract on
  these functions would be unfolded into every nonlinear proof that uses
  them. Their meaning is stated by lemmas instead: `DotIsLaneSum` and
  `Dot3`; `ReflectMirrors` and `ReflectInvolution`; `RotateBySandwich`,
  `RotateByScalar` and `RotateKeepsScalar`; `RootsOrdered` and
  `CandidatesAreTheCrossings`.
- Hits.HitContract and the `*Outcome` predicates of Materials are
  definitions, not operations. What they require is stated by the
  `ensures` of `SphereHit`, `PlaneHit`, `Scene.Hit` and the `*Scatter`
  methods.
- `Quat::new` builds a rotation from an axis and an angle with trigonometry;
  it is not modelled.
- AABB primitives are stored but have no hit test, and the scene skips them.
- Vectors.Swizzle: requires every index to be below 4. What the dynamic
  shuffle does with a larger index depends on the SIMD library and is not
  modelled.
- Scenes.Scene.Hit: the search is through a closure that captures
  `best_info`. It is modelled as a loop over a local record.
- Materials.BackgroundScatter: follows the code, `t = norm(d).y + 1`; the
  defect this causes is listed under Findings. The corrected gradient is
  `BackgroundEmissionIntended`.
- `cross3_trimmed`, `max_elem`, `square_length3`, `extract*` and the
  `f32x4` conversions are not modelled: they are outside this core.

## Findings

| source | as written | input that shows it | evidently intended | confidence | as-written member | corrected member |
|---|---|---|---|---|---|---|
| src/strahl/vec.rs:618-634 | `f32 / Vec4` returns `1.0 / o` lane-wise and ignores the scalar | `2.0 / Vec4::one()` gives `one()` instead of `splat(2.0)` | lane-wise `s / o` | high, not executed | Vectors.ScalarDiv, Vectors.ScalarDivIgnoresNumerator | Vectors.ScalarDivIntended |
| src/strahl/material.rs:183-184 | the sky gradient uses `t = norm(d).y + 1`, which runs over [0, 2], so `1 - t` goes negative for upward rays | a straight-up ray with colour (0.2, 0.4, 0.6) and strength 1 gives x = (1 - 2) + 2 * 0.2 = -0.6, a negative light | `t = 0.5 * (norm(d).y + 1)`, in [0, 1], as src/main.rs:29 computes the same gradient | high, not executed | Materials.BackgroundEmission, Materials.BackgroundNegativeStraightUp | Materials.BackgroundEmissionIntended, Materials.BackgroundIntendedBounded |
