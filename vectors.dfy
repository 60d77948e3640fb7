/** Four-lane vectors (src/strahl/vec.rs).
    Each f32 lane is a real here, so every fact below is exact: nothing is
    said about rounding, NaN or infinity. */
module Vectors {

  /** `Vec4 { v: f32x4 }`: lanes x, y, z, w (also read as r, g, b, a). */
  datatype Vec4 = Vec4(x: real, y: real, z: real, w: real)

  /** Lane `i` of `v`, as `f32x4::extract(i)`. */
  function Lane(v: Vec4, i: nat): real
    requires i < 4
  {
    if i == 0 then v.x else if i == 1 then v.y else if i == 2 then v.z else v.w
  }

  /** `a` is below `b` in every lane. */
  predicate LaneLeq(a: Vec4, b: Vec4)
  {
    a.x <= b.x && a.y <= b.y && a.z <= b.z && a.w <= b.w
  }

  //######################################################################
  // Construction
  //######################################################################

  /** `From<f32>`: every lane holds `s` (`zero()` and `one()` are splats). */
  function Splat(s: real): (r: Vec4)
    ensures forall i :: 0 <= i < 4 ==> Lane(r, i) == s
  {
    Vec4(s, s, s, s)
  }

  /** `zero()`: the neutral vector of addition. */
  function Zero(): Vec4
  {
    Vec4(0.0, 0.0, 0.0, 0.0)
  }

  /** `one()`: the neutral vector of the lane-wise product. */
  function One(): Vec4
  {
    Vec4(1.0, 1.0, 1.0, 1.0)
  }

  /** `from3`: a direction or colour with the w lane cleared. */
  function From3(x: real, y: real, z: real): (r: Vec4)
    ensures Lane(r, 0) == x && Lane(r, 1) == y && Lane(r, 2) == z && Lane(r, 3) == 0.0
  {
    Vec4(x, y, z, 0.0)
  }

  /** `From<[f32; 3]>`: the three array entries and a zero w lane. */
  function FromArray3(a: seq<real>): (r: Vec4)
    requires |a| == 3
    ensures forall i :: 0 <= i < 3 ==> Lane(r, i) == a[i]
    ensures r.w == 0.0 && r == From3(a[0], a[1], a[2])
  {
    Vec4(a[0], a[1], a[2], 0.0)
  }

  /** `f32x4::replace(3, s)`; also what `Vec4::set(s, 3)` is taken to do. */
  function SetW(v: Vec4, s: real): (r: Vec4)
    ensures forall i :: 0 <= i < 3 ==> Lane(r, i) == Lane(v, i)
    ensures Lane(r, 3) == s
  {
    v.(w := s)
  }

  //######################################################################
  // Lane-wise arithmetic
  //######################################################################

  /** `Add<Vec4>`: lane-wise sum. */
  function Add(a: Vec4, b: Vec4): Vec4
  {
    Vec4(a.x + b.x, a.y + b.y, a.z + b.z, a.w + b.w)
  }

  /** `Sub<Vec4>`: lane-wise difference. */
  function Sub(a: Vec4, b: Vec4): Vec4
  {
    Vec4(a.x - b.x, a.y - b.y, a.z - b.z, a.w - b.w)
  }

  /** `Mul<Vec4> for Vec4`: lane-wise product. */
  function Mul(a: Vec4, b: Vec4): Vec4
  {
    Vec4(a.x * b.x, a.y * b.y, a.z * b.z, a.w * b.w)
  }

  /** `Mul<f32> for Vec4` and `Mul<Vec4> for f32`: both compute `v * s` lane-wise. */
  function Scale(v: Vec4, s: real): Vec4
  {
    Vec4(v.x * s, v.y * s, v.z * s, v.w * s)
  }

  /** `Div<f32> for Vec4`: lane-wise division by a scalar. */
  function DivScalar(v: Vec4, s: real): (r: Vec4)
    requires s != 0.0
    ensures Scale(r, s) == v
  {
    Vec4(v.x / s, v.y / s, v.z / s, v.w / s)
  }

  /** The reciprocal of a non-zero scalar. */
  function Recip(s: real): (r: real)
    requires s != 0.0
    ensures s * r == 1.0
  {
    1.0 / s
  }

  /** Dividing by `s` is scaling by its reciprocal. */
  lemma DivScalarIsScale(v: Vec4, s: real)
    requires s != 0.0
    ensures DivScalar(v, s) == Scale(v, Recip(s))
  {
  }

  /** `Neg`: lane-wise negation. */
  function Neg(v: Vec4): Vec4
  {
    Vec4(-v.x, -v.y, -v.z, -v.w)
  }

  /** `zero()` is the neutral vector of addition, on either side. */
  lemma ZeroIsNeutral(v: Vec4)
    ensures Add(v, Zero()) == v && Add(Zero(), v) == v
  {
  }

  /** `one()` is the neutral vector of the lane-wise product, on either side. */
  lemma OneIsNeutral(v: Vec4)
    ensures Mul(One(), v) == v && Mul(v, One()) == v
  {
  }

  /** Subtraction undoes addition and addition undoes subtraction. */
  lemma SubUndoesAdd(a: Vec4, b: Vec4)
    ensures Sub(Add(a, b), b) == a
    ensures Add(Sub(a, b), b) == a
  {
  }

  /** Addition does not depend on operand order. */
  lemma AddCommutes(a: Vec4, b: Vec4)
    ensures Add(a, b) == Add(b, a)
  {
  }

  /** The lane-wise product does not depend on operand order. */
  lemma MulCommutes(a: Vec4, b: Vec4)
    ensures Mul(a, b) == Mul(b, a)
  {
  }

  /** `Neg` gives the additive inverse, and subtracting is adding the negation. */
  lemma NegIsInverse(a: Vec4, v: Vec4)
    ensures Add(v, Neg(v)) == Zero()
    ensures Sub(a, v) == Add(a, Neg(v))
  {
  }

  /** Both scalar products are the lane-wise product with the splatted scalar,
      and scaling distributes over addition. */
  lemma ScaleIsMulSplat(a: Vec4, b: Vec4, s: real)
    ensures Scale(a, s) == Mul(a, Splat(s))
    ensures Scale(Add(a, b), s) == Add(Scale(a, s), Scale(b, s))
  {
  }

  //######################################################################
  // Products
  //######################################################################

  /** `f32x4::sum`: the sum of the four lanes. */
  function LaneSum(v: Vec4): real
  {
    v.x + v.y + v.z + v.w
  }

  /** `dot`: the lanes of the lane-wise product, summed; all four lanes count. */
  function Dot(a: Vec4, b: Vec4): real
  {
    a.x * b.x + a.y * b.y + a.z * b.z + a.w * b.w
  }

  /** `dot` is `(self.v * o.v).sum()`: the lane-wise product, summed over all four lanes. */
  lemma DotIsLaneSum(a: Vec4, b: Vec4)
    ensures Dot(a, b) == LaneSum(Mul(a, b))
  {
  }

  /** `dot3`: the product with `o`'s w lane replaced by zero, so neither w lane counts. */
  function Dot3(a: Vec4, b: Vec4): (r: real)
    ensures r == a.x * b.x + a.y * b.y + a.z * b.z
    ensures r == Dot(a, b) - a.w * b.w
  {
    Dot(a, SetW(b, 0.0))
  }

  lemma Dot3IgnoresW(a: Vec4, b: Vec4, s: real, t: real)
    ensures Dot3(SetW(a, s), SetW(b, t)) == Dot3(a, b)
  {
  }

  /** `square_length`: `dot(self, self)`; never negative, and zero exactly
      for the zero vector. */
  function SquareLength(v: Vec4): (r: real)
    ensures r >= 0.0
    ensures r == 0.0 <==> v == Zero()
  {
    Square(v.x);
    Square(v.y);
    Square(v.z);
    Square(v.w);
    assert v == Zero() <==> v.x == 0.0 && v.y == 0.0 && v.z == 0.0 && v.w == 0.0;
    assert Dot(v, v) == v.x * Id(v.x) + v.y * Id(v.y) + v.z * Id(v.z) + v.w * Id(v.w);
    Dot(v, v)
  }

  /** The identity: a second name for `s`, so that `s * Id(s)` stands for
      the square of `s` in the facts below. */
  function Id(s: real): real
  {
    s
  }

  /** A square is never negative, and positive unless `s` is zero. */
  lemma Square(s: real)
    ensures s * s == s * Id(s)
    ensures s * Id(s) >= 0.0
    ensures s != 0.0 ==> s * Id(s) > 0.0
  {
    if s > 0.0 {
      PositiveProduct(s, Id(s));
    } else if s < 0.0 {
      PositiveProduct(-s, -Id(s));
      assert (-s) * (-Id(s)) == s * Id(s);
    }
  }

  lemma PositiveProduct(a: real, b: real)
    requires a > 0.0 && b > 0.0
    ensures a * b > 0.0
  {
  }

  /** `swizzle(i0, i1, i2, i3)`: lane k of the result is lane `ik` of `v`. */
  function Swizzle(v: Vec4, i0: nat, i1: nat, i2: nat, i3: nat): (r: Vec4)
    requires i0 < 4 && i1 < 4 && i2 < 4 && i3 < 4
    ensures Lane(r, 0) == Lane(v, i0) && Lane(r, 1) == Lane(v, i1)
    ensures Lane(r, 2) == Lane(v, i2) && Lane(r, 3) == Lane(v, i3)
  {
    Vec4(Lane(v, i0), Lane(v, i1), Lane(v, i2), Lane(v, i3))
  }

  lemma SwizzleIdentity(v: Vec4)
    ensures Swizzle(v, 0, 1, 2, 3) == v
  {
  }

  /** `cross3_validate`: the textbook cross product of the xyz parts, w = 0. */
  function Cross3Validate(a: Vec4, b: Vec4): (r: Vec4)
    ensures Dot3(a, r) == 0.0 && Dot3(b, r) == 0.0
  {
    Vec4(a.y * b.z - a.z * b.y, a.z * b.x - a.x * b.z, a.x * b.y - a.y * b.x, 0.0)
  }

  /** `cross3`: the shuffle formulation, `yzx(a * b.yzx - a.yzx * b)`.
      It agrees with `cross3_validate` in every lane, including a zero w. */
  function Cross3(a: Vec4, b: Vec4): (r: Vec4)
    ensures r == Cross3Validate(a, b)
    ensures r.w == 0.0
  {
    var aYzx := Swizzle(a, 1, 2, 0, 3);
    var bYzx := Swizzle(b, 1, 2, 0, 3);
    Swizzle(Sub(Mul(a, bYzx), Mul(aYzx, b)), 1, 2, 0, 3)
  }

  lemma CrossSelfIsZero(a: Vec4)
    ensures Cross3Validate(a, a) == Zero()
  {
  }

  lemma CrossAntiCommutes(a: Vec4, b: Vec4)
    ensures Cross3Validate(a, b) == Neg(Cross3Validate(b, a))
  {
  }

  /** `reflect`: `d - 2 (d . n) n`, with the four-lane dot product. */
  function Reflect(d: Vec4, n: Vec4): Vec4
  {
    Sub(d, Scale(n, 2.0 * Dot(d, n)))
  }

  /** About a unit normal, reflection mirrors the normal component. */
  lemma ReflectMirrors(d: Vec4, n: Vec4)
    requires Dot(n, n) == 1.0
    ensures Dot(Reflect(d, n), n) == -Dot(d, n)
  {
    var k := 2.0 * Dot(d, n);
    calc {
      Dot(Reflect(d, n), n);
      Dot(d, n) - k * Dot(n, n);
      -Dot(d, n);
    }
  }

  /** About a unit normal, reflecting twice gives back the incoming direction. */
  lemma ReflectInvolution(d: Vec4, n: Vec4)
    requires Dot(n, n) == 1.0
    ensures Reflect(Reflect(d, n), n) == d
  {
    var e, k := Reflect(d, n), 2.0 * Dot(d, n);
    ReflectMirrors(d, n);
    assert Scale(n, 2.0 * Dot(e, n)) == Scale(n, -k);
    CancelScaled(d, n, k);
  }

  /** Subtracting `n * k` and then `n * -k` gives back `d`. */
  lemma CancelScaled(d: Vec4, n: Vec4, k: real)
    ensures Sub(Sub(d, Scale(n, k)), Scale(n, -k)) == d
  {
  }

  //######################################################################
  // Selections
  //######################################################################

  /** `min`: `lt(o).select(self, o)`, the lane-wise minimum. */
  function Min(a: Vec4, b: Vec4): (r: Vec4)
    ensures LaneLeq(r, a) && LaneLeq(r, b)
    ensures forall i :: 0 <= i < 4 ==> Lane(r, i) == Lane(a, i) || Lane(r, i) == Lane(b, i)
  {
    Vec4(if a.x < b.x then a.x else b.x,
         if a.y < b.y then a.y else b.y,
         if a.z < b.z then a.z else b.z,
         if a.w < b.w then a.w else b.w)
  }

  /** `max`: `gt(o).select(self, o)`, the lane-wise maximum. */
  function Max(a: Vec4, b: Vec4): (r: Vec4)
    ensures LaneLeq(a, r) && LaneLeq(b, r)
    ensures forall i :: 0 <= i < 4 ==> Lane(r, i) == Lane(a, i) || Lane(r, i) == Lane(b, i)
  {
    Vec4(if a.x > b.x then a.x else b.x,
         if a.y > b.y then a.y else b.y,
         if a.z > b.z then a.z else b.z,
         if a.w > b.w then a.w else b.w)
  }

  /** `clamp`: `max(lo).min(hi)`. With `lo <= hi` the result lies in
      `[lo, hi]`, and a vector already inside is returned unchanged. */
  function Clamp(v: Vec4, lo: Vec4, hi: Vec4): (r: Vec4)
    ensures LaneLeq(lo, hi) ==> LaneLeq(lo, r) && LaneLeq(r, hi)
    ensures LaneLeq(lo, v) && LaneLeq(v, hi) ==> r == v
  {
    Min(Max(v, lo), hi)
  }

  /** `clamp_scalar`: `clamp` against two splats. */
  function ClampScalar(v: Vec4, lo: real, hi: real): (r: Vec4)
    ensures lo <= hi ==> forall i :: 0 <= i < 4 ==> lo <= Lane(r, i) <= hi
    ensures r == Clamp(v, Splat(lo), Splat(hi))
  {
    Min(Max(v, Splat(lo)), Splat(hi))
  }

  /** One lane of `sign`: zero is tested first, then negative, else positive. */
  function SignOf(s: real): real
  {
    if s == 0.0 then 0.0 else if s < 0.0 then -1.0 else 1.0
  }

  /** `sign`: per lane, -1 for negative, 0 for zero, +1 for positive. */
  function Sign(v: Vec4): (r: Vec4)
    ensures forall i :: 0 <= i < 4 ==>
      (Lane(v, i) < 0.0 ==> Lane(r, i) == -1.0) &&
      (Lane(v, i) == 0.0 ==> Lane(r, i) == 0.0) &&
      (Lane(v, i) > 0.0 ==> Lane(r, i) == 1.0)
  {
    Vec4(SignOf(v.x), SignOf(v.y), SignOf(v.z), SignOf(v.w))
  }

  /** Multiplying by the sign gives the lane-wise absolute value. */
  lemma SignTimesValueIsAbs(v: Vec4)
    ensures forall i :: 0 <= i < 4 ==> Lane(Mul(Sign(v), v), i) >= 0.0
    ensures forall i :: 0 <= i < 4 ==>
      Lane(Mul(Sign(v), v), i) == Lane(v, i) || Lane(Mul(Sign(v), v), i) == -Lane(v, i)
  {
    var m := Mul(Sign(v), v);
    forall i | 0 <= i < 4
      ensures Lane(m, i) >= 0.0
      ensures Lane(m, i) == Lane(v, i) || Lane(m, i) == -Lane(v, i)
    {
      assert Lane(m, i) == Lane(Sign(v), i) * Lane(v, i);
    }
  }

  /** No lane is zero, so lane-wise reciprocals exist. */
  predicate NoZeroLane(v: Vec4)
  {
    v.x != 0.0 && v.y != 0.0 && v.z != 0.0 && v.w != 0.0
  }

  /** `Div<Vec4> for f32` as written: `1.0 / o`, whatever the numerator. */
  function ScalarDiv(s: real, v: Vec4): (r: Vec4)
    requires NoZeroLane(v)
    ensures forall i :: 0 <= i < 4 ==> Lane(r, i) * Lane(v, i) == 1.0
  {
    Vec4(1.0 / v.x, 1.0 / v.y, 1.0 / v.z, 1.0 / v.w)
  }

  /** As written, the numerator is ignored: `2 / one()` is `one()`, not `splat(2)`. */
  lemma ScalarDivIgnoresNumerator(s: real, t: real, v: Vec4)
    requires NoZeroLane(v)
    ensures ScalarDiv(s, v) == ScalarDiv(t, v)
    ensures ScalarDiv(2.0, One()) != Splat(2.0)
  {
  }

  /** The evidently intended `s / o`: lane-wise division of the scalar. */
  function ScalarDivIntended(s: real, v: Vec4): (r: Vec4)
    requires NoZeroLane(v)
    ensures forall i :: 0 <= i < 4 ==> Lane(r, i) * Lane(v, i) == s
    ensures s == 1.0 ==> r == ScalarDiv(s, v)
  {
    Vec4(s / v.x, s / v.y, s / v.z, s / v.w)
  }

  /** `PartialEq`: all four lanes equal; on reals this is exactly value equality. */
  function Equal(a: Vec4, b: Vec4): (r: bool)
    ensures r <==> a == b
  {
    a.x == b.x && a.y == b.y && a.z == b.z && a.w == b.w
  }
}
