/** Quaternions (src/strahl/quaternion.rs): x, y, z hold the vector part and
    w the scalar part of one `Vec4`. */
module Quaternions {
  import opened Vectors

  /** `Quat { q }`; the constructor is both `From<Vec4>` and `From<&Vec4>`. */
  datatype Quat = Quat(q: Vec4)

  /** The quaternion 1: no vector part, scalar part one. */
  function Unit(): Quat
  {
    Quat(Vec4(0.0, 0.0, 0.0, 1.0))
  }

  /** The Hamilton product written out component by component: the
      reference the shuffled formula is checked against. */
  function Hamilton(a: Vec4, b: Vec4): Vec4
  {
    Vec4(HamiltonX(a, b), HamiltonY(a, b), HamiltonZ(a, b), HamiltonW(a, b))
  }

  function HamiltonX(a: Vec4, b: Vec4): real { a.w * b.x + a.x * b.w + a.y * b.z - a.z * b.y }
  function HamiltonY(a: Vec4, b: Vec4): real { a.w * b.y + a.y * b.w + a.z * b.x - a.x * b.z }
  function HamiltonZ(a: Vec4, b: Vec4): real { a.w * b.z + a.x * b.y + a.z * b.w - a.y * b.x }
  function HamiltonW(a: Vec4, b: Vec4): real { a.w * b.w - a.x * b.x - a.y * b.y - a.z * b.z }

  /** `conjugate`: the lane-wise product with `(-1, -1, -1, 1)`, which negates
      the vector part and keeps the scalar part. */
  function Conjugate(p: Quat): (r: Quat)
    ensures r.q == Vec4(-p.q.x, -p.q.y, -p.q.z, p.q.w)
  {
    Quat(Mul(p.q, Vec4(-1.0, -1.0, -1.0, 1.0)))
  }

  lemma ConjugateInvolution(p: Quat)
    ensures Conjugate(Conjugate(p)) == p
  {
  }

  /** `multiply`, and through it all four `Mul` impls: with `w1`, `w2` the
      scalar parts, the vector part is `o * w1 + self * w2 + cross3(self, o)`
      and the scalar part, put in with `set(_, 3)`, is
      `w1 * w2 - dot3(self, o)`. This is the Hamilton product. */
  function Multiply(p: Quat, o: Quat): (r: Quat)
    ensures r.q.w == p.q.w * o.q.w - Dot3(p.q, o.q)
    ensures r.q == Hamilton(p.q, o.q)
  {
    var w1 := p.q.w;
    var w2 := o.q.w;
    var c := Cross3(p.q, o.q);
    var v := Add(Add(Scale(o.q, w1), Scale(p.q, w2)), c);
    assert c == Cross3Validate(p.q, o.q);
    assert v.x == HamiltonX(p.q, o.q) && v.y == HamiltonY(p.q, o.q) && v.z == HamiltonZ(p.q, o.q);
    Quat(SetW(v, w1 * w2 - Dot3(p.q, o.q)))
  }

  lemma RightUnit(p: Quat)
    ensures Multiply(p, Unit()) == p
  {
  }

  lemma LeftUnit(p: Quat)
    ensures Multiply(Unit(), p) == p
  {
  }

  /** Conjugation reverses products. */
  lemma ConjugateOfProduct(p: Quat, o: Quat)
    ensures Conjugate(Multiply(p, o)) == Multiply(Conjugate(o), Conjugate(p))
  {
  }

  /** A quaternion times its conjugate is its four-lane squared length, as a scalar. */
  lemma ProductWithConjugate(p: Quat)
    ensures Multiply(p, Conjugate(p)) == Quat(Vec4(0.0, 0.0, 0.0, SquareLength(p.q)))
    ensures Multiply(Conjugate(p), p) == Quat(Vec4(0.0, 0.0, 0.0, SquareLength(p.q)))
  {
    HamiltonConjugate(p.q);
  }

  lemma HamiltonConjugate(a: Vec4)
    ensures var c := Vec4(-a.x, -a.y, -a.z, a.w);
      Hamilton(a, c) == Vec4(0.0, 0.0, 0.0, Dot(a, a)) &&
      Hamilton(c, a) == Vec4(0.0, 0.0, 0.0, Dot(a, a))
  {
  }

  /** The product is linear in its right factor. */
  lemma ScaleRight(p: Quat, o: Quat, k: real)
    ensures Multiply(p, Quat(Scale(o.q, k))).q == Scale(Multiply(p, o).q, k)
  {
    var o' := Quat(Scale(o.q, k));
    assert Multiply(p, o').q == Hamilton(p.q, o'.q);
    assert Multiply(p, o).q == Hamilton(p.q, o.q);
    HamiltonScaleRight(p.q, o.q, k);
  }

  lemma HamiltonScaleRight(a: Vec4, b: Vec4, k: real)
    ensures Hamilton(a, Scale(b, k)) == Scale(Hamilton(a, b), k)
  {
    ScaleRightX(a, b, k);
    ScaleRightY(a, b, k);
    ScaleRightZ(a, b, k);
    ScaleRightW(a, b, k);
  }

  // The same, one component at a time.
  lemma ScaleRightX(a: Vec4, b: Vec4, k: real) ensures Hamilton(a, Scale(b, k)).x == Hamilton(a, b).x * k {}
  lemma ScaleRightY(a: Vec4, b: Vec4, k: real) ensures Hamilton(a, Scale(b, k)).y == Hamilton(a, b).y * k {}
  lemma ScaleRightZ(a: Vec4, b: Vec4, k: real) ensures Hamilton(a, Scale(b, k)).z == Hamilton(a, b).z * k {}
  lemma ScaleRightW(a: Vec4, b: Vec4, k: real) ensures Hamilton(a, Scale(b, k)).w == Hamilton(a, b).w * k {}

  /** The product is linear in its left factor. */
  lemma ScaleLeft(p: Quat, o: Quat, k: real)
    ensures Multiply(Quat(Scale(p.q, k)), o).q == Scale(Multiply(p, o).q, k)
  {
    var p' := Quat(Scale(p.q, k));
    assert Multiply(p', o).q == Hamilton(p'.q, o.q);
    assert Multiply(p, o).q == Hamilton(p.q, o.q);
    HamiltonScaleLeft(p.q, o.q, k);
  }

  lemma HamiltonScaleLeft(a: Vec4, b: Vec4, k: real)
    ensures Hamilton(Scale(a, k), b) == Scale(Hamilton(a, b), k)
  {
    ScaleLeftX(a, b, k);
    ScaleLeftY(a, b, k);
    ScaleLeftZ(a, b, k);
    ScaleLeftW(a, b, k);
  }

  // The same, one component at a time.
  lemma ScaleLeftX(a: Vec4, b: Vec4, k: real) ensures Hamilton(Scale(a, k), b).x == Hamilton(a, b).x * k {}
  lemma ScaleLeftY(a: Vec4, b: Vec4, k: real) ensures Hamilton(Scale(a, k), b).y == Hamilton(a, b).y * k {}
  lemma ScaleLeftZ(a: Vec4, b: Vec4, k: real) ensures Hamilton(Scale(a, k), b).z == Hamilton(a, b).z * k {}
  lemma ScaleLeftW(a: Vec4, b: Vec4, k: real) ensures Hamilton(Scale(a, k), b).w == Hamilton(a, b).w * k {}

  /** `inverse`: the conjugate divided by the squared length of all four
      lanes; the zero quaternion has none. */
  function Inverse(p: Quat): Quat
    requires SquareLength(p.q) != 0.0
  {
    Quat(DivScalar(Conjugate(p).q, SquareLength(p.q)))
  }

  /** The inverse undoes multiplication from either side. */
  lemma InverseIsInverse(p: Quat)
    requires SquareLength(p.q) != 0.0
    ensures Multiply(p, Inverse(p)) == Unit()
    ensures Multiply(Inverse(p), p) == Unit()
  {
    var n := SquareLength(p.q);
    var k := Recip(n);
    DivScalarIsScale(Conjugate(p).q, n);
    assert Inverse(p).q == Scale(Conjugate(p).q, k);
    ProductWithConjugate(p);
    ScaleRight(p, Conjugate(p), k);
    ScaleLeft(Conjugate(p), p, k);
    assert n * k == 1.0;
  }

  /** `rotate`: `(self * Quat(v) * self.inverse()).q`. */
  function Rotate(p: Quat, v: Vec4): Vec4
    requires SquareLength(p.q) != 0.0
  {
    Multiply(Multiply(p, Quat(v)), Inverse(p)).q
  }

  /** Rotating by a quaternion with no vector part (the quaternion 1, or any
      non-zero multiple of it) leaves every vector as it is. */
  lemma RotateByScalar(p: Quat, v: Vec4)
    requires p.q.x == 0.0 && p.q.y == 0.0 && p.q.z == 0.0 && p.q.w != 0.0
    ensures Rotate(p, v) == v
  {
    RotateBySandwich(p, v);
    SandwichByScalar(p.q, v);
    ScaleByReciprocal(v, SquareLength(p.q));
  }

  lemma SandwichByScalar(a: Vec4, v: Vec4)
    requires a.x == 0.0 && a.y == 0.0 && a.z == 0.0
    ensures Hamilton(Hamilton(a, v), Vec4(-a.x, -a.y, -a.z, a.w)) == Scale(v, SquareLength(a))
  {
    assert SquareLength(a) == a.w * a.w;
  }

  /** Scaling by `n` and then by `1 / n` gives back the vector. */
  lemma ScaleByReciprocal(v: Vec4, n: real)
    requires n != 0.0
    ensures Scale(Scale(v, n), Recip(n)) == v
  {
  }

  /** Rotation keeps the scalar part, so a point stored with w = 0 (as
      `rotate` expects) comes back with w = 0. */
  lemma RotateKeepsScalar(p: Quat, v: Vec4)
    requires SquareLength(p.q) != 0.0
    ensures Rotate(p, v).w == v.w
  {
    RotateBySandwich(p, v);
    ScaledScalarOfSandwich(p, v);
  }

  /** Dividing the scalar part of `p v conj(p)` by `|p|^2` gives back that of `v`. */
  lemma ScaledScalarOfSandwich(p: Quat, v: Vec4)
    requires SquareLength(p.q) != 0.0
    ensures Hamilton(Hamilton(p.q, v), Conjugate(p).q).w * Recip(SquareLength(p.q)) == v.w
  {
    ScalarOfSandwich(p, v);
    Cancel(v.w, Hamilton(Hamilton(p.q, v), Conjugate(p).q).w, SquareLength(p.q), Recip(SquareLength(p.q)));
  }

  /** `w = x n` and `n k = 1` give `w k = x`. */
  lemma Cancel(x: real, w: real, n: real, k: real)
    requires w == x * n
    requires n * k == 1.0
    ensures w * k == x
  {
  }

  /** Rotating is multiplying by `p` on the left and by its conjugate on
      the right, then dividing by the squared length. */
  lemma RotateBySandwich(p: Quat, v: Vec4)
    requires SquareLength(p.q) != 0.0
    ensures Rotate(p, v) == Scale(Hamilton(Hamilton(p.q, v), Conjugate(p).q), Recip(SquareLength(p.q)))
    ensures Rotate(p, v).w == Hamilton(Hamilton(p.q, v), Conjugate(p).q).w * Recip(SquareLength(p.q))
  {
    var c := Conjugate(p);
    var pv := Multiply(p, Quat(v));
    DivScalarIsScale(c.q, SquareLength(p.q));
    assert Inverse(p) == Quat(Scale(c.q, Recip(SquareLength(p.q))));
    ScaleRight(pv, c, Recip(SquareLength(p.q)));
    assert Multiply(pv, c).q == Hamilton(Hamilton(p.q, v), c.q);
  }

  /** The scalar part of `p v conj(p)` is that of `v`, times `|p|^2`. */
  lemma ScalarOfSandwich(p: Quat, v: Vec4)
    ensures Hamilton(Hamilton(p.q, v), Conjugate(p).q).w == v.w * SquareLength(p.q)
  {
    var a := p.q;
    assert SquareLength(a) == Dot(a, a);
    assert Conjugate(p).q == Vec4(-a.x, -a.y, -a.z, a.w);
  }
}
