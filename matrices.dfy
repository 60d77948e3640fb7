/** 4x4 matrices (src/strahl/mat.rs). The source's comment calls `c[0]` the
    first column, but every product reads `c[i]` as row `i`; the model
    follows the products. */
module Matrices {
  import opened Vectors

  /** `Mat4 { c: [Vec4; 4] }`. */
  datatype Mat4 = Mat4(c0: Vec4, c1: Vec4, c2: Vec4, c3: Vec4)

  /** `c[i]`. */
  function Row(m: Mat4, i: nat): Vec4
    requires i < 4
  {
    if i == 0 then m.c0 else if i == 1 then m.c1 else if i == 2 then m.c2 else m.c3
  }

  /** Lane `j` of `c[i]`. */
  function Entry(m: Mat4, i: nat, j: nat): real
    requires i < 4 && j < 4
  {
    Lane(Row(m, i), j)
  }

  /** `Mat4::new`: ones on the diagonal, zeros elsewhere. */
  function Identity(): (m: Mat4)
    ensures forall i, j :: 0 <= i < 4 && 0 <= j < 4 ==> Entry(m, i, j) == if i == j then 1.0 else 0.0
  {
    Mat4(Vec4(1.0, 0.0, 0.0, 0.0),
         Vec4(0.0, 1.0, 0.0, 0.0),
         Vec4(0.0, 0.0, 1.0, 0.0),
         Vec4(0.0, 0.0, 0.0, 1.0))
  }

  /** `transpose`: lane `j` of `c[i]` moves to lane `i` of `c[j]`. */
  function Transpose(m: Mat4): (t: Mat4)
    ensures forall i, j :: 0 <= i < 4 && 0 <= j < 4 ==> Entry(t, i, j) == Entry(m, j, i)
  {
    Mat4(Vec4(m.c0.x, m.c1.x, m.c2.x, m.c3.x),
         Vec4(m.c0.y, m.c1.y, m.c2.y, m.c3.y),
         Vec4(m.c0.z, m.c1.z, m.c2.z, m.c3.z),
         Vec4(m.c0.w, m.c1.w, m.c2.w, m.c3.w))
  }

  lemma TransposeInvolution(m: Mat4)
    ensures Transpose(Transpose(m)) == m
  {
  }

  lemma IdentitySymmetric()
    ensures Transpose(Identity()) == Identity()
  {
  }

  /** `Mul<Vec4> for Mat4`: lane `i` is `c[i] . o`. */
  function Apply(m: Mat4, v: Vec4): (r: Vec4)
    ensures forall i :: 0 <= i < 4 ==> Lane(r, i) == Dot(Row(m, i), v)
  {
    Vec4(Dot(m.c0, v), Dot(m.c1, v), Dot(m.c2, v), Dot(m.c3, v))
  }

  /** `mul_vec`: the product's x, y and z, with w cleared. */
  function MulVec(m: Mat4, v: Vec4): (r: Vec4)
    ensures r == SetW(Apply(m, v), 0.0)
  {
    Vec4(Dot(m.c0, v), Dot(m.c1, v), Dot(m.c2, v), 0.0)
  }

  /** `Mul<Mat4> for Mat4`: `c[i]` dotted with the rows of `o`'s transpose,
      which is the row-by-column product. */
  function MulMat(a: Mat4, b: Mat4): (r: Mat4)
    ensures forall i, j :: 0 <= i < 4 && 0 <= j < 4 ==> Entry(r, i, j) == Dot(Row(a, i), Row(Transpose(b), j))
  {
    var m := Transpose(b);
    Mat4(Vec4(Dot(a.c0, m.c0), Dot(a.c0, m.c1), Dot(a.c0, m.c2), Dot(a.c0, m.c3)),
         Vec4(Dot(a.c1, m.c0), Dot(a.c1, m.c1), Dot(a.c1, m.c2), Dot(a.c1, m.c3)),
         Vec4(Dot(a.c2, m.c0), Dot(a.c2, m.c1), Dot(a.c2, m.c2), Dot(a.c2, m.c3)),
         Vec4(Dot(a.c3, m.c0), Dot(a.c3, m.c1), Dot(a.c3, m.c2), Dot(a.c3, m.c3)))
  }

  /** Entry `(i, j)` of a product is the sum over `k` of `a[i][k] * b[k][j]`. */
  lemma MulMatEntry(a: Mat4, b: Mat4, i: nat, j: nat)
    requires i < 4 && j < 4
    ensures Entry(MulMat(a, b), i, j) == Entry(a, i, 0) * Entry(b, 0, j) + Entry(a, i, 1) * Entry(b, 1, j)
                                       + Entry(a, i, 2) * Entry(b, 2, j) + Entry(a, i, 3) * Entry(b, 3, j)
  {
    var m := Transpose(b);
    assert Row(m, j) == Vec4(Entry(b, 0, j), Entry(b, 1, j), Entry(b, 2, j), Entry(b, 3, j));
  }

  lemma IdentityApply(v: Vec4)
    ensures Apply(Identity(), v) == v
  {
  }

  lemma IdentityMulLeft(m: Mat4)
    ensures MulMat(Identity(), m) == m
  {
  }

  lemma IdentityMulRight(m: Mat4)
    ensures MulMat(m, Identity()) == m
  {
  }

  /** Applying a product is applying its factors in turn, right one first. */
  lemma ApplyProduct(a: Mat4, b: Mat4, v: Vec4)
    ensures Apply(MulMat(a, b), v) == Apply(a, Apply(b, v))
  {
    RowComposition(a.c0, b, v);
    RowComposition(a.c1, b, v);
    RowComposition(a.c2, b, v);
    RowComposition(a.c3, b, v);
  }

  /** One row of the above: the row of the product, dotted with `v`. */
  lemma RowComposition(r: Vec4, b: Mat4, v: Vec4)
    ensures var m := Transpose(b);
      Dot(Vec4(Dot(r, m.c0), Dot(r, m.c1), Dot(r, m.c2), Dot(r, m.c3)), v) == Dot(r, Apply(b, v))
  {
    var m := Transpose(b);
    var u0, u1, u2, u3 := Scale(m.c0, v.x), Scale(m.c1, v.y), Scale(m.c2, v.z), Scale(m.c3, v.w);
    DotScaleRight(r, m.c0, v.x);
    DotScaleRight(r, m.c1, v.y);
    DotScaleRight(r, m.c2, v.z);
    DotScaleRight(r, m.c3, v.w);
    DotAddRight(r, u0, u1);
    DotAddRight(r, Add(u0, u1), u2);
    DotAddRight(r, Add(Add(u0, u1), u2), u3);
    ApplyByColumns(b, v);
  }

  /** `Dot(r, u) * s == Dot(r, u * s)`. */
  lemma DotScaleRight(r: Vec4, u: Vec4, s: real)
    ensures Dot(r, u) * s == Dot(r, Scale(u, s))
  {
  }

  /** `Dot(r, u) + Dot(r, w) == Dot(r, u + w)`. */
  lemma DotAddRight(r: Vec4, u: Vec4, w: Vec4)
    ensures Dot(r, u) + Dot(r, w) == Dot(r, Add(u, w))
  {
  }

  /** `b * v` is the sum of the rows of `b`'s transpose, each scaled by a lane of `v`. */
  lemma ApplyByColumns(b: Mat4, v: Vec4)
    ensures var m := Transpose(b);
      Apply(b, v) == Add(Add(Add(Scale(m.c0, v.x), Scale(m.c1, v.y)), Scale(m.c2, v.z)), Scale(m.c3, v.w))
  {
  }

  /** The transpose of a product is the product of the transposes, swapped. */
  lemma TransposeProduct(a: Mat4, b: Mat4)
    ensures Transpose(MulMat(a, b)) == MulMat(Transpose(b), Transpose(a))
  {
  }

  /** `PartialEq`: all four rows equal lane-wise; on reals, value equality. */
  function Equal(a: Mat4, b: Mat4): (r: bool)
    ensures r <==> a == b
  {
    Vectors.Equal(a.c0, b.c0) && Vectors.Equal(a.c1, b.c1) &&
    Vectors.Equal(a.c2, b.c2) && Vectors.Equal(a.c3, b.c3)
  }
}
