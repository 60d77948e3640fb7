/** The scene and its nearest-hit search (src/strahl/scene.rs). */
module Scenes {
  import opened Vectors
  import opened Rays
  import opened Hits
  import opened Wrappers
  import opened Primitives

  /** The best record before any primitive is tried: `HitInfo::new()` with
      its depth set to `max`. */
  function Start(max: real): (h: HitInfo)
    ensures h.depth == max && h.material == 0 && h.point == Zero()
  {
    NewHitInfo().(depth := max)
  }

  /** One turn of the loop over the container. A sphere is tested in the
      window `(min, best.depth)` on a fresh record; a hit replaces `best` by
      that record, tagged with the primitive's material. Every other
      primitive is skipped. */
  function Step(best: HitInfo, p: Primitive, r: Ray, min: real,
                sqrt: real -> real, norm: Vec4 -> Vec4): (h: HitInfo)
    ensures h == best || (p.SpherePrimitive? && min < h.depth < best.depth && h.material == p.mat)
    ensures h != best ==> h.point == PointAt(r, h.depth)
  {
    match p
    case SpherePrimitive(obj, mat) =>
      var t := SphereRoot(obj, r, min, best.depth, sqrt);
      if t.Some? then SphereRecord(obj, r, t.value, NewHitInfo(), norm).(material := mat) else best
    case _ => best
  }

  /** The best record once the loop has visited `prims`, in order. Its depth
      never exceeds `max`; below `max` it is a real hit inside the window;
      at `max` nothing was hit and the record is the starting one. */
  function Nearest(prims: seq<Primitive>, r: Ray, min: real, max: real,
                   sqrt: real -> real, norm: Vec4 -> Vec4): (h: HitInfo)
    ensures h.depth <= max
    ensures h.depth < max ==> min < h.depth && h.point == PointAt(r, h.depth)
    ensures h.depth == max ==> h == Start(max)
    decreases |prims|
  {
    if prims == [] then
      Start(max)
    else
      Step(Nearest(prims[..|prims| - 1], r, min, max, sqrt, norm), prims[|prims| - 1], r, min, sqrt, norm)
  }

  /** `Scene { container }`. */
  class Scene {
    var container: seq<Primitive>

    /** `Scene::new`: an empty container. */
    constructor()
      ensures container == []
    {
      container := [];
    }

    /** `Scene::add`: `obj` goes at the end; earlier entries stay as they were. */
    method Add(obj: Primitive)
      modifies this
      ensures container == old(container) + [obj]
    {
      container := container + [obj];
    }

    /** `Hitable for Scene::hit`: every sphere is tested in turn with the best
        depth so far as its upper bound; the result is a hit only if the final
        best depth lies in `(min, max)`, and `out` is written only then. */
    method Hit(r: Ray, out: HitInfo, min: real, max: real,
               sqrt: real -> real, norm: Vec4 -> Vec4)
      returns (hit: bool, res: HitInfo)
      ensures hit <==> min < Nearest(container, r, min, max, sqrt, norm).depth < max
      ensures hit ==> res == Nearest(container, r, min, max, sqrt, norm)
      ensures HitContract(r, out, min, max, hit, res)
      ensures container == [] ==> !hit
    {
      var best := Start(max);
      for i := 0 to |container|
        invariant best == Nearest(container[..i], r, min, max, sqrt, norm)
      {
        assert container[..i + 1][..i] == container[..i];
        match container[i]
        case SpherePrimitive(obj, mat) =>
          var h, info := SphereHit(obj, r, NewHitInfo(), min, best.depth, sqrt, norm);
          if h {
            best := info;
            best := best.(material := mat);
          }
        case _ =>
      }
      assert container[..|container|] == container;
      if best.depth > min && best.depth < max {
        return true, best;
      }
      return false, out;
    }
  }

  /** The depth a primitive would report on its own in the whole window:
      a sphere's test result, nothing for any other primitive. */
  function RootOf(p: Primitive, r: Ray, min: real, max: real, sqrt: real -> real): (t: Option<real>)
    ensures t.Some? ==> p.SpherePrimitive? && min < t.value < max
  {
    if p.SpherePrimitive? then SphereRoot(p.sphere, r, min, max, sqrt) else None
  }

  /** Primitive `k` produced record `h`: its own depth is `h.depth`, `h` is
      its sphere record tagged with its material, and every earlier primitive
      reports nothing or something strictly farther. */
  predicate ProducedBy(prims: seq<Primitive>, k: int, h: HitInfo, r: Ray, min: real, max: real,
                       sqrt: real -> real, norm: Vec4 -> Vec4)
    requires 0 <= k < |prims|
  {
    RootOf(prims[k], r, min, max, sqrt) == Some(h.depth) &&
    h == SphereRecord(prims[k].sphere, r, h.depth, NewHitInfo(), norm).(material := prims[k].mat) &&
    forall j :: 0 <= j < k && RootOf(prims[j], r, min, max, sqrt).Some? ==>
      RootOf(prims[j], r, min, max, sqrt).value > h.depth
  }

  /** The search finds the first nearest sphere: its depth is at most every
      sphere's own depth in `(min, max)`, and a depth below `max` was produced
      by the first primitive reaching it (ties keep insertion order), with
      that primitive's material. */
  lemma {:induction false} NearestIsFirstMinimum(prims: seq<Primitive>, r: Ray, min: real, max: real,
                                                 sqrt: real -> real, norm: Vec4 -> Vec4)
    requires RootsNonNegative(sqrt)
    ensures forall k :: 0 <= k < |prims| && RootOf(prims[k], r, min, max, sqrt).Some? ==>
      Nearest(prims, r, min, max, sqrt, norm).depth <= RootOf(prims[k], r, min, max, sqrt).value
    ensures Nearest(prims, r, min, max, sqrt, norm).depth < max ==>
      exists k :: 0 <= k < |prims| && ProducedBy(prims, k, Nearest(prims, r, min, max, sqrt, norm), r, min, max, sqrt, norm)
    decreases |prims|
  {
    if prims != [] {
      var n := |prims| - 1;
      var init, p := prims[..n], prims[n];
      assert forall k :: 0 <= k < n ==> prims[k] == init[k];
      NearestIsFirstMinimum(init, r, min, max, sqrt, norm);
      var before := Nearest(init, r, min, max, sqrt, norm);
      var after := Nearest(prims, r, min, max, sqrt, norm);
      assert after == Step(before, p, r, min, sqrt, norm);
      if p.SpherePrimitive? {
        RootWindowShrink(p.sphere, r, min, before.depth, max, sqrt);
      }
      if after != before {
        assert ProducedBy(prims, n, after, r, min, max, sqrt, norm);
      } else if after.depth < max {
        var k :| 0 <= k < n && ProducedBy(init, k, before, r, min, max, sqrt, norm);
        assert ProducedBy(prims, k, after, r, min, max, sqrt, norm);
      }
    }
  }

  /** The search reports a hit exactly when some sphere, tested alone, would. */
  lemma HitIffSomeSphereHits(prims: seq<Primitive>, r: Ray, min: real, max: real,
                             sqrt: real -> real, norm: Vec4 -> Vec4)
    requires RootsNonNegative(sqrt)
    ensures min < Nearest(prims, r, min, max, sqrt, norm).depth < max <==>
      exists k :: 0 <= k < |prims| && RootOf(prims[k], r, min, max, sqrt).Some?
  {
    NearestIsFirstMinimum(prims, r, min, max, sqrt, norm);
    if Nearest(prims, r, min, max, sqrt, norm).depth < max {
      var k :| 0 <= k < |prims| && ProducedBy(prims, k, Nearest(prims, r, min, max, sqrt, norm), r, min, max, sqrt, norm);
      assert RootOf(prims[k], r, min, max, sqrt).Some?;
    }
  }

  /** A scene of planes and boxes never reports a hit: those are skipped. */
  lemma {:induction false} NonSpheresAreSkipped(prims: seq<Primitive>, r: Ray, min: real, max: real,
                                                sqrt: real -> real, norm: Vec4 -> Vec4)
    requires forall k :: 0 <= k < |prims| ==> !prims[k].SpherePrimitive?
    ensures Nearest(prims, r, min, max, sqrt, norm) == Start(max)
    decreases |prims|
  {
    if prims != [] {
      NonSpheresAreSkipped(prims[..|prims| - 1], r, min, max, sqrt, norm);
    }
  }

  /** Adding a plane or a box to a scene leaves the search result as it was. */
  lemma AddingNonSphereChangesNothing(prims: seq<Primitive>, p: Primitive, r: Ray, min: real, max: real,
                                      sqrt: real -> real, norm: Vec4 -> Vec4)
    requires !p.SpherePrimitive?
    ensures Nearest(prims + [p], r, min, max, sqrt, norm) == Nearest(prims, r, min, max, sqrt, norm)
  {
    assert (prims + [p])[..|prims|] == prims;
  }
}
