/** Three-component vector algebra of the baker and its geometric primitives:
    the segment/triangle intersection test and the facing test. */
module Vectors {

  datatype Vec3 = Vec3(x: real, y: real, z: real)
  datatype Vec2 = Vec2(u: real, v: real)

  const Zero: Vec3 := Vec3(0.0, 0.0, 0.0)

  /** 2^1022. */
  const TwoTo1022: nat := 0x4000000000000000000000000000000000000000000000000000000000000000000000000000000000000000000000000000000000000000000000000000000000000000000000000000000000000000000000000000000000000000000000000000000000000000000000000000000000000000000000000000000000000000

  /** The near-zero tolerance of the intersection test and the re-emission threshold: the
      smallest positive normal double, 2^-1022. */
  const Epsilon: real := 1.0 / (TwoTo1022 as real)

  /** Component-wise sum. */
  function Add(a: Vec3, b: Vec3): (r: Vec3)
  {
    Vec3(a.x + b.x, a.y + b.y, a.z + b.z)
  }

  /** Difference; adding it back to `b` gives `a` again. */
  function Sub(a: Vec3, b: Vec3): (r: Vec3)
    ensures Add(b, r) == a
  {
    Vec3(a.x - b.x, a.y - b.y, a.z - b.z)
  }

  /** Uniform scaling by a scalar (the source's `VecMult( Vector3D, Real )`). */
  function Scale(a: Vec3, s: real): (r: Vec3)
    ensures s == 0.0 ==> r == Zero
    ensures s == 1.0 ==> r == a
  {
    Vec3(a.x * s, a.y * s, a.z * s)
  }

  function Dot(a: Vec3, b: Vec3): real
  {
    a.x * b.x + a.y * b.y + a.z * b.z
  }

  /** Cross product; it is orthogonal to both of its arguments. */
  function Cross(a: Vec3, b: Vec3): (r: Vec3)
    ensures Dot(a, r) == 0.0 && Dot(b, r) == 0.0
  {
    Vec3(a.y * b.z - a.z * b.y, a.z * b.x - a.x * b.z, a.x * b.y - a.y * b.x)
  }

  /** `a` faces `b` when they point into opposite half-spaces (or are orthogonal). */
  predicate Facing(a: Vec3, b: Vec3)
    ensures a == Zero || b == Zero ==> Facing(a, b)
  {
    Dot(a, b) <= 0.0
  }

  /** Scaling by a positive factor (a normalisation, say) does not change the facing test. */
  lemma FacingScaleInvariant(a: Vec3, b: Vec3, s: real)
    requires s > 0.0
    ensures Facing(Scale(a, s), b) <==> Facing(a, b)
  {
    assert Dot(Scale(a, s), b) == s * Dot(a, b);
  }

  // ---------------------------------------------------------------------------
  // Segment / triangle intersection (parametric, Moller-Trumbore style)
  // ---------------------------------------------------------------------------

  /** The determinant `dot(edge1, cross(dir, edge2))` of the intersection test. */
  function Determinant(p0: Vec3, p1: Vec3, a: Vec3, b: Vec3, c: Vec3): real
  {
    Dot(Sub(b, a), Cross(Sub(p1, p0), Sub(c, a)))
  }

  predicate NearParallel(det: real)
  {
    det < Epsilon && det > -Epsilon
  }

  /** Does the segment `p0`-`p1` cross the triangle `a b c` strictly after `p0`
      (and no further than just past `p1`)? Near-parallel segments never do. */
  predicate SegmentIntersectsTriangle(p0: Vec3, p1: Vec3, a: Vec3, b: Vec3, c: Vec3)
    ensures SegmentIntersectsTriangle(p0, p1, a, b, c) ==> !NearParallel(Determinant(p0, p1, a, b, c))
  {
    var dir := Sub(p1, p0);
    var edge1 := Sub(b, a);
    var edge2 := Sub(c, a);
    var h := Cross(dir, edge2);
    var det := Dot(edge1, h);
    if det < Epsilon && det > -Epsilon then false
    else
      var f := 1.0 / det;
      var s := Sub(p0, a);
      var u := f * Dot(s, h);
      if u < 0.0 || u > 1.0 then false
      else
        var q := Cross(s, edge1);
        var v := f * Dot(dir, q);
        if v < 0.0 || u + v > 1.0 then false
        else
          var t := f * Dot(edge2, q);
          t > Epsilon && t < 1.0 + Epsilon
  }

  /** Reference meaning of a hit: the point at parameter `t` of the segment is the point
      with barycentric weights `u`, `v` of the triangle, inside both. */
  ghost predicate Meets(p0: Vec3, p1: Vec3, a: Vec3, b: Vec3, c: Vec3, t: real, u: real, v: real)
  {
    && 0.0 <= u && 0.0 <= v && u + v <= 1.0
    && Epsilon < t < 1.0 + Epsilon
    && Add(p0, Scale(Sub(p1, p0), t)) == Add(a, Add(Scale(Sub(b, a), u), Scale(Sub(c, a), v)))
  }

  /** The weights `(u, v, t)` the test computes for a segment that is not near-parallel. */
  function Weights(p0: Vec3, p1: Vec3, a: Vec3, b: Vec3, c: Vec3): (real, real, real)
    requires !NearParallel(Determinant(p0, p1, a, b, c))
  {
    var dir, e1, e2, s := Sub(p1, p0), Sub(b, a), Sub(c, a), Sub(p0, a);
    var f := 1.0 / Dot(e1, Cross(dir, e2));
    (f * Dot(s, Cross(dir, e2)), f * Dot(dir, Cross(s, e1)), f * Dot(e2, Cross(s, e1)))
  }

  /** The test's branches, read as range conditions on the computed weights. */
  lemma SegmentTestByWeights(p0: Vec3, p1: Vec3, a: Vec3, b: Vec3, c: Vec3)
    ensures SegmentIntersectsTriangle(p0, p1, a, b, c)
        <==> && !NearParallel(Determinant(p0, p1, a, b, c))
             && var (u, v, t) := Weights(p0, p1, a, b, c);
                0.0 <= u && 0.0 <= v && u + v <= 1.0 && Epsilon < t < 1.0 + Epsilon
  {
  }

  /** The test reports a hit exactly when the segment is not near-parallel to the
      triangle's plane and some point of the segment (past `p0`) lies in the triangle. */
  lemma SegmentIntersectsTriangleMeaning(p0: Vec3, p1: Vec3, a: Vec3, b: Vec3, c: Vec3)
    ensures SegmentIntersectsTriangle(p0, p1, a, b, c)
        <==> !NearParallel(Determinant(p0, p1, a, b, c)) && exists t, u, v :: Meets(p0, p1, a, b, c, t, u, v)
  {
    SegmentTestByWeights(p0, p1, a, b, c);
    if !NearParallel(Determinant(p0, p1, a, b, c)) {
      var (u, v, t) := Weights(p0, p1, a, b, c);
      WeightsMeet(p0, p1, a, b, c);
      if SegmentIntersectsTriangle(p0, p1, a, b, c) {
        assert Meets(p0, p1, a, b, c, t, u, v);
      }
      if exists t', u', v' :: Meets(p0, p1, a, b, c, t', u', v') {
        var t', u', v' :| Meets(p0, p1, a, b, c, t', u', v');
        MeetingWeightsAreComputed(p0, p1, a, b, c, t', u', v');
      }
    }
  }

  /** The computed weights put the segment point on the triangle's plane point. */
  lemma WeightsMeet(p0: Vec3, p1: Vec3, a: Vec3, b: Vec3, c: Vec3)
    requires !NearParallel(Determinant(p0, p1, a, b, c))
    ensures var (u, v, t) := Weights(p0, p1, a, b, c);
            Add(p0, Scale(Sub(p1, p0), t)) == Add(a, Add(Scale(Sub(b, a), u), Scale(Sub(c, a), v)))
  {
    var dir, e1, e2, s := Sub(p1, p0), Sub(b, a), Sub(c, a), Sub(p0, a);
    var w := Weights(p0, p1, a, b, c);
    WeightsUnfold(p0, p1, a, b, c);
    SolutionSatisfies(s, dir, e1, e2, w.0, w.1, w.2);
    PointEquation(p0, a, dir, e1, e2, w.0, w.1, w.2);
    assert Add(p0, Scale(dir, w.2)) == Add(a, Add(Scale(e1, w.0), Scale(e2, w.1)));
  }

  lemma WeightsUnfold(p0: Vec3, p1: Vec3, a: Vec3, b: Vec3, c: Vec3)
    requires !NearParallel(Determinant(p0, p1, a, b, c))
    ensures var dir, e1, e2, s := Sub(p1, p0), Sub(b, a), Sub(c, a), Sub(p0, a);
            var f := 1.0 / Dot(e1, Cross(dir, e2));
            && Weights(p0, p1, a, b, c).0 == f * Dot(s, Cross(dir, e2))
            && Weights(p0, p1, a, b, c).1 == f * Dot(dir, Cross(s, e1))
            && Weights(p0, p1, a, b, c).2 == f * Dot(e2, Cross(s, e1))
  {
  }

  /** Any point where segment and plane meet has the computed weights. */
  lemma MeetingWeightsAreComputed(p0: Vec3, p1: Vec3, a: Vec3, b: Vec3, c: Vec3, t: real, u: real, v: real)
    requires !NearParallel(Determinant(p0, p1, a, b, c))
    requires Add(p0, Scale(Sub(p1, p0), t)) == Add(a, Add(Scale(Sub(b, a), u), Scale(Sub(c, a), v)))
    ensures Weights(p0, p1, a, b, c) == (u, v, t)
  {
    var dir, e1, e2, s := Sub(p1, p0), Sub(b, a), Sub(c, a), Sub(p0, a);
    var det := Dot(e1, Cross(dir, e2));
    PointEquation(p0, a, dir, e1, e2, u, v, t);
    SolutionUnique(s, dir, e1, e2, u, v, t);
    Cancel(Dot(s, Cross(dir, e2)), u, det);
    Cancel(Dot(dir, Cross(s, e1)), v, det);
    Cancel(Dot(e2, Cross(s, e1)), t, det);
    WeightsUnfold(p0, p1, a, b, c);
    assert Weights(p0, p1, a, b, c).0 == u;
    assert Weights(p0, p1, a, b, c).1 == v;
    assert Weights(p0, p1, a, b, c).2 == t;
  }

  lemma Cancel(p: real, w: real, det: real)
    requires det != 0.0 && p == w * det
    ensures (1.0 / det) * p == w
  {
  }

  /** `u*e1 + v*e2 - t*d`, the combination the intersection test solves for. */
  function Combine(e1: Vec3, e2: Vec3, d: Vec3, u: real, v: real, t: real): Vec3
  {
    Sub(Add(Scale(e1, u), Scale(e2, v)), Scale(d, t))
  }

  /** `p0 + t*dir == a + u*e1 + v*e2` is the same equation as `p0 - a == u*e1 + v*e2 - t*dir`. */
  lemma PointEquation(p0: Vec3, a: Vec3, dir: Vec3, e1: Vec3, e2: Vec3, u: real, v: real, t: real)
    ensures Add(p0, Scale(dir, t)) == Add(a, Add(Scale(e1, u), Scale(e2, v)))
        <==> Sub(p0, a) == Combine(e1, e2, dir, u, v, t)
  {
  }

  /** Cramer's rule: the weights the test computes solve the equation. */
  lemma SolutionSatisfies(s: Vec3, d: Vec3, e1: Vec3, e2: Vec3, u: real, v: real, t: real)
    requires Dot(e1, Cross(d, e2)) != 0.0
    requires var f := 1.0 / Dot(e1, Cross(d, e2));
             u == f * Dot(s, Cross(d, e2)) && v == f * Dot(d, Cross(s, e1)) && t == f * Dot(e2, Cross(s, e1))
    ensures s == Combine(e1, e2, d, u, v, t)
  {
    CramerComponents(s, d, e1, e2);
    SolveByComponents(s, e1, e2, d, Dot(e1, Cross(d, e2)), Dot(s, Cross(d, e2)), Dot(d, Cross(s, e1)), Dot(e2, Cross(s, e1)));
  }

  lemma SolveByComponents(s: Vec3, e1: Vec3, e2: Vec3, d: Vec3, det: real, su: real, sv: real, st: real)
    requires det != 0.0
    requires s.x * det == e1.x * su + e2.x * sv - d.x * st
    requires s.y * det == e1.y * su + e2.y * sv - d.y * st
    requires s.z * det == e1.z * su + e2.z * sv - d.z * st
    ensures var f := 1.0 / det; s == Combine(e1, e2, d, f * su, f * sv, f * st)
  {
    var f := 1.0 / det;
    Divide(s.x, det, f, su, sv, st, e1.x, e2.x, d.x);
    Divide(s.y, det, f, su, sv, st, e1.y, e2.y, d.y);
    Divide(s.z, det, f, su, sv, st, e1.z, e2.z, d.z);
  }

  lemma Divide(sx: real, det: real, f: real, a: real, b: real, c: real, ex: real, gx: real, dx: real)
    requires det != 0.0 && f == 1.0 / det
    requires sx * det == ex * a + gx * b - dx * c
    ensures sx == ex * (f * a) + gx * (f * b) - dx * (f * c)
  {
    calc {
      ex * (f * a) + gx * (f * b) - dx * (f * c);
      (ex * a + gx * b - dx * c) / det;
      (sx * det) / det;
      sx;
    }
  }

  /** Cramer's rule multiplied out: `det * s == (s.h) e1 + (d.q) e2 - (e2.q) d`. */
  lemma CramerComponents(s: Vec3, d: Vec3, e1: Vec3, e2: Vec3)
    ensures var det, h, q := Dot(e1, Cross(d, e2)), Cross(d, e2), Cross(s, e1);
      && s.x * det == e1.x * Dot(s, h) + e2.x * Dot(d, q) - d.x * Dot(e2, q)
      && s.y * det == e1.y * Dot(s, h) + e2.y * Dot(d, q) - d.y * Dot(e2, q)
      && s.z * det == e1.z * Dot(s, h) + e2.z * Dot(d, q) - d.z * Dot(e2, q)
  {
    CramerX(s, d, e1, e2);
    CramerY(s, d, e1, e2);
    CramerZ(s, d, e1, e2);
  }

  // One polynomial identity per component, over plain coordinates.

  lemma CramerX(s: Vec3, d: Vec3, e1: Vec3, e2: Vec3)
    ensures s.x * Dot(e1, Cross(d, e2)) == e1.x * Dot(s, Cross(d, e2)) + e2.x * Dot(d, Cross(s, e1)) - d.x * Dot(e2, Cross(s, e1))
  {
    assert s.x * (e1.x * (d.y * e2.z - d.z * e2.y) + e1.y * (d.z * e2.x - d.x * e2.z) + e1.z * (d.x * e2.y - d.y * e2.x))
         == e1.x * (s.x * (d.y * e2.z - d.z * e2.y) + s.y * (d.z * e2.x - d.x * e2.z) + s.z * (d.x * e2.y - d.y * e2.x)) + e2.x * (d.x * (s.y * e1.z - s.z * e1.y) + d.y * (s.z * e1.x - s.x * e1.z) + d.z * (s.x * e1.y - s.y * e1.x)) - d.x * (e2.x * (s.y * e1.z - s.z * e1.y) + e2.y * (s.z * e1.x - s.x * e1.z) + e2.z * (s.x * e1.y - s.y * e1.x));
  }

  lemma CramerY(s: Vec3, d: Vec3, e1: Vec3, e2: Vec3)
    ensures s.y * Dot(e1, Cross(d, e2)) == e1.y * Dot(s, Cross(d, e2)) + e2.y * Dot(d, Cross(s, e1)) - d.y * Dot(e2, Cross(s, e1))
  {
    assert s.y * (e1.x * (d.y * e2.z - d.z * e2.y) + e1.y * (d.z * e2.x - d.x * e2.z) + e1.z * (d.x * e2.y - d.y * e2.x))
         == e1.y * (s.x * (d.y * e2.z - d.z * e2.y) + s.y * (d.z * e2.x - d.x * e2.z) + s.z * (d.x * e2.y - d.y * e2.x)) + e2.y * (d.x * (s.y * e1.z - s.z * e1.y) + d.y * (s.z * e1.x - s.x * e1.z) + d.z * (s.x * e1.y - s.y * e1.x)) - d.y * (e2.x * (s.y * e1.z - s.z * e1.y) + e2.y * (s.z * e1.x - s.x * e1.z) + e2.z * (s.x * e1.y - s.y * e1.x));
  }

  lemma CramerZ(s: Vec3, d: Vec3, e1: Vec3, e2: Vec3)
    ensures s.z * Dot(e1, Cross(d, e2)) == e1.z * Dot(s, Cross(d, e2)) + e2.z * Dot(d, Cross(s, e1)) - d.z * Dot(e2, Cross(s, e1))
  {
    assert s.z * (e1.x * (d.y * e2.z - d.z * e2.y) + e1.y * (d.z * e2.x - d.x * e2.z) + e1.z * (d.x * e2.y - d.y * e2.x))
         == e1.z * (s.x * (d.y * e2.z - d.z * e2.y) + s.y * (d.z * e2.x - d.x * e2.z) + s.z * (d.x * e2.y - d.y * e2.x)) + e2.z * (d.x * (s.y * e1.z - s.z * e1.y) + d.y * (s.z * e1.x - s.x * e1.z) + d.z * (s.x * e1.y - s.y * e1.x)) - d.z * (e2.x * (s.y * e1.z - s.z * e1.y) + e2.y * (s.z * e1.x - s.x * e1.z) + e2.z * (s.x * e1.y - s.y * e1.x));
  }

  /** Any solution of the equation is the one the test computes (the system is regular). */
  lemma SolutionUnique(s: Vec3, d: Vec3, e1: Vec3, e2: Vec3, u: real, v: real, t: real)
    requires s == Combine(e1, e2, d, u, v, t)
    ensures Dot(s, Cross(d, e2)) == u * Dot(e1, Cross(d, e2))
    ensures Dot(d, Cross(s, e1)) == v * Dot(e1, Cross(d, e2))
    ensures Dot(e2, Cross(s, e1)) == t * Dot(e1, Cross(d, e2))
  {
    var e1xd := Cross(e1, e1);
    DotCombine(Cross(d, e2), e1, e2, d, u, v, t);
    CrossCombine(e1, e2, d, e1, u, v, t);
    DotCombine(d, Cross(e1, e1), Cross(e2, e1), Cross(d, e1), u, v, t);
    DotCombine(e2, Cross(e1, e1), Cross(e2, e1), Cross(d, e1), u, v, t);
    assert Cross(e1, e1) == Zero;
    TripleSwap(d, e2, e1);
    TripleSwap(e2, d, e1);
    TripleSwap(e1, d, e2);
    TripleSwap(e2, e2, e1);
  }

  lemma TripleSwap(a: Vec3, b: Vec3, c: Vec3)
    ensures Dot(a, Cross(b, c)) == - Dot(c, Cross(b, a))
  {
    assert Cross(b, c) == Vec3(b.y * c.z - b.z * c.y, b.z * c.x - b.x * c.z, b.x * c.y - b.y * c.x);
    assert Cross(b, a) == Vec3(b.y * a.z - b.z * a.y, b.z * a.x - b.x * a.z, b.x * a.y - b.y * a.x);
  }

  lemma DotCombine(w: Vec3, e1: Vec3, e2: Vec3, d: Vec3, u: real, v: real, t: real)
    ensures Dot(Combine(e1, e2, d, u, v, t), w) == u * Dot(e1, w) + v * Dot(e2, w) - t * Dot(d, w)
    ensures Dot(w, Combine(e1, e2, d, u, v, t)) == u * Dot(w, e1) + v * Dot(w, e2) - t * Dot(w, d)
  {
    var m := Combine(e1, e2, d, u, v, t);
    assert m == Vec3(e1.x * u + e2.x * v - d.x * t, e1.y * u + e2.y * v - d.y * t, e1.z * u + e2.z * v - d.z * t);
    Linear(e1.x, e2.x, d.x, w.x, u, v, t);
    Linear(e1.y, e2.y, d.y, w.y, u, v, t);
    Linear(e1.z, e2.z, d.z, w.z, u, v, t);
  }

  lemma Linear(a: real, b: real, c: real, w: real, u: real, v: real, t: real)
    ensures (a * u + b * v - c * t) * w == u * (a * w) + v * (b * w) - t * (c * w)
    ensures w * (a * u + b * v - c * t) == u * (w * a) + v * (w * b) - t * (w * c)
  {
  }

  lemma CrossCombine(e1: Vec3, e2: Vec3, d: Vec3, c: Vec3, u: real, v: real, t: real)
    ensures Cross(Combine(e1, e2, d, u, v, t), c)
         == Combine(Cross(e1, c), Cross(e2, c), Cross(d, c), u, v, t)
  {
    CrossAddLeft(Scale(e1, u), Scale(e2, v), c);
    CrossSubLeft(Add(Scale(e1, u), Scale(e2, v)), Scale(d, t), c);
    CrossScaleLeft(e1, c, u);
    CrossScaleLeft(e2, c, v);
    CrossScaleLeft(d, c, t);
  }

  lemma CrossAddLeft(a: Vec3, b: Vec3, c: Vec3)
    ensures Cross(Add(a, b), c) == Add(Cross(a, c), Cross(b, c))
  {
    assert (a.y + b.y) * c.z - (a.z + b.z) * c.y == (a.y * c.z - a.z * c.y) + (b.y * c.z - b.z * c.y);
    assert (a.z + b.z) * c.x - (a.x + b.x) * c.z == (a.z * c.x - a.x * c.z) + (b.z * c.x - b.x * c.z);
    assert (a.x + b.x) * c.y - (a.y + b.y) * c.x == (a.x * c.y - a.y * c.x) + (b.x * c.y - b.y * c.x);
  }

  lemma CrossSubLeft(a: Vec3, b: Vec3, c: Vec3)
    ensures Cross(Sub(a, b), c) == Sub(Cross(a, c), Cross(b, c))
  {
    assert (a.y - b.y) * c.z - (a.z - b.z) * c.y == (a.y * c.z - a.z * c.y) - (b.y * c.z - b.z * c.y);
    assert (a.z - b.z) * c.x - (a.x - b.x) * c.z == (a.z * c.x - a.x * c.z) - (b.z * c.x - b.x * c.z);
    assert (a.x - b.x) * c.y - (a.y - b.y) * c.x == (a.x * c.y - a.y * c.x) - (b.x * c.y - b.y * c.x);
  }

  lemma CrossScaleLeft(a: Vec3, c: Vec3, u: real)
    ensures Cross(Scale(a, u), c) == Scale(Cross(a, c), u)
  {
    assert (a.y * u) * c.z - (a.z * u) * c.y == (a.y * c.z - a.z * c.y) * u;
    assert (a.z * u) * c.x - (a.x * u) * c.z == (a.z * c.x - a.x * c.z) * u;
    assert (a.x * u) * c.y - (a.y * u) * c.x == (a.x * c.y - a.y * c.x) * u;
  }
}
