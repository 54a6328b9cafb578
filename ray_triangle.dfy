/**
  The Moller-Trumbore ray/triangle intersection test of the plugin, with the
  ray starting at the origin of the direction-cosine space.

  The test answers whether the ray from the origin along `ray` crosses the
  triangle `v1 v2 v3` at a parameter above DBL_EPSILON, and it refuses rays
  whose determinant lies strictly between -DBL_EPSILON and DBL_EPSILON.
 */
module RayTriangle {
  import opened Vectors
  import opened TripleProducts

  /** DBL_EPSILON, 2^-52. */
  const Epsilon: real := 1.0 / 4503599627370496.0

  /** The ray parameter `t` and barycentric coordinates `u`, `v` of a crossing. */
  datatype Crossing = Crossing(t: real, u: real, v: real)

  /** The point `v1 + u edge1 + v edge2` of the plane through `v1` spanned by the two edges. */
  function PlanePoint(v1: Vector, edge1: Vector, edge2: Vector, u: real, v: real): Vector {
    Add(v1, Add(Scale(edge1, u), Scale(edge2, v)))
  }

  /** The ray meets the closed triangle `v1 v2 v3` at a parameter above DBL_EPSILON. */
  predicate HitsAt(ray: Vector, v1: Vector, v2: Vector, v3: Vector, c: Crossing) {
    c.t > Epsilon && 0.0 <= c.u && 0.0 <= c.v && c.u + c.v <= 1.0
    && Scale(ray, c.t) == PlanePoint(v1, Sub(v2, v1), Sub(v3, v1), c.u, c.v)
  }

  /** `edge1 . (ray x edge2)`: zero exactly when the ray is parallel to the plane or the triangle is flat. */
  function Determinant(ray: Vector, edge1: Vector, edge2: Vector): real {
    Dot(edge1, Cross(ray, edge2))
  }

  /** The determinant lies inside the band the test refuses. */
  predicate NearlyParallel(det: real) {
    -Epsilon < det && det < Epsilon
  }

  /**
    The parameters the test derives from the determinant, the vector
    `T = -v1`, `P = ray x edge2` and `Q = T x edge1`, each scaled by the
    inverse of the determinant.
   */
  function CrossingOf(ray: Vector, v1: Vector, edge1: Vector, edge2: Vector): Crossing
    requires Determinant(ray, edge1, edge2) != 0.0
  {
    var p := Cross(ray, edge2);
    var inverse := 1.0 / Dot(edge1, p);
    var t := Neg(v1);
    var q := Cross(t, edge1);
    Crossing(Dot(edge2, q) * inverse, Dot(t, p) * inverse, Dot(ray, q) * inverse)
  }

  /**
    RayTriangleIntersection: a miss when the determinant is within
    DBL_EPSILON of zero, when `u` is outside [0, 1], when `v` is negative or
    `u + v` exceeds one; otherwise a hit exactly when `t` exceeds DBL_EPSILON.
   */
  function RayTriangleIntersection(ray: Vector, v1: Vector, v2: Vector, v3: Vector): (hit: bool)
    ensures hit ==> !NearlyParallel(Determinant(ray, Sub(v2, v1), Sub(v3, v1)))
  {
    var edge1 := Sub(v2, v1);
    var edge2 := Sub(v3, v1);
    var det := Determinant(ray, edge1, edge2);
    if NearlyParallel(det) then false
    else
      var c := CrossingOf(ray, v1, edge1, edge2);
      if c.u < 0.0 || c.u > 1.0 then false
      else if c.v < 0.0 || c.u + c.v > 1.0 then false
      else c.t > Epsilon
  }

  /** Cramer's rule over direction vectors: `bq d + det t = tp a + dq b`. */
  lemma CramerVector(d: Vector, a: Vector, b: Vector, t: Vector)
    ensures d.x * Dot(b, Cross(t, a)) + t.x * Dot(a, Cross(d, b)) == a.x * Dot(t, Cross(d, b)) + b.x * Dot(d, Cross(t, a))
    ensures d.y * Dot(b, Cross(t, a)) + t.y * Dot(a, Cross(d, b)) == a.y * Dot(t, Cross(d, b)) + b.y * Dot(d, Cross(t, a))
    ensures d.z * Dot(b, Cross(t, a)) + t.z * Dot(a, Cross(d, b)) == a.z * Dot(t, Cross(d, b)) + b.z * Dot(d, Cross(t, a))
  {
    CramerX(d, a, b, t);
    CramerY(d, a, b, t);
    CramerZ(d, a, b, t);
  }

  /** First coordinate of `CramerVector`, from the expanded identity. */
  lemma CramerX(d: Vector, a: Vector, b: Vector, t: Vector)
    ensures d.x * Dot(b, Cross(t, a)) + t.x * Dot(a, Cross(d, b)) == a.x * Dot(t, Cross(d, b)) + b.x * Dot(d, Cross(t, a))
  {
    CramerExpanded(d.x, d.y, d.z, a.x, a.y, a.z, b.x, b.y, b.z, t.x, t.y, t.z);
  }

  /** Second coordinate of `CramerVector`: the expanded identity with the coordinates rotated once. */
  lemma CramerY(d: Vector, a: Vector, b: Vector, t: Vector)
    ensures d.y * Dot(b, Cross(t, a)) + t.y * Dot(a, Cross(d, b)) == a.y * Dot(t, Cross(d, b)) + b.y * Dot(d, Cross(t, a))
  {
    CramerExpanded(d.y, d.z, d.x, a.y, a.z, a.x, b.y, b.z, b.x, t.y, t.z, t.x);
  }

  /** Third coordinate of `CramerVector`: the expanded identity with the coordinates rotated twice. */
  lemma CramerZ(d: Vector, a: Vector, b: Vector, t: Vector)
    ensures d.z * Dot(b, Cross(t, a)) + t.z * Dot(a, Cross(d, b)) == a.z * Dot(t, Cross(d, b)) + b.z * Dot(d, Cross(t, a))
  {
    CramerExpanded(d.z, d.x, d.y, a.z, a.x, a.y, b.z, b.x, b.y, t.z, t.x, t.y);
  }

  /** Any solution of `s d = -t + u a + v b` scales the determinant to the other triple products. */
  lemma UniqueVector(d: Vector, a: Vector, b: Vector, t: Vector, s: real, u: real, v: real)
    requires s * d.x == -t.x + u * a.x + v * b.x
    requires s * d.y == -t.y + u * a.y + v * b.y
    requires s * d.z == -t.z + u * a.z + v * b.z
    ensures u * Dot(a, Cross(d, b)) == Dot(t, Cross(d, b))
    ensures v * Dot(a, Cross(d, b)) == Dot(d, Cross(t, a))
    ensures s * Dot(a, Cross(d, b)) == Dot(b, Cross(t, a))
  {
    TripleExpanded(a, d, b);
    TripleExpanded(t, d, b);
    TripleExpanded(d, t, a);
    TripleExpanded(b, t, a);
    UniqueScalar(d.x, d.y, d.z, a.x, a.y, a.z, b.x, b.y, b.z, t.x, t.y, t.z, s, u, v,
                 Dot(a, Cross(d, b)), Dot(t, Cross(d, b)), Dot(d, Cross(t, a)), Dot(b, Cross(t, a)));
  }

  /** The three coordinates of a Cramer identity divided by a non-zero determinant. */
  lemma DivideVector(d: Vector, a: Vector, b: Vector, t: Vector, det: real, tp: real, dq: real, bq: real, inverse: real)
    requires det * inverse == 1.0
    requires d.x * bq + t.x * det == a.x * tp + b.x * dq
    requires d.y * bq + t.y * det == a.y * tp + b.y * dq
    requires d.z * bq + t.z * det == a.z * tp + b.z * dq
    ensures Scale(d, bq * inverse) == Add(Neg(t), Add(Scale(a, tp * inverse), Scale(b, dq * inverse)))
  {
    assert d.x * (bq * inverse) == -t.x + a.x * (tp * inverse) + b.x * (dq * inverse) by {
      DivideByDeterminant(d.x, a.x, b.x, t.x, det, tp, dq, bq, inverse);
    }
    assert d.y * (bq * inverse) == -t.y + a.y * (tp * inverse) + b.y * (dq * inverse) by {
      DivideByDeterminant(d.y, a.y, b.y, t.y, det, tp, dq, bq, inverse);
    }
    assert d.z * (bq * inverse) == -t.z + a.z * (tp * inverse) + b.z * (dq * inverse) by {
      DivideByDeterminant(d.z, a.z, b.z, t.z, det, tp, dq, bq, inverse);
    }
  }

  /** Cramer's rule divided by the determinant: `d (bq / det) = -t + a (tp / det) + b (dq / det)`. */
  lemma CramerDivided(d: Vector, a: Vector, b: Vector, t: Vector, inverse: real)
    requires Dot(a, Cross(d, b)) * inverse == 1.0
    ensures Scale(d, Dot(b, Cross(t, a)) * inverse)
      == Add(Neg(t), Add(Scale(a, Dot(t, Cross(d, b)) * inverse), Scale(b, Dot(d, Cross(t, a)) * inverse)))
  {
    CramerVector(d, a, b, t);
    DivideVector(d, a, b, t, Dot(a, Cross(d, b)), Dot(t, Cross(d, b)), Dot(d, Cross(t, a)), Dot(b, Cross(t, a)), inverse);
  }

  /** The three parameters of `CrossingOf`, each a triple product times the inverse determinant. */
  lemma CrossingParts(ray: Vector, v1: Vector, edge1: Vector, edge2: Vector)
    requires Determinant(ray, edge1, edge2) != 0.0
    ensures CrossingOf(ray, v1, edge1, edge2).t == Dot(edge2, Cross(Neg(v1), edge1)) * (1.0 / Dot(edge1, Cross(ray, edge2)))
    ensures CrossingOf(ray, v1, edge1, edge2).u == Dot(Neg(v1), Cross(ray, edge2)) * (1.0 / Dot(edge1, Cross(ray, edge2)))
    ensures CrossingOf(ray, v1, edge1, edge2).v == Dot(ray, Cross(Neg(v1), edge1)) * (1.0 / Dot(edge1, Cross(ray, edge2)))
  {
  }

  /** Cramer's rule: the computed parameters name a point that lies both on the ray and in the plane. */
  lemma CrossingOnRayAndPlane(ray: Vector, v1: Vector, edge1: Vector, edge2: Vector)
    requires Determinant(ray, edge1, edge2) != 0.0
    ensures var c := CrossingOf(ray, v1, edge1, edge2);
      Scale(ray, c.t) == PlanePoint(v1, edge1, edge2, c.u, c.v)
  {
    CrossingParts(ray, v1, edge1, edge2);
    TimesInverse(Dot(edge1, Cross(ray, edge2)));
    CramerDivided(ray, edge1, edge2, Neg(v1), 1.0 / Dot(edge1, Cross(ray, edge2)));
    assert Neg(Neg(v1)) == v1;
  }

  /** The unique solution of `x det = p` for each of the three parameters. */
  lemma SolveCrossing(c: Crossing, det: real, tp: real, dq: real, bq: real, inverse: real)
    requires det * inverse == 1.0
    requires c.u * det == tp && c.v * det == dq && c.t * det == bq
    ensures c.t == bq * inverse && c.u == tp * inverse && c.v == dq * inverse
  {
    SolveByDeterminant(c.t, det, bq, inverse);
    SolveByDeterminant(c.u, det, tp, inverse);
    SolveByDeterminant(c.v, det, dq, inverse);
  }

  /** The coordinates of `d s = -t + a u + b v`. */
  lemma PlaneCoordinates(d: Vector, a: Vector, b: Vector, t: Vector, c: Crossing)
    requires Scale(d, c.t) == Add(Neg(t), Add(Scale(a, c.u), Scale(b, c.v)))
    ensures c.t * d.x == -t.x + c.u * a.x + c.v * b.x
    ensures c.t * d.y == -t.y + c.u * a.y + c.v * b.y
    ensures c.t * d.z == -t.z + c.u * a.z + c.v * b.z
  {
  }

  /** A point `d s = -t + a u + b v` scales the determinant to the other triple products. */
  lemma UniqueProducts(d: Vector, a: Vector, b: Vector, t: Vector, c: Crossing)
    requires Scale(d, c.t) == Add(Neg(t), Add(Scale(a, c.u), Scale(b, c.v)))
    ensures c.u * Dot(a, Cross(d, b)) == Dot(t, Cross(d, b))
    ensures c.v * Dot(a, Cross(d, b)) == Dot(d, Cross(t, a))
    ensures c.t * Dot(a, Cross(d, b)) == Dot(b, Cross(t, a))
  {
    PlaneCoordinates(d, a, b, t, c);
    UniqueVector(d, a, b, t, c.t, c.u, c.v);
  }

  /** Any solution of `d s = -t + a u + b v` is the one Cramer's rule gives. */
  lemma UniqueDivided(d: Vector, a: Vector, b: Vector, t: Vector, c: Crossing, inverse: real)
    requires Dot(a, Cross(d, b)) * inverse == 1.0
    requires Scale(d, c.t) == Add(Neg(t), Add(Scale(a, c.u), Scale(b, c.v)))
    ensures c.t == Dot(b, Cross(t, a)) * inverse
    ensures c.u == Dot(t, Cross(d, b)) * inverse
    ensures c.v == Dot(d, Cross(t, a)) * inverse
  {
    UniqueProducts(d, a, b, t, c);
    SolveCrossing(c, Dot(a, Cross(d, b)), Dot(t, Cross(d, b)), Dot(d, Cross(t, a)), Dot(b, Cross(t, a)), inverse);
  }

  /** For a non-zero determinant, a point on both the ray and the plane has the computed parameters and no others. */
  lemma CrossingUnique(ray: Vector, v1: Vector, edge1: Vector, edge2: Vector, c: Crossing)
    requires Determinant(ray, edge1, edge2) != 0.0
    requires Scale(ray, c.t) == PlanePoint(v1, edge1, edge2, c.u, c.v)
    ensures c == CrossingOf(ray, v1, edge1, edge2)
  {
    CrossingParts(ray, v1, edge1, edge2);
    TimesInverse(Dot(edge1, Cross(ray, edge2)));
    assert Neg(Neg(v1)) == v1;
    UniqueDivided(ray, edge1, edge2, Neg(v1), c, 1.0 / Dot(edge1, Cross(ray, edge2)));
  }

  /**
    The test reports a hit exactly when the determinant is outside the
    refused band and the ray meets the closed triangle at a parameter above
    DBL_EPSILON.
   */
  lemma RayTriangleIntersectionMeaning(ray: Vector, v1: Vector, v2: Vector, v3: Vector)
    ensures RayTriangleIntersection(ray, v1, v2, v3) <==>
      !NearlyParallel(Determinant(ray, Sub(v2, v1), Sub(v3, v1))) && exists c :: HitsAt(ray, v1, v2, v3, c)
  {
    var edge1 := Sub(v2, v1);
    var edge2 := Sub(v3, v1);
    if !NearlyParallel(Determinant(ray, edge1, edge2)) {
      var c := CrossingOf(ray, v1, edge1, edge2);
      CrossingOnRayAndPlane(ray, v1, edge1, edge2);
      if RayTriangleIntersection(ray, v1, v2, v3) {
        assert HitsAt(ray, v1, v2, v3, c);
      }
      if exists c' :: HitsAt(ray, v1, v2, v3, c') {
        var c' :| HitsAt(ray, v1, v2, v3, c');
        CrossingUnique(ray, v1, edge1, edge2, c');
      }
    }
  }
}
