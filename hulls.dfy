/**
  The two convex hulls of the plugin, seen as the plugin uses them: a vertex
  list whose vertex 0 is the dummy nadir point and whose vertex `i + 1` is
  sync point `i`, and a circular face list whose element 0 is the list head.

  A face refers to its corners by their positions in the vertex list (the
  pointers of the source) and carries the matrix slot the plugin fills.
 */
module Hulls {
  import opened Vectors
  import opened Wrappers
  import opened RayTriangle
  import opened Sky

  /** A hull vertex: coordinates and vertex number. */
  datatype HullVertex = HullVertex(x: real, y: real, z: real, vnum: nat)

  /** A triangle, by the positions of its corners in the vertex list given to the builder. */
  datatype Triangle = Triangle(a: nat, b: nat, c: nat)

  /** A hull face and its transformation-matrix slot (None until the plugin computes it). */
  datatype Face = Face(corners: Triangle, matrix: Option<Matrix3>)

  datatype Hull = Hull(vertices: seq<HullVertex>, faces: seq<Face>)

  /** Every corner of every triangle is one of the first `count` vertices. */
  predicate TrianglesWithin(ts: seq<Triangle>, count: nat) {
    forall i :: 0 <= i < |ts| ==> ts[i].a < count && ts[i].b < count && ts[i].c < count
  }

  function NoTriangles(vs: seq<HullVertex>): seq<Triangle> {
    []
  }

  /**
    The hull builder (`DoubleTriangle`, `ConstructHull`, `EdgeOrderOnFaces`):
    the face list, from its head, of the hull of the given vertices. Its faces
    refer only to vertices it was given.
   */
  type HullBuilder = f: seq<HullVertex> -> seq<Triangle> | forall vs :: TrianglesWithin(f(vs), |vs|)
    witness NoTriangles

  /** The dummy vertex 0 at the nadir. */
  const Nadir: HullVertex := HullVertex(0.0, 0.0, -1.0, 0)

  function VertexAt(p: Vector, vnum: nat): HullVertex {
    HullVertex(p.x, p.y, p.z, vnum)
  }

  /** The vertex list of a hull over `points`: the nadir, then point `i` as vertex number `i + 1`. */
  function HullVertices(points: seq<Vector>): seq<HullVertex> {
    [Nadir] + seq(|points|, i requires 0 <= i < |points| => VertexAt(points[i], i + 1))
  }

  /** Each vertex's number is its position, so vertex number `v > 0` is point `v - 1`. */
  lemma HullVertexNumbering(points: seq<Vector>)
    ensures |HullVertices(points)| == |points| + 1
    ensures HullVertices(points)[0] == Nadir
    ensures forall i :: 0 <= i < |HullVertices(points)| ==> HullVertices(points)[i].vnum == i
    ensures forall i :: 0 <= i < |points| ==>
      HullVertices(points)[i + 1] == HullVertex(points[i].x, points[i].y, points[i].z, i + 1)
  {
  }

  /** Adding a point appends it as the next vertex number. */
  lemma HullVerticesAppend(points: seq<Vector>, p: Vector)
    ensures HullVertices(points + [p]) == HullVertices(points) + [VertexAt(p, |points| + 1)]
  {
  }

  /** Faces freshly built from a triangle list, with no matrix yet. */
  function Unfilled(ts: seq<Triangle>): (fs: seq<Face>)
    ensures |fs| == |ts|
    ensures forall i :: 0 <= i < |ts| ==> fs[i] == Face(ts[i], None)
  {
    seq(|ts|, i requires 0 <= i < |ts| => Face(ts[i], None))
  }

  predicate FacesWithin(fs: seq<Face>, count: nat) {
    forall i :: 0 <= i < |fs| ==> fs[i].corners.a < count && fs[i].corners.b < count && fs[i].corners.c < count
  }

  /** A face touches the nadir when one of its corners has vertex number 0. */
  predicate IsNadirFace(vs: seq<HullVertex>, t: Triangle)
    requires t.a < |vs| && t.b < |vs| && t.c < |vs|
  {
    vs[t.a].vnum == 0 || vs[t.b].vnum == 0 || vs[t.c].vnum == 0
  }

  /** Faces refer to existing vertices and vertex numbers name existing points. */
  predicate Scannable(h: Hull, points: seq<Vector>) {
    FacesWithin(h.faces, |h.vertices|)
    && forall i :: 0 <= i < |h.vertices| ==> h.vertices[i].vnum <= |points|
  }

  /** The direction of a non-nadir corner: point `vnum - 1`. */
  function CornerPoint(vs: seq<HullVertex>, points: seq<Vector>, corner: nat): Vector
    requires corner < |vs| && 0 < vs[corner].vnum <= |points|
  {
    points[vs[corner].vnum - 1]
  }

  /** The ray test on a non-nadir face, against the points its vertex numbers name. */
  predicate FaceHit(h: Hull, points: seq<Vector>, k: nat, ray: Vector)
    requires Scannable(h, points) && k < |h.faces| && !IsNadirFace(h.vertices, h.faces[k].corners)
  {
    var t := h.faces[k].corners;
    RayTriangleIntersection(ray, CornerPoint(h.vertices, points, t.a), CornerPoint(h.vertices, points, t.b),
                            CornerPoint(h.vertices, points, t.c))
  }

  /** Face `k` is tested (not a nadir face) and the ray hits it. */
  predicate Stops(h: Hull, points: seq<Vector>, k: nat, ray: Vector)
    requires Scannable(h, points) && k < |h.faces|
  {
    !IsNadirFace(h.vertices, h.faces[k].corners) && FaceHit(h, points, k, ray)
  }

  /** The position of the first face at or after `k` where the scan stops, or the face count if none. */
  function FirstHitFrom(h: Hull, points: seq<Vector>, ray: Vector, k: nat): (r: nat)
    requires Scannable(h, points) && k <= |h.faces|
    ensures k <= r <= |h.faces|
    ensures r < |h.faces| ==> Stops(h, points, r, ray)
    ensures forall j :: k <= j < r ==> !Stops(h, points, j, ray)
    decreases |h.faces| - k
  {
    if k == |h.faces| then k
    else if Stops(h, points, k, ray) then k
    else FirstHitFrom(h, points, ray, k + 1)
  }

  /** How a facet scan ends: no faces at all, the nearest-three fallback, or the matrix of a face. */
  datatype ScanOutcome = NoFaces | Fallback | UseFace(index: nat)

  /**
    The scan of the circular face list from its head. Its result is decided
    by where the walk stops: on the head face, or back at the head after a
    full turn, both take the fallback.
   */
  function Scan(h: Hull, points: seq<Vector>, ray: Vector): ScanOutcome
    requires Scannable(h, points)
  {
    if |h.faces| == 0 then NoFaces
    else
      var k := FirstHitFrom(h, points, ray, 0);
      if k == 0 || k == |h.faces| then Fallback else UseFace(k)
  }

  /**
    A face's matrix is used exactly when it is the first face, in list order,
    that is not a nadir face and is hit by the ray, and it is not the head.
    The fallback is taken exactly when the face list is not empty and either
    the head is such a face or no face is.
   */
  lemma ScanMeaning(h: Hull, points: seq<Vector>, ray: Vector)
    requires Scannable(h, points)
    ensures Scan(h, points, ray) == NoFaces <==> |h.faces| == 0
    ensures forall k: nat :: Scan(h, points, ray) == UseFace(k) <==>
      0 < k < |h.faces| && Stops(h, points, k, ray) && forall j :: 0 <= j < k ==> !Stops(h, points, j, ray)
    ensures Scan(h, points, ray) == Fallback <==>
      0 < |h.faces| && (Stops(h, points, 0, ray) || forall j :: 0 <= j < |h.faces| ==> !Stops(h, points, j, ray))
  {
    if |h.faces| > 0 {
      var first := FirstHitFrom(h, points, ray, 0);
      forall k | 0 < k < |h.faces| && Stops(h, points, k, ray) && forall j :: 0 <= j < k ==> !Stops(h, points, j, ray)
        ensures first == k
      {
      }
      if first == |h.faces| {
        assert !Stops(h, points, 0, ray);
      }
    }
  }

  /**
    The facet scan as the plugin runs it: a walk around the circular face
    list, from the head, that skips nadir faces and stops at the first face
    the ray hits or when it is back at the head.
   */
  method ScanFaces(h: Hull, points: seq<Vector>, ray: Vector) returns (o: ScanOutcome)
    requires Scannable(h, points)
    ensures o == Scan(h, points, ray)
  {
    if |h.faces| == 0 {
      return NoFaces;
    }
    var current := 0;
    while true
      invariant 0 <= current < |h.faces|
      invariant FirstHitFrom(h, points, ray, 0) == FirstHitFrom(h, points, ray, current)
      decreases |h.faces| - current
    {
      var t := h.faces[current].corners;
      if !IsNadirFace(h.vertices, t) {
        if FaceHit(h, points, current, ray) {
          break;
        }
      }
      current := if current + 1 == |h.faces| then 0 else current + 1;
      if current == 0 {
        break;
      }
    }
    if current == 0 {
      return Fallback;
    }
    return UseFace(current);
  }

  /**
    The forward matrix `CalculateTransformMatrices` gives for a face that does
    not touch the nadir, from its corners' `from` points to their `to` points.
   */
  function FaceMatrix(vs: seq<HullVertex>, t: Triangle, from: seq<Vector>, to: seq<Vector>,
                      calculate: (Vector, Vector, Vector, Vector, Vector, Vector) -> Calculated): Matrix3
    requires t.a < |vs| && t.b < |vs| && t.c < |vs| && !IsNadirFace(vs, t)
    requires forall i :: 0 <= i < |vs| ==> vs[i].vnum <= |from| && vs[i].vnum <= |to|
  {
    calculate(CornerPoint(vs, from, t.a), CornerPoint(vs, from, t.b), CornerPoint(vs, from, t.c),
              CornerPoint(vs, to, t.a), CornerPoint(vs, to, t.b), CornerPoint(vs, to, t.c)).forward
  }

  /** Every face that is not a nadir face has its matrix. */
  predicate MatricesFilled(h: Hull)
    requires FacesWithin(h.faces, |h.vertices|)
  {
    forall i :: 0 <= i < |h.faces| ==> IsNadirFace(h.vertices, h.faces[i].corners) || h.faces[i].matrix.Some?
  }

  /**
    The face list after the plugin's matrix pass: a nadir face keeps its
    empty slot, every other face gets the matrix from its corners' `from`
    points to their `to` points.
   */
  function Filled(vs: seq<HullVertex>, fs: seq<Face>, from: seq<Vector>, to: seq<Vector>,
                  calculate: (Vector, Vector, Vector, Vector, Vector, Vector) -> Calculated): (r: seq<Face>)
    requires FacesWithin(fs, |vs|)
    requires forall i :: 0 <= i < |vs| ==> vs[i].vnum <= |from| && vs[i].vnum <= |to|
    ensures |r| == |fs| && FacesWithin(r, |vs|)
    ensures forall i :: 0 <= i < |fs| ==> r[i].corners == fs[i].corners
    ensures forall i :: 0 <= i < |fs| && IsNadirFace(vs, fs[i].corners) ==> r[i] == fs[i]
    ensures forall i :: 0 <= i < |fs| && !IsNadirFace(vs, fs[i].corners) ==>
      r[i].matrix == Some(FaceMatrix(vs, fs[i].corners, from, to, calculate))
  {
    seq(|fs|, i requires 0 <= i < |fs| =>
      if IsNadirFace(vs, fs[i].corners) then fs[i]
      else Face(fs[i].corners, Some(FaceMatrix(vs, fs[i].corners, from, to, calculate))))
  }

  /**
    The matrix pass over the circular face list: every face that does not
    touch the nadir gets, in place, the matrix from its corners' `from`
    points to their `to` points; nadir faces are left as they are.
   */
  method FillFaceMatrices(h: Hull, from: seq<Vector>, to: seq<Vector>,
                          calculate: (Vector, Vector, Vector, Vector, Vector, Vector) -> Calculated)
    returns (r: Hull)
    requires FacesWithin(h.faces, |h.vertices|)
    requires forall i :: 0 <= i < |h.vertices| ==> h.vertices[i].vnum <= |from| && h.vertices[i].vnum <= |to|
    ensures r == Hull(h.vertices, Filled(h.vertices, h.faces, from, to, calculate))
    ensures MatricesFilled(r)
  {
    r := h;
    if |r.faces| == 0 {
      return;
    }
    var current := 0;
    while true
      invariant 0 <= current < |h.faces|
      invariant r.vertices == h.vertices && |r.faces| == |h.faces|
      invariant forall i :: 0 <= i < current ==> r.faces[i] == Filled(h.vertices, h.faces, from, to, calculate)[i]
      invariant forall i :: current <= i < |h.faces| ==> r.faces[i] == h.faces[i]
      decreases |h.faces| - current
    {
      var t := r.faces[current].corners;
      if !IsNadirFace(r.vertices, t) {
        var m := FaceMatrix(r.vertices, t, from, to, calculate);
        r := r.(faces := r.faces[current := Face(t, Some(m))]);
      }
      current := if current + 1 == |r.faces| then 0 else current + 1;
      if current == 0 {
        break;
      }
    }
    assert r.faces == Filled(h.vertices, h.faces, from, to, calculate);
  }

  /**
    The hull over `points` after the matrix pass: the builder's faces over
    the vertex list, each face that does not touch the nadir holding the
    matrix from its corners' `points` to their `other` points.
   */
  function FilledHull(build: HullBuilder, points: seq<Vector>, other: seq<Vector>,
                      calculate: (Vector, Vector, Vector, Vector, Vector, Vector) -> Calculated): (h: Hull)
    requires |points| == |other|
    ensures h.vertices == HullVertices(points)
    ensures Scannable(h, points) && MatricesFilled(h)
  {
    var vs := HullVertices(points);
    HullVertexNumbering(points);
    Hull(vs, Filled(vs, Unfilled(build(vs)), points, other, calculate))
  }

  /** A face the scan uses is a face where it stopped. */
  lemma UsedFaceStops(h: Hull, points: seq<Vector>, ray: Vector, k: nat)
    requires Scannable(h, points) && Scan(h, points, ray) == UseFace(k)
    ensures k < |h.faces| && Stops(h, points, k, ray)
  {
  }

  /** A corner that is not the nadir is vertex number `corner`, naming point `corner - 1` of any list as long. */
  lemma NumberedCorner(points: seq<Vector>, other: seq<Vector>, corner: nat)
    requires |other| == |points| && corner < |HullVertices(points)| && HullVertices(points)[corner].vnum != 0
    ensures 0 < corner <= |other| && CornerPoint(HullVertices(points), other, corner) == other[corner - 1]
  {
    HullVertexNumbering(points);
  }

  /** The matrix of a face that is not a nadir face, from the points its corners number to their partners. */
  lemma NumberedFaceMatrix(points: seq<Vector>, other: seq<Vector>, t: Triangle,
                           calculate: (Vector, Vector, Vector, Vector, Vector, Vector) -> Calculated)
    requires |other| == |points|
    requires t.a < |HullVertices(points)| && t.b < |HullVertices(points)| && t.c < |HullVertices(points)|
    requires !IsNadirFace(HullVertices(points), t)
    ensures 0 < t.a <= |points| && 0 < t.b <= |points| && 0 < t.c <= |points|
    ensures FaceMatrix(HullVertices(points), t, points, other, calculate)
        == calculate(points[t.a - 1], points[t.b - 1], points[t.c - 1], other[t.a - 1], other[t.b - 1], other[t.c - 1]).forward
  {
    NumberedCorner(points, points, t.a);
    NumberedCorner(points, points, t.b);
    NumberedCorner(points, points, t.c);
    NumberedCorner(points, other, t.a);
    NumberedCorner(points, other, t.b);
    NumberedCorner(points, other, t.c);
  }

  /**
    The matrix a query in direction `query` uses with four or more sync
    points: none when the hull has no faces, the matrix of the face the scan
    of the ray `2 query` stops on when that is not the head, and otherwise
    the fallback matrix, if there is one.
   */
  function QueryMatrix(h: Hull, points: seq<Vector>, query: Vector, fallback: Option<Matrix3>): Option<Matrix3>
    requires Scannable(h, points)
  {
    var ray := Scale(query, 2.0);
    match Scan(h, points, ray)
    case NoFaces => None
    case UseFace(k) => UsedFaceStops(h, points, ray, k); h.faces[k].matrix
    case Fallback => fallback
  }

  /**
    The face whose matrix a query uses: its corners are vertex numbers naming
    three points, the ray crosses the triangle of those points, and the
    matrix used is the one computed from those points to their partners.
   */
  lemma ScannedFaceMatrix(build: HullBuilder, points: seq<Vector>, other: seq<Vector>,
                          calculate: (Vector, Vector, Vector, Vector, Vector, Vector) -> Calculated,
                          query: Vector, fallback: Option<Matrix3>, k: nat)
    requires |points| == |other|
    requires Scan(FilledHull(build, points, other, calculate), points, Scale(query, 2.0)) == UseFace(k)
    ensures var h := FilledHull(build, points, other, calculate);
      k < |h.faces| &&
      var t := h.faces[k].corners;
      0 < t.a <= |points| && 0 < t.b <= |points| && 0 < t.c <= |points|
      && RayTriangleIntersection(Scale(query, 2.0), points[t.a - 1], points[t.b - 1], points[t.c - 1])
      && QueryMatrix(h, points, query, fallback)
        == Some(calculate(points[t.a - 1], points[t.b - 1], points[t.c - 1],
                          other[t.a - 1], other[t.b - 1], other[t.c - 1]).forward)
  {
    var h := FilledHull(build, points, other, calculate);
    var vs := h.vertices;
    UsedFaceStops(h, points, Scale(query, 2.0), k);
    var t := h.faces[k].corners;
    NumberedCorner(points, points, t.a);
    NumberedCorner(points, points, t.b);
    NumberedCorner(points, points, t.c);
    NumberedCorner(points, other, t.a);
    NumberedCorner(points, other, t.b);
    NumberedCorner(points, other, t.c);
    assert h.faces[k].matrix == Some(FaceMatrix(vs, t, points, other, calculate));
  }

  /**
    Face `i` after the matrix pass over the numbered vertex list of `points`,
    starting from an empty slot: same corners, no matrix exactly when it
    touches the nadir, otherwise the matrix its corner numbers name.
   */
  lemma FilledFace(points: seq<Vector>, other: seq<Vector>, fs: seq<Face>,
                   calculate: (Vector, Vector, Vector, Vector, Vector, Vector) -> Calculated, i: nat)
    requires |points| == |other| && FacesWithin(fs, |points| + 1) && i < |fs| && fs[i].matrix.None?
    ensures |HullVertices(points)| == |points| + 1
    ensures var vs := HullVertices(points);
      var f := Filled(vs, fs, points, other, calculate)[i];
      var t := fs[i].corners;
      f.corners == t
      && (IsNadirFace(vs, t) <==> f.matrix.None?)
      && (f.matrix.Some? ==>
            0 < t.a <= |points| && 0 < t.b <= |points| && 0 < t.c <= |points|
            && f.matrix.value == calculate(points[t.a - 1], points[t.b - 1], points[t.c - 1],
                                           other[t.a - 1], other[t.b - 1], other[t.c - 1]).forward)
  {
    var vs := HullVertices(points);
    HullVertexNumbering(points);
    var r := Filled(vs, fs, points, other, calculate);
    var t := fs[i].corners;
    if IsNadirFace(vs, t) {
      assert r[i] == fs[i];
    } else {
      assert r[i].matrix == Some(FaceMatrix(vs, t, points, other, calculate));
      NumberedFaceMatrix(points, other, t, calculate);
    }
  }

  /**
    Face `i` of a filled hull is the builder's triangle `i`; it has no matrix
    exactly when it touches the nadir, and otherwise its matrix is the one
    computed from the points its corners number to their partners.
   */
  lemma FilledHullFace(build: HullBuilder, points: seq<Vector>, other: seq<Vector>,
                       calculate: (Vector, Vector, Vector, Vector, Vector, Vector) -> Calculated, i: nat)
    requires |points| == |other| && i < |FilledHull(build, points, other, calculate).faces|
    ensures var h := FilledHull(build, points, other, calculate);
      i < |build(h.vertices)| && h.faces[i].corners == build(h.vertices)[i]
    ensures var h := FilledHull(build, points, other, calculate);
      IsNadirFace(h.vertices, h.faces[i].corners) <==> h.faces[i].matrix.None?
    ensures var h := FilledHull(build, points, other, calculate);
      var t := h.faces[i].corners;
      h.faces[i].matrix.Some? ==>
        0 < t.a <= |points| && 0 < t.b <= |points| && 0 < t.c <= |points|
        && h.faces[i].matrix.value == calculate(points[t.a - 1], points[t.b - 1], points[t.c - 1],
                                                other[t.a - 1], other[t.b - 1], other[t.c - 1]).forward
  {
    var vs := HullVertices(points);
    HullVertexNumbering(points);
    var fs := Unfilled(build(vs));
    var h := FilledHull(build, points, other, calculate);
    assert h == Hull(vs, Filled(vs, fs, points, other, calculate));
    FilledFace(points, other, fs, calculate, i);
  }
}
