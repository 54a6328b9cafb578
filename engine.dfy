/**
  The basic math plugin: the alignment model it builds from the sync-point
  database, and the two transforms between celestial coordinates and
  telescope direction vectors that query it.

  With no sync points the transforms only convert coordinates; with one to
  three points a single pair of matrices maps actual to apparent directions
  and back; with four or more, two convex hulls (over the actual and over
  the apparent directions) hold a matrix per face, and a query uses the
  matrix of the face its direction crosses, or else one computed from the
  three nearest sync points.
 */
module AlignmentEngine {
  import opened Vectors
  import opened Wrappers
  import opened NumericUtilities
  import opened Sky
  import opened Hulls
  import opened Nearest
  import opened RayTriangle

  /** The actual direction cosines of the sync points, in database order. */
  function EntryDirections(c: Converters, hint: MountAlignment, position: Position, entries: seq<SyncEntry>): (r: seq<Vector>)
    ensures |r| == |entries|
    ensures forall i :: 0 <= i < |entries| ==> r[i] == EntryDirection(c, hint, position, entries[i])
  {
    seq(|entries|, i requires 0 <= i < |entries| => EntryDirection(c, hint, position, entries[i]))
  }

  /** The apparent (telescope) directions of the sync points, in database order. */
  function TelescopeDirections(entries: seq<SyncEntry>): (r: seq<Vector>)
    ensures |r| == |entries|
    ensures forall i :: 0 <= i < |entries| ==> r[i] == entries[i].telescopeDirection
  {
    seq(|entries|, i requires 0 <= i < |entries| => entries[i].telescopeDirection)
  }

  /** Distances, squared, from each of `points` to `query`. */
  function Distances(points: seq<Vector>, query: Vector): (r: seq<real>)
    ensures |r| == |points|
    ensures forall i :: 0 <= i < |points| ==> r[i] == SquaredDistance(points[i], query)
  {
    seq(|points|, i requires 0 <= i < |points| => SquaredDistance(points[i], query))
  }

  /** The three actual and three apparent directions a one-to-three-point model is computed from. */
  datatype Directions = Directions(actual1: Vector, actual2: Vector, actual3: Vector,
                                   apparent1: Vector, apparent2: Vector, apparent3: Vector)

  /**
    The directions of a model with one, two or three sync points. Sync
    point `i` gives the `i`-th actual and apparent directions. With one
    point the second direction is the mount's dummy direction, the same in
    both frames. With fewer than three points the third direction is the
    normalised cross product of the first two, taken in each frame apart.
   */
  function Triad(c: Converters, hint: MountAlignment, position: Position, entries: seq<SyncEntry>): (d: Directions)
    requires 1 <= |entries| <= 3
    ensures d.actual1 == EntryDirection(c, hint, position, entries[0])
    ensures d.apparent1 == entries[0].telescopeDirection
    ensures |entries| == 1 ==> d.actual2 == DummyDirection(c, hint) && d.apparent2 == DummyDirection(c, hint)
    ensures |entries| >= 2 ==>
      d.actual2 == EntryDirection(c, hint, position, entries[1]) && d.apparent2 == entries[1].telescopeDirection
    ensures |entries| < 3 ==>
      d.actual3 == c.normalise(Cross(d.actual1, d.actual2)) && d.apparent3 == c.normalise(Cross(d.apparent1, d.apparent2))
    ensures |entries| == 3 ==>
      d.actual3 == EntryDirection(c, hint, position, entries[2]) && d.apparent3 == entries[2].telescopeDirection
  {
    var actual1 := EntryDirection(c, hint, position, entries[0]);
    var apparent1 := entries[0].telescopeDirection;
    if |entries| == 1 then
      var dummy := DummyDirection(c, hint);
      Directions(actual1, dummy, c.normalise(Cross(actual1, dummy)),
                 apparent1, dummy, c.normalise(Cross(apparent1, dummy)))
    else
      var actual2 := EntryDirection(c, hint, position, entries[1]);
      var apparent2 := entries[1].telescopeDirection;
      if |entries| == 2 then
        Directions(actual1, actual2, c.normalise(Cross(actual1, actual2)),
                   apparent1, apparent2, c.normalise(Cross(apparent1, apparent2)))
      else
        Directions(actual1, actual2, EntryDirection(c, hint, position, entries[2]),
                   apparent1, apparent2, entries[2].telescopeDirection)
  }

  /** What `CalculateTransformMatrices` gives for the directions of a one-to-three-point model. */
  function TriadMatrices(c: Converters, hint: MountAlignment, position: Position, entries: seq<SyncEntry>): Calculated
    requires 1 <= |entries| <= 3
  {
    var d := Triad(c, hint, position, entries);
    c.calculateTransformMatrices(d.actual1, d.actual2, d.actual3, d.apparent1, d.apparent2, d.apparent3)
  }

  /** The fallback matrix of a celestial-to-telescope query: from the three chosen points' actual to apparent directions. */
  function ForwardFallback(c: Converters, hint: MountAlignment, position: Position, entries: seq<SyncEntry>, t: Three): Matrix3
    requires t.first < |entries| && t.second < |entries| && t.third < |entries|
  {
    var e1, e2, e3 := entries[t.first], entries[t.second], entries[t.third];
    c.calculateTransformMatrices(
      EntryDirection(c, hint, position, e1), EntryDirection(c, hint, position, e2), EntryDirection(c, hint, position, e3),
      e1.telescopeDirection, e2.telescopeDirection, e3.telescopeDirection).forward
  }

  /** The fallback matrix of a telescope-to-celestial query: from the three chosen points' apparent to actual directions. */
  function BackwardFallback(c: Converters, hint: MountAlignment, position: Position, entries: seq<SyncEntry>, t: Three): Matrix3
    requires t.first < |entries| && t.second < |entries| && t.third < |entries|
  {
    var e1, e2, e3 := entries[t.first], entries[t.second], entries[t.third];
    c.calculateTransformMatrices(
      e1.telescopeDirection, e2.telescopeDirection, e3.telescopeDirection,
      EntryDirection(c, hint, position, e1), EntryDirection(c, hint, position, e2), EntryDirection(c, hint, position, e3)).forward
  }

  /** The fallback of a celestial-to-telescope query: the matrix from the three nearest sync points, if they exist. */
  function CelestialFallback(c: Converters, hint: MountAlignment, position: Position, entries: seq<SyncEntry>,
                             actual: Vector): Option<Matrix3>
  {
    var chosen := NearestThreeOf(Distances(EntryDirections(c, hint, position, entries), actual));
    if chosen.None? then None else Some(ForwardFallback(c, hint, position, entries, chosen.value))
  }

  /** The fallback of a telescope-to-celestial query: the matrix from the three nearest sync points, if they exist. */
  function TelescopeFallback(c: Converters, hint: MountAlignment, position: Position, entries: seq<SyncEntry>,
                             apparent: Vector): Option<Matrix3>
  {
    var chosen := NearestThreeOf(Distances(TelescopeDirections(entries), apparent));
    if chosen.None? then None else Some(BackwardFallback(c, hint, position, entries, chosen.value))
  }

  /** `m v`, through length-3 buffers as the plugin passes vectors to `MatrixVectorMultiply`. */
  method Apply(m: Matrix3, v: Vector) returns (r: Vector)
    ensures r == MatVec(m, v)
  {
    var input := new real[3];
    input[0], input[1], input[2] := v.x, v.y, v.z;
    var output := new real[3];
    MatrixVectorMultiply(m, input, output);
    assert input[..] == [v.x, v.y, v.z];
    r := Vector(output[0], output[1], output[2]);
  }

  class BasicMathPlugin {
    /** The coordinate conversions, `Normalise` and `CalculateTransformMatrices`. */
    const converters: Converters
    /** The convex-hull builder. */
    const buildHull: HullBuilder
    const approximateMountAlignment: MountAlignment

    /** The database given to the last `Initialise`, if any. */
    var database: Option<Database>
    var actualToApparent: Matrix3
    var apparentToActual: Matrix3
    var actualHull: Hull
    var apparentHull: Hull
    var actualDirectionCosines: seq<Vector>

    /**
      The model matches the database: with one to three points the matrix
      pair is the one computed from their directions; with four or more the
      direction cosines are the sync points' actual directions and the two
      hulls are built over the actual and the apparent directions, with the
      matrix pass done.
     */
    ghost predicate Valid()
      reads this
    {
      database.Some? && database.value.referencePosition.Some? ==>
        var entries := database.value.syncPoints;
        var position := database.value.referencePosition.value;
        var c := converters;
        (1 <= |entries| <= 3 ==>
          var m := TriadMatrices(c, approximateMountAlignment, position, entries);
          actualToApparent == m.forward && apparentToActual == m.inverse)
        && (4 <= |entries| ==>
          actualDirectionCosines == EntryDirections(c, approximateMountAlignment, position, entries)
          && actualHull == FilledHull(buildHull, actualDirectionCosines, TelescopeDirections(entries), c.calculateTransformMatrices)
          && apparentHull == FilledHull(buildHull, TelescopeDirections(entries), actualDirectionCosines, c.calculateTransformMatrices))
    }

    /** A plugin with no database, empty hulls and (not yet computed) zero matrices. */
    constructor(converters: Converters, buildHull: HullBuilder, approximateMountAlignment: MountAlignment)
      ensures this.converters == converters && this.buildHull == buildHull
      ensures this.approximateMountAlignment == approximateMountAlignment
      ensures database == None && actualHull == Hull([], []) && apparentHull == Hull([], [])
      ensures actualDirectionCosines == [] && actualToApparent == Zero() && apparentToActual == Zero()
      ensures Valid()
    {
      this.converters := converters;
      this.buildHull := buildHull;
      this.approximateMountAlignment := approximateMountAlignment;
      database := None;
      actualToApparent := Zero();
      apparentToActual := Zero();
      actualHull := Hull([], []);
      apparentHull := Hull([], []);
      actualDirectionCosines := [];
    }

    /**
      Builds the model for `db`. It succeeds without looking at the
      reference position when there are no sync points, and otherwise
      exactly when the reference position is set; whether the matrices can
      be computed is never checked. A failure leaves the model as it was.
     */
    method Initialise(db: Database) returns (ok: bool)
      modifies this
      ensures database == Some(db)
      ensures ok <==> |db.syncPoints| == 0 || db.referencePosition.Some?
      ensures !ok || |db.syncPoints| == 0 ==>
        actualToApparent == old(actualToApparent) && apparentToActual == old(apparentToActual)
        && actualHull == old(actualHull) && apparentHull == old(apparentHull)
        && actualDirectionCosines == old(actualDirectionCosines)
      ensures ok && 1 <= |db.syncPoints| <= 3 ==>
        var m := TriadMatrices(converters, approximateMountAlignment, db.referencePosition.value, db.syncPoints);
        actualToApparent == m.forward && apparentToActual == m.inverse
        && actualHull == old(actualHull) && apparentHull == old(apparentHull)
        && actualDirectionCosines == old(actualDirectionCosines)
      ensures ok && 4 <= |db.syncPoints| ==>
        var cosines := EntryDirections(converters, approximateMountAlignment, db.referencePosition.value, db.syncPoints);
        var telescope := TelescopeDirections(db.syncPoints);
        actualDirectionCosines == cosines
        && actualHull == FilledHull(buildHull, cosines, telescope, converters.calculateTransformMatrices)
        && apparentHull == FilledHull(buildHull, telescope, cosines, converters.calculateTransformMatrices)
        && actualToApparent == old(actualToApparent) && apparentToActual == old(apparentToActual)
      ensures Valid()
    {
      database := Some(db);
      var syncPoints := db.syncPoints;
      if |syncPoints| == 0 {
        return true;
      }
      if db.referencePosition.None? {
        return false;
      }
      var position := db.referencePosition.value;
      if |syncPoints| <= 3 {
        var d := Triad(converters, approximateMountAlignment, position, syncPoints);
        var m := converters.calculateTransformMatrices(d.actual1, d.actual2, d.actual3,
                                                       d.apparent1, d.apparent2, d.apparent3);
        actualToApparent := m.forward;
        apparentToActual := m.inverse;
        return true;
      }
      ResetVertices(position, syncPoints);
      var telescope := TelescopeDirections(syncPoints);
      HullVertexNumbering(actualDirectionCosines);
      HullVertexNumbering(telescope);
      actualHull := actualHull.(faces := Unfilled(buildHull(actualHull.vertices)));
      apparentHull := apparentHull.(faces := Unfilled(buildHull(apparentHull.vertices)));
      actualHull := FillFaceMatrices(actualHull, actualDirectionCosines, telescope, converters.calculateTransformMatrices);
      apparentHull := FillFaceMatrices(apparentHull, telescope, actualDirectionCosines, converters.calculateTransformMatrices);
      return true;
    }

    /**
      The hulls reset to the nadir vertex alone, then every sync point, in
      order, added to both with the next vertex number: its actual direction
      to the actual hull and to the direction cosines, its telescope
      direction to the apparent hull.
     */
    method ResetVertices(position: Position, syncPoints: seq<SyncEntry>)
      modifies this
      ensures actualDirectionCosines == EntryDirections(converters, approximateMountAlignment, position, syncPoints)
      ensures actualHull == Hull(HullVertices(actualDirectionCosines), [])
      ensures apparentHull == Hull(HullVertices(TelescopeDirections(syncPoints)), [])
      ensures database == old(database)
      ensures actualToApparent == old(actualToApparent) && apparentToActual == old(apparentToActual)
    {
      actualHull := Hull([Nadir], []);
      apparentHull := Hull([Nadir], []);
      actualDirectionCosines := [];
      var vertexNumber := 1;
      for i := 0 to |syncPoints|
        invariant vertexNumber == i + 1
        invariant actualDirectionCosines == EntryDirections(converters, approximateMountAlignment, position, syncPoints[..i])
        invariant actualHull == Hull(HullVertices(actualDirectionCosines), [])
        invariant apparentHull == Hull(HullVertices(TelescopeDirections(syncPoints[..i])), [])
        invariant database == old(database)
        invariant actualToApparent == old(actualToApparent) && apparentToActual == old(apparentToActual)
      {
        var direction := EntryDirection(converters, approximateMountAlignment, position, syncPoints[i]);
        HullVerticesAppend(actualDirectionCosines, direction);
        HullVerticesAppend(TelescopeDirections(syncPoints[..i]), syncPoints[i].telescopeDirection);
        assert EntryDirections(converters, approximateMountAlignment, position, syncPoints[..i + 1])
          == actualDirectionCosines + [direction];
        assert TelescopeDirections(syncPoints[..i + 1]) == TelescopeDirections(syncPoints[..i]) + [syncPoints[i].telescopeDirection];
        actualDirectionCosines := actualDirectionCosines + [direction];
        actualHull := actualHull.(vertices := actualHull.vertices + [VertexAt(direction, vertexNumber)]);
        apparentHull := apparentHull.(vertices := apparentHull.vertices + [VertexAt(syncPoints[i].telescopeDirection, vertexNumber)]);
        vertexNumber := vertexNumber + 1;
      }
      assert syncPoints[..|syncPoints|] == syncPoints;
    }

    /**
      The apparent telescope direction of an RA/Dec, with the clock reading
      `now` advanced by `julianOffset`; None when there is no database or no
      reference position, when the actual hull has no faces, or when the
      fallback finds fewer than three distinct distances.
     */
    function CelestialToTelescope(rightAscension: real, declination: real, julianOffset: real, now: real): Option<Vector>
      reads this
      requires Valid()
    {
      if database.None? || database.value.referencePosition.None? then None
      else
        var entries := database.value.syncPoints;
        var position := database.value.referencePosition.value;
        var c := converters;
        var actual := ActualDirection(c, approximateMountAlignment, position, rightAscension, declination, now + julianOffset);
        if |entries| == 0 then Some(actual)
        else if |entries| <= 3 then Some(c.normalise(MatVec(actualToApparent, actual)))
        else
          var fallback := CelestialFallback(c, approximateMountAlignment, position, entries, actual);
          var m := QueryMatrix(actualHull, actualDirectionCosines, actual, fallback);
          if m.None? then None else Some(c.normalise(MatVec(m.value, actual)))
    }

    /**
      The celestial coordinates of an apparent telescope direction at clock
      reading `now`; None in the same cases as `CelestialToTelescope`, with
      the apparent hull in place of the actual one.
     */
    function TelescopeToCelestial(apparent: Vector, now: real): Option<Equatorial>
      reads this
      requires Valid()
    {
      if database.None? || database.value.referencePosition.None? then None
      else
        var entries := database.value.syncPoints;
        var position := database.value.referencePosition.value;
        var c := converters;
        var hint := approximateMountAlignment;
        if |entries| == 0 then Some(CelestialOfDirection(c, hint, position, apparent, now))
        else if |entries| <= 3 then
          Some(CelestialOfDirection(c, hint, position, c.normalise(MatVec(apparentToActual, apparent)), now))
        else
          var telescope := TelescopeDirections(entries);
          var fallback := TelescopeFallback(c, hint, position, entries, apparent);
          var m := QueryMatrix(apparentHull, telescope, apparent, fallback);
          if m.None? then None
          else Some(CelestialOfDirection(c, hint, position, c.normalise(MatVec(m.value, apparent)), now))
    }

    /**
      TransformCelestialToTelescope: the facet scan, the nearest-three
      fallback and the matrix product as the plugin runs them.
     */
    method TransformCelestialToTelescope(rightAscension: real, declination: real, julianOffset: real, now: real)
      returns (r: Option<Vector>)
      requires Valid()
      ensures r == CelestialToTelescope(rightAscension, declination, julianOffset, now)
    {
      if database.None? || database.value.referencePosition.None? {
        return None;
      }
      var entries := database.value.syncPoints;
      var position := database.value.referencePosition.value;
      var actual := ActualDirection(converters, approximateMountAlignment, position, rightAscension, declination, now + julianOffset);
      if |entries| == 0 {
        return Some(actual);
      }
      if |entries| <= 3 {
        var apparent := Apply(actualToApparent, actual);
        return Some(converters.normalise(apparent));
      }
      var ray := Scale(actual, 2.0);
      var outcome := ScanFaces(actualHull, actualDirectionCosines, ray);
      var transform: Matrix3;
      match outcome {
        case NoFaces =>
          return None;
        case UseFace(k) =>
          UsedFaceStops(actualHull, actualDirectionCosines, ray, k);
          transform := actualHull.faces[k].matrix.value;
        case Fallback =>
          var chosen := NearestThree(Distances(EntryDirections(converters, approximateMountAlignment, position, entries), actual));
          if chosen.None? {
            return None;
          }
          transform := ForwardFallback(converters, approximateMountAlignment, position, entries, chosen.value);
      }
      var apparent := Apply(transform, actual);
      r := Some(converters.normalise(apparent));
    }

    /**
      TransformTelescopeToCelestial: the same walk over the apparent hull,
      then the conversion of the actual direction to RA/Dec.
     */
    method TransformTelescopeToCelestial(apparent: Vector, now: real) returns (r: Option<Equatorial>)
      requires Valid()
      ensures r == TelescopeToCelestial(apparent, now)
    {
      if database.None? || database.value.referencePosition.None? {
        return None;
      }
      var entries := database.value.syncPoints;
      var position := database.value.referencePosition.value;
      var hint := approximateMountAlignment;
      if |entries| == 0 {
        return Some(CelestialOfDirection(converters, hint, position, apparent, now));
      }
      if |entries| <= 3 {
        var actual := Apply(apparentToActual, apparent);
        return Some(CelestialOfDirection(converters, hint, position, converters.normalise(actual), now));
      }
      var ray := Scale(apparent, 2.0);
      var telescope := TelescopeDirections(entries);
      var outcome := ScanFaces(apparentHull, telescope, ray);
      var transform: Matrix3;
      match outcome {
        case NoFaces =>
          return None;
        case UseFace(k) =>
          UsedFaceStops(apparentHull, telescope, ray, k);
          transform := apparentHull.faces[k].matrix.value;
        case Fallback =>
          var chosen := NearestThree(Distances(telescope, apparent));
          if chosen.None? {
            return None;
          }
          transform := BackwardFallback(converters, hint, position, entries, chosen.value);
      }
      var actual := Apply(transform, apparent);
      r := Some(CelestialOfDirection(converters, hint, position, converters.normalise(actual), now));
    }
  
    /**
      With four or more sync points both hulls have the nadir as vertex 0
      and sync point `v - 1` as vertex `v`: the actual hull at its actual
      direction, which is also entry `v - 1` of the direction cosines, and
      the apparent hull at its telescope direction.
     */
    lemma VertexNumbersNameSyncPoints()
      requires Valid() && database.Some? && database.value.referencePosition.Some?
      requires 4 <= |database.value.syncPoints|
      ensures var entries := database.value.syncPoints;
        |actualHull.vertices| == |entries| + 1 && |apparentHull.vertices| == |entries| + 1
        && |actualDirectionCosines| == |entries|
        && actualHull.vertices[0] == Nadir && apparentHull.vertices[0] == Nadir
      ensures var entries := database.value.syncPoints;
        var position := database.value.referencePosition.value;
        forall v :: 0 < v <= |entries| ==>
          actualHull.vertices[v] == VertexAt(EntryDirection(converters, approximateMountAlignment, position, entries[v - 1]), v)
          && apparentHull.vertices[v] == VertexAt(entries[v - 1].telescopeDirection, v)
          && v - 1 < |actualDirectionCosines|
          && actualDirectionCosines[v - 1] == EntryDirection(converters, approximateMountAlignment, position, entries[v - 1])
    {
      var entries := database.value.syncPoints;
      var position := database.value.referencePosition.value;
      var cosines := actualDirectionCosines;
      var telescope := TelescopeDirections(entries);
      assert cosines == EntryDirections(converters, approximateMountAlignment, position, entries);
      assert actualHull.vertices == HullVertices(cosines);
      assert apparentHull.vertices == HullVertices(telescope);
      HullVertexNumbering(cosines);
      HullVertexNumbering(telescope);
      assert |cosines| == |entries| && |telescope| == |entries|;
      forall v | 0 < v <= |entries|
        ensures actualHull.vertices[v] == VertexAt(EntryDirection(converters, approximateMountAlignment, position, entries[v - 1]), v)
        ensures apparentHull.vertices[v] == VertexAt(entries[v - 1].telescopeDirection, v)
        ensures cosines[v - 1] == EntryDirection(converters, approximateMountAlignment, position, entries[v - 1])
      {
        assert actualHull.vertices[v] == VertexAt(cosines[v - 1], v);
        assert apparentHull.vertices[v] == VertexAt(telescope[v - 1], v);
        assert cosines[v - 1] == EntryDirection(converters, approximateMountAlignment, position, entries[v - 1]);
        assert telescope[v - 1] == entries[v - 1].telescopeDirection;
      }
    }

    /**
      With no sync points, and conversions that undo each other at this
      RA/Dec, converting it to a telescope direction and back gives it again,
      provided the clock reading of the second call is the first's advanced
      by the Julian offset (the reverse transform takes no offset).
     */
    lemma ZeroPointRoundTrip(rightAscension: real, declination: real, julianOffset: real, now: real)
      requires Valid() && database.Some? && database.value.referencePosition.Some?
      requires |database.value.syncPoints| == 0
      requires RoundTripsAt(converters, approximateMountAlignment, database.value.referencePosition.value,
                            Equatorial(rightAscension, declination), now + julianOffset)
      ensures var apparent := CelestialToTelescope(rightAscension, declination, julianOffset, now);
        apparent.Some?
        && TelescopeToCelestial(apparent.value, now + julianOffset) == Some(Equatorial(rightAscension, declination))
    {
      CelestialOfActualDirection(converters, approximateMountAlignment, database.value.referencePosition.value,
                                 rightAscension, declination, now + julianOffset);
    }

    /**
      When the scan of the actual hull stops on face `k`, the query crosses
      the triangle of the direction cosines the face's corners number, and
      its result is the normalised product with the matrix computed from
      those three sync points' actual to telescope directions.
     */
    lemma CelestialQueryOnFace(rightAscension: real, declination: real, julianOffset: real, now: real, k: nat)
      requires Valid() && database.Some? && database.value.referencePosition.Some?
      requires 4 <= |database.value.syncPoints|
      requires Scan(actualHull, actualDirectionCosines,
                    Scale(ActualDirection(converters, approximateMountAlignment, database.value.referencePosition.value,
                                          rightAscension, declination, now + julianOffset), 2.0)) == UseFace(k)
      ensures k < |actualHull.faces|
      ensures var t := actualHull.faces[k].corners;
        0 < t.a <= |actualDirectionCosines| && 0 < t.b <= |actualDirectionCosines| && 0 < t.c <= |actualDirectionCosines|
      ensures var actual := ActualDirection(converters, approximateMountAlignment, database.value.referencePosition.value,
                                            rightAscension, declination, now + julianOffset);
        var cosines := actualDirectionCosines;
        var t := actualHull.faces[k].corners;
        RayTriangleIntersection(Scale(actual, 2.0), cosines[t.a - 1], cosines[t.b - 1], cosines[t.c - 1])
      ensures var actual := ActualDirection(converters, approximateMountAlignment, database.value.referencePosition.value,
                                            rightAscension, declination, now + julianOffset);
        var cosines := actualDirectionCosines;
        var telescope := TelescopeDirections(database.value.syncPoints);
        var t := actualHull.faces[k].corners;
        CelestialToTelescope(rightAscension, declination, julianOffset, now)
          == Some(converters.normalise(MatVec(converters.calculateTransformMatrices(
               cosines[t.a - 1], cosines[t.b - 1], cosines[t.c - 1],
               telescope[t.a - 1], telescope[t.b - 1], telescope[t.c - 1]).forward, actual)))
    {
      var entries := database.value.syncPoints;
      var position := database.value.referencePosition.value;
      var c := converters;
      var actual := ActualDirection(c, approximateMountAlignment, position, rightAscension, declination, now + julianOffset);
      var fallback := CelestialFallback(c, approximateMountAlignment, position, entries, actual);
      var m := QueryMatrix(actualHull, actualDirectionCosines, actual, fallback);
      assert CelestialToTelescope(rightAscension, declination, julianOffset, now)
        == if m.None? then None else Some(c.normalise(MatVec(m.value, actual)));
      ScannedFaceMatrix(buildHull, actualDirectionCosines, TelescopeDirections(entries), c.calculateTransformMatrices,
                        actual, fallback, k);
    }

    /**
      When the scan of the apparent hull stops on face `k`, the query crosses
      the triangle of the telescope directions the face's corners number,
      and its result is the celestial position of the normalised product
      with the matrix computed from those three sync points' telescope to
      actual directions.
     */
    lemma TelescopeQueryOnFace(apparent: Vector, now: real, k: nat)
      requires Valid() && database.Some? && database.value.referencePosition.Some?
      requires 4 <= |database.value.syncPoints|
      requires Scan(apparentHull, TelescopeDirections(database.value.syncPoints), Scale(apparent, 2.0)) == UseFace(k)
      ensures k < |apparentHull.faces|
      ensures var t := apparentHull.faces[k].corners;
        var telescope := TelescopeDirections(database.value.syncPoints);
        0 < t.a <= |telescope| && 0 < t.b <= |telescope| && 0 < t.c <= |telescope|
      ensures var telescope := TelescopeDirections(database.value.syncPoints);
        var t := apparentHull.faces[k].corners;
        RayTriangleIntersection(Scale(apparent, 2.0), telescope[t.a - 1], telescope[t.b - 1], telescope[t.c - 1])
      ensures var position := database.value.referencePosition.value;
        var cosines := actualDirectionCosines;
        var telescope := TelescopeDirections(database.value.syncPoints);
        var t := apparentHull.faces[k].corners;
        var m := converters.calculateTransformMatrices(telescope[t.a - 1], telescope[t.b - 1], telescope[t.c - 1],
                                                       cosines[t.a - 1], cosines[t.b - 1], cosines[t.c - 1]).forward;
        TelescopeToCelestial(apparent, now)
          == Some(CelestialOfDirection(converters, approximateMountAlignment, position,
                                       converters.normalise(MatVec(m, apparent)), now))
    {
      var entries := database.value.syncPoints;
      var position := database.value.referencePosition.value;
      var c := converters;
      var hint := approximateMountAlignment;
      var telescope := TelescopeDirections(entries);
      var fallback := TelescopeFallback(c, hint, position, entries, apparent);
      var m := QueryMatrix(apparentHull, telescope, apparent, fallback);
      assert TelescopeToCelestial(apparent, now)
        == if m.None? then None else Some(CelestialOfDirection(c, hint, position, c.normalise(MatVec(m.value, apparent)), now));
      ScannedFaceMatrix(buildHull, telescope, actualDirectionCosines, c.calculateTransformMatrices,
                        apparent, fallback, k);
    }
  }
}
