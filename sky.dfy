/**
  The alignment database and the collaborators the plugin calls but does not
  define: libnova coordinate conversion, direction-vector conversion,
  `Normalise`, `CalculateTransformMatrices` and the convex-hull builder.

  Each collaborator is a function value held by the plugin; the system clock
  (`ln_get_julian_from_sys`) is a Julian date passed to each query.
 */
module Sky {
  import opened Vectors
  import opened Wrappers

  /** The hint for the mount's approximate alignment. */
  datatype MountAlignment = Zenith | NorthCelestialPole | SouthCelestialPole

  datatype Equatorial = Equatorial(rightAscension: real, declination: real)

  datatype Horizontal = Horizontal(altitude: real, azimuth: real)

  datatype Position = Position(latitude: real, longitude: real, elevation: real)

  /** One sync point: where the sky was (RA/Dec at a Julian date) and where the telescope pointed. */
  datatype SyncEntry = SyncEntry(
    observationJulianDate: real,
    rightAscension: real,
    declination: real,
    telescopeDirection: Vector)

  /** The in-memory database: its sync points and, when set, the observatory's reference position. */
  datatype Database = Database(syncPoints: seq<SyncEntry>, referencePosition: Option<Position>)

  /**
    What `CalculateTransformMatrices` produces from three actual and three
    apparent directions: a success flag, the forward matrix and its inverse.
   */
  datatype Calculated = Calculated(ok: bool, forward: Matrix3, inverse: Matrix3)

  datatype Converters = Converters(
    equatorialToHorizontal: (Equatorial, Position, real) -> Horizontal,
    horizontalToEquatorial: (Horizontal, Position, real) -> Equatorial,
    vectorFromAltitudeAzimuth: Horizontal -> Vector,
    altitudeAzimuthFromVector: Vector -> Horizontal,
    vectorFromEquatorial: Equatorial -> Vector,
    equatorialFromVector: Vector -> Equatorial,
    normalise: Vector -> Vector,
    calculateTransformMatrices: (Vector, Vector, Vector, Vector, Vector, Vector) -> Calculated)

  /**
    The actual direction cosine of an RA/Dec: for an alt-az (ZENITH) mount the
    horizontal coordinates at the reference position and Julian date `jd`,
    otherwise the equatorial coordinates themselves.
   */
  function ActualDirection(c: Converters, hint: MountAlignment, position: Position,
                           rightAscension: real, declination: real, jd: real): Vector
  {
    var raDec := Equatorial(rightAscension, declination);
    if hint == Zenith then c.vectorFromAltitudeAzimuth(c.equatorialToHorizontal(raDec, position, jd))
    else c.vectorFromEquatorial(raDec)
  }

  /** The actual direction cosine of a sync point, at the point's own observation date. */
  function EntryDirection(c: Converters, hint: MountAlignment, position: Position, e: SyncEntry): Vector {
    ActualDirection(c, hint, position, e.rightAscension, e.declination, e.observationJulianDate)
  }

  /** The celestial coordinates of an actual direction, the inverse path of `ActualDirection` at date `jd`. */
  function CelestialOfDirection(c: Converters, hint: MountAlignment, position: Position, v: Vector, jd: real): Equatorial {
    if hint == Zenith then c.horizontalToEquatorial(c.altitudeAzimuthFromVector(v), position, jd)
    else c.equatorialFromVector(v)
  }

  /** The dummy second direction used with a single sync point. */
  function DummyDirection(c: Converters, hint: MountAlignment): Vector {
    match hint
    case Zenith => Vector(0.0, 0.0, 1.0)
    case NorthCelestialPole => c.vectorFromEquatorial(Equatorial(0.0, 90.0))
    case SouthCelestialPole => c.vectorFromEquatorial(Equatorial(0.0, -90.0))
  }

  /**
    The conversions undo each other at one RA/Dec, reference position and
    date `jd`: for an alt-az mount the horizontal coordinates survive the
    trip through their direction vector and convert back to the RA/Dec;
    otherwise the RA/Dec survives the trip through its direction vector.
    Real conversions meet this only inside their coordinate ranges and away
    from the poles, where right ascension (or azimuth) is lost.
   */
  predicate RoundTripsAt(c: Converters, hint: MountAlignment, position: Position, raDec: Equatorial, jd: real) {
    if hint == Zenith then
      var h := c.equatorialToHorizontal(raDec, position, jd);
      c.altitudeAzimuthFromVector(c.vectorFromAltitudeAzimuth(h)) == h
      && c.horizontalToEquatorial(h, position, jd) == raDec
    else
      c.equatorialFromVector(c.vectorFromEquatorial(raDec)) == raDec
  }

  /**
    Where the conversions round-trip, the celestial coordinates of an actual
    direction at the same date are the ones it came from.
   */
  lemma CelestialOfActualDirection(c: Converters, hint: MountAlignment, position: Position,
                                   rightAscension: real, declination: real, jd: real)
    requires RoundTripsAt(c, hint, position, Equatorial(rightAscension, declination), jd)
    ensures CelestialOfDirection(c, hint, position, ActualDirection(c, hint, position, rightAscension, declination, jd), jd)
      == Equatorial(rightAscension, declination)
  {
  }
}
