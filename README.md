# Basic math plugin of the INDI alignment subsystem, in Dafny

This project models `BasicMathPlugin`, the built-in math plugin of the INDI
alignment subsystem. A telescope driver records *sync points*. Each sync
point pairs a celestial position (RA/Dec at a Julian date) with the
direction the telescope actually pointed. The plugin turns the sync-point
database into an alignment model. It then answers two queries: celestial
coordinates to a telescope direction vector, and the reverse.

- **Initialise** dispatches on the number of sync points:
  - none: nothing is built;
  - one to three: one pair of 3x3 matrices is computed from three actual
    and three apparent directions. Missing directions come from the mount's
    dummy direction and from normalised cross products;
  - four or more: two convex hulls are built, one over the actual and one
    over the apparent direction cosines, each with a dummy vertex 0 at the
    nadir. Every face that does not touch the nadir gets the matrix from its
    three corners.
- **TransformCelestialToTelescope / TransformTelescopeToCelestial** convert
  directly with no sync points and apply the single matrix with one to three.
  With four or more they walk the circular face list from its head:
  - nadir faces are skipped, and the walk stops at the first face that the
    ray `2 * query` crosses (Möller–Trumbore);
  - a stop on any face other than the head uses that face's matrix;
  - a stop on the head face, or no hit at all, falls back to a matrix built
    from the three nearest sync points. They are chosen through an ordered
    map keyed by distance, where a later point at an equal distance replaces
    an earlier one;
  - an empty face list makes the query fail.
- **MatrixVectorMultiply** zeroes its output and accumulates the product.
  **MatrixInvert3x3** fails exactly when the determinant is zero.
  **RayTriangleIntersection** is the Möller–Trumbore test with DBL_EPSILON
  bounds.

Files:
- `wrappers.dfy`: `Option`.
- `vectors.dfy`: vectors and 3x3 matrices over exact reals.
- `numeric.dfy`: the numeric utilities.
- `triple_products.dfy`: the Cramer's-rule algebra behind the intersection
  test.
- `ray_triangle.dfy`: the intersection test.
- `sky.dfy`: the database and the collaborators.
- `hulls.dfy`: hull vertices and faces, the face scan and the matrix pass.
- `nearest.dfy`: the nearest-three selection.
- `engine.dfy`: the plugin class.

The class keeps the source's mutable state as fields:
- the matrix pair;
- both hulls;
- the list of actual direction cosines;
- the database it was initialised with.

`Valid()` ties that state to the database. `Initialise` establishes
`Valid()`, and the transform methods are proved equal to specification
functions. The lemmas say what those functions mean.

## Model

| member | source | states |
|---|---|---|
| NumericUtilities.MatrixVectorMultiply | libs/indibase/alignment/BasicMathPlugin.cpp:892-898 | after zeroing and accumulating, the output buffer holds the matrix-vector product `a b` |
| AlignmentEngine.Apply | libs/indibase/alignment/BasicMathPlugin.cpp:416-428 | a vector passed through length-3 buffers and `MatrixVectorMultiply` comes back as `m v` |
| NumericUtilities.MatrixInvert3x3 | libs/indibase/alignment/BasicMathPlugin.cpp:855-878 | inversion fails exactly when the determinant is zero |
| NumericUtilities.AdjugateRight | libs/indibase/alignment/BasicMathPlugin.cpp:855-878 | the matrix times its adjugate is the determinant times the identity, `m adj(m) = det(m) I` |
| RayTriangle.RayTriangleIntersection | libs/indibase/alignment/BasicMathPlugin.cpp:900-950 | a reported hit always has a determinant outside the (-DBL_EPSILON, DBL_EPSILON) band |
| RayTriangle.CrossingOnRayAndPlane | libs/indibase/alignment/BasicMathPlugin.cpp:906-942 | the `t`, `u`, `v` the test computes name a point that is on the ray and in the triangle's plane |
| RayTriangle.CrossingUnique | libs/indibase/alignment/BasicMathPlugin.cpp:906-942 | when the determinant is not zero, any crossing of ray and plane is the computed one |
| RayTriangle.RayTriangleIntersectionMeaning | libs/indibase/alignment/BasicMathPlugin.cpp:900-950 | hit if and only if the determinant is outside the band and the ray meets the closed triangle at a parameter above DBL_EPSILON |
| Hulls.HullVertexNumbering | libs/indibase/alignment/BasicMathPlugin.cpp:231-259 | vertex 0 is the nadir, every vertex number equals its position, and vertex `i + 1` is sync point `i` |
| Hulls.HullVerticesAppend | libs/indibase/alignment/BasicMathPlugin.cpp:237-259 | adding one more point appends it with the next vertex number |
| Hulls.FirstHitFrom | libs/indibase/alignment/BasicMathPlugin.cpp:457-486 | the result is the first face at or after `k` that is a non-nadir face hit by the ray, or the face count if there is none |
| Hulls.ScanMeaning | libs/indibase/alignment/BasicMathPlugin.cpp:452-561 | the scan finds no faces if and only if the list is empty; uses face `k` if and only if `k` is not the head, face `k` is hit and no earlier face is; and falls back if and only if the head face is hit or no face is |
| Hulls.ScanFaces | libs/indibase/alignment/BasicMathPlugin.cpp:452-487 | the circular walk, with a `break` on a hit or on the return to the head, gives the scan outcome above |
| Hulls.Filled | libs/indibase/alignment/BasicMathPlugin.cpp:272-308 | the matrix pass keeps every face's corners and leaves nadir faces unchanged; every other face gets the matrix from its corners' points to their partners |
| Hulls.FillFaceMatrices | libs/indibase/alignment/BasicMathPlugin.cpp:272-347 | the in-place walk over the circular face list produces that face list, and every non-nadir face then has a matrix |
| Hulls.FilledHull | libs/indibase/alignment/BasicMathPlugin.cpp:227-347 | a hull built and filled over the sync points has their vertex list, is scannable and has all its matrices |
| Hulls.NumberedCorner | libs/indibase/alignment/BasicMathPlugin.cpp:289-295 | a non-nadir corner `v` indexes a list as long as the sync points at position `v - 1` |
| Hulls.NumberedFaceMatrix | libs/indibase/alignment/BasicMathPlugin.cpp:289-295 | a non-nadir face's matrix is computed from points `a - 1`, `b - 1` and `c - 1` to their partners |
| Hulls.FilledHullFace | libs/indibase/alignment/BasicMathPlugin.cpp:272-347 | face `i` of a filled hull is the builder's triangle `i`; it has no matrix exactly when it touches the nadir, and otherwise it has the matrix from the sync points its corners number |
| Hulls.UsedFaceStops | libs/indibase/alignment/BasicMathPlugin.cpp:466-481 | a face whose matrix the scan uses is a non-nadir face the ray hits |
| Hulls.ScannedFaceMatrix | libs/indibase/alignment/BasicMathPlugin.cpp:452-558 | when the scan uses face `k`, the ray crosses the triangle of the three sync points its corners number, and the query matrix is the one computed from those three points |
| Nearest.NearestMapOf | libs/indibase/alignment/BasicMathPlugin.cpp:490-509 | after inserting all distances, the keys are exactly the distances, and each key maps to the last position holding it |
| Nearest.LeastAbove | libs/indibase/alignment/BasicMathPlugin.cpp:511-516 | advancing the map iterator gives the least distance above the previous key, or nothing if no distance is above it |
| Nearest.NearestThreeChosen | libs/indibase/alignment/BasicMathPlugin.cpp:490-516 | the chosen points are the nearest point, then the nearest point farther than it, then the next; each is the last point at its distance |
| Nearest.NearestThreeExists | libs/indibase/alignment/BasicMathPlugin.cpp:511-516 | a choice exists if and only if there are three distinct distances |
| Nearest.NearestThree | libs/indibase/alignment/BasicMathPlugin.cpp:490-516 | the insertion loop, then three iterator steps, give the choice above |
| AlignmentEngine.Triad | libs/indibase/alignment/BasicMathPlugin.cpp:62-219 | sync point `i` gives direction `i` in both frames; with one point the second direction is the mount's dummy direction; with fewer than three the third is the normalised cross product of the first two, in each frame |
| AlignmentEngine.BasicMathPlugin.constructor | libs/indibase/alignment/BasicMathPlugin.cpp:25-29 | a new plugin has no database, empty hulls and a valid state |
| AlignmentEngine.BasicMathPlugin.Initialise | libs/indibase/alignment/BasicMathPlugin.cpp:41-359 | always stores the database; succeeds if and only if there are no sync points or the reference position is set; a failure or an empty database changes nothing else; with one to three points it sets the matrix pair from the directions; with four or more it builds the direction cosines and both filled hulls, and ignores whether the matrices could be computed; the state is valid afterwards |
| AlignmentEngine.BasicMathPlugin.ResetVertices | libs/indibase/alignment/BasicMathPlugin.cpp:227-262 | the direction cosines are the sync points' actual directions, the hulls hold the nadir plus every point with its vertex number, and nothing else changes |
| AlignmentEngine.BasicMathPlugin.TransformCelestialToTelescope | libs/indibase/alignment/BasicMathPlugin.cpp:361-587 | the method's result equals `CelestialToTelescope`, the model's answer for each sync-point count, including the failures (no database or position, no faces, no three distinct distances) |
| AlignmentEngine.BasicMathPlugin.TransformTelescopeToCelestial | libs/indibase/alignment/BasicMathPlugin.cpp:589-813 | the method's result equals `TelescopeToCelestial`, the same walk over the apparent hull followed by the conversion back to RA/Dec |
| AlignmentEngine.BasicMathPlugin.VertexNumbersNameSyncPoints | libs/indibase/alignment/BasicMathPlugin.cpp:231-259 | in a valid model with four or more points, both hulls have the nadir as vertex 0 and sync point `v - 1` as vertex `v`, and direction cosine `v - 1` is that point's actual direction |
| AlignmentEngine.BasicMathPlugin.ZeroPointRoundTrip | libs/indibase/alignment/BasicMathPlugin.cpp:377-401 | with no sync points, where the conversions round-trip at this RA/Dec, reference position and date (`RoundTripsAt`), celestial to telescope and back returns the RA/Dec, when the second clock reading includes the Julian offset |
| AlignmentEngine.BasicMathPlugin.CelestialQueryOnFace | libs/indibase/alignment/BasicMathPlugin.cpp:452-577 | when the scan of the actual hull uses face `k`, the query crosses that face's triangle of direction cosines, and the answer is the normalised product with the matrix from those three points' actual to telescope directions |
| AlignmentEngine.BasicMathPlugin.TelescopeQueryOnFace | libs/indibase/alignment/BasicMathPlugin.cpp:683-802 | when the scan of the apparent hull uses face `k`, the query crosses that face's triangle of telescope directions, and the answer converts the normalised product with the matrix from telescope to actual directions |
| Sky.CelestialOfActualDirection | libs/indibase/alignment/BasicMathPlugin.cpp:610-639 | where the conversions round-trip at this RA/Dec, position and date (`RoundTripsAt`), converting the actual direction back at the same date recovers the RA/Dec it came from |

## Left out

- Floating point: all arithmetic is exact over `real`, so the model has no rounding. Square roots are left out: nearest-point distances are compared squared, which keeps their order and their ties.
- GSL: the LU decomposition and the BLAS kernels are not modelled. `Matrix3x3Determinant` is the exact determinant `Vectors.Det`. `MatrixMatrixMultiply` is not modelled: none of the modelled operations calls it.
- NumericUtilities.MatrixInvert3x3: its contract states only when inversion fails. That a successful result is an inverse of `m` is not proved: `AdjugateRight` gives `m adj(m) = det(m) I`, but the division by the determinant and the left-inverse identity are not carried through.
- libnova, `TelescopeDirectionVector` conversions, `Normalise`, `CalculateTransformMatrices` and the convex-hull builder (`DoubleTriangle`, `ConstructHull`, `EdgeOrderOnFaces`): these are given functions (`Sky.Converters`, `Hulls.HullBuilder`). Two properties of them are assumed:
  - `Hulls.HullBuilder` is a subset type. It admits only builders whose triangles index the vertices they were given: every corner is below the length of the vertex list. The scan and the matrix pass rely on this, as the source relies on `ConstructHull` building faces from its own vertices.
  - `Sky.RoundTripsAt` is a precondition of `ZeroPointRoundTrip` and `CelestialOfActualDirection`. It is stated for the one RA/Dec, position and date of the query. Real conversions do not round-trip everywhere. At the poles (declination ±90°, or altitude ±90° for an alt-az mount) the direction vector loses the right ascension or the azimuth. Outside their ranges the coordinates wrap: right ascension every 24 hours, azimuth every 360°. So no global inverse is assumed.
- The builder's faces are indices into the vertex list, not pointers. Vertex and face memory management (`Reset`, `MakeNewVertex` allocation, `gsl_*_alloc` and `free`) is not modelled.
- The system clock (`ln_get_julian_from_sys`) is the parameter `now` of each query.
- The database is a snapshot stored by `Initialise`. The source keeps a pointer and re-reads the live database in each query. The model therefore covers the documented use, where the plugin is re-initialised after the database changes.
- Uninitialised GSL matrices: before any model is computed, the matrix pair is `Zero()`.
- The fallback with fewer than three distinct distances reads past the end of the map in the source (undefined behaviour). The model reports failure (`None`) instead.
- The cross product is taken to be the standard right-handed one. The operators of `TelescopeDirectionVector` are not part of this model.
- The `Dump3`, `Dump3x3` and debug logging output, the `CONVEX_HULL_DEBUGGING` blocks and the destructor: none of them changes the model.
- Setting the approximate mount alignment: the hint is a constant field fixed at construction.
