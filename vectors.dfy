/**
  Direction-cosine vectors and 3x3 matrices over exact reals.

  A `Vector` is the model of a `TelescopeDirectionVector` (and of a length-3
  `gsl_vector`); a `Matrix3` is the model of a 3x3 `gsl_matrix`, stored by rows.
  The operator `*` between two direction vectors is the cross product and `^`
  the dot product; both are written out here.
 */
module Vectors {

  datatype Vector = Vector(x: real, y: real, z: real)

  datatype Matrix3 = Matrix3(r0: Vector, r1: Vector, r2: Vector)

  function Add(a: Vector, b: Vector): Vector {
    Vector(a.x + b.x, a.y + b.y, a.z + b.z)
  }

  function Sub(a: Vector, b: Vector): Vector {
    Vector(a.x - b.x, a.y - b.y, a.z - b.z)
  }

  function Neg(a: Vector): Vector {
    Vector(-a.x, -a.y, -a.z)
  }

  function Scale(a: Vector, s: real): Vector {
    Vector(a.x * s, a.y * s, a.z * s)
  }

  function Dot(a: Vector, b: Vector): real {
    a.x * b.x + a.y * b.y + a.z * b.z
  }

  function Cross(a: Vector, b: Vector): Vector {
    Vector(a.y * b.z - a.z * b.y, a.z * b.x - a.x * b.z, a.x * b.y - a.y * b.x)
  }

  /** Square of the Euclidean length of `a - b`. */
  function SquaredDistance(a: Vector, b: Vector): real {
    var d := Sub(a, b);
    Dot(d, d)
  }

  /** Component `i` (0, 1 or 2) of a vector, as a gsl_vector index reads it. */
  function Component(a: Vector, i: nat): real
    requires i < 3
  {
    if i == 0 then a.x else if i == 1 then a.y else a.z
  }

  function Row(m: Matrix3, i: nat): Vector
    requires i < 3
  {
    if i == 0 then m.r0 else if i == 1 then m.r1 else m.r2
  }

  function Col(m: Matrix3, j: nat): Vector
    requires j < 3
  {
    Vector(Component(m.r0, j), Component(m.r1, j), Component(m.r2, j))
  }

  function Entry(m: Matrix3, i: nat, j: nat): real
    requires i < 3 && j < 3
  {
    Component(Row(m, i), j)
  }

  /** The matrix-vector product `m v`. */
  function MatVec(m: Matrix3, v: Vector): Vector {
    Vector(Dot(m.r0, v), Dot(m.r1, v), Dot(m.r2, v))
  }

  /** The matrix product `a b`. */
  function MatMul(a: Matrix3, b: Matrix3): Matrix3 {
    Matrix3(
      Vector(Dot(a.r0, Col(b, 0)), Dot(a.r0, Col(b, 1)), Dot(a.r0, Col(b, 2))),
      Vector(Dot(a.r1, Col(b, 0)), Dot(a.r1, Col(b, 1)), Dot(a.r1, Col(b, 2))),
      Vector(Dot(a.r2, Col(b, 0)), Dot(a.r2, Col(b, 1)), Dot(a.r2, Col(b, 2))))
  }

  function Identity(): Matrix3 {
    Matrix3(Vector(1.0, 0.0, 0.0), Vector(0.0, 1.0, 0.0), Vector(0.0, 0.0, 1.0))
  }

  function Zero(): Matrix3 {
    Matrix3(Vector(0.0, 0.0, 0.0), Vector(0.0, 0.0, 0.0), Vector(0.0, 0.0, 0.0))
  }

  /** The determinant, as the scalar triple product of the rows. */
  function Det(m: Matrix3): real {
    Dot(m.r0, Cross(m.r1, m.r2))
  }

  /** The scalar triple product is invariant under cyclic rotation. */
  lemma TripleCyclic(a: Vector, b: Vector, c: Vector)
    ensures Dot(a, Cross(b, c)) == Dot(b, Cross(c, a)) == Dot(c, Cross(a, b))
  {
    TripleExpanded(a, b, c);
    TripleExpanded(b, c, a);
    TripleExpanded(c, a, b);
    TripleCyclicCoordinates(a.x, a.y, a.z, b.x, b.y, b.z, c.x, c.y, c.z);
  }

  /** Cyclic invariance of the triple product over the nine coordinates. */
  lemma TripleCyclicCoordinates(a0: real, a1: real, a2: real, b0: real, b1: real, b2: real, c0: real, c1: real, c2: real)
    ensures a0 * (b1 * c2 - b2 * c1) + a1 * (b2 * c0 - b0 * c2) + a2 * (b0 * c1 - b1 * c0)
         == b0 * (c1 * a2 - c2 * a1) + b1 * (c2 * a0 - c0 * a2) + b2 * (c0 * a1 - c1 * a0)
    ensures a0 * (b1 * c2 - b2 * c1) + a1 * (b2 * c0 - b0 * c2) + a2 * (b0 * c1 - b1 * c0)
         == c0 * (a1 * b2 - a2 * b1) + c1 * (a2 * b0 - a0 * b2) + c2 * (a0 * b1 - a1 * b0)
  {
  }

  /** A cross product is orthogonal to both of its factors. */
  lemma CrossOrthogonal(a: Vector, b: Vector)
    ensures Dot(a, Cross(a, b)) == 0.0 && Dot(b, Cross(a, b)) == 0.0
  {
  }

  /** The scalar triple product written out over the nine coordinates. */
  lemma TripleExpanded(a: Vector, b: Vector, c: Vector)
    ensures Dot(a, Cross(b, c))
      == a.x * (b.y * c.z - b.z * c.y) + a.y * (b.z * c.x - b.x * c.z) + a.z * (b.x * c.y - b.y * c.x)
  {
  }
}
