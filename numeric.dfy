/**
  The numeric utilities of the plugin: the 3x3 matrix-vector product, which
  zeroes its output buffer and then accumulates into it, and the rule that a
  3x3 inversion fails exactly when the determinant is zero.

  The LU decomposition and BLAS kernels behind them are not modelled; the
  determinant is the exact one and the inverse is the exact adjugate inverse.
 */
module NumericUtilities {
  import opened Vectors
  import opened Wrappers

  /** The vector held in a length-3 buffer. */
  function FromSeq(s: seq<real>): Vector
    requires |s| == 3
  {
    Vector(s[0], s[1], s[2])
  }

  function ToSeq(v: Vector): seq<real> {
    [v.x, v.y, v.z]
  }

  /** Sum of the first `j` products `row[k] * b[k]`. */
  function PartialDot(row: Vector, b: seq<real>, j: nat): real
    requires |b| == 3 && j <= 3
  {
    if j == 0 then 0.0 else PartialDot(row, b, j - 1) + Component(row, j - 1) * b[j - 1]
  }

  lemma PartialDotComplete(row: Vector, b: seq<real>)
    requires |b| == 3
    ensures PartialDot(row, b, 3) == Dot(row, FromSeq(b))
  {
    assert PartialDot(row, b, 1) == row.x * b[0];
    assert PartialDot(row, b, 2) == row.x * b[0] + row.y * b[1];
  }

  /**
    MatrixVectorMultiply: `c := a b` for a 3x3 matrix and length-3 buffers.
    The output buffer is zeroed and then each of its entries accumulates the
    products of one row of `a` with `b`.
   */
  method MatrixVectorMultiply(a: Matrix3, b: array<real>, c: array<real>)
    requires b.Length == 3 && c.Length == 3 && b != c
    modifies c
    ensures c[..] == ToSeq(MatVec(a, FromSeq(b[..])))
  {
    for i := 0 to 3
      invariant forall k :: 0 <= k < i ==> c[k] == 0.0
    {
      c[i] := 0.0;
    }
    for i := 0 to 3
      invariant forall k :: 0 <= k < i ==> c[k] == Dot(Row(a, k), FromSeq(b[..]))
      invariant forall k :: i <= k < 3 ==> c[k] == 0.0
    {
      for j := 0 to 3
        invariant c[i] == PartialDot(Row(a, i), b[..], j)
        invariant forall k :: 0 <= k < i ==> c[k] == Dot(Row(a, k), FromSeq(b[..]))
        invariant forall k :: i < k < 3 ==> c[k] == 0.0
      {
        c[i] := c[i] + Entry(a, i, j) * b[j];
      }
      PartialDotComplete(Row(a, i), b[..]);
    }
    assert c[..] == [c[0], c[1], c[2]];
  }

  /** The adjugate: its columns are the cross products `r1 x r2`, `r2 x r0` and `r0 x r1` of the rows. */
  function Adjugate(m: Matrix3): Matrix3 {
    var c0 := Cross(m.r1, m.r2);
    var c1 := Cross(m.r2, m.r0);
    var c2 := Cross(m.r0, m.r1);
    Matrix3(Vector(c0.x, c1.x, c2.x), Vector(c0.y, c1.y, c2.y), Vector(c0.z, c1.z, c2.z))
  }

  function ScaleMatrix(m: Matrix3, s: real): Matrix3 {
    Matrix3(Scale(m.r0, s), Scale(m.r1, s), Scale(m.r2, s))
  }

  /**
    `m adj(m) = det(m) I`: each row of `m` is orthogonal to the cross product
    of the two others and meets its own column in the determinant. So
    `adj(m) / det(m)` inverts `m` exactly when `det(m)` is not zero.
   */
  lemma AdjugateRight(m: Matrix3)
    ensures MatMul(m, Adjugate(m)) == ScaleMatrix(Identity(), Det(m))
  {
    var a := Adjugate(m);
    assert Col(a, 0) == Cross(m.r1, m.r2);
    assert Col(a, 1) == Cross(m.r2, m.r0);
    assert Col(a, 2) == Cross(m.r0, m.r1);
    TripleCyclic(m.r0, m.r1, m.r2);
    CrossOrthogonal(m.r1, m.r2);
    CrossOrthogonal(m.r2, m.r0);
    CrossOrthogonal(m.r0, m.r1);
  }

  /**
    MatrixInvert3x3: fails (None) exactly when the determinant is zero, and
    then leaves no result; otherwise the result is `adj(m) / det(m)`.
   */
  function MatrixInvert3x3(m: Matrix3): (r: Option<Matrix3>)
    ensures r.None? <==> Det(m) == 0.0
  {
    var d := Det(m);
    if d == 0.0 then None else Some(ScaleMatrix(Adjugate(m), 1.0 / d))
  }
}
