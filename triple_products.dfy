/**
  Polynomial identities behind the Moller-Trumbore ray/triangle test, stated
  over the twelve coordinates of the ray direction `d`, the two triangle edges
  `a` and `b`, and the vector `t` from the first vertex to the ray origin.

  The four triple products the test computes are
    det = a . (d x b),  tp = t . (d x b),  dq = d . (t x a),  bq = b . (t x a);
  Cramer's rule says `bq d + det t = tp a + dq b`, and conversely any
  `s d = -t + u a + v b` has `u det = tp`, `v det = dq` and `s det = bq`.
 */
module TripleProducts {

  /** Both sides of an equation multiplied by the same factor. */
  lemma MultiplyBoth(x: real, a: real, b: real)
    requires a == b
    ensures x * a == x * b
  {
  }

  /**
    Cramer's rule for the Moller-Trumbore parameters, first coordinate, written
    out over the twelve coordinates; the other two follow by rotating the
    coordinates, which only reorders the terms of each triple product.
   */
  lemma CramerExpanded(d0: real, d1: real, d2: real, a0: real, a1: real, a2: real, b0: real, b1: real, b2: real, t0: real, t1: real, t2: real)
    ensures d0 * (b0 * (t1 * a2 - t2 * a1) + b1 * (t2 * a0 - t0 * a2) + b2 * (t0 * a1 - t1 * a0)) + t0 * (a0 * (d1 * b2 - d2 * b1) + a1 * (d2 * b0 - d0 * b2) + a2 * (d0 * b1 - d1 * b0)) == a0 * (t0 * (d1 * b2 - d2 * b1) + t1 * (d2 * b0 - d0 * b2) + t2 * (d0 * b1 - d1 * b0)) + b0 * (d0 * (t1 * a2 - t2 * a1) + d1 * (t2 * a0 - t0 * a2) + d2 * (t0 * a1 - t1 * a0))
  {
  }

  lemma UniqueU(d0: real, d1: real, d2: real, a0: real, a1: real, a2: real, b0: real, b1: real, b2: real, t0: real, t1: real, t2: real, s: real, u: real, v: real)
    requires s * d0 == -t0 + u * a0 + v * b0
    requires s * d1 == -t1 + u * a1 + v * b1
    requires s * d2 == -t2 + u * a2 + v * b2
    ensures u * (a0 * (d1 * b2 - d2 * b1) + a1 * (d2 * b0 - d0 * b2) + a2 * (d0 * b1 - d1 * b0)) == (t0 * (d1 * b2 - d2 * b1) + t1 * (d2 * b0 - d0 * b2) + t2 * (d0 * b1 - d1 * b0))
  {
    MultiplyBoth((d1 * b2 - d2 * b1), s * d0, -t0 + u * a0 + v * b0);
    MultiplyBoth((d2 * b0 - d0 * b2), s * d1, -t1 + u * a1 + v * b1);
    MultiplyBoth((d0 * b1 - d1 * b0), s * d2, -t2 + u * a2 + v * b2);
  }

  lemma UniqueV(d0: real, d1: real, d2: real, a0: real, a1: real, a2: real, b0: real, b1: real, b2: real, t0: real, t1: real, t2: real, s: real, u: real, v: real)
    requires s * d0 == -t0 + u * a0 + v * b0
    requires s * d1 == -t1 + u * a1 + v * b1
    requires s * d2 == -t2 + u * a2 + v * b2
    ensures v * (a0 * (d1 * b2 - d2 * b1) + a1 * (d2 * b0 - d0 * b2) + a2 * (d0 * b1 - d1 * b0)) == (d0 * (t1 * a2 - t2 * a1) + d1 * (t2 * a0 - t0 * a2) + d2 * (t0 * a1 - t1 * a0))
  {
    MultiplyBoth((d1 * a2 - d2 * a1), s * d0, -t0 + u * a0 + v * b0);
    MultiplyBoth((d2 * a0 - d0 * a2), s * d1, -t1 + u * a1 + v * b1);
    MultiplyBoth((d0 * a1 - d1 * a0), s * d2, -t2 + u * a2 + v * b2);
  }

  lemma UniqueS(d0: real, d1: real, d2: real, a0: real, a1: real, a2: real, b0: real, b1: real, b2: real, t0: real, t1: real, t2: real, s: real, u: real, v: real)
    requires s * d0 == -t0 + u * a0 + v * b0
    requires s * d1 == -t1 + u * a1 + v * b1
    requires s * d2 == -t2 + u * a2 + v * b2
    ensures s * (a0 * (d1 * b2 - d2 * b1) + a1 * (d2 * b0 - d0 * b2) + a2 * (d0 * b1 - d1 * b0)) == (b0 * (t1 * a2 - t2 * a1) + b1 * (t2 * a0 - t0 * a2) + b2 * (t0 * a1 - t1 * a0))
  {
    MultiplyBoth((a1 * b2 - a2 * b1), s * d0, -t0 + u * a0 + v * b0);
    MultiplyBoth((a2 * b0 - a0 * b2), s * d1, -t1 + u * a1 + v * b1);
    MultiplyBoth((a0 * b1 - a1 * b0), s * d2, -t2 + u * a2 + v * b2);
  }

  lemma UniqueScalar(d0: real, d1: real, d2: real, a0: real, a1: real, a2: real, b0: real, b1: real, b2: real, t0: real, t1: real, t2: real, s: real, u: real, v: real, det: real, tp: real, dq: real, bq: real)
    requires s * d0 == -t0 + u * a0 + v * b0
    requires s * d1 == -t1 + u * a1 + v * b1
    requires s * d2 == -t2 + u * a2 + v * b2
    requires det == (a0 * (d1 * b2 - d2 * b1) + a1 * (d2 * b0 - d0 * b2) + a2 * (d0 * b1 - d1 * b0))
    requires tp == (t0 * (d1 * b2 - d2 * b1) + t1 * (d2 * b0 - d0 * b2) + t2 * (d0 * b1 - d1 * b0))
    requires dq == (d0 * (t1 * a2 - t2 * a1) + d1 * (t2 * a0 - t0 * a2) + d2 * (t0 * a1 - t1 * a0))
    requires bq == (b0 * (t1 * a2 - t2 * a1) + b1 * (t2 * a0 - t0 * a2) + b2 * (t0 * a1 - t1 * a0))
    ensures u * det == tp && v * det == dq && s * det == bq
  {
    UniqueU(d0, d1, d2, a0, a1, a2, b0, b1, b2, t0, t1, t2, s, u, v);
    UniqueV(d0, d1, d2, a0, a1, a2, b0, b1, b2, t0, t1, t2, s, u, v);
    UniqueS(d0, d1, d2, a0, a1, a2, b0, b1, b2, t0, t1, t2, s, u, v);
    MultiplyBoth(u, det, (a0 * (d1 * b2 - d2 * b1) + a1 * (d2 * b0 - d0 * b2) + a2 * (d0 * b1 - d1 * b0)));
    MultiplyBoth(v, det, (a0 * (d1 * b2 - d2 * b1) + a1 * (d2 * b0 - d0 * b2) + a2 * (d0 * b1 - d1 * b0)));
    MultiplyBoth(s, det, (a0 * (d1 * b2 - d2 * b1) + a1 * (d2 * b0 - d0 * b2) + a2 * (d0 * b1 - d1 * b0)));
  }

  lemma TimesInverse(x: real)
    requires x != 0.0
    ensures x * (1.0 / x) == 1.0
  {
  }

  /** Dividing a Cramer identity by a non-zero determinant. */
  lemma DivideByDeterminant(d0: real, a0: real, b0: real, t0: real, det: real, tp: real, dq: real, bq: real, inv: real)
    requires det * inv == 1.0
    requires d0 * bq + t0 * det == a0 * tp + b0 * dq
    ensures d0 * (bq * inv) == -t0 + a0 * (tp * inv) + b0 * (dq * inv)
  {
    MultiplyBoth(inv, d0 * bq + t0 * det, a0 * tp + b0 * dq);
    MultiplyBoth(t0, det * inv, 1.0);
  }

  /** The solution of `x det = p` for a determinant with inverse `inv`. */
  lemma SolveByDeterminant(x: real, det: real, p: real, inv: real)
    requires det * inv == 1.0
    requires x * det == p
    ensures x == p * inv
  {
    MultiplyBoth(inv, x * det, p);
    MultiplyBoth(x, det * inv, 1.0);
  }
}
