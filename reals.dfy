/** Facts about products of reals that the solver does not find unaided. */
module Reals {

  /** The sign of a product with a positive factor is the sign of the other factor. */
  lemma ProductSign(u: real, v: real)
    requires v > 0.0
    ensures u >= 0.0 ==> u * v >= 0.0
    ensures u > 0.0 ==> u * v > 0.0
    ensures u < 0.0 ==> u * v < 0.0
  {
  }

  /** Comparing a quotient by a positive divisor with `c` is comparing the
      dividend with `c` times the divisor. */
  lemma QuotientCompare(a: real, e: real, c: real)
    requires e > 0.0
    ensures a / e <= c <==> a <= c * e
    ensures a / e < c <==> a < c * e
    ensures a / e == c <==> a == c * e
  {
    var f := a / e;
    assert f * e == a;
    assert (c - f) * e == c * e - a;
    ProductSign(c - f, e);
    ProductSign(f - c, e);
  }
}
