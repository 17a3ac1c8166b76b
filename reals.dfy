/** Facts about products of reals that the solver does not find on its own. */
module Reals {

  lemma MulNonneg(a: real, b: real)
    requires 0.0 <= a && 0.0 <= b
    ensures 0.0 <= a * b
  {
  }

  lemma MulPos(a: real, b: real)
    requires 0.0 < a && 0.0 < b
    ensures 0.0 < a * b
  {
  }

  /** The sign of a product with a positive factor is the sign of the other factor. */
  lemma PosFactor(a: real, c: real)
    requires 0.0 < c
    ensures 0.0 < a <==> 0.0 < a * c
  {
    if 0.0 < a {
      MulPos(a, c);
    } else {
      MulNonneg(-a, c);
      assert (-a) * c == -(a * c);
    }
  }

  /** Multiplying by a non-negative factor keeps a weak order. */
  lemma MulMono(a: real, b: real, c: real)
    requires a <= b && 0.0 <= c
    ensures a * c <= b * c
  {
    MulNonneg(b - a, c);
    assert (b - a) * c == b * c - a * c;
  }

  /** A `Math.random()` draw times a non-negative length lies in [0, length], below it when positive. */
  function Scale(r: real, len: real): (v: real)
    requires 0.0 <= r < 1.0 && 0.0 <= len
    ensures 0.0 <= v <= len
    ensures 0.0 < len ==> v < len
  {
    MulNonneg(r, len);
    MulNonneg(1.0 - r, len);
    assert (1.0 - r) * len == len - r * len;
    if 0.0 < len then MulPos(1.0 - r, len); r * len else r * len
  }

  /** A ratio of positive reals, the first smaller, lies strictly between 0 and 1. */
  lemma RatioBetween(a: real, b: real)
    requires 0.0 < a < b
    ensures 0.0 < a / b < 1.0
  {
    var q := a / b;
    assert q * b == a;
    assert (1.0 - q) * b == b - q * b;
    PosFactor(q, b);
    PosFactor(1.0 - q, b);
  }
}
