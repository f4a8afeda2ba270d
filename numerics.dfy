/** What the pipeline relies on of the platform's square root and exponential. The two are
    parameters of the model, not definitions: they are the foreign `Math.sqrt` and `Math.exp`,
    and these predicates state the laws of the real functions that the properties need. */
module Numerics {

  /** On a non-negative argument, `sqrt` returns the non-negative square root. */
  ghost predicate IsSqrt(sqrt: real -> real) {
    forall x :: 0.0 <= x ==> 0.0 <= sqrt(x) && sqrt(x) * sqrt(x) == x
  }

  /** `exp` is positive, strictly increasing and maps 0 to 1. */
  ghost predicate IsExp(exp: real -> real) {
    && exp(0.0) == 1.0
    && (forall x :: 0.0 < exp(x))
    && (forall x, y :: x < y ==> exp(x) < exp(y))
  }

  /** A product of reals is zero only when a factor is. */
  lemma ProductZero(a: real, b: real)
    ensures a * b == 0.0 <==> a == 0.0 || b == 0.0
  {
    if a != 0.0 && a * b == 0.0 {
      assert b == (a * b) / a;
    }
  }

  /** The square root of a non-negative number is zero exactly when the number is. */
  lemma SqrtZeroIff(sqrt: real -> real, x: real)
    requires IsSqrt(sqrt) && 0.0 <= x
    ensures sqrt(x) == 0.0 <==> x == 0.0
  {
    ProductZero(sqrt(x), sqrt(x));
  }

  /** `sqrt` returns the root of a perfect square: it is determined by its laws. */
  lemma SqrtOfSquare(sqrt: real -> real, r: real)
    requires IsSqrt(sqrt) && 0.0 <= r
    ensures sqrt(r * r) == r
  {
    var s := sqrt(r * r);
    assert 0.0 <= s && s * s == r * r;
    assert (s - r) * (s + r) == s * s - r * r;
    ProductZero(s - r, s + r);
  }
}
