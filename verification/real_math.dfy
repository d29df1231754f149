/**
 * The two library calls of java.lang.Math the engine relies on. Math.pow is
 * only ever called with a non-negative integral exponent, so it is the
 * recursive power below; Math.sqrt has no closed form over the reals, so it
 * is passed in as a function value. IsSqrt states what Math.sqrt computes,
 * and PositiveRoots, which follows from it, is all the force law relies on.
 */
module RealMath {

  /** x^n for a natural exponent (Math.pow(x, n) with integral n). */
  function Pow(x: real, n: nat): (r: real)
    ensures x != 0.0 ==> r != 0.0
    ensures 0.0 < x ==> 0.0 < r
  {
    if n == 0 then 1.0 else x * Pow(x, n - 1)
  }

  /** What the model uses of Math.sqrt: a non-negative square root of every non-negative real. */
  ghost predicate IsSqrt(sqrt: real -> real) {
    forall t :: 0.0 <= t ==> 0.0 <= sqrt(t) && sqrt(t) * sqrt(t) == t
  }

  /** What the force law needs of Math.sqrt: the root of a positive real is positive. */
  ghost predicate PositiveRoots(sqrt: real -> real) {
    forall t :: 0.0 < t ==> 0.0 < sqrt(t)
  }

  /** Every square root function has positive roots of positive reals. */
  lemma SqrtPositive(sqrt: real -> real)
    requires IsSqrt(sqrt)
    ensures PositiveRoots(sqrt)
  {
    forall t | 0.0 < t
      ensures 0.0 < sqrt(t)
    {
      assert 0.0 <= sqrt(t) && sqrt(t) * sqrt(t) == t;
    }
  }

  /** Powers of zero: 1 for the zero exponent, 0 otherwise. */
  lemma {:induction false} PowOfZero(n: nat)
    ensures Pow(0.0, n) == if n == 0 then 1.0 else 0.0
  {
  }
}
