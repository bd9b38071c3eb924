/**
 * Exact real-number counterparts of the two <cmath> calls the DAE step
 * attempt makes: std::pow(Real(2), errOrder) and std::sqrt(consTol), and the
 * projection limit built from the latter.
 *
 * Floating-point rounding is not modelled: Real is Dafny's `real`.
 */
module Numerics {

  /** 2^k over the naturals. */
  function TwoToThe(k: nat): (r: nat)
    ensures r >= 1
  {
    if k == 0 then 1 else 2 * TwoToThe(k - 1)
  }

  /** std::pow(Real(2), n) for an integer order n, computed exactly: a
      negative order gives the reciprocal power. */
  function Pow2(n: int): (r: real)
    ensures r > 0.0
  {
    if n >= 0 then TwoToThe(n) as real else 1.0 / TwoToThe(-n) as real
  }

  /** Raising the order by one doubles the power, for every integer order,
      negative ones included. */
  lemma Pow2Step(n: int)
    ensures Pow2(n + 1) == 2.0 * Pow2(n)
  {
    if n < -1 {
      var k := TwoToThe(-n - 1) as real;
      assert TwoToThe(-n) == 2 * TwoToThe(-n - 1);
      assert Pow2(n) == 1.0 / (2.0 * k);
    }
  }

  /** The "near the edge" test of the DAE step: the error eStep of a step
      whose error estimator has order p is within Pow2(p) * accuracy exactly
      when a step of half the size, whose error would be eStep / 2^p, would
      have met the accuracy. */
  lemma HalfStepWouldSucceed(eStep: real, p: int, accuracy: real)
    ensures eStep <= Pow2(p) * accuracy <==> eStep / Pow2(p) <= accuracy
  {
    var k := Pow2(p);
    assert eStep == (eStep / k) * k;
    if eStep / k <= accuracy {
      assert (eStep / k) * k <= accuracy * k;
    } else {
      assert (eStep / k) * k > accuracy * k;
    }
  }

  /** Whether root is what std::sqrt(x) returns for x >= 0, rounding aside:
      the non-negative number that squares back to x. */
  predicate IsSqrtOf(root: real, x: real)
  {
    0.0 <= root && root * root == x
  }

  /**
   * The largest constraint error the DAE step still projects:
   * std::max(2*consTol, std::sqrt(consTol)), where std::max(a, b) returns a
   * unless a < b. For a negative consTol std::sqrt gives NaN, no comparison
   * with NaN holds, and std::max returns 2*consTol.
   */
  function ProjectionLimit(consTol: real, sqrt: real -> real): (limit: real)
    ensures limit >= 2.0 * consTol
    ensures 0.0 <= consTol ==> limit >= sqrt(consTol)
    ensures limit == 2.0 * consTol || (0.0 <= consTol && limit == sqrt(consTol))
  {
    if consTol < 0.0 then 2.0 * consTol
    else if 2.0 * consTol < sqrt(consTol) then sqrt(consTol)
    else 2.0 * consTol
  }

  /** A product of non-negative reals is non-negative. */
  lemma MulNonNegative(x: real, y: real)
    requires 0.0 <= x && 0.0 <= y
    ensures 0.0 <= x * y
  {
  }

  /** A product of positive reals is positive. */
  lemma MulPositive(x: real, y: real)
    requires 0.0 < x && 0.0 < y
    ensures 0.0 < x * y
  {
  }

  /** Squaring is strictly increasing on the non-negative reals. */
  lemma SquareLess(a: real, b: real)
    requires 0.0 <= a < b
    ensures a * a < b * b
  {
    MulPositive(b - a, b + a);
    assert b * b - a * a == (b - a) * (b + a);
  }

  /** A square root is pinned down by its square. */
  lemma SqrtOfSquare(root: real, r: real)
    requires 0.0 <= r && IsSqrtOf(root, r * r)
    ensures root == r
  {
    if root < r {
      SquareLess(root, r);
    } else if r < root {
      SquareLess(r, root);
    }
  }

  /** Bounds on a square root from bounds on its square. */
  lemma SqrtBetween(root: real, x: real, lo: real, hi: real)
    requires IsSqrtOf(root, x)
    requires 0.0 <= lo <= hi && lo * lo < x < hi * hi
    ensures lo < root < hi
  {
    if root < lo {
      SquareLess(root, lo);
    }
    if hi < root {
      SquareLess(hi, root);
    }
  }

  /** Up to a tolerance of 1/4 its square root is at least twice the
      tolerance; above 1/4 it is less. */
  lemma RootAgainstTwice(consTol: real, s: real)
    requires IsSqrtOf(s, consTol)
    ensures consTol <= 0.25 ==> 2.0 * consTol <= s
    ensures 0.25 < consTol ==> s < 2.0 * consTol
  {
    assert 2.0 * consTol == s * (2.0 * s);
    if consTol <= 0.25 {
      if 0.5 < s {
        SquareLess(0.5, s);
      }
      MulNonNegative(s, 1.0 - 2.0 * s);
      assert s * (1.0 - 2.0 * s) == s - s * (2.0 * s);
    } else {
      if s < 0.5 {
        SquareLess(s, 0.5);
      }
      MulPositive(s, 2.0 * s - 1.0);
      assert s * (2.0 * s) - s == s * (2.0 * s - 1.0);
    }
  }

  /**
   * The two regimes of the projection limit: for 0 <= consTol <= 1/4 the
   * square root is the larger term, above 1/4 twice the tolerance is.
   */
  lemma ProjectionLimitRegimes(consTol: real, sqrt: real -> real)
    requires 0.0 <= consTol && IsSqrtOf(sqrt(consTol), consTol)
    ensures consTol <= 0.25 ==> ProjectionLimit(consTol, sqrt) == sqrt(consTol)
    ensures 0.25 < consTol ==> ProjectionLimit(consTol, sqrt) == 2.0 * consTol
  {
    RootAgainstTwice(consTol, sqrt(consTol));
  }

  /**
   * The worked examples of the projection limit, given that sqrt is the
   * square root at each tabulated tolerance.
   */
  lemma ProjectionLimitTable(sqrt: real -> real)
    requires IsSqrtOf(sqrt(1e-12), 1e-12)
    requires IsSqrtOf(sqrt(1e-4), 1e-4)
    requires IsSqrtOf(sqrt(0.01), 0.01)
    requires IsSqrtOf(sqrt(0.1), 0.1)
    requires IsSqrtOf(sqrt(0.5), 0.5)
    requires IsSqrtOf(sqrt(1.0), 1.0)
    ensures ProjectionLimit(1e-12, sqrt) == 1e-6
    ensures ProjectionLimit(1e-4, sqrt) == 1e-2
    ensures ProjectionLimit(0.01, sqrt) == 0.1
    ensures 0.316 < ProjectionLimit(0.1, sqrt) < 0.317
    ensures ProjectionLimit(0.5, sqrt) == 1.0
    ensures ProjectionLimit(1.0, sqrt) == 2.0
  {
    SqrtOfSquare(sqrt(1e-12), 1e-6);
    ProjectionLimitRegimes(1e-12, sqrt);
    SqrtOfSquare(sqrt(1e-4), 1e-2);
    ProjectionLimitRegimes(1e-4, sqrt);
    SqrtOfSquare(sqrt(0.01), 0.1);
    ProjectionLimitRegimes(0.01, sqrt);
    SqrtBetween(sqrt(0.1), 0.1, 0.316, 0.317);
    ProjectionLimitRegimes(0.1, sqrt);
    ProjectionLimitRegimes(0.5, sqrt);
    ProjectionLimitRegimes(1.0, sqrt);
  }
}
