/**
 * Newton's method for f(x) = 0 with an iteration cap and a guard against a
 * vanishing derivative. The derivative defaults to a forward difference.
 */
module Newton {
  import opened Wrappers
  import opened Errors
  import opened Numerics

  /** Step of the default finite-difference derivative. */
  const H: real := 1e-6

  /** Below this magnitude the derivative is considered zero. */
  const DerivativeFloor: real := 1e-16

  /**
   * The derivative at x: the supplied one, or when none is supplied the forward
   * difference (f(x+h) - f(x)) / h.
   */
  function Slope(f: real -> real, fPrime: Option<real -> real>, x: real): (s: real)
    ensures fPrime.Some? ==> s == fPrime.value(x)
    ensures fPrime.None? ==> f(x) + s * H == f(x + H)
  {
    match fPrime
    case Some(d) => d(x)
    case None => (f(x + H) - f(x)) / H
  }

  /**
   * The solver loop from counter i onwards at iterate xn: return xn once |f(xn)| is
   * below the tolerance, fail when the derivative is too small, otherwise take a
   * Newton step; fail once the counter reaches maxIter.
   */
  function Iterate(f: real -> real, fPrime: Option<real -> real>, maxError: real, maxIter: int, xn: real, i: int)
    : (r: Result<real, Error>)
    ensures r.Ok? ==> Abs(f(r.value)) < maxError
    ensures r.Err? ==> r.error == DerivativeTooSmall || r.error == DidNotConverge
    decreases maxIter - i
  {
    if i < maxIter then
      if Abs(f(xn)) < maxError then Ok(xn)
      else if Abs(Slope(f, fPrime, xn)) < DerivativeFloor then Err(DerivativeTooSmall)
      else Iterate(f, fPrime, maxError, maxIter, xn - f(xn) / Slope(f, fPrime, xn), i + 1)
    else
      Err(DidNotConverge)
  }

  /** One Newton update, taken only where the derivative guard has passed. */
  function Step(f: real -> real, fPrime: Option<real -> real>, x: real): real {
    if Slope(f, fPrime, x) != 0.0 then x - f(x) / Slope(f, fPrime, x) else x
  }

  /** The iterate after u updates from x. */
  function Run(f: real -> real, fPrime: Option<real -> real>, x: real, u: nat): real
    decreases u
  {
    if u == 0 then x else Run(f, fPrime, Step(f, fPrime, x), u - 1)
  }

  /** Neither stopping test fires at x: the solver updates it. */
  predicate Continues(f: real -> real, fPrime: Option<real -> real>, maxError: real, x: real) {
    Abs(f(x)) >= maxError && Abs(Slope(f, fPrime, x)) >= DerivativeFloor
  }

  /**
   * A returned root is the iterate after u updates, with u below the remaining
   * iteration budget, and each earlier iterate failed the tolerance and passed the
   * derivative guard.
   */
  lemma {:induction false} ConvergedAfterFewerThanMaxIter(
    f: real -> real, fPrime: Option<real -> real>, maxError: real, maxIter: int, x: real, i: int)
    returns (u: nat)
    requires Iterate(f, fPrime, maxError, maxIter, x, i).Ok?
    ensures i + u < maxIter
    ensures Iterate(f, fPrime, maxError, maxIter, x, i).value == Run(f, fPrime, x, u)
    ensures forall v: nat :: v < u ==> Continues(f, fPrime, maxError, Run(f, fPrime, x, v))
    decreases maxIter - i
  {
    if Abs(f(x)) < maxError {
      u := 0;
    } else {
      var y := x - f(x) / Slope(f, fPrime, x);
      assert y == Step(f, fPrime, x);
      assert Iterate(f, fPrime, maxError, maxIter, x, i) == Iterate(f, fPrime, maxError, maxIter, y, i + 1);
      var w := ConvergedAfterFewerThanMaxIter(f, fPrime, maxError, maxIter, y, i + 1);
      u := w + 1;
      assert Run(f, fPrime, x, u) == Run(f, fPrime, y, w);
      forall v: nat | v < u ensures Continues(f, fPrime, maxError, Run(f, fPrime, x, v)) {
        if v > 0 {
          assert Run(f, fPrime, x, v) == Run(f, fPrime, y, v - 1);
        }
      }
    }
  }

  /**
   * "Derivative too small" is raised only at an iterate whose value failed the
   * tolerance test and whose derivative is below the floor.
   */
  lemma {:induction false} DerivativeTooSmallOnlyAfterToleranceFails(
    f: real -> real, fPrime: Option<real -> real>, maxError: real, maxIter: int, x: real, i: int)
    returns (u: nat)
    requires Iterate(f, fPrime, maxError, maxIter, x, i) == Err(DerivativeTooSmall)
    ensures i + u < maxIter
    ensures Abs(f(Run(f, fPrime, x, u))) >= maxError && Abs(Slope(f, fPrime, Run(f, fPrime, x, u))) < DerivativeFloor
    decreases maxIter - i
  {
    if Abs(Slope(f, fPrime, x)) < DerivativeFloor {
      u := 0;
    } else {
      var y := x - f(x) / Slope(f, fPrime, x);
      assert y == Step(f, fPrime, x);
      assert Iterate(f, fPrime, maxError, maxIter, x, i) == Iterate(f, fPrime, maxError, maxIter, y, i + 1);
      var w := DerivativeTooSmallOnlyAfterToleranceFails(f, fPrime, maxError, maxIter, y, i + 1);
      u := w + 1;
      assert Run(f, fPrime, x, u) == Run(f, fPrime, y, w);
    }
  }

  /** "Did not converge" is raised only when every iterate in the budget passed both stopping tests. */
  lemma {:induction false} DidNotConvergeOnlyWhenBudgetExhausted(
    f: real -> real, fPrime: Option<real -> real>, maxError: real, maxIter: int, x: real, i: int, v: nat)
    requires Iterate(f, fPrime, maxError, maxIter, x, i) == Err(DidNotConverge)
    requires i + v < maxIter
    ensures Continues(f, fPrime, maxError, Run(f, fPrime, x, v))
    decreases v
  {
    if v > 0 {
      var y := x - f(x) / Slope(f, fPrime, x);
      assert y == Step(f, fPrime, x);
      assert Iterate(f, fPrime, maxError, maxIter, x, i) == Iterate(f, fPrime, maxError, maxIter, y, i + 1);
      DidNotConvergeOnlyWhenBudgetExhausted(f, fPrime, maxError, maxIter, y, i + 1, v - 1);
      assert Run(f, fPrime, x, v) == Run(f, fPrime, y, v - 1);
    }
  }

  /** Conversely, when every iterate in the budget passes both tests, the solver does not converge. */
  lemma {:induction false} BudgetExhaustedDidNotConverge(
    f: real -> real, fPrime: Option<real -> real>, maxError: real, maxIter: int, x: real, i: int)
    requires forall v: nat :: i + v < maxIter ==> Continues(f, fPrime, maxError, Run(f, fPrime, x, v))
    ensures Iterate(f, fPrime, maxError, maxIter, x, i) == Err(DidNotConverge)
    decreases maxIter - i
  {
    if i < maxIter {
      assert Run(f, fPrime, x, 0) == x;
      var y := x - f(x) / Slope(f, fPrime, x);
      assert y == Step(f, fPrime, x);
      forall v: nat | i + 1 + v < maxIter ensures Continues(f, fPrime, maxError, Run(f, fPrime, y, v)) {
        assert Run(f, fPrime, x, v + 1) == Run(f, fPrime, y, v);
      }
      BudgetExhaustedDidNotConverge(f, fPrime, maxError, maxIter, y, i + 1);
    }
  }

  /** With no iteration allowed the solver fails, even when x0 is an exact root. */
  lemma NoIterationsAlwaysFails(f: real -> real, fPrime: Option<real -> real>, maxError: real, maxIter: int, x0: real)
    requires maxIter <= 0
    ensures Iterate(f, fPrime, maxError, maxIter, x0, 0) == Err(DidNotConverge)
  {
  }

  /** A seed that already meets the tolerance is returned unchanged. */
  lemma SeedWithinToleranceReturned(f: real -> real, fPrime: Option<real -> real>, maxError: real, maxIter: int, x0: real)
    requires maxIter >= 1 && Abs(f(x0)) < maxError
    ensures Iterate(f, fPrime, maxError, maxIter, x0, 0) == Ok(x0)
  {
  }

  class NewtonSolver {
    const maxError: real
    const maxIter: int

    constructor (maxError: real, maxIter: int)
      ensures this.maxError == maxError && this.maxIter == maxIter
    {
      this.maxError := maxError;
      this.maxIter := maxIter;
    }

    /**
     * Approximate root of f from x0 with |f(x)| < maxError; fails when the derivative
     * vanishes or maxIter updates did not suffice.
     */
    method Solve(f: real -> real, fPrime: Option<real -> real>, x0: real) returns (r: Result<real, Error>)
      ensures r == Iterate(f, fPrime, maxError, maxIter, x0, 0)
      ensures r.Ok? ==> Abs(f(r.value)) < maxError
    {
      ghost var outcome := Iterate(f, fPrime, maxError, maxIter, x0, 0);
      var i := 0;
      var xn := x0;
      while i < maxIter
        invariant i >= 0 && (maxIter >= 0 ==> i <= maxIter)
        invariant Iterate(f, fPrime, maxError, maxIter, xn, i) == outcome
        decreases maxIter - i
      {
        if Abs(f(xn)) < maxError {
          return Ok(xn);
        }
        if Abs(Slope(f, fPrime, xn)) < DerivativeFloor {
          return Err(DerivativeTooSmall);
        }
        var next := xn - f(xn) / Slope(f, fPrime, xn);
        assert Iterate(f, fPrime, maxError, maxIter, xn, i) == Iterate(f, fPrime, maxError, maxIter, next, i + 1);
        xn := next;
        i := i + 1;
      }
      return Err(DidNotConverge);
    }
  }
}
