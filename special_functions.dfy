/**
 * The Gaussian density and the rational approximation of the standard normal
 * distribution function used by the Black-Scholes formula (the three-term
 * formula 26.2.16 of Abramowitz and Stegun).
 */
module Gaussian {
  import opened Numerics

  const A1: real := 0.4361836
  const A2: real := -0.1201676
  const A3: real := 0.9372980
  const P: real := 0.33267

  /** The standard normal density exp(-x*x/2) / sqrt(2*pi). */
  function Psi(m: MathOps, x: real): (r: real)
    ensures Lawful(m) ==> r > 0.0
  {
    Div(m, 1.0, Sqrt(m, 2.0 * Pi)) * Exp(m, -x * x * 0.5)
  }

  /** The cubic in k = 1/(1 + p*x) that multiplies the density. */
  function Tail(k: real): real {
    A1 * k + A2 * k * k + A3 * k * k * k
  }

  /**
   * Approximate standard normal distribution function. Non-negative arguments use
   * the rational formula; a negative argument is reflected, one level deep.
   * (The source also evaluates k before the branch; it is unused there.)
   */
  function N(m: MathOps, x: real): (r: real)
    ensures Lawful(m) && x >= 0.0 ==> r < 1.0
    ensures Lawful(m) && x < 0.0 ==> r > 0.0
    decreases if x >= 0.0 then 0 else 1
  {
    if x >= 0.0 then
      var k := 1.0 / (1.0 + P * x);
      RationalFormulaBelowOne(m, x);
      1.0 - Psi(m, x) * Tail(k)
    else
      1.0 - N(m, -x)
  }

  /** For x >= 0 the density times the cubic is positive, so the rational formula is below 1. */
  lemma RationalFormulaBelowOne(m: MathOps, x: real)
    requires x >= 0.0
    ensures Lawful(m) ==> Psi(m, x) * Tail(1.0 / (1.0 + P * x)) > 0.0
  {
    var k := 1.0 / (1.0 + P * x);
    assert 1.0 + P * x >= 1.0;
    assert 0.0 < k <= 1.0;
    TailPositive(k);
  }

  /** The density depends on x only through x*x. */
  lemma PsiEven(m: MathOps, x: real)
    ensures Psi(m, -x) == Psi(m, x)
  {
    assert -(-x) * (-x) == -x * x;
  }

  /** The rational formula, at every non-negative argument including 0. */
  lemma NNonNegative(m: MathOps, x: real)
    requires x >= 0.0
    ensures N(m, x) == 1.0 - Psi(m, x) * Tail(1.0 / (1.0 + P * x))
  {
  }

  /**
   * A negative argument recurses exactly once: its value is the rational formula
   * at -x, without any further call.
   */
  lemma NNegativeOneLevel(m: MathOps, x: real)
    requires x < 0.0
    ensures N(m, x) == 1.0 - N(m, -x)
    ensures N(m, x) == Psi(m, x) * Tail(1.0 / (1.0 - P * x))
  {
    PsiEven(m, x);
    assert N(m, -x) == 1.0 - Psi(m, -x) * Tail(1.0 / (1.0 + P * -x));
  }

  /** Symmetry N(x) + N(-x) == 1 away from 0 (at 0 it holds only if N(0) is exactly 1/2). */
  lemma NSymmetric(m: MathOps, x: real)
    requires x != 0.0
    ensures N(m, x) + N(m, -x) == 1.0
  {
  }

  /** The cubic is positive for 0 < k <= 1, the range of 1/(1 + p*x) for x >= 0. */
  lemma TailPositive(k: real)
    requires 0.0 < k <= 1.0
    ensures Tail(k) > 0.0
  {
    var q := A1 + A2 * k + A3 * k * k;
    assert A2 * k >= A2;
    assert A3 * k * k >= 0.0;
    assert q > 0.0;
    assert Tail(k) == k * q;
  }
}
