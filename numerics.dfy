/**
 * The part of System.Math the library relies on. The transcendental functions are
 * left uninterpreted: they are fields of a `MathOps` value that every numeric
 * operation receives. `Lawful` (which includes `PowSquares`) and `ExpAtLeastOne`
 * state the only facts about them that the proofs use. Floating-point rounding is not modelled; arithmetic is over `real`.
 */
module Numerics {

  datatype MathOps = MathOps(
    exp: real -> real,
    log: real -> real,
    sqrt: real -> real,
    pow: (real, real) -> real,
    // the value IEEE 754 division gives to a / 0 (an infinity or NaN), left unspecified
    divByZero: real -> real)

  /** Math.Exp. */
  function Exp(m: MathOps, x: real): real {
    m.exp(x)
  }

  /** Math.Log. */
  function Log(m: MathOps, x: real): real {
    m.log(x)
  }

  /** Math.Sqrt. */
  function Sqrt(m: MathOps, x: real): real {
    m.sqrt(x)
  }

  /** Math.Pow. */
  function Pow(m: MathOps, x: real, y: real): real {
    m.pow(x, y)
  }

  /** Math.Pow(x, 2) is x * x. */
  ghost predicate PowSquares(m: MathOps) {
    forall x :: Pow(m, x, 2.0) == x * x
  }

  /** The facts about the transcendental functions that the proofs use. */
  ghost predicate Lawful(m: MathOps) {
    && (forall x :: Exp(m, x) > 0.0)
    && (forall x :: x > 0.0 ==> Sqrt(m, x) > 0.0)
    && PowSquares(m)
  }

  /** exp is at least 1 on non-negative arguments, as the true exponential is. */
  ghost predicate ExpAtLeastOne(m: MathOps) {
    forall x :: x >= 0.0 ==> Exp(m, x) >= 1.0
  }

  /** System.Math.PI as a double. */
  const Pi: real := 3.141592653589793

  /** System.Double.MaxValue. */
  const DoubleMaxValue: real := 1.7976931348623157e308

  /** Floating-point division: the quotient when the divisor is non-zero. */
  function Div(m: MathOps, a: real, b: real): (q: real)
    ensures b != 0.0 ==> q * b == a
  {
    if b != 0.0 then a / b else m.divByZero(a)
  }

  /** System.Math.Abs. */
  function Abs(x: real): (a: real)
    ensures a >= 0.0
    ensures a == x || a == -x
  {
    if x < 0.0 then -x else x
  }

  /** System.Math.Max. */
  function Max(a: real, b: real): (c: real)
    ensures c >= a && c >= b
    ensures c == a || c == b
  {
    if a < b then b else a
  }

  /**
   * System.Math.Round(double): round to the nearest integer, halves to the even
   * neighbour (banker's rounding).
   */
  function RoundHalfEven(x: real): (n: int)
    ensures -0.5 <= n as real - x <= 0.5
    ensures n as real - x == 0.5 || x - n as real == 0.5 ==> n % 2 == 0
  {
    var f := x.Floor;
    var frac := x - f as real;
    if frac < 0.5 then f
    else if frac > 0.5 then f + 1
    else if f % 2 == 0 then f
    else f + 1
  }

  /** A value in [0, hi] rounds to an index in [0, hi]. */
  lemma RoundHalfEvenInRange(x: real, hi: nat)
    requires 0.0 <= x <= hi as real
    ensures 0 <= RoundHalfEven(x) <= hi
  {
    var n := RoundHalfEven(x);
    assert n as real >= -0.5;
    assert n as real <= hi as real + 0.5;
  }
}
