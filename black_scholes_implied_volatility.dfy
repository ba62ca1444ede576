/**
 * Implied volatility by Newton's method on sigma -> C - CallPrice(sigma), and
 * from a put price through put-call parity.
 */
module BlackScholesImpliedVolatility {
  import opened Wrappers
  import opened Errors
  import opened Numerics
  import opened BlackScholesFormula
  import Newton

  const DefaultSeed: real := 0.5
  const DefaultMaxError: real := 1e-6
  const DefaultMaxIterations: int := 10000

  /** The function whose root is the implied volatility of call price C. */
  function CallPriceGap(m: MathOps, C: real, S: real, k: real, r: real, T: real): real -> real {
    x => C - CalculateCallOptionPrice(m, x, S, k, r, T)
  }

  /** What the solver returns for the call gap, with the finite-difference derivative. */
  function ImpliedVolCall(m: MathOps, C: real, S: real, k: real, r: real, T: real, x0: real, maxErr: real, N: int)
    : (vol: Result<real, Error>)
    ensures vol.Ok? ==> Abs(C - CalculateCallOptionPrice(m, vol.value, S, k, r, T)) < maxErr
  {
    Newton.Iterate(CallPriceGap(m, C, S, k, r, T), None, maxErr, N, x0, 0)
  }

  /** The put case: a parity violation, or the call implied vol at the parity call price. */
  function ImpliedVolPut(m: MathOps, P: real, S: real, k: real, r: real, T: real, x0: real, maxErr: real, N: int)
    : (vol: Result<real, Error>)
    ensures vol == Err(ParityViolation) <==> GetCallFromPutPrice(m, S, k, r, T, P) < 0.0
    ensures vol.Ok? ==>
      Abs(GetCallFromPutPrice(m, S, k, r, T, P) - CalculateCallOptionPrice(m, vol.value, S, k, r, T)) < maxErr
  {
    var callPrice := GetCallFromPutPrice(m, S, k, r, T, P);
    if callPrice < 0.0 then Err(ParityViolation)
    else ImpliedVolCall(m, callPrice, S, k, r, T, x0, maxErr, N)
  }

  /**
   * Volatility sigma with |C - CallPrice(sigma)| < maxErr, found from seed x0 by a
   * solver with cap N and no supplied derivative.
   */
  method CalculateImpliedVolCall(m: MathOps, C: real, S: real, k: real, r: real, T: real,
                                 x0: real := DefaultSeed, maxErr: real := DefaultMaxError,
                                 N: int := DefaultMaxIterations)
    returns (vol: Result<real, Error>)
    ensures vol == ImpliedVolCall(m, C, S, k, r, T, x0, maxErr, N)
    ensures vol.Ok? ==> Abs(C - CalculateCallOptionPrice(m, vol.value, S, k, r, T)) < maxErr
  {
    var s := new Newton.NewtonSolver(maxErr, N);
    vol := s.Solve(CallPriceGap(m, C, S, k, r, T), None, x0);
  }

  /**
   * Put implied volatility: fails on a parity violation, else is the call implied
   * volatility at the parity call price with the same seed, tolerance and cap.
   */
  method CalculateImpliedVolPut(m: MathOps, P: real, S: real, k: real, r: real, T: real,
                                x0: real := DefaultSeed, maxErr: real := DefaultMaxError,
                                N: int := DefaultMaxIterations)
    returns (vol: Result<real, Error>)
    ensures vol == ImpliedVolPut(m, P, S, k, r, T, x0, maxErr, N)
    ensures GetCallFromPutPrice(m, S, k, r, T, P) < 0.0 ==> vol == Err(ParityViolation)
    ensures GetCallFromPutPrice(m, S, k, r, T, P) >= 0.0 ==>
      vol == ImpliedVolCall(m, GetCallFromPutPrice(m, S, k, r, T, P), S, k, r, T, x0, maxErr, N)
  {
    var callPrice := GetCallFromPutPrice(m, S, k, r, T, P);
    if callPrice < 0.0 {
      return Err(ParityViolation);
    }
    vol := CalculateImpliedVolCall(m, callPrice, S, k, r, T, x0, maxErr, N);
  }

  /** A put price generated by the model at sigma is never a parity violation when its call price is not negative. */
  lemma {:induction false} ModelPutPassesParityCheck(m: MathOps, sigma: real, S: real, k: real, r: real, T: real,
                                                    x0: real, maxErr: real, N: int)
    requires CalculateCallOptionPrice(m, sigma, S, k, r, T) >= 0.0
    ensures ImpliedVolPut(m, CalculatePutOptionPrice(m, sigma, S, k, r, T), S, k, r, T, x0, maxErr, N)
            == ImpliedVolCall(m, CalculateCallOptionPrice(m, sigma, S, k, r, T), S, k, r, T, x0, maxErr, N)
  {
    ParityConversionsRoundTrip(m, S, k, r, T, CalculateCallOptionPrice(m, sigma, S, k, r, T));
  }
}
