/**
 * Black-Scholes prices in log-moneyness coordinates: k = log(K e^{-rT} / S).
 * Put prices come from call prices through put-call parity.
 */
module BlackScholesFormula {
  import opened Numerics
  import Gaussian

  /** d1; the rT terms cancel, leaving (-k + sigma^2 T / 2) / (sigma sqrt(T)). */
  function D1(m: MathOps, sigma: real, k: real, r: real, T: real): (d: real)
    ensures d == Div(m, -k + (sigma * sigma) / 2.0 * T, sigma * Sqrt(m, T))
  {
    assert -r * T - k + (r + (sigma * sigma) / 2.0) * T == -k + (sigma * sigma) / 2.0 * T;
    Div(m, -r * T - k + (r + (sigma * sigma) / 2.0) * T, sigma * Sqrt(m, T))
  }

  /** d2 lies below d1 whenever sigma and T are positive. */
  function D2(m: MathOps, sigma: real, k: real, r: real, T: real): (d: real)
    ensures Lawful(m) && sigma > 0.0 && T > 0.0 ==> d < D1(m, sigma, k, r, T)
  {
    assert Lawful(m) && T > 0.0 ==> Sqrt(m, T) > 0.0;
    D1(m, sigma, k, r, T) - sigma * Sqrt(m, T)
  }

  /**
   * Call price S N(d1) - S e^k N(d2). The source asserts sigma, T, S > 0 only in
   * debug builds, and the implied-volatility search evaluates this price at any
   * sigma Newton's method reaches, so the formula is total here. The price does
   * not depend on r: it is the formula at rate 0.
   */
  function CalculateCallOptionPrice(m: MathOps, sigma: real, S: real, k: real, r: real, T: real): (c: real)
    ensures c == S * Gaussian.N(m, D1(m, sigma, k, 0.0, T)) - S * Exp(m, k) * Gaussian.N(m, D2(m, sigma, k, 0.0, T))
  {
    D1D2RateFree(m, sigma, k, r, T);
    S * Gaussian.N(m, D1(m, sigma, k, r, T)) - S * Exp(m, k) * Gaussian.N(m, D2(m, sigma, k, r, T))
  }

  /** d1 and d2 are the same at rate r as at rate 0. */
  lemma D1D2RateFree(m: MathOps, sigma: real, k: real, r: real, T: real)
    ensures D1(m, sigma, k, r, T) == D1(m, sigma, k, 0.0, T)
    ensures D2(m, sigma, k, r, T) == D2(m, sigma, k, 0.0, T)
  {
  }

  /** Call price from a put price by parity; r and T are accepted and not used. */
  function GetCallFromPutPrice(m: MathOps, S: real, k: real, r: real, T: real, putPrice: real): (c: real)
    ensures GetPutFromCallPrice(m, S, k, r, T, c) == putPrice
  {
    putPrice - Exp(m, k) * S + S
  }

  /** Put price from a call price by parity; r and T are accepted and not used. */
  function GetPutFromCallPrice(m: MathOps, S: real, k: real, r: real, T: real, callPrice: real): (p: real)
    ensures callPrice - p == S - Exp(m, k) * S
  {
    callPrice - S + Exp(m, k) * S
  }

  /** The put price by parity from the call price: call minus put is S - e^k S. */
  function CalculatePutOptionPrice(m: MathOps, sigma: real, S: real, k: real, r: real, T: real): (p: real)
    ensures CalculateCallOptionPrice(m, sigma, S, k, r, T) - p == S - Exp(m, k) * S
  {
    GetPutFromCallPrice(m, S, k, r, T, CalculateCallOptionPrice(m, sigma, S, k, r, T))
  }

  /** The two parity conversions are inverse to each other, in both orders. */
  lemma ParityConversionsRoundTrip(m: MathOps, S: real, k: real, r: real, T: real, price: real)
    ensures GetCallFromPutPrice(m, S, k, r, T, GetPutFromCallPrice(m, S, k, r, T, price)) == price
    ensures GetPutFromCallPrice(m, S, k, r, T, GetCallFromPutPrice(m, S, k, r, T, price)) == price
  {
  }

  /** The conversions do not depend on the rate or the maturity passed to them. */
  lemma ParityConversionsIgnoreRateAndMaturity(
    m: MathOps, S: real, k: real, r: real, T: real, r': real, T': real, price: real)
    ensures GetCallFromPutPrice(m, S, k, r, T, price) == GetCallFromPutPrice(m, S, k, r', T', price)
    ensures GetPutFromCallPrice(m, S, k, r, T, price) == GetPutFromCallPrice(m, S, k, r', T', price)
  {
  }

  /** Put-call parity: call minus put is S - e^k S for every input. */
  lemma PutCallParity(m: MathOps, sigma: real, S: real, k: real, r: real, T: real)
    ensures CalculateCallOptionPrice(m, sigma, S, k, r, T) - CalculatePutOptionPrice(m, sigma, S, k, r, T)
            == S - Exp(m, k) * S
  {
  }

  /** Over the reals the -rT and rT terms of d1 cancel, so no price depends on r. */
  lemma CallPriceIndependentOfRate(m: MathOps, sigma: real, S: real, k: real, r: real, r': real, T: real)
    ensures D1(m, sigma, k, r, T) == D1(m, sigma, k, r', T)
    ensures CalculateCallOptionPrice(m, sigma, S, k, r, T) == CalculateCallOptionPrice(m, sigma, S, k, r', T)
  {
  }

  /**
   * Under the debug-build precondition sigma > 0 and T > 0, d1 is an ordinary
   * quotient (no division by zero).
   */
  lemma D1WellDefined(m: MathOps, sigma: real, k: real, r: real, T: real)
    requires Lawful(m) && sigma > 0.0 && T > 0.0
    ensures sigma * Sqrt(m, T) > 0.0
    ensures D1(m, sigma, k, r, T) == (-k + (sigma * sigma) / 2.0 * T) / (sigma * Sqrt(m, T))
  {
    assert Sqrt(m, T) > 0.0;
  }
}
