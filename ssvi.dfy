/**
 * The SSVI total implied variance surface omega(t, k) and the Dupire local
 * volatility derived from it by finite differences.
 */
module SsviModel {
  import opened Wrappers
  import opened Errors
  import opened Numerics

  const NumModelParams: nat := 5

  /** Finite-difference step of the local-volatility transform. */
  const H: real := 1e-6

  /** Below this slope dw/dk the calendar-only branch is used. */
  const FlatSlope: real := 1e-6

  /** The parameters, as set by either constructor; neither validates them. */
  datatype Ssvi = Ssvi(alpha: real, beta: real, gamma: real, eta: real, rho: real) {

    function GetAlpha(): real { alpha }
    function GetBeta(): real { beta }
    function GetGamma(): real { gamma }
    function GetEta(): real { eta }
    function GetRho(): real { rho }

    /** The range Phi checks on every evaluation of the surface. */
    predicate ValidParameters() {
      eta > 0.0 && 0.0 < gamma < 1.0
    }

    /** At-the-money total variance alpha^2 (e^{beta^2 t} - 1). */
    function Theta(m: MathOps, t: real): (th: real)
      ensures Lawful(m) ==> th >= -(alpha * alpha)
      ensures ExpAtLeastOne(m) && t >= 0.0 ==> th >= 0.0
    {
      var e := Exp(m, beta * beta * t);
      assert t >= 0.0 ==> beta * beta * t >= 0.0;
      assert e >= 1.0 ==> alpha * alpha * (e - 1.0) >= 0.0;
      assert e > 0.0 ==> alpha * alpha * (e - 1.0) >= -(alpha * alpha);
      alpha * alpha * (e - 1.0)
    }

    /** Total implied variance; fails exactly when the parameters are out of range. */
    function OmegaSsvi(m: MathOps, t: real, k: real): (w: Result<real, Error>)
      ensures w.Ok? <==> ValidParameters()
      ensures w.Err? ==> w.error == InvalidParameterRange
    {
      var theta := Theta(m, t);
      match Phi(m, theta, eta, gamma)
      case Err(e) => Err(e)
      case Ok(phi) => Ok(OmegaExpression(m, theta, phi, rho, k))
    }

    /**
     * Dupire local volatility at (T, k) from finite differences of omega. At T = 0
     * it is 0 without evaluating omega; otherwise it fails exactly when the
     * parameters are out of range.
     */
    function VolatilityDup(m: MathOps, T: real, k: real): (v: Result<real, Error>)
      ensures T == 0.0 ==> v == Ok(0.0)
      ensures v.Ok? <==> T == 0.0 || ValidParameters()
      ensures v.Err? ==> v.error == InvalidParameterRange
    {
      if T == 0.0 then Ok(0.0)
      else
        match OmegaSsvi(m, T, k + H)
        case Err(e) => Err(e)  // the first evaluation rejects out-of-range parameters
        case Ok(wUp) =>
          // from here on every evaluation of omega succeeds
          Ok(LocalVolFromDifferences(m, k, OmegaSsvi(m, T, k).value, wUp,
                                     OmegaSsvi(m, T, k + 2.0 * H).value, OmegaSsvi(m, T + H, k).value))
    }
  }

  /** The smile expression of OmegaSsvi, with the square written as Math.Pow(., 2). */
  function OmegaExpression(m: MathOps, theta: real, phi: real, rho: real, k: real): real {
    theta / 2.0 * (1.0 + rho * phi * k + Sqrt(m, Pow(m, phi * k + rho, 2.0) + (1.0 - rho) * (1.0 - rho)))
  }

  /**
   * The local-volatility expression of VolatilityDup from w = omega(T, k),
   * wUp = omega(T, k + h), wUp2 = omega(T, k + 2h) and wLater = omega(T + h, k).
   */
  function LocalVolFromDifferences(m: MathOps, k: real, w: real, wUp: real, wUp2: real, wLater: real): real {
    var dwdk := (wUp - w) / H;
    if Abs(dwdk) < FlatSlope then
      Sqrt(m, (wLater - w) / H)
    else
      var d2wdk2 := (wUp2 - 2.0 * wUp + w) / (H * H);
      // `1 / 4` is integer division in the source: it contributes 0
      var g := Pow(m, 1.0 - Div(m, k * dwdk, 2.0 * w), 2.0)
               - (dwdk * dwdk / 4.0) * ((1 / 4) as real + Div(m, 1.0, w))
               + d2wdk2 / 2.0;
      Sqrt(m, Div(m, wLater - w, H * g))
  }

  /**
   * The array constructor: entries 0..4 are alpha, beta, gamma, eta, rho; a
   * shorter array fails with an index error.
   */
  function FromParameters(p: seq<real>): (s: Result<Ssvi, Error>)
    ensures s.Ok? <==> |p| >= NumModelParams
    ensures s.Err? ==> s.error == IndexOutOfRange
  {
    if |p| < NumModelParams then Err(IndexOutOfRange)
    else Ok(Ssvi(p[0], p[1], p[2], p[3], p[4]))
  }

  /**
   * The skew function eta / (theta^gamma (1 + theta)^(1 - gamma)); fails exactly
   * when eta <= 0 or gamma is outside (0, 1).
   */
  function Phi(m: MathOps, theta: real, eta: real, gamma: real): (phi: Result<real, Error>)
    ensures phi.Err? <==> eta <= 0.0 || gamma <= 0.0 || gamma >= 1.0
    ensures phi.Err? ==> phi.error == InvalidParameterRange
  {
    if eta <= 0.0 || gamma <= 0.0 || gamma >= 1.0 then Err(InvalidParameterRange)
    else Ok(Div(m, eta, Pow(m, theta, gamma) * Pow(m, 1.0 + theta, 1.0 - gamma)))
  }

  function Square(x: real): real {
    x * x
  }

  /** Both constructors give the same getters for the same five values. */
  lemma ConstructorsAgree(p: seq<real>)
    requires |p| >= NumModelParams
    ensures var s := FromParameters(p).value;
      && s.GetAlpha() == p[0] && s.GetBeta() == p[1] && s.GetGamma() == p[2]
      && s.GetEta() == p[3] && s.GetRho() == p[4]
      && s == Ssvi(p[0], p[1], p[2], p[3], p[4])
  {
  }

  /** The SSVI smile theta/2 (1 + rho phi k + sqrt((phi k + rho)^2 + (1 - rho)^2)). */
  function SsviSmile(m: MathOps, theta: real, phi: real, rho: real, k: real): real {
    theta / 2.0 * (1.0 + rho * phi * k + Sqrt(m, Square(phi * k + rho) + Square(1.0 - rho)))
  }

  /**
   * With valid parameters omega is the SSVI smile at theta(t) and the skew
   * phi = eta / (theta^gamma (1 + theta)^(1 - gamma)).
   */
  lemma OmegaFormula(m: MathOps, s: Ssvi, t: real, k: real)
    requires PowSquares(m) && s.ValidParameters()
    ensures s.OmegaSsvi(m, t, k).Ok?
    ensures var theta := s.Theta(m, t);
      var phi := Phi(m, theta, s.eta, s.gamma).value;
      && phi == Div(m, s.eta, Pow(m, theta, s.gamma) * Pow(m, 1.0 + theta, 1.0 - s.gamma))
      && s.OmegaSsvi(m, t, k).value == SsviSmile(m, theta, phi, s.rho, k)
  {
    var theta := s.Theta(m, t);
    var phi := Phi(m, theta, s.eta, s.gamma).value;
    assert s.OmegaSsvi(m, t, k).value == OmegaExpression(m, theta, phi, s.rho, k);
    assert Pow(m, phi * k + s.rho, 2.0) == Square(phi * k + s.rho);
  }

  /** At T = 0 the local volatility is 0 for every k and every parameter set, valid or not. */
  lemma VolatilityAtTimeZero(m: MathOps, s: Ssvi, k: real)
    ensures s.VolatilityDup(m, 0.0, k) == Ok(0.0)
  {
  }

  /**
   * The Dupire local volatility from the differences of omega, written with
   * squares and without the vanishing 1/4 term: the calendar-only form
   * sqrt(dw/dT) when |dw/dk| < 1e-6, otherwise
   * sqrt(dw/dT / ((1 - k w'/(2w))^2 - w'^2/4 (1/w) + w''/2)).
   */
  function DupireLocalVol(m: MathOps, k: real, w: real, wUp: real, wUp2: real, wLater: real): real {
    var dwdk := (wUp - w) / H;
    var dwdT := (wLater - w) / H;
    if Abs(dwdk) < FlatSlope then Sqrt(m, dwdT)
    else
      var base := 1.0 - Div(m, k * dwdk, 2.0 * w);
      var g := base * base - (dwdk * dwdk / 4.0) * Div(m, 1.0, w) + (wUp2 - 2.0 * wUp + w) / (H * H) / 2.0;
      Sqrt(m, Div(m, wLater - w, H * g))
  }

  /**
   * For T != 0 and valid parameters the local volatility is the Dupire formula on
   * the four omega values: the source's 1/4 term contributes nothing.
   */
  lemma VolatilityDupBranches(m: MathOps, s: Ssvi, T: real, k: real)
    requires PowSquares(m) && s.ValidParameters() && T != 0.0
    ensures s.VolatilityDup(m, T, k)
      == Ok(DupireLocalVol(m, k, s.OmegaSsvi(m, T, k).value, s.OmegaSsvi(m, T, k + H).value,
                           s.OmegaSsvi(m, T, k + 2.0 * H).value, s.OmegaSsvi(m, T + H, k).value))
  {
    var w := s.OmegaSsvi(m, T, k).value;
    var wUp := s.OmegaSsvi(m, T, k + H).value;
    var wUp2 := s.OmegaSsvi(m, T, k + 2.0 * H).value;
    var wLater := s.OmegaSsvi(m, T + H, k).value;
    assert s.VolatilityDup(m, T, k) == Ok(LocalVolFromDifferences(m, k, w, wUp, wUp2, wLater));
    DifferencesGiveDupire(m, k, w, wUp, wUp2, wLater);
  }

  /** The source's expression is the Dupire formula once Math.Pow(x, 2) is x * x. */
  lemma DifferencesGiveDupire(m: MathOps, k: real, w: real, wUp: real, wUp2: real, wLater: real)
    requires PowSquares(m)
    ensures LocalVolFromDifferences(m, k, w, wUp, wUp2, wLater) == DupireLocalVol(m, k, w, wUp, wUp2, wLater)
  {
    var dwdk := (wUp - w) / H;
    if Abs(dwdk) >= FlatSlope {
      var base := 1.0 - Div(m, k * dwdk, 2.0 * w);
      var tail := (wUp2 - 2.0 * wUp + w) / (H * H) / 2.0;
      assert Pow(m, base, 2.0) == base * base;
      assert (1 / 4) as real == 0.0;
      var g1 := Pow(m, base, 2.0) - (dwdk * dwdk / 4.0) * ((1 / 4) as real + Div(m, 1.0, w)) + tail;
      var g2 := base * base - (dwdk * dwdk / 4.0) * Div(m, 1.0, w) + tail;
      assert g1 == g2;
    }
  }
}
