/**
 * Euler discretisation of the local-volatility dynamics
 * dS = r S dt + sigma(t, k) S dW on N paths of M time steps. The normal draws are
 * an input: batch j - 1 holds the N draws of time step j.
 */
module MonteCarloPaths {
  import opened Wrappers
  import opened Errors
  import opened Numerics
  import opened SsviModel

  /** A negative previous value is replaced by this floor before the step. */
  const NegativeFloor: real := 1e-10

  /**
   * Everything one ensemble depends on: the SSVI surface and its local
   * volatility vol(t, k), which the loop calls without looking inside.
   */
  datatype Simulation = Simulation(
    math: MathOps, N: nat, M: nat, T: real, r: real, S0: real,
    surface: Ssvi, vol: (real, real) -> Result<real, Error>, draws: seq<seq<real>>)
  {
    /** The local volatility at time t and log-moneyness k. */
    function VolAt(t: real, k: real): Result<real, Error> {
      vol(t, k)
    }

    /**
     * What the loop relies on about vol: like the surface's VolatilityDup, it
     * answers at t = 0 and for valid parameters, and otherwise fails with a range
     * error.
     */
    ghost predicate VolFacts() {
      forall t, k ::
        && (VolAt(t, k).Ok? <==> t == 0.0 || surface.ValidParameters())
        && (VolAt(t, k).Err? ==> VolAt(t, k).error == InvalidParameterRange)
    }

    /** The time step T / M. */
    function Tau(): real {
      Div(math, T, M as real)
    }

    /** One batch of N draws for each time step 1 .. M - 1. */
    predicate WellShapedDraws() {
      DrawsFit(N, M, draws)
    }

    /** The draw of path n at time step j >= 1. */
    function Draw(n: nat, j: nat): real {
      if 1 <= j <= |draws| && n < |draws[j - 1]| then draws[j - 1][n] else 0.0
    }

    /**
     * The surface is evaluated at least once (N >= 1, M >= 2) at a non-zero time
     * with out-of-range parameters: the first local-volatility call fails.
     */
    predicate Fails() {
      N >= 1 && M >= 2 && Tau() != 0.0 && !surface.ValidParameters()
    }
  }

  /** Z holds one batch of N draws for each time step 1 .. M - 1. */
  predicate DrawsFit(N: nat, M: nat, Z: seq<seq<real>>) {
    && |Z| == (if M == 0 then 0 else M - 1)
    && forall b :: 0 <= b < |Z| ==> |Z[b]| == N
  }

  /** The clamp of the previous value: negative values become 1e-10, others pass. */
  function Clamp(s: real): (c: real)
    ensures c > 0.0 || c == s
    ensures c >= 0.0
    ensures s >= 0.0 ==> c == s
    ensures s < 0.0 ==> c == NegativeFloor
  {
    if s < 0.0 then NegativeFloor else s
  }

  /** Log-moneyness log(s e^{-rT} / S0) of the value s. */
  function LogMoneyness(math: MathOps, s: real, r: real, T: real, S0: real): real {
    Log(math, Div(math, s * Exp(math, -r * T), S0))
  }

  /** The local volatility surface (t, k) -> VolatilityDup(t, k) of the SSVI model. */
  function SurfaceVol(math: MathOps, surface: Ssvi): (real, real) -> Result<real, Error> {
    (t, k) => surface.VolatilityDup(math, t, k)
  }

  /**
   * The local volatility at step j for value s. 0 stands in where the surface
   * fails, and is never used: unless the ensemble fails, the surface answers.
   */
  function LocalVol(c: Simulation, j: nat, s: real): (v: real)
    ensures c.VolFacts() && !c.Fails() && c.N >= 1 && 1 <= j < c.M ==>
              c.VolAt(StepTime(c.Tau(), j), LogMoneyness(c.math, s, c.r, c.T, c.S0)) == Ok(v)
  {
    SurfaceAnswersAtSteps(c, j, LogMoneyness(c.math, s, c.r, c.T, c.S0));
    match c.VolAt(StepTime(c.Tau(), j), LogMoneyness(c.math, s, c.r, c.T, c.S0))
    case Ok(v) => v
    case Err(_) => 0.0
  }

  /** The Euler update s + r s tau + sigma s dW with dW = sqrt(tau) z. */
  function EulerUpdate(s: real, r: real, tau: real, vol: real, sqrtTau: real, z: real): real {
    var dw := sqrtTau * z;
    s + r * s * tau + vol * s * dw
  }

  /** The time tau j of step j. */
  function StepTime(tau: real, j: nat): real {
    tau * j as real
  }

  /** One Euler step at time step j from the clamped previous value s. */
  function EulerStep(c: Simulation, s: real, j: nat, z: real): real {
    EulerUpdate(s, c.r, c.Tau(), LocalVol(c, j, s), Sqrt(c.math, c.Tau()), z)
  }

  /**
   * The value of path n at time step j: column 0 is S0 when there is at least
   * one step to take and stays 0 otherwise; column j is the Euler step from the
   * clamped value of column j - 1 with the draw of path n at step j.
   */
  function PathValue(c: Simulation, n: nat, j: nat): real
    decreases j
  {
    if j == 0 then (if c.M >= 2 then c.S0 else 0.0)
    else EulerStep(c, Clamp(PathValue(c, n, j - 1)), j, c.Draw(n, j))
  }

  /** The N x M ensemble as rows of path values. */
  function Paths(c: Simulation): (S: seq<seq<real>>)
    ensures |S| == c.N
    ensures forall n :: 0 <= n < c.N ==> |S[n]| == c.M
    ensures forall n, j :: 0 <= n < c.N && 0 <= j < c.M ==> S[n][j] == PathValue(c, n, j)
  {
    seq(c.N, (n: int) requires 0 <= n => seq(c.M, (j: int) requires 0 <= j => PathValue(c, n, j)))
  }

  /**
   * The ensemble GenerateMcPaths returns: an index error for a short parameter
   * vector, the surface's range error when Fails, otherwise the path values.
   */
  function Ensemble(math: MathOps, N: nat, M: nat, T: real, r: real, S0: real, ssviParams: seq<real>, Z: seq<seq<real>>)
    : (e: Result<seq<seq<real>>, Error>)
    ensures |ssviParams| < NumModelParams ==> e == Err(IndexOutOfRange)
    ensures e.Ok? ==> |e.value| == N && forall n :: 0 <= n < N ==> |e.value[n]| == M
  {
    match FromParameters(ssviParams)
    case Err(err) => Err(err)
    case Ok(surface) =>
      var c := Simulation(math, N, M, T, r, S0, surface, SurfaceVol(math, surface), Z);
      if c.Fails() then Err(InvalidParameterRange) else Ok(Paths(c))
  }

  /**
   * Every row of a successful ensemble starts at S0 when M >= 2 and at 0 when
   * M = 1, since column 0 is only written inside the time-step loop.
   */
  lemma EnsembleFirstColumn(math: MathOps, N: nat, M: nat, T: real, r: real, S0: real, ssviParams: seq<real>, Z: seq<seq<real>>)
    requires Ensemble(math, N, M, T, r, S0, ssviParams, Z).Ok? && M >= 1
    ensures forall n :: 0 <= n < N ==>
      Ensemble(math, N, M, T, r, S0, ssviParams, Z).value[n][0] == (if M >= 2 then S0 else 0.0)
  {
  }

  /**
   * The ensemble fails exactly for a short parameter vector, or when a surface
   * with out-of-range parameters is evaluated at a non-zero time.
   */
  lemma EnsembleFailsExactly(math: MathOps, N: nat, M: nat, T: real, r: real, S0: real, ssviParams: seq<real>, Z: seq<seq<real>>)
    ensures var e := Ensemble(math, N, M, T, r, S0, ssviParams, Z);
      e.Err? <==> |ssviParams| < NumModelParams
                  || (N >= 1 && M >= 2 && Div(math, T, M as real) != 0.0 && !FromParameters(ssviParams).value.ValidParameters())
    ensures var e := Ensemble(math, N, M, T, r, S0, ssviParams, Z);
      e.Err? && |ssviParams| >= NumModelParams ==> e.error == InvalidParameterRange
  {
  }

  /** Path n reads only the draws of path n: changing other paths' draws leaves it unchanged. */
  lemma {:induction false} PathUsesOwnDraws(c: Simulation, d: Simulation, n: nat, j: nat)
    requires c.(draws := d.draws) == d
    requires forall i :: 1 <= i <= j ==> c.Draw(n, i) == d.Draw(n, i)
    ensures PathValue(c, n, j) == PathValue(d, n, j)
    decreases j
  {
    if j > 0 {
      PathUsesOwnDraws(c, d, n, j - 1);
    }
  }

  /**
   * With zero maturity the time step is 0, the SSVI local volatility is 0 and
   * every path stays at a non-negative S0.
   */
  lemma {:induction false} ZeroMaturityPathsStayAtSpot(c: Simulation, n: nat, j: nat)
    requires c.T == 0.0 && c.M >= 2 && c.S0 >= 0.0
    requires c.vol == SurfaceVol(c.math, c.surface)
    ensures PathValue(c, n, j) == c.S0
    decreases j
  {
    if j > 0 {
      ZeroMaturityPathsStayAtSpot(c, n, j - 1);
      assert c.Tau() == 0.0;
      assert StepTime(c.Tau(), j) == 0.0;
      assert LocalVol(c, j, c.S0) == 0.0;
    }
  }

  /** The cells of a 2-D array as rows. */
  function Cells(a: array2<real>): (S: seq<seq<real>>)
    reads a
    ensures |S| == a.Length0
    ensures forall n :: 0 <= n < a.Length0 ==> |S[n]| == a.Length1
    ensures forall n, j :: 0 <= n < a.Length0 && 0 <= j < a.Length1 ==> S[n][j] == a[n, j]
  {
    seq(a.Length0, (n: int) reads a requires 0 <= n < a.Length0 =>
      seq(a.Length1, (j: int) reads a requires 0 <= j < a.Length1 => a[n, j]))
  }

  /** The SSVI local volatility has the facts the loop relies on. */
  lemma SurfaceVolFacts(c: Simulation)
    requires c.vol == SurfaceVol(c.math, c.surface)
    ensures c.VolFacts()
  {
  }

  /** Unless the ensemble fails, the surface answers at every step the loop evaluates. */
  lemma SurfaceAnswers(c: Simulation, j: nat, k: real)
    requires c.VolFacts() && !c.Fails() && c.N >= 1 && 1 <= j < c.M
    ensures c.VolAt(StepTime(c.Tau(), j), k).Ok?
  {
    if c.Tau() == 0.0 {
      assert c.Tau() * j as real == 0.0;
    }
  }

  lemma SurfaceAnswersAtSteps(c: Simulation, j: nat, k: real)
    ensures c.VolFacts() && !c.Fails() && c.N >= 1 && 1 <= j < c.M ==> c.VolAt(StepTime(c.Tau(), j), k).Ok?
  {
    if c.VolFacts() && !c.Fails() && c.N >= 1 && 1 <= j < c.M {
      SurfaceAnswers(c, j, k);
    }
  }

  /** Column j >= 1 of a path is the Euler update from the clamped column j - 1. */
  lemma PathStep(c: Simulation, n: nat, j: nat, s: real, vol: real)
    requires 1 <= j && s == Clamp(PathValue(c, n, j - 1))
    requires c.VolAt(StepTime(c.Tau(), j), LogMoneyness(c.math, s, c.r, c.T, c.S0)) == Ok(vol)
    ensures PathValue(c, n, j) == EulerUpdate(s, c.r, c.Tau(), vol, Sqrt(c.math, c.Tau()), c.Draw(n, j))
  {
  }

  /**
   * Path n at time step j: column 0 is set to S0, then column j to the Euler
   * update from the clamped column j - 1. Fails when the surface rejects its
   * parameters.
   */
  method StepPath(c: Simulation, pathOfS: array2<real>, tau: real, sqrtTau: real, j: nat, n: nat)
    returns (err: Option<Error>)
    requires c.WellShapedDraws() && c.VolFacts() && tau == c.Tau() && sqrtTau == Sqrt(c.math, tau)
    requires 1 <= j < c.M && n < c.N
    requires pathOfS.Length0 == c.N && pathOfS.Length1 == c.M
    requires j >= 2 ==> pathOfS[n, j - 1] == PathValue(c, n, j - 1)
    modifies pathOfS
    ensures err.Some? <==> c.Fails()
    ensures err.Some? ==> err.value == InvalidParameterRange
    ensures err.None? ==> pathOfS[n, 0] == c.S0 && pathOfS[n, j] == PathValue(c, n, j)
    ensures forall p, i :: 0 <= p < c.N && 0 <= i < c.M && (p, i) != (n, 0) && (p, i) != (n, j) ==>
      pathOfS[p, i] == old(pathOfS[p, i])
  {
    pathOfS[n, 0] := c.S0;
    var s := pathOfS[n, j - 1];
    if s < 0.0 {
      s := NegativeFloor;
    }
    var k := LogMoneyness(c.math, s, c.r, c.T, c.S0);
    var vol := c.VolAt(StepTime(tau, j), k);
    if vol.Err? {
      return Some(vol.error);
    }
    if !c.Fails() {
      SurfaceAnswers(c, j, k);
    }
    PathStep(c, n, j, s, vol.value);
    pathOfS[n, j] := EulerUpdate(s, c.r, tau, vol.value, sqrtTau, c.draws[j - 1][n]);
    return None;
  }

  /** Time step j of the fill, path by path; fails at the first path when the surface fails. */
  method AdvanceStep(c: Simulation, pathOfS: array2<real>, tau: real, j: nat) returns (err: Option<Error>)
    requires c.WellShapedDraws() && c.VolFacts() && tau == c.Tau() && 1 <= j < c.M
    requires pathOfS.Length0 == c.N && pathOfS.Length1 == c.M
    requires forall n, i :: 0 <= n < c.N && 1 <= i < j ==> pathOfS[n, i] == PathValue(c, n, i)
    requires forall n :: 0 <= n < c.N ==> pathOfS[n, 0] == (if j >= 2 then c.S0 else 0.0)
    modifies pathOfS
    ensures err.Some? <==> c.Fails()
    ensures err.Some? ==> err.value == InvalidParameterRange
    ensures err.None? ==> forall n, i :: 0 <= n < c.N && 1 <= i <= j ==> pathOfS[n, i] == PathValue(c, n, i)
    ensures err.None? ==> forall n :: 0 <= n < c.N ==> pathOfS[n, 0] == c.S0
    ensures forall n, i :: 0 <= n < c.N && j < i < c.M ==> pathOfS[n, i] == old(pathOfS[n, i])
  {
    var sqrtTau := Sqrt(c.math, tau);
    var n := 0;
    while n < c.N
      invariant 0 <= n <= c.N
      invariant c.Fails() ==> n == 0
      invariant forall p, i :: 0 <= p < c.N && 1 <= i < c.M && i != j ==> pathOfS[p, i] == old(pathOfS[p, i])
      invariant forall p :: 0 <= p < n ==> pathOfS[p, j] == PathValue(c, p, j)
      invariant forall p :: 0 <= p < c.N ==> pathOfS[p, 0] == (if j >= 2 || p < n then c.S0 else 0.0)
    {
      err := StepPath(c, pathOfS, tau, sqrtTau, j, n);
      if err.Some? {
        return;
      }
      n := n + 1;
    }
    return None;
  }

  /**
   * Fills a fresh N x M array with the Euler recurrence; fails when the surface
   * rejects its parameters, at the first local-volatility evaluation.
   */
  method GenerateMcPaths(math: MathOps, N: nat, M: nat, T: real, r: real, S0: real, ssviParams: seq<real>, Z: seq<seq<real>>)
    returns (result: Result<array2<real>, Error>)
    requires DrawsFit(N, M, Z)
    ensures result.Err? <==> Ensemble(math, N, M, T, r, S0, ssviParams, Z).Err?
    ensures result.Err? ==> result.error == Ensemble(math, N, M, T, r, S0, ssviParams, Z).error
    ensures result.Ok? ==> fresh(result.value) && result.value.Length0 == N && result.value.Length1 == M
    ensures result.Ok? ==> Cells(result.value) == Ensemble(math, N, M, T, r, S0, ssviParams, Z).value
  {
    var parsed := FromParameters(ssviParams);
    if parsed.Err? {
      return Err(parsed.error);
    }
    var c := Simulation(math, N, M, T, r, S0, parsed.value, SurfaceVol(math, parsed.value), Z);
    SurfaceVolFacts(c);
    var pathOfS := new real[N, M]((n, j) => 0.0);
    var tau := Div(math, T, M as real);
    var j := 1;
    while j < M
      invariant 1 <= j <= (if M == 0 then 1 else M)
      invariant c.Fails() ==> j == 1
      invariant forall n, i :: 0 <= n < N && 1 <= i < j ==> pathOfS[n, i] == PathValue(c, n, i)
      invariant forall n :: 0 <= n < N && M >= 1 ==> pathOfS[n, 0] == (if j >= 2 then S0 else 0.0)
    {
      var err := AdvanceStep(c, pathOfS, tau, j);
      if err.Some? {
        return Err(err.value);
      }
      j := j + 1;
    }
    assert forall n, i :: 0 <= n < N && 0 <= i < M ==> pathOfS[n, i] == PathValue(c, n, i);
    forall n | 0 <= n < N
      ensures Cells(pathOfS)[n] == Paths(c)[n]
    {
    }
    return Ok(pathOfS);
  }
}
