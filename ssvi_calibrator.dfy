/**
 * Calibration of the SSVI parameters to quoted option prices: a list of quotes,
 * the mean-square error between the model's total variance and the quotes'
 * implied total variance, and a minimiser run whose termination code decides
 * the outcome and whether the parameters are replaced.
 */
module SsviCalibration {
  import opened Wrappers
  import opened Errors
  import opened Numerics
  import opened SsviModel
  import IV = BlackScholesImpliedVolatility

  const DefaultAccuracy: real := 1e-4
  const DefaultMaxIterations: int := 500

  /** The minimiser's finite-difference step and maximal step length. */
  const DiffStep: real := 1e-6
  const MaxStep: real := 0.05

  /** A parameter vector alpha, beta, gamma, eta, rho. */
  type Params = p: seq<real> | |p| == NumModelParams witness [0.2, 1.0, 0.1, 0.1, 0.1]

  /** The starting guess of both constructors. */
  const InitialGuess: Params := [0.2, 1.0, 0.1, 0.1, 0.1]

  datatype CalibrationOutcome = NotStarted | FinishedOK | FailedMaxItReached | FailedOtherReason

  /** One quoted option. */
  datatype OptionMarketData = OptionMarketData(maturity: real, strike: real, optionType: string, marketPrice: real)

  /** Which error the calibration stage minimises. */
  datatype Fit =
    | ThetaAtm      // theta(T) against the at-the-money implied total variance
    | OmegaNonAtm   // omega(T, k) against the implied total variance at the quote's strike

  /** The option type spellings accepted as a call: exactly Call, call, C or c. */
  predicate IsCallType(t: string) {
    t == "Call" || t == "call" || t == "C" || t == "c"
  }

  /** The option type spellings accepted as a put: exactly Put, put, P or p. */
  predicate IsPutType(t: string) {
    t == "Put" || t == "put" || t == "P" || t == "p"
  }

  /**
   * The log-moneyness of a quote for the non-ATM fit, log(strike e^{-r0} / S0):
   * discounted with e^{-r0}, whatever the quote's maturity.
   */
  function NonAtmLogMoneyness(math: MathOps, strike: real, r0: real, S0: real): real {
    Log(math, Div(math, strike * Exp(math, -r0), S0))
  }

  /** The quote's implied volatility at log-moneyness k with the default solver settings. */
  function QuoteImpliedVol(math: MathOps, q: OptionMarketData, S0: real, k: real, r0: real): (iv: Result<real, Error>)
    ensures IsCallType(q.optionType) ==>
              iv == IV.ImpliedVolCall(math, q.marketPrice, S0, k, r0, q.maturity,
                                      IV.DefaultSeed, IV.DefaultMaxError, IV.DefaultMaxIterations)
    ensures !IsCallType(q.optionType) && IsPutType(q.optionType) ==>
              iv == IV.ImpliedVolPut(math, q.marketPrice, S0, k, r0, q.maturity,
                                     IV.DefaultSeed, IV.DefaultMaxError, IV.DefaultMaxIterations)
    ensures !IsCallType(q.optionType) && !IsPutType(q.optionType) ==> iv == Err(UnrecognizedOptionType)
  {
    if IsCallType(q.optionType) then
      IV.ImpliedVolCall(math, q.marketPrice, S0, k, r0, q.maturity, IV.DefaultSeed, IV.DefaultMaxError, IV.DefaultMaxIterations)
    else if IsPutType(q.optionType) then
      IV.ImpliedVolPut(math, q.marketPrice, S0, k, r0, q.maturity, IV.DefaultSeed, IV.DefaultMaxError, IV.DefaultMaxIterations)
    else Err(UnrecognizedOptionType)
  }

  /** The squared gap (model - iv^2 T)^2 between a model total variance and an implied one. */
  function SquaredGap(model: real, iv: real, maturity: real): (e: real)
    ensures e >= 0.0
  {
    var difference := model - iv * iv * maturity;
    difference * difference
  }

  /**
   * The error term of one quote. The ATM fit evaluates theta(T) and the implied
   * volatility at k = 0; the non-ATM fit evaluates omega(T, k) first, so a
   * surface with out-of-range parameters fails before the type is checked.
   */
  function QuoteTerm(math: MathOps, m: Ssvi, q: OptionMarketData, S0: real, r0: real, fit: Fit): (t: Result<real, Error>)
    ensures t.Ok? ==> t.value >= 0.0
  {
    match fit
    case ThetaAtm =>
      var theta := m.Theta(math, q.maturity);
      var iv :- QuoteImpliedVol(math, q, S0, 0.0, r0);
      Ok(SquaredGap(theta, iv, q.maturity))
    case OmegaNonAtm =>
      var k := NonAtmLogMoneyness(math, q.strike, r0, S0);
      var omega :- m.OmegaSsvi(math, q.maturity, k);
      var iv :- QuoteImpliedVol(math, q, S0, k, r0);
      Ok(SquaredGap(omega, iv, q.maturity))
  }


  /** terms holds the error term of each quote, in list order. */
  predicate TermsMatch(terms: seq<Result<real, Error>>, math: MathOps, m: Ssvi, quotes: seq<OptionMarketData>,
                             S0: real, r0: real, fit: Fit) {
    && |terms| == |quotes|
    && forall i {:trigger QuoteTerm(math, m, quotes[i], S0, r0, fit)} :: 0 <= i < |quotes| ==>
         terms[i] == QuoteTerm(math, m, quotes[i], S0, r0, fit)
  }

  /** The error terms of the quotes, in list order. */
  function Terms(math: MathOps, m: Ssvi, quotes: seq<OptionMarketData>, S0: real, r0: real, fit: Fit)
    : (terms: seq<Result<real, Error>>)
    ensures TermsMatch(terms, math, m, quotes, S0, r0, fit)
    decreases |quotes|
  {
    if quotes == [] then []
    else
      var terms := Terms(math, m, quotes[..|quotes| - 1], S0, r0, fit);
      TermsAppend(terms, math, m, quotes, S0, r0, fit);
      terms + [QuoteTerm(math, m, quotes[|quotes| - 1], S0, r0, fit)]
  }

  /** Terms matching all quotes but the last, followed by the last quote's term, match all quotes. */
  lemma TermsAppend(terms: seq<Result<real, Error>>, math: MathOps, m: Ssvi, quotes: seq<OptionMarketData>,
                    S0: real, r0: real, fit: Fit)
    requires |quotes| > 0 && TermsMatch(terms, math, m, quotes[..|quotes| - 1], S0, r0, fit)
    ensures TermsMatch(terms + [QuoteTerm(math, m, quotes[|quotes| - 1], S0, r0, fit)], math, m, quotes, S0, r0, fit)
  {
    var front := quotes[..|quotes| - 1];
    forall i | 0 <= i < |front|
      ensures front[i] == quotes[i]
    {
    }
  }

  /** The sum of the first n terms, or the failure of the first failing one. */
  function SumTerms(terms: seq<Result<real, Error>>, n: nat): Result<real, Error>
    requires n <= |terms|
  {
    if n == 0 then Ok(0.0)
    else
      var s :- SumTerms(terms, n - 1);
      var e :- terms[n - 1];
      Ok(s + e)
  }

  /** The mean of the terms, the failure of the first failing one, or a missing-data failure without terms. */
  function MeanOfTerms(terms: seq<Result<real, Error>>): (mean: Result<real, Error>)
    ensures |terms| == 0 ==> mean == Err(NoCalibrationData)
  {
    var s :- SumTerms(terms, |terms|);
    if |terms| > 0 then Ok(s / |terms| as real) else Err(NoCalibrationData)
  }

  /**
   * The mean-square error over all quotes: the failure of the first failing
   * quote, otherwise the mean of the terms, and a missing-data failure when
   * there are no quotes.
   */
  function MeanSquareError(math: MathOps, m: Ssvi, quotes: seq<OptionMarketData>, S0: real, r0: real, fit: Fit)
    : (mse: Result<real, Error>)
    ensures |quotes| == 0 ==> mse == Err(NoCalibrationData)
  {
    MeanOfTerms(Terms(math, m, quotes, S0, r0, fit))
  }

  /** Terms matches the quotes, and any two term lists that match them are equal. */
  lemma TermsExist(math: MathOps, m: Ssvi, quotes: seq<OptionMarketData>, S0: real, r0: real, fit: Fit)
    ensures TermsMatch(Terms(math, m, quotes, S0, r0, fit), math, m, quotes, S0, r0, fit)
    ensures forall t1, t2 :: TermsMatch(t1, math, m, quotes, S0, r0, fit) && TermsMatch(t2, math, m, quotes, S0, r0, fit) ==> t1 == t2
  {
    forall t1, t2 | TermsMatch(t1, math, m, quotes, S0, r0, fit) && TermsMatch(t2, math, m, quotes, S0, r0, fit)
      ensures t1 == t2
    {
      forall i | 0 <= i < |quotes| ensures t1[i] == t2[i] {
        var t := QuoteTerm(math, m, quotes[i], S0, r0, fit);
      }
    }
  }

  /** The quote terms, of which the mean-square error is the mean. */
  lemma QuoteTerms(math: MathOps, m: Ssvi, quotes: seq<OptionMarketData>, S0: real, r0: real, fit: Fit)
    returns (terms: seq<Result<real, Error>>)
    ensures TermsMatch(terms, math, m, quotes, S0, r0, fit)
    ensures MeanSquareError(math, m, quotes, S0, r0, fit) == MeanOfTerms(terms)
  {
    TermsExist(math, m, quotes, S0, r0, fit);
    terms := Terms(math, m, quotes, S0, r0, fit);
  }

  /** One more successful term adds its value to a successful sum. */
  lemma SumTermsExtend(terms: seq<Result<real, Error>>, n: nat)
    requires n < |terms| && SumTerms(terms, n).Ok? && terms[n].Ok?
    ensures SumTerms(terms, n + 1) == Ok(SumTerms(terms, n).value + terms[n].value)
  {
  }

  /** Every successful term is non-negative. */
  predicate NonNegativeTerms(terms: seq<Result<real, Error>>) {
    forall i :: 0 <= i < |terms| && terms[i].Ok? ==> terms[i].value >= 0.0
  }

  /** A sum of non-negative terms is non-negative. */
  lemma {:induction false} SumNonNegative(terms: seq<Result<real, Error>>, n: nat)
    requires n <= |terms| && NonNegativeTerms(terms)
    ensures SumTerms(terms, n).Ok? ==> SumTerms(terms, n).value >= 0.0
  {
    if n > 0 {
      SumNonNegative(terms, n - 1);
    }
  }

  /** The quote terms are squared gaps, hence non-negative. */
  lemma TermsNonNegative(terms: seq<Result<real, Error>>, math: MathOps, m: Ssvi, quotes: seq<OptionMarketData>,
                         S0: real, r0: real, fit: Fit)
    requires TermsMatch(terms, math, m, quotes, S0, r0, fit)
    ensures NonNegativeTerms(terms)
  {
    forall i | 0 <= i < |terms| && terms[i].Ok?
      ensures terms[i].value >= 0.0
    {
      var t := QuoteTerm(math, m, quotes[i], S0, r0, fit);
    }
  }

  /** A successful mean-square error is non-negative. */
  lemma MeanSquareErrorNonNegative(math: MathOps, m: Ssvi, quotes: seq<OptionMarketData>, S0: real, r0: real, fit: Fit)
    ensures var mse := MeanSquareError(math, m, quotes, S0, r0, fit);
      mse.Ok? ==> mse.value >= 0.0
  {
    var terms := QuoteTerms(math, m, quotes, S0, r0, fit);
    TermsNonNegative(terms, math, m, quotes, S0, r0, fit);
    MeanOfNonNegativeTerms(terms);
  }

  /** The mean of non-negative terms, when it exists, is non-negative. */
  lemma MeanOfNonNegativeTerms(terms: seq<Result<real, Error>>)
    requires NonNegativeTerms(terms)
    ensures MeanOfTerms(terms).Ok? ==> MeanOfTerms(terms).value >= 0.0
  {
    SumNonNegative(terms, |terms|);
  }

  /** Once a prefix of the terms fails, every longer prefix fails with the same error. */
  lemma {:induction false} FailureSticks(terms: seq<Result<real, Error>>, i: nat, n: nat)
    requires i <= n <= |terms|
    requires SumTerms(terms, i).Err?
    ensures SumTerms(terms, n) == SumTerms(terms, i)
    decreases n
  {
    if n > i {
      FailureSticks(terms, i, n - 1);
    }
  }

  /** When the first n terms succeed, so does their sum. */
  lemma {:induction false} PrefixSucceeds(terms: seq<Result<real, Error>>, n: nat)
    requires n <= |terms|
    requires forall j :: 0 <= j < n ==> terms[j].Ok?
    ensures SumTerms(terms, n).Ok?
  {
    if n > 0 {
      PrefixSucceeds(terms, n - 1);
    }
  }

  /** The mean of the terms is the failure of the first failing term. */
  lemma FirstFailureDecides(terms: seq<Result<real, Error>>, i: nat)
    requires i < |terms|
    requires forall j :: 0 <= j < i ==> terms[j].Ok?
    requires terms[i].Err?
    ensures MeanOfTerms(terms) == Err(terms[i].error)
  {
    PrefixSucceeds(terms, i);
    FailureSticks(terms, i + 1, |terms|);
  }

  /** When every term succeeds, the mean of the terms is their sum over their count. */
  lemma MeanOfSucceedingTerms(terms: seq<Result<real, Error>>)
    requires |terms| > 0
    requires forall j :: 0 <= j < |terms| ==> terms[j].Ok?
    ensures SumTerms(terms, |terms|).Ok?
    ensures MeanOfTerms(terms) == Ok(SumTerms(terms, |terms|).value / |terms| as real)
  {
    PrefixSucceeds(terms, |terms|);
  }

  /**
   * The mean-square error fails with the error of the first quote whose term
   * fails.
   */
  lemma FirstFailingQuoteDecides(math: MathOps, m: Ssvi, quotes: seq<OptionMarketData>, S0: real, r0: real, fit: Fit, i: nat)
    requires i < |quotes|
    requires forall j :: 0 <= j < i ==> QuoteTerm(math, m, quotes[j], S0, r0, fit).Ok?
    requires QuoteTerm(math, m, quotes[i], S0, r0, fit).Err?
    ensures MeanSquareError(math, m, quotes, S0, r0, fit) == Err(QuoteTerm(math, m, quotes[i], S0, r0, fit).error)
  {
    var terms := QuoteTerms(math, m, quotes, S0, r0, fit);
    forall j | 0 <= j < i
      ensures terms[j].Ok?
    {
      assert QuoteTerm(math, m, quotes[j], S0, r0, fit).Ok?;
    }
    FirstFailureDecides(terms, i);
  }

  /** When every quote's term succeeds, the mean-square error is the mean of the terms. */
  lemma AllTermsSucceed(math: MathOps, m: Ssvi, quotes: seq<OptionMarketData>, S0: real, r0: real, fit: Fit,
                        terms: seq<Result<real, Error>>)
    requires |quotes| > 0
    requires forall j :: 0 <= j < |quotes| ==> QuoteTerm(math, m, quotes[j], S0, r0, fit).Ok?
    requires TermsMatch(terms, math, m, quotes, S0, r0, fit)
    ensures SumTerms(terms, |terms|).Ok?
    ensures MeanSquareError(math, m, quotes, S0, r0, fit) == Ok(SumTerms(terms, |terms|).value / |quotes| as real)
  {
    var terms' := QuoteTerms(math, m, quotes, S0, r0, fit);
    TermsExist(math, m, quotes, S0, r0, fit);
    forall j | 0 <= j < |terms|
      ensures terms[j].Ok?
    {
      assert QuoteTerm(math, m, quotes[j], S0, r0, fit).Ok?;
    }
    MeanOfSucceedingTerms(terms);
  }

  /** The ATM term of a quote whose implied volatility is iv. */
  lemma AtmTerm(math: MathOps, m: Ssvi, q: OptionMarketData, S0: real, r0: real, iv: Result<real, Error>)
    requires iv == QuoteImpliedVol(math, q, S0, 0.0, r0)
    ensures QuoteTerm(math, m, q, S0, r0, ThetaAtm)
            == if iv.Ok? then Ok(SquaredGap(m.Theta(math, q.maturity), iv.value, q.maturity)) else Err(iv.error)
  {
  }

  /** The non-ATM term of a quote from omega(T, k) and the implied volatility at k. */
  lemma NonAtmTerm(math: MathOps, m: Ssvi, q: OptionMarketData, S0: real, r0: real, k: real,
                   omega: Result<real, Error>, iv: Result<real, Error>)
    requires k == NonAtmLogMoneyness(math, q.strike, r0, S0)
    requires omega == m.OmegaSsvi(math, q.maturity, k) && iv == QuoteImpliedVol(math, q, S0, k, r0)
    ensures QuoteTerm(math, m, q, S0, r0, OmegaNonAtm)
            == if omega.Err? then Err(omega.error)
               else if iv.Err? then Err(iv.error)
               else Ok(SquaredGap(omega.value, iv.value, q.maturity))
  {
  }

  /**
   * A quote whose type is none of the eight accepted spellings fails its term;
   * in the non-ATM fit only once omega(T, k) is evaluable.
   */
  lemma UnrecognizedTypeFails(math: MathOps, m: Ssvi, q: OptionMarketData, S0: real, r0: real, fit: Fit)
    requires !IsCallType(q.optionType) && !IsPutType(q.optionType)
    ensures fit == ThetaAtm || m.ValidParameters() ==>
      QuoteTerm(math, m, q, S0, r0, fit) == Err(UnrecognizedOptionType)
    ensures fit == OmegaNonAtm && !m.ValidParameters() ==>
      QuoteTerm(math, m, q, S0, r0, fit) == Err(InvalidParameterRange)
  {
  }

  /** The model of a parameter vector, as the array constructor builds it. */
  function ModelOf(p: Params): (m: Ssvi)
    ensures m == Ssvi(p[0], p[1], p[2], p[3], p[4])
  {
    FromParameters(p).value
  }

  /** The objective the minimiser is given: the stage's mean-square error at a parameter vector. */
  function Objective(math: MathOps, quotes: seq<OptionMarketData>, S0: real, r0: real, fit: Fit)
    : (objective: Params -> Result<real, Error>)
    ensures forall p :: objective(p).Ok? ==> objective(p).value >= 0.0
    ensures quotes == [] ==> forall p :: objective(p) == Err(NoCalibrationData)
  {
    MeanSquareErrorsNonNegative(math, quotes, S0, r0, fit);
    (p: Params) => MeanSquareError(math, ModelOf(p), quotes, S0, r0, fit)
  }

  /** The mean-square error is non-negative at every parameter vector. */
  lemma MeanSquareErrorsNonNegative(math: MathOps, quotes: seq<OptionMarketData>, S0: real, r0: real, fit: Fit)
    ensures forall p: Params :: MeanSquareError(math, ModelOf(p), quotes, S0, r0, fit).Ok? ==>
                                MeanSquareError(math, ModelOf(p), quotes, S0, r0, fit).value >= 0.0
  {
    forall p: Params {
      MeanSquareErrorNonNegative(math, ModelOf(p), quotes, S0, r0, fit);
    }
  }

  /** The stopping conditions handed to the minimiser. */
  datatype OptimizerSettings = OptimizerSettings(epsg: real, epsf: real, epsx: real, diffStep: real, maxIts: int, stpMax: real)

  /**
   * What a minimiser run reports: its final parameters and termination code, or
   * the failure the objective raised, which propagates out of the run.
   */
  datatype OptimizerRun = Terminated(params: Params, code: int) | ObjectiveThrew(error: Error)

  /** A run of the minimiser from the initial parameters. */
  type Optimizer = (Params -> Result<real, Error>, Params, OptimizerSettings) -> OptimizerRun

  /** Both stages use the accuracy for all three tolerances. */
  function Settings(accuracy: real, maxIterations: int): (s: OptimizerSettings)
    ensures s.epsg == accuracy && s.epsf == accuracy && s.epsx == accuracy && s.maxIts == maxIterations
    ensures s.diffStep == DiffStep && s.stpMax == MaxStep
  {
    OptimizerSettings(accuracy, accuracy, accuracy, DiffStep, maxIterations, MaxStep)
  }

  /** The outcome, the parameters and the failure a stage leaves behind. */
  datatype StageResult = StageResult(outcome: CalibrationOutcome, params: Params, error: Option<Error>)

  /**
   * How a run ends a stage: codes 1, 2 and 4 finish and 5 reaches the iteration
   * cap, both adopting the run's parameters; any other code fails and keeps the
   * previous ones; a failing objective leaves the stage not started.
   */
  function StageEnd(run: OptimizerRun, previous: Params): (s: StageResult)
    ensures run.Terminated? && run.code in {1, 2, 4} ==> s == StageResult(FinishedOK, run.params, None)
    ensures run.Terminated? && run.code == 5 ==> s == StageResult(FailedMaxItReached, run.params, None)
    ensures run.Terminated? && run.code !in {1, 2, 4, 5} ==>
              s == StageResult(FailedOtherReason, previous, Some(CalibrationFailed))
    ensures run.ObjectiveThrew? ==> s == StageResult(NotStarted, previous, Some(run.error))
    ensures s.error.None? <==> s.outcome == FinishedOK || s.outcome == FailedMaxItReached
  {
    match run
    case ObjectiveThrew(e) => StageResult(NotStarted, previous, Some(e))
    case Terminated(p, code) =>
      if code == 1 || code == 2 || code == 4 then StageResult(FinishedOK, p, None)
      else if code == 5 then StageResult(FailedMaxItReached, p, None)
      else StageResult(FailedOtherReason, previous, Some(CalibrationFailed))
  }

  /** A code other than 1, 2, 4 and 5 fails the stage and keeps the parameters. */
  lemma UnknownCodeKeepsParameters(p: Params, code: int, previous: Params)
    requires code !in {1, 2, 4, 5}
    ensures StageEnd(Terminated(p, code), previous) == StageResult(FailedOtherReason, previous, Some(CalibrationFailed))
  {
  }

  /** The implied volatility of quote q at log-moneyness k, by the solver methods. */
  method ImpliedVolOfQuote(math: MathOps, q: OptionMarketData, S0: real, k: real, r0: real) returns (iv: Result<real, Error>)
    ensures iv == QuoteImpliedVol(math, q, S0, k, r0)
  {
    if IsCallType(q.optionType) {
      iv := IV.CalculateImpliedVolCall(math, q.marketPrice, S0, k, r0, q.maturity);
    } else if IsPutType(q.optionType) {
      iv := IV.CalculateImpliedVolPut(math, q.marketPrice, S0, k, r0, q.maturity);
    } else {
      iv := Err(UnrecognizedOptionType);
    }
  }

  /** The body of the foreach loop for one quote: its error term or its failure. */
  method QuoteTermOf(math: MathOps, m: Ssvi, option: OptionMarketData, S0: real, r0: real, fit: Fit)
    returns (term: Result<real, Error>)
    ensures term == QuoteTerm(math, m, option, S0, r0, fit)
  {
    match fit
    case ThetaAtm =>
      var theta := m.Theta(math, option.maturity);
      var bsImpliedVolatility := ImpliedVolOfQuote(math, option, S0, 0.0, r0);
      AtmTerm(math, m, option, S0, r0, bsImpliedVolatility);
      if bsImpliedVolatility.Err? {
        return Err(bsImpliedVolatility.error);
      }
      return Ok(SquaredGap(theta, bsImpliedVolatility.value, option.maturity));
    case OmegaNonAtm =>
      var k := NonAtmLogMoneyness(math, option.strike, r0, S0);
      var omega := m.OmegaSsvi(math, option.maturity, k);
      if omega.Err? {
        NonAtmTerm(math, m, option, S0, r0, k, omega, QuoteImpliedVol(math, option, S0, k, r0));
        return Err(omega.error);
      }
      var bsImpliedVolatility := ImpliedVolOfQuote(math, option, S0, k, r0);
      NonAtmTerm(math, m, option, S0, r0, k, omega, bsImpliedVolatility);
      if bsImpliedVolatility.Err? {
        return Err(bsImpliedVolatility.error);
      }
      return Ok(SquaredGap(omega.value, bsImpliedVolatility.value, option.maturity));
  }

  /** The term of the n-th quote, as the loop over the quotes evaluates it. */
  method QuoteTermAt(math: MathOps, m: Ssvi, quotes: seq<OptionMarketData>, n: nat, S0: real, r0: real, fit: Fit,
                     ghost terms: seq<Result<real, Error>>)
    returns (term: Result<real, Error>)
    requires n < |quotes| && TermsMatch(terms, math, m, quotes, S0, r0, fit)
    ensures term == terms[n]
  {
    term := QuoteTermOf(math, m, quotes[n], S0, r0, fit);
  }

  /**
   * The loop over the quotes: adds up their terms in list order and stops at
   * the first failing one.
   */
  method SumOfQuoteTerms(math: MathOps, m: Ssvi, quotes: seq<OptionMarketData>, S0: real, r0: real, fit: Fit,
                         ghost terms: seq<Result<real, Error>>)
    returns (sum: Result<real, Error>)
    requires TermsMatch(terms, math, m, quotes, S0, r0, fit)
    ensures sum == SumTerms(terms, |terms|)
  {
    var meanSqErr := 0.0;
    var nElements := 0;
    while nElements < |quotes|
      invariant 0 <= nElements <= |quotes|
      invariant SumTerms(terms, nElements) == Ok(meanSqErr)
    {
      var term := QuoteTermAt(math, m, quotes, nElements, S0, r0, fit, terms);
      if term.Err? {
        FailureSticks(terms, nElements + 1, |quotes|);
        return Err(term.error);
      }
      SumTermsExtend(terms, nElements);
      meanSqErr := meanSqErr + term.value;
      nElements := nElements + 1;
    }
    return Ok(meanSqErr);
  }

  class SsviCalibrator {
    var accuracy: real
    var maxIterations: int
    var marketOptionsList: seq<OptionMarketData>
    var r0: real
    var S0: real
    var outcome: CalibrationOutcome
    var calibratedParams: Params

    /** Default accuracy and cap, zero rate and spot, no quotes, the initial guess. */
    constructor Default()
      ensures accuracy == DefaultAccuracy && maxIterations == DefaultMaxIterations
      ensures marketOptionsList == [] && r0 == 0.0 && S0 == 0.0
      ensures outcome == NotStarted && calibratedParams == InitialGuess
    {
      accuracy := DefaultAccuracy;
      maxIterations := DefaultMaxIterations;
      marketOptionsList := [];
      r0 := 0.0;
      S0 := 0.0;
      outcome := NotStarted;
      calibratedParams := InitialGuess;
    }

    constructor (r0: real, S0: real, accuracy: real, maxIterations: int)
      ensures this.r0 == r0 && this.S0 == S0 && this.accuracy == accuracy && this.maxIterations == maxIterations
      ensures marketOptionsList == [] && outcome == NotStarted && calibratedParams == InitialGuess
    {
      this.r0 := r0;
      this.S0 := S0;
      this.accuracy := accuracy;
      this.maxIterations := maxIterations;
      marketOptionsList := [];
      outcome := NotStarted;
      calibratedParams := InitialGuess;
    }

    /** Replaces the whole parameter vector. */
    method SetGuessParameters(alpha: real, beta: real, gamma: real, eta: real, rho: real)
      modifies this
      ensures calibratedParams == [alpha, beta, gamma, eta, rho]
      ensures accuracy == old(accuracy) && maxIterations == old(maxIterations) && r0 == old(r0) && S0 == old(S0)
      ensures marketOptionsList == old(marketOptionsList) && outcome == old(outcome)
    {
      calibratedParams := [alpha, beta, gamma, eta, rho];
    }

    /** Appends one quote at the end of the list. */
    method AddObservedOption(maturity: real, strike: real, mktPrice: real, optionType: string)
      modifies this
      ensures marketOptionsList == old(marketOptionsList) + [OptionMarketData(maturity, strike, optionType, mktPrice)]
      ensures |marketOptionsList| == |old(marketOptionsList)| + 1
      ensures accuracy == old(accuracy) && maxIterations == old(maxIterations) && r0 == old(r0) && S0 == old(S0)
      ensures outcome == old(outcome) && calibratedParams == old(calibratedParams)
    {
      marketOptionsList := marketOptionsList + [OptionMarketData(maturity, strike, optionType, mktPrice)];
    }

    /** The foreach loop of both mean-square errors, over the quotes in list order. */
    method MeanSquareErrorOf(math: MathOps, m: Ssvi, fit: Fit) returns (mse: Result<real, Error>)
      ensures mse == MeanSquareError(math, m, marketOptionsList, S0, r0, fit)
    {
      var quotes := marketOptionsList;
      ghost var terms := QuoteTerms(math, m, quotes, S0, r0, fit);
      var sum := SumOfQuoteTerms(math, m, quotes, S0, r0, fit, terms);
      if sum.Err? {
        return Err(sum.error);
      }
      if |quotes| > 0 {
        return Ok(sum.value / |quotes| as real);
      }
      return Err(NoCalibrationData);
    }

    /** The mean-square error between theta(T) and the quotes' ATM implied total variance. */
    method CalcMeanSquareErrorBetweenThetaAndMarketATM(math: MathOps, m: Ssvi) returns (mse: Result<real, Error>)
      ensures mse == MeanSquareError(math, m, marketOptionsList, S0, r0, ThetaAtm)
    {
      mse := MeanSquareErrorOf(math, m, ThetaAtm);
    }

    /** The mean-square error between omega(T, k) and the quotes' implied total variance. */
    method CalcMeanSquareErrorBetweenOmegaAndMarketNonATM(math: MathOps, m: Ssvi) returns (mse: Result<real, Error>)
      ensures mse == MeanSquareError(math, m, marketOptionsList, S0, r0, OmegaNonAtm)
    {
      mse := MeanSquareErrorOf(math, m, OmegaNonAtm);
    }

    /**
     * One calibration stage: the minimiser runs from the current parameters on
     * the stage's objective, and StageEnd decides the outcome, the parameters and
     * the failure reported.
     */
    method Calibrate(math: MathOps, optimizer: Optimizer, fit: Fit) returns (err: Option<Error>)
      modifies this
      ensures var run := optimizer(Objective(math, old(marketOptionsList), old(S0), old(r0), fit),
                                   old(calibratedParams), Settings(old(accuracy), old(maxIterations)));
        var s := StageEnd(run, old(calibratedParams));
        outcome == s.outcome && calibratedParams == s.params && err == s.error
      ensures accuracy == old(accuracy) && maxIterations == old(maxIterations) && r0 == old(r0) && S0 == old(S0)
      ensures marketOptionsList == old(marketOptionsList)
    {
      outcome := NotStarted;
      var initialParams := calibratedParams;
      var settings := Settings(accuracy, maxIterations);
      var run := optimizer(Objective(math, marketOptionsList, S0, r0, fit), initialParams, settings);
      match run
      case ObjectiveThrew(e) =>
        return Some(e);
      case Terminated(resultParams, code) =>
        if code == 1 || code == 2 || code == 4 {
          outcome := FinishedOK;
          calibratedParams := resultParams;
          return None;
        } else if code == 5 {
          outcome := FailedMaxItReached;
          calibratedParams := resultParams;
          return None;
        } else {
          outcome := FailedOtherReason;
          return Some(CalibrationFailed);
        }
    }

    /** The ATM stage: fits theta(T) to the ATM implied total variances. */
    method CalibrateAlphaAndBetaATM(math: MathOps, optimizer: Optimizer) returns (err: Option<Error>)
      modifies this
      ensures var run := optimizer(Objective(math, old(marketOptionsList), old(S0), old(r0), ThetaAtm),
                                   old(calibratedParams), Settings(old(accuracy), old(maxIterations)));
        var s := StageEnd(run, old(calibratedParams));
        outcome == s.outcome && calibratedParams == s.params && err == s.error
      ensures accuracy == old(accuracy) && maxIterations == old(maxIterations) && r0 == old(r0) && S0 == old(S0)
      ensures marketOptionsList == old(marketOptionsList)
    {
      err := Calibrate(math, optimizer, ThetaAtm);
    }

    /** The full stage: fits omega(T, k) to the implied total variances at the strikes. */
    method CalibrateEtaGammaRhoNonATM(math: MathOps, optimizer: Optimizer) returns (err: Option<Error>)
      modifies this
      ensures var run := optimizer(Objective(math, old(marketOptionsList), old(S0), old(r0), OmegaNonAtm),
                                   old(calibratedParams), Settings(old(accuracy), old(maxIterations)));
        var s := StageEnd(run, old(calibratedParams));
        outcome == s.outcome && calibratedParams == s.params && err == s.error
      ensures accuracy == old(accuracy) && maxIterations == old(maxIterations) && r0 == old(r0) && S0 == old(S0)
      ensures marketOptionsList == old(marketOptionsList)
    {
      err := Calibrate(math, optimizer, OmegaNonAtm);
    }

    /** The outcome of the last stage and the ATM error of the current parameters. */
    method GetCalibrationStatusAlphaBeta(math: MathOps) returns (calibOutcome: CalibrationOutcome, pricingError: Result<real, Error>)
      ensures calibOutcome == outcome
      ensures pricingError == MeanSquareError(math, ModelOf(calibratedParams), marketOptionsList, S0, r0, ThetaAtm)
    {
      calibOutcome := outcome;
      var m := ModelOf(calibratedParams);
      pricingError := CalcMeanSquareErrorBetweenThetaAndMarketATM(math, m);
    }

    /** The outcome of the last stage and the non-ATM error of the current parameters. */
    method GetCalibrationStatus(math: MathOps) returns (calibOutcome: CalibrationOutcome, pricingError: Result<real, Error>)
      ensures calibOutcome == outcome
      ensures pricingError == MeanSquareError(math, ModelOf(calibratedParams), marketOptionsList, S0, r0, OmegaNonAtm)
    {
      calibOutcome := outcome;
      var m := ModelOf(calibratedParams);
      pricingError := CalcMeanSquareErrorBetweenOmegaAndMarketNonATM(math, m);
    }

    /** The model of the current parameters. */
    method GetCalibratedModel() returns (m: Ssvi)
      ensures m.GetAlpha() == calibratedParams[0] && m.GetBeta() == calibratedParams[1]
      ensures m.GetGamma() == calibratedParams[2] && m.GetEta() == calibratedParams[3]
      ensures m.GetRho() == calibratedParams[4]
    {
      m := ModelOf(calibratedParams);
    }
  }
}
