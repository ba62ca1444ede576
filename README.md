# Dupire local volatility from an SSVI surface, in Dafny

This project models the C# library that:

- prices options by Monte Carlo under a Dupire local-volatility model built on an SSVI (surface stochastic volatility inspired) implied-variance surface;
- calibrates the five SSVI parameters to quoted option prices.

It also models the error stack and option-type classifier of the library's spreadsheet add-in. Every operation is written in Dafny and proved against its contract.

The model follows the library's structure, one module per source class:

- `Gaussian` covers the density `psi` and the three-term rational approximation `N` of the standard normal distribution function.
- `Newton` covers Newton's method, with an iteration cap, a derivative floor of 1e-16 and a forward-difference derivative (step 1e-6) when none is supplied.
  - `Newton.Iterate` is the solver loop as a recursive function.
  - The class method `NewtonSolver.Solve` is the `while` loop, proved equal to it.
- `BlackScholesFormula` covers call prices in log-moneyness `k`, and put prices and conversions through put-call parity.
- `BlackScholesImpliedVolatility` covers the call implied volatility as the Newton root of `C - CallPrice(sigma)` (seed 0.5, tolerance 1e-6, cap 10000), and the put case through parity.
- `SsviModel` covers the surface `omega(t, k)`, the ATM variance `theta(t)`, the skew `phi`, and the finite-difference Dupire local volatility `VolatilityDup`.
- `MonteCarloPaths` covers the Euler scheme that fills an N x M path array.
  - `Ensemble` is the specification: the path values as a function of the draws.
  - `GenerateMcPaths` fills a fresh `array2` with nested loops and is proved to produce exactly `Ensemble`.
- `MonteCarloPricing` covers the European, Asian, lookback and barrier estimators.
  - Each estimator is a specification function over the rows of the path array, plus loop methods over the `array2` proved equal to it.
  - The pricer class `MonteCarloPricingLocalVol` simulates a fresh ensemble for each price.
- `SsviCalibration` covers the calibrator: a list of quotes, the two mean-square errors, and the two minimisation stages.
  - Both mean-square errors are one loop over the quotes: `MeanSquareErrorOf`, parameterised by `Fit`.
- `XLInterface` covers the newest-first error-message stack, its padded one-column display, and `ItIsCall`.

Conventions of the model:

- **Arithmetic.** All arithmetic is over `real`.
- **Transcendental functions.** `exp`, `log`, `sqrt` and `pow` are uninterpreted fields of a `Numerics.MathOps` value that every numeric operation receives. The ghost predicates `Lawful`, `PowSquares` and `ExpAtLeastOne` state the only facts about them that proofs use: `exp > 0`, `sqrt > 0` on positives, `pow(x, 2) = x * x`, and `exp(x) >= 1` for x >= 0.
- **Division.** `Numerics.Div` is the quotient for a non-zero divisor. For a zero divisor it is an unspecified value standing for the IEEE infinity or NaN.
- **Exceptions.** Every exception becomes an `Err` of `Errors.Error`, named by its cause:

  | source exception | `Error` constructor |
  |---|---|
  | "derivative too small" | `DerivativeTooSmall` |
  | "did not converge" | `DidNotConverge` |
  | put/call parity violation | `ParityViolation` |
  | `ArgumentOutOfRangeException` from `Phi` | `InvalidParameterRange` |
  | bad option type (`CalibrationFailedException` in the calibrator, `ArgumentException` in `ItIsCall`) | `UnrecognizedOptionType` |
  | barrier direction | `InvalidBarrierDirection` |
  | knock type | `InvalidKnockType` |
  | empty quote list | `NoCalibrationData` |
  | failed calibration stage | `CalibrationFailed` |
  | array index out of range | `IndexOutOfRange` |

Quirks of the source that the model keeps:

- `1 / 4` in `VolatilityDup` is integer division and contributes 0. The model writes `(1 / 4) as real`, and `SsviModel.DifferencesGiveDupire` proves the term vanishes.
- The non-ATM calibration discounts the strike with `exp(-r0)`, not `exp(-r0 T)`.
- Column 0 of the path array is written inside the time-step loop, so it stays 0 when `M = 1`.
- The Asian monitoring index uses `Math.Round`, which rounds halves to even (`Numerics.RoundHalfEven`).
- `maxIter <= 0` makes Newton's method fail even when the seed is an exact root.

Behaviour the model keeps although the names suggest otherwise:

- The two calibration stages, though named after the parameters they fit, let the minimiser move all five parameters.
- The SSVI constructors never validate the parameters. Out-of-range `eta` or `gamma` fail only when `phi` is evaluated.
- Column 0 of the path array is the spot only when there is at least one time step to take.

## Model

| member | source | states |
|---|---|---|
| `Numerics.RoundHalfEven` | Dupire/MonteCarloPricingLocalVol.cs:76 | `Math.Round` gives the nearest integer (within 1/2), and an exact half rounds to the even neighbour |
| `Numerics.RoundHalfEvenInRange` | Dupire/MonteCarloPricingLocalVol.cs:76 | a value in [0, hi] rounds to an index in [0, hi] |
| `Gaussian.Psi` | Dupire/SpecialFunctions.cs:9-13 | the density is positive when exp is positive |
| `Gaussian.PsiEven` | Dupire/SpecialFunctions.cs:9-13 | `psi(-x) = psi(x)`: psi depends on x only through x*x |
| `Gaussian.NNonNegative` | Dupire/SpecialFunctions.cs:20-27 | for x >= 0, including 0, `N(x) = 1 - psi(x)(a1 k + a2 k^2 + a3 k^3)` with `k = 1/(1 + 0.33267 x)` |
| `Gaussian.NNegativeOneLevel` | Dupire/SpecialFunctions.cs:24-31 | for x < 0, `N(x) = 1 - N(-x)`, and the recursion stops after one level: N(x) is the rational formula at -x |
| `Gaussian.NSymmetric` | Dupire/SpecialFunctions.cs:24-31 | `N(x) + N(-x) = 1` for every x other than 0 |
| `Gaussian.TailPositive` | Dupire/SpecialFunctions.cs:26 | the cubic in k is positive on (0, 1], the range of k for x >= 0 |
| `Gaussian.N` | Dupire/SpecialFunctions.cs:16-32 | when exp and sqrt are positive, N is below 1 for x >= 0 and above 0 for x < 0 |
| `Gaussian.RationalFormulaBelowOne` | Dupire/SpecialFunctions.cs:20-27 | for x >= 0 the subtracted term psi(x)(a1 k + a2 k^2 + a3 k^3) is positive |
| `Newton.Slope` | Dupire/NewtonSolver.cs:18-21 | a supplied derivative is used as given; otherwise the slope is the forward difference, so `f(x) + slope * h = f(x + h)` with h = 1e-6 |
| `Newton.Iterate` | Dupire/NewtonSolver.cs:26-39 | a returned value x has `abs(f(x)) < maxError`; the only failures are "derivative too small" and "did not converge" |
| `Newton.ConvergedAfterFewerThanMaxIter` | Dupire/NewtonSolver.cs:26-36 | a returned root is the iterate after u Newton updates `x - f(x)/f'(x)` with u below the cap, and every earlier iterate failed the tolerance and passed the derivative guard |
| `Newton.DerivativeTooSmallOnlyAfterToleranceFails` | Dupire/NewtonSolver.cs:28-32 | "derivative too small" comes only from an iterate within the cap that failed the tolerance test and has `abs(f') < 1e-16` |
| `Newton.DidNotConvergeOnlyWhenBudgetExhausted` | Dupire/NewtonSolver.cs:26-39 | "did not converge" means every iterate within the budget passed both stopping tests |
| `Newton.BudgetExhaustedDidNotConverge` | Dupire/NewtonSolver.cs:26-39 | conversely, if every iterate within the budget passes both tests, the solver reports "did not converge" |
| `Newton.NoIterationsAlwaysFails` | Dupire/NewtonSolver.cs:26-39 | with `maxIter <= 0` the solver fails even when x0 is a root |
| `Newton.SeedWithinToleranceReturned` | Dupire/NewtonSolver.cs:26-29 | with `maxIter >= 1` and `abs(f(x0)) < maxError`, x0 is returned unchanged |
| `Newton.NewtonSolver.constructor` | Dupire/NewtonSolver.cs:11 | stores the tolerance and the iteration cap |
| `Newton.NewtonSolver.Solve` | Dupire/NewtonSolver.cs:16-40 | the while loop returns exactly what `Iterate` gives from counter 0, with the forward-difference derivative when none is supplied; a result meets the tolerance |
| `BlackScholesFormula.D1` | Dupire/BlackScholesFormula.cs:11 | d1 is `(-k + sigma^2 T / 2) / (sigma sqrt(T))`: the rT terms cancel |
| `BlackScholesFormula.D2` | Dupire/BlackScholesFormula.cs:12 | d2 lies strictly below d1 when sigma > 0 and T > 0 |
| `BlackScholesFormula.CalculateCallOptionPrice` | Dupire/BlackScholesFormula.cs:8-14 | the call price `S N(d1) - S e^k N(d2)` equals the formula at rate 0, whatever r is passed |
| `BlackScholesFormula.D1D2RateFree` | Dupire/BlackScholesFormula.cs:11-12 | d1 and d2 at any rate equal d1 and d2 at rate 0 |
| `BlackScholesFormula.GetCallFromPutPrice` | Dupire/BlackScholesFormula.cs:16-19 | converting the resulting call back to a put gives the put price passed in |
| `BlackScholesFormula.GetPutFromCallPrice` | Dupire/BlackScholesFormula.cs:21-24 | call price minus the resulting put price is `S - e^k S` |
| `BlackScholesFormula.CalculatePutOptionPrice` | Dupire/BlackScholesFormula.cs:26-29 | the call price minus the put price is `S - e^k S` |
| `BlackScholesFormula.ParityConversionsRoundTrip` | Dupire/BlackScholesFormula.cs:16-24 | put-from-call and call-from-put are inverse to each other, in both orders |
| `BlackScholesFormula.ParityConversionsIgnoreRateAndMaturity` | Dupire/BlackScholesFormula.cs:16-24 | the conversions give the same result for any r and T |
| `BlackScholesFormula.PutCallParity` | Dupire/BlackScholesFormula.cs:8-29 | call price minus put price is `S - e^k S` for every input |
| `BlackScholesFormula.CallPriceIndependentOfRate` | Dupire/BlackScholesFormula.cs:11-13 | the -rT and rT terms of d1 cancel, so d1 and the call price do not depend on r |
| `BlackScholesFormula.D1WellDefined` | Dupire/BlackScholesFormula.cs:10-12 | when sigma > 0 and T > 0, d1 divides by a positive number and is the ordinary quotient |
| `BlackScholesImpliedVolatility.ImpliedVolCall` | Dupire/BlackScholesImpliedVolatility.cs:10-19 | a returned volatility prices the call within maxErr of C |
| `BlackScholesImpliedVolatility.ImpliedVolPut` | Dupire/BlackScholesImpliedVolatility.cs:21-29 | fails with a parity violation exactly when `P - e^k S + S < 0`; a returned volatility prices the parity call within maxErr |
| `BlackScholesImpliedVolatility.CalculateImpliedVolCall` | Dupire/BlackScholesImpliedVolatility.cs:10-19 | with defaults seed 0.5, tolerance 1e-6 and cap 10000, runs the solver on `C - CallPrice` with no derivative and returns its result |
| `BlackScholesImpliedVolatility.CalculateImpliedVolPut` | Dupire/BlackScholesImpliedVolatility.cs:21-29 | fails on a parity violation; otherwise returns the call implied volatility at the parity call price, with the same seed, tolerance and cap |
| `BlackScholesImpliedVolatility.ModelPutPassesParityCheck` | Dupire/BlackScholesImpliedVolatility.cs:21-29 | a put price produced by the model at some sigma (with a non-negative call price) passes the parity check and is inverted as that call |
| `SsviModel.Ssvi.OmegaSsvi` | Dupire/Ssvi.cs:46-51 | omega fails exactly when the parameters are out of range, and then with the range error |
| `SsviModel.Ssvi.VolatilityDup` | Dupire/Ssvi.cs:30-44 | at T = 0 the local volatility is 0; otherwise it fails exactly when the parameters are out of range |
| `SsviModel.FromParameters` | Dupire/Ssvi.cs:21-28 | the array constructor succeeds exactly for at least five entries, and otherwise fails with an index error |
| `SsviModel.Ssvi.Theta` | Dupire/Ssvi.cs:61-64 | `theta(t) = alpha^2 (e^{beta^2 t} - 1)` is at least `-alpha^2`, and non-negative for t >= 0 when exp is at least 1 on non-negative arguments |
| `SsviModel.Phi` | Dupire/Ssvi.cs:53-59 | phi fails exactly when `eta <= 0`, `gamma <= 0` or `gamma >= 1` |
| `SsviModel.ConstructorsAgree` | Dupire/Ssvi.cs:13-28 | entries 0..4 become alpha, beta, gamma, eta, rho; the getters agree with the named constructor |
| `SsviModel.OmegaFormula` | Dupire/Ssvi.cs:46-64 | for valid parameters, `omega = theta/2 (1 + rho phi k + sqrt((phi k + rho)^2 + (1 - rho)^2))` with `theta = alpha^2 (e^{beta^2 t} - 1)` and `phi = eta / (theta^gamma (1 + theta)^(1 - gamma))` |
| `SsviModel.VolatilityAtTimeZero` | Dupire/Ssvi.cs:32-33 | `VolatilityDup(0, k) = 0` for every k, for valid and invalid parameters alike |
| `SsviModel.VolatilityDupBranches` | Dupire/Ssvi.cs:34-43 | for T != 0 and valid parameters, the local volatility is the Dupire formula on the four omega values: the calendar-only branch when `abs(dw/dk) < 1e-6`, the full formula otherwise |
| `SsviModel.DifferencesGiveDupire` | Dupire/Ssvi.cs:39-42 | the source's expression, with `Math.Pow(x, 2)` and the integer `1 / 4`, equals the Dupire formula without the 1/4 term |
| `MonteCarloPaths.LocalVol` | Dupire/MonteCarloPaths.cs:33-34 | at step j of a working surface, the volatility used is the surface's answer at time j tau and the path's log-moneyness |
| `MonteCarloPaths.Clamp` | Dupire/MonteCarloPaths.cs:30-31 | a negative previous value becomes exactly 1e-10, and others pass unchanged, so the clamped value is never negative |
| `MonteCarloPaths.Ensemble` | Dupire/MonteCarloPaths.cs:13-38 | a parameter vector shorter than 5 fails with an index error; a successful ensemble has N rows of M values |
| `MonteCarloPaths.EnsembleFirstColumn` | Dupire/MonteCarloPaths.cs:21-28 | column 0 is S0 when M >= 2 and stays 0 when M = 1 |
| `MonteCarloPaths.EnsembleFailsExactly` | Dupire/MonteCarloPaths.cs:15-34 | the ensemble fails exactly for a short parameter vector, or when an out-of-range surface is evaluated at a non-zero time (N >= 1, M >= 2, tau != 0) |
| `MonteCarloPaths.PathUsesOwnDraws` | Dupire/MonteCarloPaths.cs:32-34 | path n depends only on its own draws |
| `MonteCarloPaths.ZeroMaturityPathsStayAtSpot` | Dupire/MonteCarloPaths.cs:19-34 | with T = 0 the local volatility is 0 and every path stays at a non-negative S0 |
| `MonteCarloPaths.StepPath` | Dupire/MonteCarloPaths.cs:28-34 | one inner-loop step writes S0 to column 0 and the Euler update from the clamped previous value to column j, and nothing else; it fails exactly when the surface fails |
| `MonteCarloPaths.AdvanceStep` | Dupire/MonteCarloPaths.cs:26-35 | one time step fills column j of every path with its path value, or fails at the first path; in either case the columns after j keep their old values |
| `MonteCarloPaths.GenerateMcPaths` | Dupire/MonteCarloPaths.cs:13-38 | the fresh array holds exactly the `Ensemble` values, and fails exactly when `Ensemble` does, with the same error |
| `MonteCarloPricing.Payoff.Pay` | Dupire/MonteCarloPricingLocalVol.cs:24-34 | the call payoff is `max(x - K, 0)` and the put payoff `max(K - x, 0)`; both are non-negative |
| `MonteCarloPricing.TerminalSum` | Dupire/MonteCarloPricingLocalVol.cs:40-43 | the sum of terminal payoffs is non-negative |
| `MonteCarloPricing.EuropeanPrice` | Dupire/MonteCarloPricingLocalVol.cs:36-46 | fails exactly when there is a path and no time step (column M - 1 does not exist), with an index error |
| `MonteCarloPricing.EuropeanNonNegative` | Dupire/MonteCarloPricingLocalVol.cs:36-46 | with paths and time steps and a positive discount factor, the European price exists and is non-negative |
| `MonteCarloPricing.EuropeanOnPaths` | Dupire/MonteCarloPricingLocalVol.cs:39-45 | the payoff loop over the array computes `EuropeanPrice` of its cells |
| `MonteCarloPricing.MonitorIndex` | Dupire/MonteCarloPricingLocalVol.cs:76 | a monitoring time in [0, maturity], with maturity > 0 and M >= 1, rounds to a column in [0, M) |
| `MonteCarloPricing.AsianSum` | Dupire/MonteCarloPricingLocalVol.cs:71-81 | the sum of payoffs of path averages is non-negative |
| `MonteCarloPricing.AsianPrice` | Dupire/MonteCarloPricingLocalVol.cs:60-84 | fails exactly when there is a path and some monitoring time rounds to a column outside the array, with an index error |
| `MonteCarloPricing.AsianIndicesInRange` | Dupire/MonteCarloPricingLocalVol.cs:76 | monitoring times in [0, maturity], with maturity > 0 and M >= 1, select columns inside the array |
| `MonteCarloPricing.AsianNonNegative` | Dupire/MonteCarloPricingLocalVol.cs:60-84 | with at least one monitoring time, valid columns and a positive discount factor, the Asian price exists and is non-negative |
| `MonteCarloPricing.PathAverageOnPaths` | Dupire/MonteCarloPricingLocalVol.cs:73-79 | the inner loop computes the path's average over the monitoring times, or fails on an index outside the row |
| `MonteCarloPricing.AsianSumOnPaths` | Dupire/MonteCarloPricingLocalVol.cs:70-81 | the outer loop sums the payoffs of the path averages as `AsianSum` does, or fails on a column outside the array once there is a path |
| `MonteCarloPricing.AsianOnPaths` | Dupire/MonteCarloPricingLocalVol.cs:70-83 | the loop followed by the mean and the discount computes `AsianPrice` of the array's cells |
| `MonteCarloPricing.RunningMin` | Dupire/MonteCarloPricingLocalVol.cs:94-99 | the running minimum, started at Double.MaxValue, is at most Double.MaxValue and at most every value seen |
| `MonteCarloPricing.RunningMinAttained` | Dupire/MonteCarloPricingLocalVol.cs:94-99 | the running minimum is Double.MaxValue or one of the values seen |
| `MonteCarloPricing.LookbackSum` | Dupire/MonteCarloPricingLocalVol.cs:92-101 | the sum of `S[n, M-1] - min S[n, .]` is non-negative |
| `MonteCarloPricing.LookbackPrice` | Dupire/MonteCarloPricingLocalVol.cs:86-103 | fails exactly when there is a path and no time step, with an index error |
| `MonteCarloPricing.LookbackNonNegative` | Dupire/MonteCarloPricingLocalVol.cs:86-103 | with paths and time steps and a positive discount factor, the lookback price exists and is non-negative |
| `MonteCarloPricing.RowMinimum` | Dupire/MonteCarloPricingLocalVol.cs:94-99 | the inner loop computes `RunningMin` of the row |
| `MonteCarloPricing.LookbackOnPaths` | Dupire/MonteCarloPricingLocalVol.cs:90-102 | the outer loop computes `LookbackPrice` of the array's cells |
| `MonteCarloPricing.HitIffSomeCrossing` | Dupire/MonteCarloPricingLocalVol.cs:125-140 | the barrier is achieved exactly when some value is at or below a down barrier, or at or above an up barrier |
| `MonteCarloPricing.BarrierSum` | Dupire/MonteCarloPricingLocalVol.cs:141-154 | the sum of the paying paths' terminal payoffs is non-negative |
| `MonteCarloPricing.BarrierPrice` | Dupire/MonteCarloPricingLocalVol.cs:118-159 | without paths, or with valid direction and knock type and at least one time step, the price exists |
| `MonteCarloPricing.BarrierSumsSplit` | Dupire/MonteCarloPricingLocalVol.cs:141-154 | every path pays in exactly one of the knock-in and knock-out sums, and together they sum to the European payoff sum |
| `MonteCarloPricing.KnockInPlusKnockOut` | Dupire/MonteCarloPricingLocalVol.cs:141-157 | on the same paths, the knock-in and knock-out prices add up to the European price |
| `MonteCarloPricing.BarrierNonNegative` | Dupire/MonteCarloPricingLocalVol.cs:118-159 | with a positive discount factor, a valid barrier request has a non-negative price |
| `MonteCarloPricing.BarrierFailures` | Dupire/MonteCarloPricingLocalVol.cs:126-153 | error order, once there is a path: a bad direction fails when there is a time step; then a bad knock type fails; a knock-out with no time step fails on the index; a knock-in with no time step prices 0 |
| `MonteCarloPricing.RowHitsBarrier` | Dupire/MonteCarloPricingLocalVol.cs:125-140 | the inner loop decides whether the row reaches the barrier, failing on a bad direction when the row is not empty |
| `MonteCarloPricing.BarrierOnPaths` | Dupire/MonteCarloPricingLocalVol.cs:121-157 | the outer loop computes `BarrierPrice` of the array's cells |
| `MonteCarloPricing.MonteCarloPricingLocalVol.constructor` | Dupire/MonteCarloPricingLocalVol.cs:16-22 | stores the rate, the numbers of paths and of time steps, and the parameter vector |
| `MonteCarloPricing.MonteCarloPricingLocalVol.CalculateEurOptionPrice` | Dupire/MonteCarloPricingLocalVol.cs:36-46 | the European price of a freshly generated ensemble, or the ensemble's failure |
| `MonteCarloPricing.MonteCarloPricingLocalVol.CalculateEurCallOptionPrice` | Dupire/MonteCarloPricingLocalVol.cs:24-28 | the European price with the call payoff |
| `MonteCarloPricing.MonteCarloPricingLocalVol.CalculateEurPutOptionPrice` | Dupire/MonteCarloPricingLocalVol.cs:30-34 | the European price with the put payoff |
| `MonteCarloPricing.MonteCarloPricingLocalVol.CalculateAsianOptionPrice` | Dupire/MonteCarloPricingLocalVol.cs:60-84 | the Asian price of a fresh ensemble simulated to the maturity |
| `MonteCarloPricing.MonteCarloPricingLocalVol.CalculateAsianCallOptionPrice` | Dupire/MonteCarloPricingLocalVol.cs:48-52 | the Asian price with the call payoff |
| `MonteCarloPricing.MonteCarloPricingLocalVol.CalculateAsianPutOptionPrice` | Dupire/MonteCarloPricingLocalVol.cs:54-58 | the Asian price with the put payoff |
| `MonteCarloPricing.MonteCarloPricingLocalVol.CalculateLookbackOptionPrice` | Dupire/MonteCarloPricingLocalVol.cs:86-103 | the lookback price of a fresh ensemble |
| `MonteCarloPricing.MonteCarloPricingLocalVol.CalculateBarrierOptionPrice` | Dupire/MonteCarloPricingLocalVol.cs:118-159 | the barrier price of a fresh ensemble |
| `MonteCarloPricing.MonteCarloPricingLocalVol.CalculateCallBarrierOptionPrice` | Dupire/MonteCarloPricingLocalVol.cs:106-110 | the barrier price with the call payoff |
| `MonteCarloPricing.MonteCarloPricingLocalVol.CalculatePutBarrierOptionPrice` | Dupire/MonteCarloPricingLocalVol.cs:112-116 | the barrier price with the put payoff |
| `SsviCalibration.QuoteImpliedVol` | Dupire/SsviCalibrator.cs:91-100 | Call, call, C and c give the call implied volatility; Put, put, P and p give the put one; both use seed 0.5, tolerance 1e-6 and cap 10000; any other type fails as unrecognised |
| `SsviCalibration.SquaredGap` | Dupire/SsviCalibrator.cs:102-103 | the squared difference between model and market total variance is non-negative |
| `SsviCalibration.QuoteTerm` | Dupire/SsviCalibrator.cs:87-103 | a quote's successful error term is non-negative |
| `SsviCalibration.MeanOfTerms` | Dupire/SsviCalibrator.cs:106-109 | with no terms the mean fails for missing data |
| `SsviCalibration.MeanSquareError` | Dupire/SsviCalibrator.cs:81-110 | an empty quote list fails for missing data |
| `SsviCalibration.QuoteTerms` | Dupire/SsviCalibrator.cs:85-105 | the mean-square error is the mean of the quotes' terms, taken in list order |
| `SsviCalibration.SumTermsExtend` | Dupire/SsviCalibrator.cs:103 | one more successful term adds its value to a successful running sum |
| `SsviCalibration.MeanOfNonNegativeTerms` | Dupire/SsviCalibrator.cs:106-107 | the mean of non-negative terms, when it exists, is non-negative |
| `SsviCalibration.SumNonNegative` | Dupire/SsviCalibrator.cs:103 | a sum of non-negative terms is non-negative |
| `SsviCalibration.TermsNonNegative` | Dupire/SsviCalibrator.cs:102-103 | every successful quote term is non-negative |
| `SsviCalibration.MeanSquareErrorNonNegative` | Dupire/SsviCalibrator.cs:81-110 | a successful mean-square error is non-negative |
| `SsviCalibration.FailureSticks` | Dupire/SsviCalibrator.cs:85-105 | once a quote fails, every later prefix of the loop fails with the same error |
| `SsviCalibration.PrefixSucceeds` | Dupire/SsviCalibrator.cs:85-105 | the sum over a prefix succeeds when every term in it succeeds |
| `SsviCalibration.FirstFailureDecides` | Dupire/SsviCalibrator.cs:85-105 | the mean of the terms is the error of the first failing term |
| `SsviCalibration.MeanOfSucceedingTerms` | Dupire/SsviCalibrator.cs:106-107 | when every term succeeds, the mean is their sum divided by their count |
| `SsviCalibration.FirstFailingQuoteDecides` | Dupire/SsviCalibrator.cs:85-105 | the mean-square error fails with the error of the first failing quote |
| `SsviCalibration.AllTermsSucceed` | Dupire/SsviCalibrator.cs:85-107 | when every quote's term succeeds, the mean-square error is their sum over the number of quotes |
| `SsviCalibration.AtmTerm` | Dupire/SsviCalibrator.cs:87-103 | the ATM term is `(theta(T) - iv^2 T)^2`, with the implied volatility taken at k = 0, or the implied volatility's failure |
| `SsviCalibration.NonAtmTerm` | Dupire/SsviCalibrator.cs:118-135 | the non-ATM term is `(omega(T, k) - iv^2 T)^2` with `k = log(K e^{-r0} / S0)`; omega is evaluated first, so its failure comes before the implied volatility's |
| `SsviCalibration.UnrecognizedTypeFails` | Dupire/SsviCalibrator.cs:118-133 | an unrecognised type fails the term; in the non-ATM fit, an out-of-range surface fails first |
| `SsviCalibration.ModelOf` | Dupire/SsviCalibrator.cs:147 | the objective's model takes entries 0..4 as alpha, beta, gamma, eta, rho |
| `SsviCalibration.Objective` | Dupire/SsviCalibrator.cs:145-149 | every value the objective returns is non-negative, and without quotes it fails for missing data at every parameter vector |
| `SsviCalibration.MeanSquareErrorsNonNegative` | Dupire/SsviCalibrator.cs:81-110 | at every parameter vector, a successful mean-square error is non-negative |
| `SsviCalibration.Settings` | Dupire/SsviCalibrator.cs:158-163 | the stopping conditions: accuracy for all three tolerances, step 1e-6, maximal step 0.05, the iteration cap |
| `SsviCalibration.StageEnd` | Dupire/SsviCalibrator.cs:175-191 | codes 1, 2 and 4 give FinishedOK and code 5 gives FailedMaxItReached, each adopting the run's parameters with no error; any other code gives FailedOtherReason, keeps the previous parameters and fails the stage; a throwing objective leaves the stage NotStarted with the previous parameters and the objective's own error; the stage has no error exactly when it ends FinishedOK or FailedMaxItReached |
| `SsviCalibration.UnknownCodeKeepsParameters` | Dupire/SsviCalibrator.cs:187-191 | any other code gives FailedOtherReason, keeps the parameters and fails the stage |
| `SsviCalibration.ImpliedVolOfQuote` | Dupire/SsviCalibrator.cs:91-100 | the call or put solver method, chosen by the exact type spelling, gives `QuoteImpliedVol` |
| `SsviCalibration.QuoteTermOf` | Dupire/SsviCalibrator.cs:87-103 | one pass of the loop body computes the quote's term |
| `SsviCalibration.QuoteTermAt` | Dupire/SsviCalibrator.cs:85-104 | the loop body on quote n gives the n-th term |
| `SsviCalibration.SsviCalibrator.Default` | Dupire/SsviCalibrator.cs:46-53 | accuracy 1e-4, cap 500, r0 = S0 = 0, no quotes, not started, parameters {0.2, 1, 0.1, 0.1, 0.1} |
| `SsviCalibration.SsviCalibrator.constructor` | Dupire/SsviCalibrator.cs:55-63 | stores r0, S0, the accuracy and the cap; no quotes, the initial guess |
| `SsviCalibration.SsviCalibrator.SetGuessParameters` | Dupire/SsviCalibrator.cs:65-68 | replaces the whole parameter vector and nothing else |
| `SsviCalibration.SsviCalibrator.AddObservedOption` | Dupire/SsviCalibrator.cs:70-78 | appends one quote at the end of the list and changes nothing else |
| `SsviCalibration.SumOfQuoteTerms` | Dupire/SsviCalibrator.cs:83-105 | the loop over the quotes adds up their terms in list order, or stops with the first failing term's error |
| `SsviCalibration.SsviCalibrator.MeanSquareErrorOf` | Dupire/SsviCalibrator.cs:83-109 | the loop's sum over the number of quotes is `MeanSquareError`, failing for missing data when there are none |
| `SsviCalibration.SsviCalibrator.CalcMeanSquareErrorBetweenThetaAndMarketATM` | Dupire/SsviCalibrator.cs:81-110 | the ATM mean-square error of the current quotes |
| `SsviCalibration.SsviCalibrator.CalcMeanSquareErrorBetweenOmegaAndMarketNonATM` | Dupire/SsviCalibrator.cs:112-142 | the non-ATM mean-square error of the current quotes |
| `SsviCalibration.SsviCalibrator.Calibrate` | Dupire/SsviCalibrator.cs:152-192 | a stage runs the minimiser from the current parameters on the stage's objective and settings; the outcome, parameters and failure are `StageEnd` of the run; the quotes and settings are unchanged |
| `SsviCalibration.SsviCalibrator.CalibrateAlphaAndBetaATM` | Dupire/SsviCalibrator.cs:152-192 | the stage on the ATM objective |
| `SsviCalibration.SsviCalibrator.CalibrateEtaGammaRhoNonATM` | Dupire/SsviCalibrator.cs:202-244 | the stage on the non-ATM objective |
| `SsviCalibration.SsviCalibrator.GetCalibrationStatusAlphaBeta` | Dupire/SsviCalibrator.cs:246-251 | the outcome, and the ATM error of the current parameters |
| `SsviCalibration.SsviCalibrator.GetCalibrationStatus` | Dupire/SsviCalibrator.cs:253-258 | the outcome, and the non-ATM error of the current parameters |
| `SsviCalibration.SsviCalibrator.GetCalibratedModel` | Dupire/SsviCalibrator.cs:261-265 | the model's getters return the current parameter vector |
| `XLInterface.LatestErrors` | DupireXL/XLInterfaceBase.cs:36-62 | a non-positive count gives the single fixed message; otherwise exactly `number` rows: row i is the i-th newest message while there is one, and "" after that |
| `XLInterface.NewestMessageFirst` | DupireXL/XLInterfaceBase.cs:24-27 | a message just added is the first row of every display |
| `XLInterface.AddingShiftsRows` | DupireXL/XLInterfaceBase.cs:24-27 | adding a message shifts the earlier ones down one row |
| `XLInterface.EmptyBufferDisplaysBlanks` | DupireXL/XLInterfaceBase.cs:56-59 | with no messages, every row is empty |
| `XLInterface.ItIsCall` | DupireXL/XLInterfaceBase.cs:64-74 | true exactly for a case variant of "call" or C/c; false exactly for a case variant of "put" or P/p; anything else fails as unrecognised |
| `XLInterface.CaseDoesNotMatter` | DupireXL/XLInterfaceBase.cs:66-68 | strings that differ only in case are classified alike |
| `XLInterface.UpperCaseRecognised` | DupireXL/XLInterfaceBase.cs:66-68 | CALL is a call and PUT is a put |
| `XLInterface.CalibratorSpellingsAgree` | DupireXL/XLInterfaceBase.cs:64-74 | every spelling the calibrator accepts is classified the same way here, and CALL is accepted here though the calibrator rejects it |
| `XLInterface.XLInterfaceBase.constructor` | DupireXL/XLInterfaceBase.cs:19-22 | the stack starts empty |
| `XLInterface.XLInterfaceBase.AddErrorMessage` | DupireXL/XLInterfaceBase.cs:24-27 | pushes the message in front of the others |
| `XLInterface.XLInterfaceBase.ClearErrorMessages` | DupireXL/XLInterfaceBase.cs:30-33 | empties the stack |
| `XLInterface.XLInterfaceBase.GetLatestErrors` | DupireXL/XLInterfaceBase.cs:36-62 | returns a fresh one-column array whose cells are `LatestErrors` of the stack, and leaves the stack as it is |

## Left out

- Floating-point behaviour is not modelled: IEEE rounding, overflow, NaN and infinity. Arithmetic is over `real`, and a division by zero yields an unspecified value.
- The transcendental functions are uninterpreted. So are the accuracy of the normal approximation, the convergence of Newton's method, the accuracy of the finite differences, and how close Monte Carlo prices come to Black-Scholes.
- The `Debug.Assert` preconditions are not modelled as requires: finite x in `N`, and sigma, T, S > 0 in the call price. They are active only in debug builds, and the implied-volatility search evaluates the price at any sigma. `D1WellDefined` states what they guarantee.
- `Normal.Samples` is not modelled: the normal draws are an input, one batch of N per time step. Nothing statistical is claimed about them.
- The ALGLIB L-BFGS minimiser is an oracle `Optimizer`. It returns final parameters of length 5 and a termination code, or the failure its objective raised. Its search and its use of the stopping conditions are not modelled.
- `ParallelGenerateMcPaths` is not part of this model: its body is not among the files modelled, and its point is concurrency.
- DupireXL/DupireXLInterface.cs is not part of this model. It is the spreadsheet host glue: function-wizard checks, try/catch into the error stack, range marshalling and result tables.
- The runtime type casts of host objects are not modelled: `ConvertTo`, `ConvertToVector`, `ConvertToMatrix` and `ConvertToKeyValuePairs`.
- DupireCmdLine/Program.cs is not part of this model: console I/O, timing and a demo of the minimiser.
- `XLInterface.ItIsCall`: the culture-sensitive case-insensitive comparison is modelled as ASCII case folding.
- The error stack is static in the source and shared by every worksheet function. The model is one `XLInterfaceBase` object holding that state.
- `MonteCarloPaths.GenerateMcPaths`: N and M are `nat`. A negative size, which makes the array allocation throw in the source, is outside the model.
- `MonteCarloPricing.AsianPrice`: two cases give NaN in the source but 0 in the model. With an empty list of monitoring times, a path's average is 0 times 1/0. With no paths (N = 0), the price is 0 times 1/0. Both are NaN in IEEE arithmetic, so the price is NaN. Over the reals the model computes 0 times an unspecified quotient, which is 0. No property of the price is claimed for either case: `AsianNonNegative` requires at least one path and one monitoring time.
- `MonteCarloPricing.AsianPrice`: the cast of the rounded index to `int` is unbounded. A huge quotient that overflows `int` is treated as an out-of-range column, like any other index outside the row.
- `MonteCarloPaths.LocalVol`: where the surface fails, the Euler step reads 0 as the volatility. This value is never used, because the ensemble then fails as a whole (`EnsembleFailsExactly`).
- `SsviCalibration.SquaredGap`: only non-negativity is stated. That the gap is 0 exactly when model and market agree is not stated.
- `MonteCarloPricing.BarrierPrice`: its own contract states only when the price exists. The failure cases are stated by `BarrierFailures`.
