/**
 * Monte Carlo prices of European, Asian, lookback and barrier options under the
 * SSVI local volatility. Each price is first stated over a given N x M ensemble
 * (rows are paths, columns time steps); the pricer class generates a fresh
 * ensemble on every call and then prices it.
 */
module MonteCarloPricing {
  import opened Wrappers
  import opened Errors
  import opened Numerics
  import opened MonteCarloPaths

  /** The payoff lambdas: max(x - K, 0) for a call, max(K - x, 0) for a put. */
  datatype Payoff = Call(K: real) | Put(K: real) {
    function Pay(x: real): (p: real)
      ensures p >= 0.0
      ensures Call? ==> p >= x - K && (p == 0.0 || p == x - K)
      ensures Put? ==> p >= K - x && (p == 0.0 || p == K - x)
    {
      match this
      case Call(K) => Max(x - K, 0.0)
      case Put(K) => Max(K - x, 0.0)
    }
  }

  /** N rows of M values each. */
  predicate Shaped(S: seq<seq<real>>, N: nat, M: nat) {
    |S| == N && forall n :: 0 <= n < N ==> |S[n]| == M
  }

  /** The value x discounted over time t at rate r: e^{-rt} x. */
  function Discount(math: MathOps, r: real, t: real, x: real): real {
    Exp(math, -r * t) * x
  }

  /** The accumulated total scaled by 1.0 / count, as the Asian pricer averages. */
  function Mean(math: MathOps, total: real, count: nat): real {
    total * Div(math, 1.0, count as real)
  }

  // ---------------------------------------------------------------- European

  /** The sum of the payoffs of the last column over the first n paths. */
  function TerminalSum(S: seq<seq<real>>, M: nat, payoff: Payoff, n: nat): (sum: real)
    requires Shaped(S, |S|, M) && n <= |S| && (n == 0 || M >= 1)
    ensures sum >= 0.0
  {
    if n == 0 then 0.0 else TerminalSum(S, M, payoff, n - 1) + payoff.Pay(S[n - 1][M - 1])
  }

  /**
   * The European price e^{-rT} (sum of payoffs / N); with no time step the
   * access to column M - 1 fails as soon as there is a path.
   */
  function EuropeanPrice(math: MathOps, S: seq<seq<real>>, N: nat, M: nat, r: real, T: real, payoff: Payoff)
    : (price: Result<real, Error>)
    requires Shaped(S, N, M)
    ensures price.Err? <==> N >= 1 && M == 0
    ensures price.Err? ==> price.error == IndexOutOfRange
  {
    if N >= 1 && M == 0 then Err(IndexOutOfRange)
    else Ok(Discount(math, r, T, Div(math, TerminalSum(S, M, payoff, N), N as real)))
  }

  /** With a positive discount factor and at least one path the European price is non-negative. */
  lemma EuropeanNonNegative(math: MathOps, S: seq<seq<real>>, N: nat, M: nat, r: real, T: real, payoff: Payoff)
    requires Shaped(S, N, M) && N >= 1 && M >= 1 && Exp(math, -r * T) > 0.0
    ensures EuropeanPrice(math, S, N, M, r, T, payoff).Ok?
    ensures EuropeanPrice(math, S, N, M, r, T, payoff).value >= 0.0
  {
    var sum := TerminalSum(S, M, payoff, N);
    QuotientNonNegative(math, sum, N);
    DiscountNonNegative(math, r, T, Div(math, sum, N as real));
  }

  lemma DiscountNonNegative(math: MathOps, r: real, t: real, x: real)
    requires Exp(math, -r * t) > 0.0 && x >= 0.0
    ensures Discount(math, r, t, x) >= 0.0
  {
  }

  lemma QuotientNonNegative(math: MathOps, x: real, n: nat)
    requires x >= 0.0 && n >= 1
    ensures Div(math, x, n as real) >= 0.0 && Mean(math, x, n) >= 0.0
  {
  }

  /** The European pricing loop over the path array. */
  method EuropeanOnPaths(math: MathOps, paths: array2<real>, r: real, T: real, payoff: Payoff)
    returns (price: Result<real, Error>)
    ensures price == EuropeanPrice(math, Cells(paths), paths.Length0, paths.Length1, r, T, payoff)
  {
    ghost var S := Cells(paths);
    var N, M := paths.Length0, paths.Length1;
    var sum := 0.0;
    var n := 0;
    while n < N
      invariant 0 <= n <= N
      invariant n > 0 ==> M >= 1
      invariant sum == TerminalSum(S, M, payoff, n)
    {
      if M == 0 {
        return Err(IndexOutOfRange);
      }
      sum := sum + payoff.Pay(paths[n, M - 1]);
      n := n + 1;
    }
    return Ok(Discount(math, r, T, Div(math, sum, N as real)));
  }

  // ------------------------------------------------------------------- Asian

  /** The column of monitoring time t: round((t / maturity) (M - 1)), halves to even. */
  function MonitorIndex(math: MathOps, t: real, maturity: real, M: nat): (column: int)
    ensures maturity > 0.0 && M >= 1 && 0.0 <= t <= maturity ==> 0 <= column < M
  {
    var x := Div(math, t, maturity);
    if maturity > 0.0 && M >= 1 && 0.0 <= t <= maturity then
      UnitQuotient(t, maturity, x);
      ScaledIndexInRange(x, M);
      RoundHalfEven(x * (M as real - 1.0))
    else
      RoundHalfEven(x * (M as real - 1.0))
  }

  /** The columns of the first i monitoring times lie in [0, M). */
  predicate IndicesInRangeUpTo(math: MathOps, times: seq<real>, maturity: real, M: nat, i: nat)
    requires i <= |times|
  {
    forall q :: 0 <= q < i ==> 0 <= MonitorIndex(math, times[q], maturity, M) < M
  }

  /** The columns of all monitoring times lie in [0, M). */
  predicate IndicesInRange(math: MathOps, times: seq<real>, maturity: real, M: nat) {
    IndicesInRangeUpTo(math, times, maturity, M, |times|)
  }

  /** The sum of the path's values at the first i monitoring times. */
  function MonitorSum(math: MathOps, row: seq<real>, times: seq<real>, maturity: real, i: nat): real
    requires i <= |times| && IndicesInRangeUpTo(math, times, maturity, |row|, i)
  {
    if i == 0 then 0.0
    else MonitorSum(math, row, times, maturity, i - 1) + row[MonitorIndex(math, times[i - 1], maturity, |row|)]
  }

  /** The path's average over the monitoring times: the sum times 1 / (number of times). */
  function PathAverage(math: MathOps, row: seq<real>, times: seq<real>, maturity: real): real
    requires IndicesInRange(math, times, maturity, |row|)
  {
    Mean(math, MonitorSum(math, row, times, maturity, |times|), |times|)
  }

  /** The sum of the payoffs of the path averages over the first n paths. */
  function AsianSum(math: MathOps, S: seq<seq<real>>, M: nat, times: seq<real>, maturity: real, payoff: Payoff, n: nat)
    : (sum: real)
    requires Shaped(S, |S|, M) && n <= |S| && (n == 0 || IndicesInRange(math, times, maturity, M))
    ensures sum >= 0.0
  {
    if n == 0 then 0.0
    else AsianSum(math, S, M, times, maturity, payoff, n - 1) + payoff.Pay(PathAverage(math, S[n - 1], times, maturity))
  }

  /**
   * The Asian price e^{-r maturity} (sum of payoffs of the path averages) (1 / N);
   * a monitoring time whose column falls outside the array fails as soon as
   * there is a path.
   */
  function AsianPrice(math: MathOps, S: seq<seq<real>>, N: nat, M: nat, r: real, times: seq<real>, maturity: real, payoff: Payoff)
    : (price: Result<real, Error>)
    requires Shaped(S, N, M)
    ensures price.Err? <==> N >= 1 && !IndicesInRange(math, times, maturity, M)
    ensures price.Err? ==> price.error == IndexOutOfRange
  {
    if N >= 1 && !IndicesInRange(math, times, maturity, M) then Err(IndexOutOfRange)
    else Ok(Discount(math, r, maturity, Mean(math, AsianSum(math, S, M, times, maturity, payoff, N), N)))
  }

  /**
   * Monitoring times within [0, maturity] with a positive maturity select
   * columns within the array, so the Asian price does not fail.
   */
  lemma AsianIndicesInRange(math: MathOps, times: seq<real>, maturity: real, M: nat)
    requires maturity > 0.0 && M >= 1
    requires forall i :: 0 <= i < |times| ==> 0.0 <= times[i] <= maturity
    ensures IndicesInRange(math, times, maturity, M)
  {
    forall q | 0 <= q < |times|
      ensures 0 <= MonitorIndex(math, times[q], maturity, M) < M
    {
      assert 0.0 <= times[q] <= maturity;
    }
  }

  /** A fraction in [0, 1] of the last column index rounds to a column in [0, M). */
  lemma ScaledIndexInRange(x: real, M: nat)
    requires 0.0 <= x <= 1.0 && M >= 1
    ensures 0 <= RoundHalfEven(x * (M as real - 1.0)) < M
  {
    ScaledUnitInRange(x, M);
    RoundHalfEvenInRange(x * (M as real - 1.0), M - 1);
  }

  lemma UnitQuotient(t: real, maturity: real, x: real)
    requires maturity > 0.0 && 0.0 <= t <= maturity && x * maturity == t
    ensures 0.0 <= x <= 1.0
  {
  }

  lemma ScaledUnitInRange(x: real, M: nat)
    requires 0.0 <= x <= 1.0 && M >= 1
    ensures 0.0 <= x * (M as real - 1.0) <= (M - 1) as real
  {
    var h := M as real - 1.0;
    assert h == (M - 1) as real && h >= 0.0;
    assert (1.0 - x) * h >= 0.0;
  }

  /**
   * With a positive discount factor, at least one path and at least one
   * monitoring time the Asian price is non-negative.
   */
  lemma AsianNonNegative(math: MathOps, S: seq<seq<real>>, N: nat, M: nat, r: real, times: seq<real>, maturity: real, payoff: Payoff)
    requires Shaped(S, N, M) && N >= 1 && |times| >= 1 && IndicesInRange(math, times, maturity, M)
    requires Exp(math, -r * maturity) > 0.0
    ensures AsianPrice(math, S, N, M, r, times, maturity, payoff).Ok?
    ensures AsianPrice(math, S, N, M, r, times, maturity, payoff).value >= 0.0
  {
    var sum := AsianSum(math, S, M, times, maturity, payoff, N);
    QuotientNonNegative(math, sum, N);
    DiscountNonNegative(math, r, maturity, Mean(math, sum, N));
  }

  /** The inner Asian loop: the average of path n over the monitoring times. */
  method PathAverageOnPaths(math: MathOps, paths: array2<real>, n: nat, times: seq<real>, maturity: real)
    returns (average: Result<real, Error>)
    requires n < paths.Length0
    ensures average == if IndicesInRange(math, times, maturity, paths.Length1)
                       then Ok(PathAverage(math, Cells(paths)[n], times, maturity))
                       else Err(IndexOutOfRange)
  {
    ghost var row := Cells(paths)[n];
    var M := paths.Length1;
    var sum := 0.0;
    var i := 0;
    while i < |times|
      invariant 0 <= i <= |times|
      invariant IndicesInRangeUpTo(math, times, maturity, M, i)
      invariant sum == MonitorSum(math, row, times, maturity, i)
    {
      var index := MonitorIndex(math, times[i], maturity, M);
      if index < 0 || index >= M {
        return Err(IndexOutOfRange);
      }
      sum := sum + paths[n, index];
      i := i + 1;
    }
    return Ok(Mean(math, sum, |times|));
  }

  /** The Asian loop over the paths: the sum of the payoffs of the path averages. */
  method AsianSumOnPaths(math: MathOps, paths: array2<real>, times: seq<real>, maturity: real, payoff: Payoff)
    returns (sum: Result<real, Error>)
    ensures sum == if paths.Length0 >= 1 && !IndicesInRange(math, times, maturity, paths.Length1)
                   then Err(IndexOutOfRange)
                   else Ok(AsianSum(math, Cells(paths), paths.Length1, times, maturity, payoff, paths.Length0))
  {
    ghost var S := Cells(paths);
    var N, M := paths.Length0, paths.Length1;
    var averagePayoff := 0.0;
    var n := 0;
    while n < N
      invariant 0 <= n <= N
      invariant n > 0 ==> IndicesInRange(math, times, maturity, M)
      invariant averagePayoff == AsianSum(math, S, M, times, maturity, payoff, n)
    {
      var average := PathAverageOnPaths(math, paths, n, times, maturity);
      if average.Err? {
        return Err(average.error);
      }
      assert average.value == PathAverage(math, S[n], times, maturity);
      averagePayoff := averagePayoff + payoff.Pay(average.value);
      n := n + 1;
    }
    return Ok(averagePayoff);
  }

  /** The Asian pricing loop over the path array, then the mean and the discount. */
  method AsianOnPaths(math: MathOps, paths: array2<real>, r: real, times: seq<real>, maturity: real, payoff: Payoff)
    returns (price: Result<real, Error>)
    ensures price == AsianPrice(math, Cells(paths), paths.Length0, paths.Length1, r, times, maturity, payoff)
  {
    var averagePayoff := AsianSumOnPaths(math, paths, times, maturity, payoff);
    if averagePayoff.Err? {
      return Err(averagePayoff.error);
    }
    var mean := Mean(math, averagePayoff.value, paths.Length0);
    return Ok(Discount(math, r, maturity, mean));
  }

  // ---------------------------------------------------------------- Lookback

  /**
   * The running minimum of the first m values, starting from Double.MaxValue
   * and replaced only by strictly smaller values.
   */
  function RunningMin(row: seq<real>, m: nat): (v: real)
    requires m <= |row|
    ensures v <= DoubleMaxValue
    ensures forall i :: 0 <= i < m ==> v <= row[i]
  {
    if m == 0 then DoubleMaxValue
    else
      var v := RunningMin(row, m - 1);
      if row[m - 1] < v then row[m - 1] else v
  }

  /** The running minimum is the initial Double.MaxValue or one of the values seen. */
  lemma {:induction false} RunningMinAttained(row: seq<real>, m: nat)
    requires m <= |row|
    ensures RunningMin(row, m) == DoubleMaxValue || exists i :: 0 <= i < m && RunningMin(row, m) == row[i]
  {
    if m > 0 {
      RunningMinAttained(row, m - 1);
    }
  }

  /** The sum of the lookback payoffs S[n, M - 1] - min_m S[n, m] over the first n paths. */
  function LookbackSum(S: seq<seq<real>>, M: nat, n: nat): (sum: real)
    requires Shaped(S, |S|, M) && n <= |S| && (n == 0 || M >= 1)
    ensures sum >= 0.0
  {
    if n == 0 then 0.0 else LookbackSum(S, M, n - 1) + (S[n - 1][M - 1] - RunningMin(S[n - 1], M))
  }

  /**
   * The lookback price e^{-r maturity} (sum of lookback payoffs) / N; with no
   * time step the access to column M - 1 fails as soon as there is a path.
   */
  function LookbackPrice(math: MathOps, S: seq<seq<real>>, N: nat, M: nat, r: real, maturity: real)
    : (price: Result<real, Error>)
    requires Shaped(S, N, M)
    ensures price.Err? <==> N >= 1 && M == 0
    ensures price.Err? ==> price.error == IndexOutOfRange
  {
    if N >= 1 && M == 0 then Err(IndexOutOfRange)
    else Ok(Div(math, Discount(math, r, maturity, LookbackSum(S, M, N)), N as real))
  }

  /** With a positive discount factor and at least one path the lookback price is non-negative. */
  lemma LookbackNonNegative(math: MathOps, S: seq<seq<real>>, N: nat, M: nat, r: real, maturity: real)
    requires Shaped(S, N, M) && N >= 1 && M >= 1 && Exp(math, -r * maturity) > 0.0
    ensures LookbackPrice(math, S, N, M, r, maturity).Ok?
    ensures LookbackPrice(math, S, N, M, r, maturity).value >= 0.0
  {
    var sum := LookbackSum(S, M, N);
    DiscountNonNegative(math, r, maturity, sum);
    QuotientNonNegative(math, Discount(math, r, maturity, sum), N);
  }

  /** The inner lookback loop: the running minimum of path n. */
  method RowMinimum(paths: array2<real>, n: nat) returns (minValue: real)
    requires n < paths.Length0
    ensures minValue == RunningMin(Cells(paths)[n], paths.Length1)
  {
    ghost var row := Cells(paths)[n];
    minValue := DoubleMaxValue;
    var m := 0;
    while m < paths.Length1
      invariant 0 <= m <= paths.Length1
      invariant minValue == RunningMin(row, m)
    {
      if paths[n, m] < minValue {
        minValue := paths[n, m];
      }
      m := m + 1;
    }
  }

  /** The lookback pricing loop over the path array. */
  method LookbackOnPaths(math: MathOps, paths: array2<real>, r: real, maturity: real)
    returns (price: Result<real, Error>)
    ensures price == LookbackPrice(math, Cells(paths), paths.Length0, paths.Length1, r, maturity)
  {
    ghost var S := Cells(paths);
    var N, M := paths.Length0, paths.Length1;
    var payoff := 0.0;
    var n := 0;
    while n < N
      invariant 0 <= n <= N
      invariant n > 0 ==> M >= 1
      invariant payoff == LookbackSum(S, M, n)
    {
      var minValue := RowMinimum(paths, n);
      if M == 0 {
        return Err(IndexOutOfRange);
      }
      assert paths[n, M - 1] == S[n][M - 1] && minValue == RunningMin(S[n], M);
      payoff := payoff + (paths[n, M - 1] - minValue);
      n := n + 1;
    }
    return Ok(Div(math, Discount(math, r, maturity, payoff), N as real));
  }

  // ----------------------------------------------------------------- Barrier

  predicate ValidDirection(dir: string) {
    dir == "D" || dir == "U"
  }

  predicate ValidKnock(knock: string) {
    knock == "I" || knock == "O"
  }

  /** A value at or below a down barrier, or at or above an up barrier. */
  predicate Crosses(x: real, barrier: real, down: bool) {
    if down then x <= barrier else x >= barrier
  }

  /** Whether one of the first m values of the path reaches the barrier. */
  function HitPrefix(row: seq<real>, barrier: real, down: bool, m: nat): bool
    requires m <= |row|
  {
    m > 0 && (HitPrefix(row, barrier, down, m - 1) || Crosses(row[m - 1], barrier, down))
  }

  /** The barrier is achieved exactly when some value up to m reaches it. */
  lemma {:induction false} HitIffSomeCrossing(row: seq<real>, barrier: real, down: bool, m: nat)
    requires m <= |row|
    ensures HitPrefix(row, barrier, down, m) <==> exists i :: 0 <= i < m && Crosses(row[i], barrier, down)
  {
    if m > 0 {
      HitIffSomeCrossing(row, barrier, down, m - 1);
      if HitPrefix(row, barrier, down, m - 1) {
        var i :| 0 <= i < m - 1 && Crosses(row[i], barrier, down);
        assert 0 <= i < m && Crosses(row[i], barrier, down);
      }
    }
  }

  /**
   * The sum over the first n paths of the payoff at column M - 1 for the paths
   * that pay: hit for a knock-in, not hit for a knock-out.
   */
  function BarrierSum(S: seq<seq<real>>, M: nat, down: bool, knockIn: bool, barrier: real, payoff: Payoff, n: nat)
    : (sum: real)
    requires Shaped(S, |S|, M) && n <= |S|
    ensures sum >= 0.0
  {
    if n == 0 then 0.0
    else
      var pays := M >= 1 && HitPrefix(S[n - 1], barrier, down, M) == knockIn;
      BarrierSum(S, M, down, knockIn, barrier, payoff, n - 1) + (if pays then payoff.Pay(S[n - 1][M - 1]) else 0.0)
  }

  /**
   * The barrier price e^{-r maturity} (sum of paying payoffs) / N. With at least
   * one path: a direction other than "D" or "U" fails once there is a time
   * step, then a knock type other than "I" or "O" fails, then a knock-out with
   * no time step fails on the access to column M - 1.
   */
  function BarrierPrice(math: MathOps, S: seq<seq<real>>, N: nat, M: nat, r: real, maturity: real,
                        dir: string, knock: string, barrier: real, payoff: Payoff)
    : (price: Result<real, Error>)
    requires Shaped(S, N, M)
    ensures N == 0 ==> price.Ok?
    ensures N >= 1 && M >= 1 && ValidDirection(dir) && ValidKnock(knock) ==> price.Ok?
  {
    if N >= 1 && M >= 1 && !ValidDirection(dir) then Err(InvalidBarrierDirection)
    else if N >= 1 && !ValidKnock(knock) then Err(InvalidKnockType)
    else if N >= 1 && M == 0 && knock == "O" then Err(IndexOutOfRange)
    else Ok(Div(math, Discount(math, r, maturity, BarrierSum(S, M, dir == "D", knock == "I", barrier, payoff, N)), N as real))
  }

  /** Every path pays in exactly one of the knock-in and the knock-out sums. */
  lemma {:induction false} BarrierSumsSplit(S: seq<seq<real>>, M: nat, down: bool, barrier: real, payoff: Payoff, n: nat)
    requires Shaped(S, |S|, M) && M >= 1 && n <= |S|
    ensures BarrierSum(S, M, down, true, barrier, payoff, n) + BarrierSum(S, M, down, false, barrier, payoff, n)
            == TerminalSum(S, M, payoff, n)
  {
    if n > 0 {
      BarrierSumsSplit(S, M, down, barrier, payoff, n - 1);
    }
  }

  /** On the same paths the knock-in and knock-out prices add up to the European price. */
  lemma KnockInPlusKnockOut(math: MathOps, S: seq<seq<real>>, N: nat, M: nat, r: real, maturity: real,
                            dir: string, barrier: real, payoff: Payoff)
    requires Shaped(S, N, M) && N >= 1 && M >= 1 && ValidDirection(dir)
    ensures BarrierPrice(math, S, N, M, r, maturity, dir, "I", barrier, payoff).Ok?
    ensures BarrierPrice(math, S, N, M, r, maturity, dir, "O", barrier, payoff).Ok?
    ensures BarrierPrice(math, S, N, M, r, maturity, dir, "I", barrier, payoff).value
            + BarrierPrice(math, S, N, M, r, maturity, dir, "O", barrier, payoff).value
            == EuropeanPrice(math, S, N, M, r, maturity, payoff).value
  {
    var down := dir == "D";
    var a := BarrierSum(S, M, down, true, barrier, payoff, N);
    var b := BarrierSum(S, M, down, false, barrier, payoff, N);
    BarrierSumsSplit(S, M, down, barrier, payoff, N);
    DiscountedSharesAdd(math, r, maturity, a, b, N);
  }

  /** Discounting and dividing by N distribute over the two shares of a sum. */
  lemma DiscountedSharesAdd(math: MathOps, r: real, t: real, a: real, b: real, n: nat)
    requires n >= 1
    ensures Div(math, Discount(math, r, t, a), n as real) + Div(math, Discount(math, r, t, b), n as real)
            == Discount(math, r, t, Div(math, a + b, n as real))
  {
    var e := Exp(math, -r * t);
    var d := n as real;
    assert (e * a) / d + (e * b) / d == e * ((a + b) / d);
  }

  /** With a positive discount factor the barrier price of a valid request is non-negative. */
  lemma BarrierNonNegative(math: MathOps, S: seq<seq<real>>, N: nat, M: nat, r: real, maturity: real,
                           dir: string, knock: string, barrier: real, payoff: Payoff)
    requires Shaped(S, N, M) && N >= 1 && M >= 1 && ValidDirection(dir) && ValidKnock(knock)
    requires Exp(math, -r * maturity) > 0.0
    ensures BarrierPrice(math, S, N, M, r, maturity, dir, knock, barrier, payoff).value >= 0.0
  {
    var sum := BarrierSum(S, M, dir == "D", knock == "I", barrier, payoff, N);
    DiscountNonNegative(math, r, maturity, sum);
    QuotientNonNegative(math, Discount(math, r, maturity, sum), N);
  }

  /** The barrier failures, whichever path array is priced. */
  lemma BarrierFailures(math: MathOps, S: seq<seq<real>>, N: nat, M: nat, r: real, maturity: real,
                        dir: string, knock: string, barrier: real, payoff: Payoff)
    requires Shaped(S, N, M) && N >= 1
    ensures var price := BarrierPrice(math, S, N, M, r, maturity, dir, knock, barrier, payoff);
      && (M >= 1 && !ValidDirection(dir) ==> price == Err(InvalidBarrierDirection))
      && ((M == 0 || ValidDirection(dir)) && !ValidKnock(knock) ==> price == Err(InvalidKnockType))
      && (M == 0 && knock == "O" ==> price == Err(IndexOutOfRange))
      && (M == 0 && knock == "I" ==> price.Ok?)
  {
  }

  /** The inner barrier loop: whether path n reaches the barrier. */
  method RowHitsBarrier(paths: array2<real>, n: nat, dir: string, barrier: real) returns (hit: Result<bool, Error>)
    requires n < paths.Length0
    ensures hit == if paths.Length1 >= 1 && !ValidDirection(dir) then Err(InvalidBarrierDirection)
                   else Ok(HitPrefix(Cells(paths)[n], barrier, dir == "D", paths.Length1))
  {
    ghost var row := Cells(paths)[n];
    var barrierAchieved := false;
    var m := 0;
    while m < paths.Length1
      invariant 0 <= m <= paths.Length1
      invariant m > 0 ==> ValidDirection(dir)
      invariant barrierAchieved == HitPrefix(row, barrier, dir == "D", m)
    {
      if dir == "D" {
        if paths[n, m] <= barrier {
          barrierAchieved := true;
        }
      } else if dir == "U" {
        if paths[n, m] >= barrier {
          barrierAchieved := true;
        }
      } else {
        return Err(InvalidBarrierDirection);
      }
      m := m + 1;
    }
    return Ok(barrierAchieved);
  }

  /** The barrier pricing loop over the path array. */
  method BarrierOnPaths(math: MathOps, paths: array2<real>, r: real, maturity: real,
                        dir: string, knock: string, barrier: real, payoff: Payoff)
    returns (price: Result<real, Error>)
    ensures price == BarrierPrice(math, Cells(paths), paths.Length0, paths.Length1, r, maturity, dir, knock, barrier, payoff)
  {
    ghost var S := Cells(paths);
    var N, M := paths.Length0, paths.Length1;
    var sum := 0.0;
    var n := 0;
    while n < N
      invariant 0 <= n <= N
      invariant n > 0 ==> (M == 0 || ValidDirection(dir)) && ValidKnock(knock) && (M >= 1 || knock == "I")
      invariant sum == BarrierSum(S, M, dir == "D", knock == "I", barrier, payoff, n)
    {
      var hit := RowHitsBarrier(paths, n, dir, barrier);
      if hit.Err? {
        return Err(hit.error);
      }
      if hit.value {
        if knock == "I" {
          sum := sum + payoff.Pay(paths[n, M - 1]);
        } else if knock != "O" {
          return Err(InvalidKnockType);
        }
      } else {
        if knock == "O" {
          if M == 0 {
            return Err(IndexOutOfRange);
          }
          sum := sum + payoff.Pay(paths[n, M - 1]);
        } else if knock != "I" {
          return Err(InvalidKnockType);
        }
      }
      n := n + 1;
    }
    return Ok(Div(math, Discount(math, r, maturity, sum), N as real));
  }

  // ----------------------------------------------- prices of a fresh ensemble

  /** The European price of the ensemble for spot S0 and maturity T. */
  function EuropeanOption(math: MathOps, N: nat, M: nat, r: real, ssviParams: seq<real>,
                          S0: real, T: real, Z: seq<seq<real>>, payoff: Payoff): Result<real, Error> {
    match Ensemble(math, N, M, T, r, S0, ssviParams, Z)
    case Err(e) => Err(e)
    case Ok(S) => EuropeanPrice(math, S, N, M, r, T, payoff)
  }

  /** The Asian price of the ensemble simulated to the maturity. */
  function AsianOption(math: MathOps, N: nat, M: nat, r: real, ssviParams: seq<real>,
                       S0: real, times: seq<real>, maturity: real, Z: seq<seq<real>>, payoff: Payoff): Result<real, Error> {
    match Ensemble(math, N, M, maturity, r, S0, ssviParams, Z)
    case Err(e) => Err(e)
    case Ok(S) => AsianPrice(math, S, N, M, r, times, maturity, payoff)
  }

  /** The lookback price of the ensemble simulated to the maturity. */
  function LookbackOption(math: MathOps, N: nat, M: nat, r: real, ssviParams: seq<real>,
                          S0: real, maturity: real, Z: seq<seq<real>>): Result<real, Error> {
    match Ensemble(math, N, M, maturity, r, S0, ssviParams, Z)
    case Err(e) => Err(e)
    case Ok(S) => LookbackPrice(math, S, N, M, r, maturity)
  }

  /** The barrier price of the ensemble simulated to the maturity. */
  function BarrierOption(math: MathOps, N: nat, M: nat, r: real, ssviParams: seq<real>, S0: real, maturity: real,
                         dir: string, knock: string, barrier: real, Z: seq<seq<real>>, payoff: Payoff): Result<real, Error> {
    match Ensemble(math, N, M, maturity, r, S0, ssviParams, Z)
    case Err(e) => Err(e)
    case Ok(S) => BarrierPrice(math, S, N, M, r, maturity, dir, knock, barrier, payoff)
  }

  /**
   * The pricer: rate, numbers of paths and of time steps and the SSVI
   * parameters are fixed at construction. Each price simulates a fresh
   * ensemble from the draws Z it is given.
   */
  class MonteCarloPricingLocalVol {
    const r: real
    const N: nat
    const M: nat
    const ssviParams: seq<real>

    constructor (riskFreeRate: real, numSamples: nat, numTimeSteps: nat, ssviParams: seq<real>)
      ensures r == riskFreeRate && N == numSamples && M == numTimeSteps && this.ssviParams == ssviParams
    {
      r := riskFreeRate;
      N := numSamples;
      M := numTimeSteps;
      this.ssviParams := ssviParams;
    }

    method CalculateEurOptionPrice(math: MathOps, S0: real, T: real, payoff: Payoff, Z: seq<seq<real>>)
      returns (price: Result<real, Error>)
      requires DrawsFit(N, M, Z)
      ensures price == EuropeanOption(math, N, M, r, ssviParams, S0, T, Z, payoff)
    {
      var stockPaths := GenerateMcPaths(math, N, M, T, r, S0, ssviParams, Z);
      if stockPaths.Err? {
        return Err(stockPaths.error);
      }
      price := EuropeanOnPaths(math, stockPaths.value, r, T, payoff);
    }

    method CalculateEurCallOptionPrice(math: MathOps, S0: real, K: real, T: real, Z: seq<seq<real>>)
      returns (price: Result<real, Error>)
      requires DrawsFit(N, M, Z)
      ensures price == EuropeanOption(math, N, M, r, ssviParams, S0, T, Z, Call(K))
    {
      price := CalculateEurOptionPrice(math, S0, T, Call(K), Z);
    }

    method CalculateEurPutOptionPrice(math: MathOps, S0: real, K: real, T: real, Z: seq<seq<real>>)
      returns (price: Result<real, Error>)
      requires DrawsFit(N, M, Z)
      ensures price == EuropeanOption(math, N, M, r, ssviParams, S0, T, Z, Put(K))
    {
      price := CalculateEurOptionPrice(math, S0, T, Put(K), Z);
    }

    method CalculateAsianOptionPrice(math: MathOps, S0: real, times: seq<real>, maturity: real, payoff: Payoff, Z: seq<seq<real>>)
      returns (price: Result<real, Error>)
      requires DrawsFit(N, M, Z)
      ensures price == AsianOption(math, N, M, r, ssviParams, S0, times, maturity, Z, payoff)
    {
      var stockPaths := GenerateMcPaths(math, N, M, maturity, r, S0, ssviParams, Z);
      if stockPaths.Err? {
        return Err(stockPaths.error);
      }
      price := AsianOnPaths(math, stockPaths.value, r, times, maturity, payoff);
    }

    method CalculateAsianCallOptionPrice(math: MathOps, S: real, K: real, times: seq<real>, maturity: real, Z: seq<seq<real>>)
      returns (price: Result<real, Error>)
      requires DrawsFit(N, M, Z)
      ensures price == AsianOption(math, N, M, r, ssviParams, S, times, maturity, Z, Call(K))
    {
      price := CalculateAsianOptionPrice(math, S, times, maturity, Call(K), Z);
    }

    method CalculateAsianPutOptionPrice(math: MathOps, S: real, K: real, times: seq<real>, maturity: real, Z: seq<seq<real>>)
      returns (price: Result<real, Error>)
      requires DrawsFit(N, M, Z)
      ensures price == AsianOption(math, N, M, r, ssviParams, S, times, maturity, Z, Put(K))
    {
      price := CalculateAsianOptionPrice(math, S, times, maturity, Put(K), Z);
    }

    method CalculateLookbackOptionPrice(math: MathOps, S0: real, maturity: real, Z: seq<seq<real>>)
      returns (price: Result<real, Error>)
      requires DrawsFit(N, M, Z)
      ensures price == LookbackOption(math, N, M, r, ssviParams, S0, maturity, Z)
    {
      var stockPaths := GenerateMcPaths(math, N, M, maturity, r, S0, ssviParams, Z);
      if stockPaths.Err? {
        return Err(stockPaths.error);
      }
      price := LookbackOnPaths(math, stockPaths.value, r, maturity);
    }

    method CalculateBarrierOptionPrice(math: MathOps, S0: real, maturity: real, dir: string, knock: string,
                                       barrier: real, payoff: Payoff, Z: seq<seq<real>>)
      returns (price: Result<real, Error>)
      requires DrawsFit(N, M, Z)
      ensures price == BarrierOption(math, N, M, r, ssviParams, S0, maturity, dir, knock, barrier, Z, payoff)
    {
      var stockPaths := GenerateMcPaths(math, N, M, maturity, r, S0, ssviParams, Z);
      if stockPaths.Err? {
        return Err(stockPaths.error);
      }
      price := BarrierOnPaths(math, stockPaths.value, r, maturity, dir, knock, barrier, payoff);
    }

    method CalculateCallBarrierOptionPrice(math: MathOps, S0: real, K: real, maturity: real, dir: string, knock: string,
                                           barrier: real, Z: seq<seq<real>>)
      returns (price: Result<real, Error>)
      requires DrawsFit(N, M, Z)
      ensures price == BarrierOption(math, N, M, r, ssviParams, S0, maturity, dir, knock, barrier, Z, Call(K))
    {
      price := CalculateBarrierOptionPrice(math, S0, maturity, dir, knock, barrier, Call(K), Z);
    }

    method CalculatePutBarrierOptionPrice(math: MathOps, S0: real, K: real, maturity: real, dir: string, knock: string,
                                          barrier: real, Z: seq<seq<real>>)
      returns (price: Result<real, Error>)
      requires DrawsFit(N, M, Z)
      ensures price == BarrierOption(math, N, M, r, ssviParams, S0, maturity, dir, knock, barrier, Z, Put(K))
    {
      price := CalculateBarrierOptionPrice(math, S0, maturity, dir, knock, barrier, Put(K), Z);
    }
  }
}
