/** What the reported metrics and the signals of a run mean. */
module BacktestMeaning {
  import opened Numeric
  import opened Options
  import opened Indicators
  import opened Backtest
  import opened BacktestTheory
  import opened BacktestSelection
  import opened WalkForward
  import opened WalkForwardTheory

  // ---- Win rate and profit factor ----

  /** The places of the trades that earned money. */
  function Wins(pnls: seq<real>): set<nat> { set i | 0 <= i < |pnls| && pnls[i] > 0.0 }

  lemma {:induction false} WinsAreCounted(pnls: seq<real>)
    ensures |Winning(pnls)| == |Wins(pnls)|
  {
    if pnls != [] {
      var n := |pnls| - 1;
      WinsAreCounted(pnls[..n]);
      assert Wins(pnls[..n]) == Wins(pnls) - {n};
      assert n in Wins(pnls) <==> pnls[n] > 0.0;
    }
  }

  /** What the winning trades earned, and what the losing ones lost. */
  function Earned(pnls: seq<real>): real {
    if pnls == [] then 0.0 else Earned(pnls[..|pnls| - 1]) + Max(pnls[|pnls| - 1], 0.0)
  }

  function Lost(pnls: seq<real>): real {
    if pnls == [] then 0.0 else Lost(pnls[..|pnls| - 1]) + Max(-pnls[|pnls| - 1], 0.0)
  }

  lemma {:induction false} WinsAreEarned(pnls: seq<real>)
    ensures Sum(Winning(pnls)) == Earned(pnls) && Earned(pnls) >= 0.0
  {
    if pnls == [] {
      SumOfNone();
    } else {
      var front, last := pnls[..|pnls| - 1], pnls[|pnls| - 1];
      WinsAreEarned(front);
      SumAppend(Winning(front), last);
      assert Winning(pnls) == if last > 0.0 then Winning(front) + [last] else Winning(front);
      hide Sum;
    }
  }

  lemma {:induction false} LossesAreLost(pnls: seq<real>)
    ensures Sum(Losing(pnls)) == -Lost(pnls) && Lost(pnls) >= 0.0
  {
    if pnls == [] {
      SumOfNone();
    } else {
      var front, last := pnls[..|pnls| - 1], pnls[|pnls| - 1];
      LossesAreLost(front);
      SumAppend(Losing(front), last);
      assert Losing(pnls) == if last < 0.0 then Losing(front) + [last] else Losing(front);
      hide Sum;
    }
  }

  lemma {:induction false} SumsAreEarnedAndLost(pnls: seq<real>)
    ensures Sum(Winning(pnls)) == Earned(pnls) && Sum(Losing(pnls)) == -Lost(pnls)
    ensures Earned(pnls) - Lost(pnls) == Sum(pnls) && Earned(pnls) >= 0.0 && Lost(pnls) >= 0.0
  {
    WinsAreEarned(pnls);
    LossesAreLost(pnls);
    WinsPlusLosses(pnls);
  }

  lemma {:induction false} RoundedShare(part: real, whole: real)
    requires whole > 0.0
    ensures Abs(Times(Round6(part / whole), whole) - part) <= Times(0.000_000_5, whole)
  {
    var q := part / whole;
    assert Times(q, whole) == part;
    Rounded6(q);
    hide Round6, Times;
    TimesError(Round6(q), q, 0.000_000_5, whole);
  }

  lemma {:induction false} SharePercent(part: real, whole: real)
    requires whole > 0.0
    ensures part / whole * 100.0 == 100.0 * part / whole
  {
    var q := part / whole;
    assert q * whole == part;
    assert (100.0 * q) * whole == 100.0 * part;
  }

  /** The reported win rate is the number of winning trades in a hundred, and the reported profit factor what they
      earned for each unit the others lost, both up to the sixth decimal; there is no factor exactly when nothing was
      lost. */
  lemma {:induction false} RatesReadTrades(t: Tape, a: Account)
    requires ValidTape(t)
    ensures var m, pnls := Simulated(t, a).metrics, Simulated(t, a).pnls;
      m.trades == |pnls| && WinRateRead(m.winRate, pnls) && ProfitFactorRead(m.profitFactor, pnls)
  {
    var b := Finished(t, a);
    WinRateReads(a.capital, b.cash, b.pnls, b.curve);
    ProfitFactorReads(a.capital, b.cash, b.pnls, b.curve);
    hide Finished, MetricsOf, WinRateRead, ProfitFactorRead;
  }

  predicate WinRateRead(rate: real, pnls: seq<real>) {
    if pnls == [] then rate == 0.0
    else Abs(Times(rate, |pnls| as real) - 100.0 * |Wins(pnls)| as real) <= Times(0.000_000_5, |pnls| as real)
  }

  predicate ProfitFactorRead(factor: Option<real>, pnls: seq<real>) {
    && (factor.None? <==> NonNegative(pnls))
    && (factor.Some? ==>
          && Lost(pnls) > 0.0
          && Abs(Times(factor.value, Lost(pnls)) - Earned(pnls)) <= Times(0.000_000_5, Lost(pnls)))
  }

  lemma {:induction false} WinRateReads(initial: real, ending: real, pnls: seq<real>, curve: seq<real>)
    ensures WinRateRead(MetricsOf(initial, ending, pnls, curve).winRate, pnls)
    ensures MetricsOf(initial, ending, pnls, curve).trades == |pnls|
  {
    WinsAreCounted(pnls);
    hide Round6, Times, Sum, Winning, Losing, Wins, WorstFall;
    if pnls != [] {
      SharePercent(|Wins(pnls)| as real, |pnls| as real);
      RoundedShare(100.0 * |Wins(pnls)| as real, |pnls| as real);
    }
  }

  lemma {:induction false} ProfitFactorReads(initial: real, ending: real, pnls: seq<real>, curve: seq<real>)
    ensures ProfitFactorRead(MetricsOf(initial, ending, pnls, curve).profitFactor, pnls)
  {
    WinsAndLosses(pnls);
    SumsAreEarnedAndLost(pnls);
    hide Round6, Times, Sum, Winning, Losing, Earned, Lost, WorstFall;
    if !NonNegative(pnls) {
      RoundedShare(Earned(pnls), Lost(pnls));
    }
  }

  // ---- Drawdown in money ----

  lemma {:induction false} FallInMoney(peak: real, equity: real)
    requires peak > 0.0
    ensures Times(FallPct(peak, equity), peak) == 100.0 * (peak - equity)
  {
    var q := (peak - equity) / peak;
    assert q * peak == peak - equity;
  }

  /** No later point lies further below an earlier one than d percent of it. */
  predicate NeverBelow(curve: seq<real>, d: real) {
    forall i, j :: 0 <= i <= j < |curve| && curve[i] > 0.0 ==> 100.0 * (curve[i] - curve[j]) <= Times(d, curve[i])
  }

  /** Some later point lies d percent below an earlier one, up to e percent of it. */
  predicate OnceBelow(curve: seq<real>, d: real, e: real) {
    exists i, j :: 0 <= i <= j < |curve| && curve[i] > 0.0
                   && Abs(100.0 * (curve[i] - curve[j]) - Times(d, curve[i])) <= Times(e, curve[i])
  }

  lemma {:induction false} CoversInMoney(curve: seq<real>, worst: real, d: real)
    requires Covers(curve, worst) && worst <= d
    ensures NeverBelow(curve, d)
  {
    hide FallPct, Times;
    forall i, j | 0 <= i <= j < |curve| && curve[i] > 0.0
      ensures 100.0 * (curve[i] - curve[j]) <= Times(d, curve[i])
    {
      FallInMoney(curve[i], curve[j]);
      TimesOrder(FallPct(curve[i], curve[j]), d, curve[i]);
    }
  }

  lemma {:induction false} AttainedInMoney(curve: seq<real>, worst: real, d: real, e: real)
    requires Attained(curve, worst) && -e <= d - worst <= e
    ensures OnceBelow(curve, d, e)
  {
    hide FallPct, Times;
    var i, j :| 0 <= i <= j < |curve| && curve[i] > 0.0 && FallPct(curve[i], curve[j]) == worst;
    FallInMoney(curve[i], curve[j]);
    TimesError(d, worst, e, curve[i]);
  }

  /** No later point of the curve lies further below an earlier one than the reported drawdown says, up to the sixth
      decimal of the percentage; and unless it is zero, some pair of points lies that far apart. */
  lemma {:induction false} DrawdownInMoney(t: Tape, a: Account)
    requires ValidTape(t) && ValidAccount(a)
    ensures var curve, reported := Simulated(t, a).curve, Simulated(t, a).metrics.maxDrawdown;
      NeverBelow(curve, reported + 0.000_000_5) && (reported == 0.0 || OnceBelow(curve, reported, 0.000_000_5))
  {
    hide Finished, MetricsOf, WorstFall;
    RunDrawdown(t, a);
    hide Simulated, Round6, Covers, Attained, NeverBelow, OnceBelow;
    var curve, reported := Simulated(t, a).curve, Simulated(t, a).metrics.maxDrawdown;
    var worst :| Covers(curve, worst) && (Attained(curve, worst) || worst == 0.0) && reported == Round6(worst);
    Rounded6(worst);
    ZeroStays();
    CoversInMoney(curve, worst, reported + 0.000_000_5);
    if worst != 0.0 {
      AttainedInMoney(curve, worst, reported, 0.000_000_5);
    }
  }

  lemma {:induction false} ZeroStays()
    ensures Round6(0.0) == 0.0
  {
  }

  // ---- Signals ----

  /** How far the fast average is above the slow one at candle i, as the series report them. */
  predicate BothAt(closes: seq<real>, p: Parameters, i: nat)
    requires Usable(p) && i < |closes|
  {
    EmaAt(closes, p.fast, i).Some? && EmaAt(closes, p.slow, i).Some?
  }

  function Lead(closes: seq<real>, p: Parameters, i: nat): real
    requires Usable(p) && i < |closes| && BothAt(closes, p, i)
  {
    EmaAt(closes, p.fast, i).value - EmaAt(closes, p.slow, i).value
  }

  /** The strategy buys exactly where the fast average gets above the slow one with enough strength, and sells exactly
      where it gets below or the strength is gone. */
  lemma {:induction false} SignalsAreCrossings(closes: seq<real>, p: Parameters, start: nat, i: nat)
    requires Usable(p) && 0 < i < |closes|
    ensures var tape, rsi := StrategyTape(closes, p, start), RsiAt(closes, 14, i);
      var ready := start <= i && BothAt(closes, p, i - 1) && BothAt(closes, p, i) && rsi.Some?;
      && (tape.entries[i] <==> ready && Lead(closes, p, i - 1) <= 0.0 < Lead(closes, p, i) && rsi.value >= p.entryMin)
      && (tape.exits[i] <==>
            ready && ((Lead(closes, p, i) < 0.0 <= Lead(closes, p, i - 1)) || rsi.value <= p.exitMax))
  {
    hide EmaAt, RsiAt;
  }

  /** Between two entries the fast average came down to the slow one. */
  lemma {:induction false} EntriesAreApart(closes: seq<real>, p: Parameters, start: nat, i: nat, j: nat)
    requires Usable(p) && 0 < i < j < |closes|
    requires StrategyTape(closes, p, start).entries[i] && StrategyTape(closes, p, start).entries[j]
    ensures exists k :: i < k < j && BothAt(closes, p, k) && Lead(closes, p, k) <= 0.0
  {
    SignalsAreCrossings(closes, p, start, i);
    SignalsAreCrossings(closes, p, start, j);
    hide StrategyTape, EmaAt, RsiAt;
    assert Lead(closes, p, i) > 0.0 && Lead(closes, p, j - 1) <= 0.0;
    assert i < j - 1 < j;
  }

  // ---- Benchmarks and averages ----

  /** A benchmark row: the whole capital held from one close to another, bought and sold at the fee. */
  predicate Holds(m: Metrics, capital: real, fee: real, buy: real, sell: real) {
    && buy > 0.0 && capital > 0.0 && m.trades == 1
    && m.endingCapital == Round6(capital + TripProfit(capital, fee, buy, sell))
    && m.totalReturn == Round6(TripProfit(capital, fee, buy, sell) / capital * 100.0)
  }

  lemma {:induction false} HoldingHolds(closes: seq<real>, capital: real, fee: real)
    requires Priced(closes) && closes != [] && capital > 0.0 && 0.0 <= fee <= 0.05
    ensures Holds(Simulated(HoldTape(closes), Account(capital, fee, 0)).metrics, capital, fee,
                  closes[0], closes[|closes| - 1])
  {
    HoldIsOneTrip(closes, capital, fee);
    hide HoldTape, TripProfit, Round6, Finished;
  }

  /** A window's benchmarks hold its training candles with the initial capital, and its testing candles with the capital
      carried into it. */
  lemma {:induction false} WindowBenchmarks(closes: seq<real>, r: Request, w: nat, capital: real)
    requires Priced(closes) && ValidRequest(r) && Fits(closes, r, w)
    ensures BenchmarksHold(WindowOf(closes, r, w, capital), closes, r, w, capital)
  {
    hide *;
    SliceEnds(closes, r, w);
    BenchmarksOf(closes, r, w, capital);
    FeesAreValid(r);
    HoldingHolds(TrainingSlice(closes, r, w), r.capital, r.fee);
    if capital > 0.0 {
      HoldingHolds(TestingSlice(closes, r, w), capital, r.fee);
    }
    BenchmarksTogether(WindowOf(closes, r, w, capital), closes, r, w, capital);
  }

  predicate BenchmarksHold(window: Window, closes: seq<real>, r: Request, w: nat, capital: real)
    requires ValidRequest(r) && Fits(closes, r, w)
  {
    var from, split, end := Offset(r, w), Offset(r, w) + r.training, Offset(r, w) + r.training + r.testing;
    && Holds(window.inSampleBenchmark, r.capital, r.fee, closes[from], closes[split - 1])
    && (capital > 0.0 ==> Holds(window.outOfSampleBenchmark, capital, r.fee, closes[split], closes[end - 1]))
  }

  lemma {:induction false} BenchmarksTogether(window: Window, closes: seq<real>, r: Request, w: nat, capital: real)
    requires ValidRequest(r) && Fits(closes, r, w)
    requires var from, split, end := Offset(r, w), Offset(r, w) + r.training, Offset(r, w) + r.training + r.testing;
      && Holds(window.inSampleBenchmark, r.capital, r.fee, closes[from], closes[split - 1])
      && (capital > 0.0 ==> Holds(window.outOfSampleBenchmark, capital, r.fee, closes[split], closes[end - 1]))
    ensures BenchmarksHold(window, closes, r, w, capital)
  {
    hide Holds, Offset;
  }

  lemma {:induction false} FeesAreValid(r: Request)
    requires ValidRequest(r)
    ensures r.capital > 0.0 && 0.0 <= r.fee <= 0.05
  {
  }

  lemma {:induction false} BenchmarksOf(closes: seq<real>, r: Request, w: nat, capital: real)
    requires Priced(closes) && Fits(closes, r, w)
    requires Priced(TrainingSlice(closes, r, w)) && Priced(TestingSlice(closes, r, w))
    ensures var window := WindowOf(closes, r, w, capital);
      && window.inSampleBenchmark ==
           Simulated(HoldTape(TrainingSlice(closes, r, w)), Account(r.capital, r.fee, 0)).metrics
      && window.outOfSampleBenchmark ==
           Simulated(HoldTape(TestingSlice(closes, r, w)), Account(capital, r.fee, 0)).metrics
  {
    hide TestRun, CandidateRun, Simulated, Chosen, HoldTape, TrainingSlice, TestingSlice;
  }

  lemma {:induction false} SliceEnds(closes: seq<real>, r: Request, w: nat)
    requires Priced(closes) && ValidRequest(r) && Fits(closes, r, w)
    ensures var training, testing := TrainingSlice(closes, r, w), TestingSlice(closes, r, w);
      var split, end := Offset(r, w) + r.training, Offset(r, w) + r.training + r.testing;
      && |closes| >= end && training != [] && testing != [] && Priced(training) && Priced(testing)
      && training[0] == closes[Offset(r, w)] && training[|training| - 1] == closes[split - 1]
      && testing[0] == closes[split] && testing[|testing| - 1] == closes[end - 1]
  {
  }

  function SumOfInSample(windows: seq<Window>): real {
    if windows == [] then 0.0
    else SumOfInSample(windows[..|windows| - 1]) + windows[|windows| - 1].inSample.totalReturn
  }

  lemma {:induction false} InSampleIsSum(closes: seq<real>, r: Request, w: nat)
    requires Priced(closes) && ValidRequest(r) && Offset(r, w) + r.training <= |closes|
    ensures Sum(After(closes, r, w).inSampleReturns) == SumOfInSample(After(closes, r, w).windows)
  {
    hide Advance, Sum, ValidRequest, Offset, Fits;
    if w == 0 {
      SumOfNone();
    } else {
      hide SumOfInSample;
      FitsBefore(closes, r, w);
      InSampleIsSum(closes, r, w - 1);
      AddsInSample(closes, r, w - 1, After(closes, r, w - 1));
    }
  }

  lemma {:induction false} InSampleCounts(p: Progress, closes: seq<real>, r: Request, w: nat)
    requires Offset(r, w) + r.training <= |closes| && Consistent(p, closes, r, w)
    ensures |p.windows| == w == |p.inSampleReturns| && p.tested == closes[r.training..r.training + Offset(r, w)]
  {
  }

  lemma {:induction false} AddsInSample(closes: seq<real>, r: Request, w: nat, p: Progress)
    requires Priced(closes) && Fits(closes, r, w)
    requires Sum(p.inSampleReturns) == SumOfInSample(p.windows)
    ensures var next := Advance(closes, r, w, p); Sum(next.inSampleReturns) == SumOfInSample(next.windows)
  {
    hide WindowOf, TestRun, TestingSlice, Sum, SumOfInSample;
    var window := WindowOf(closes, r, w, p.capital);
    SumAppend(p.inSampleReturns, window.inSample.totalReturn);
    InSampleAppend(p.windows, window);
  }

  lemma {:induction false} InSampleAppend(windows: seq<Window>, window: Window)
    ensures SumOfInSample(windows + [window]) == SumOfInSample(windows) + window.inSample.totalReturn
  {
    assert (windows + [window])[..|windows|] == windows;
  }

  lemma {:induction false} TestedEnds(closes: seq<real>, r: Request, w: nat)
    requires Priced(closes) && ValidRequest(r) && w > 0 && Offset(r, w) + r.training <= |closes|
    ensures var tested := After(closes, r, w).tested;
      && |tested| == Offset(r, w) > 0 && tested[0] == closes[r.training]
      && tested[|tested| - 1] == closes[r.training + Offset(r, w) - 1]
  {
    hide *;
    RunInvariant(closes, r, w);
    OffsetIsPositive(r, w);
    InSampleCounts(After(closes, r, w), closes, r, w);
    SubEnds(closes, r.training, r.training + Offset(r, w));
  }

  lemma {:induction false} OffsetIsPositive(r: Request, w: nat)
    requires ValidRequest(r) && w > 0
    ensures Offset(r, w) > 0
  {
  }

  lemma {:induction false} SubEnds(closes: seq<real>, i: nat, j: nat)
    requires i < j <= |closes|
    ensures |closes[i..j]| == j - i && closes[i..j][0] == closes[i] && closes[i..j][j - i - 1] == closes[j - 1]
  {
  }

  /** The report's benchmarks hold all candles, and all tested candles, with the initial capital; and its in-sample
      return is the mean of the windows' own, to the sixth decimal. */
  lemma {:induction false} ReportBenchmarks(closes: seq<real>, r: Request)
    requires Priced(closes) && ValidRequest(r) && ReportOf(closes, r).Report?
    ensures var report := ReportOf(closes, r);
      var w := |report.progress.windows|;
      && w > 0 && closes != [] && r.training + Offset(r, w) <= |closes|
      && Holds(report.fullPeriodBenchmark, r.capital, r.fee, closes[0], closes[|closes| - 1])
      && Holds(report.outOfSampleBenchmark, r.capital, r.fee,
               closes[r.training], closes[r.training + Offset(r, w) - 1])
      && Abs(Times(report.averageInSample, w as real) - SumOfInSample(report.progress.windows))
           <= Times(HALF_STEP, w as real)
  {
    hide After, Consistent, BestIndex, CandidateRun, Offset, Mean, Round6, Holds, Simulated, MetricsOf, HoldTape, Times;
    WalkForwardAddsUp(closes, r);
    var w := WindowCount(|closes|, r);
    WindowsFit(|closes|, r);
    hide WindowCount;
    RunInvariant(closes, r, w);
    var p := After(closes, r, w);
    assert |p.windows| == w == |p.inSampleReturns| by { InSampleCounts(p, closes, r, w); }
    TestedEnds(closes, r, w);
    HoldingHolds(closes, r.capital, r.fee);
    TestedIsPriced(closes, r, w);
    HoldingHolds(p.tested, r.capital, r.fee);
    InSampleIsSum(closes, r, w);
    hide After;
    RoundedMean(p.inSampleReturns);
  }

  lemma {:induction false} RoundedMean(xs: seq<real>)
    requires xs != []
    ensures Abs(Times(Round6(Mean(xs)), |xs| as real) - Sum(xs)) <= Times(0.000_000_5, |xs| as real)
  {
    RoundedShare(Sum(xs), |xs| as real);
    hide Round6, Times, Sum;
  }
}
