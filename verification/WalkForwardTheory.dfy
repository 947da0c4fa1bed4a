/** What a walk-forward run promises about its windows, its capital and the candles it may see. */
module WalkForwardTheory {
  import opened Backtest
  import opened BacktestTheory
  import opened Indicators
  import opened Numeric
  import opened WalkForward

  /** The rounding of one window's capital, at most. */
  const HALF_STEP := 0.000_000_5

  // ---- One window ----

  lemma {:induction false} SlicesMeasure(closes: seq<real>, r: Request, w: nat)
    requires Priced(closes) && Fits(closes, r, w)
    ensures Priced(WarmSlice(closes, r, w))
    ensures |WarmSlice(closes, r, w)| == WarmAccount(r, w, 0.0).start + r.testing
  {
  }

  predicate AddsUp(out: Output, capital: real, points: nat) {
    && out.metrics.endingCapital == Round6(capital + Sum(out.pnls)) >= 0.0
    && out.metrics.trades == |out.pnls|
    && |out.curve| == 1 + points
    && NonNegative(out.curve)
    && out.curve[points] == out.metrics.endingCapital
  }

  lemma {:induction false} SimulationAddsUp(t: Tape, a: Account)
    requires ValidTape(t) && ValidAccount(a) && a.start < |t.closes|
    ensures AddsUp(Simulated(t, a), a.capital, |t.closes| - a.start)
  {
    hide Finished, MetricsOf, Round6, Sum, ValidTape;
    RunConservesMoney(t, a);
    RoundKeepsSign(Finished(t, a).cash);
    OutputFields(a.capital, Finished(t, a));
  }

  /** A testing slice starts from the carried capital and ends with it plus its trades, rounded. */
  lemma {:induction false} TestRunAddsUp(closes: seq<real>, r: Request, w: nat, capital: real)
    requires Priced(closes) && ValidRequest(r) && Fits(closes, r, w) && capital >= 0.0
    ensures AddsUp(TestRun(closes, r, w, capital), capital, r.testing)
  {
    hide Simulated, Chosen, WarmSlice, EntersAt, ExitsAt, AddsUp, Offset;
    CandidatesUsable();
    SlicesMeasure(closes, r, w);
    var slice, a := WarmSlice(closes, r, w), WarmAccount(r, w, capital);
    SimulationAddsUp(StrategyTape(slice, CANDIDATES[Chosen(closes, r, w)], a.start), a);
  }

  lemma {:induction false} OutputFields(capital: real, b: Book)
    ensures var out := OutputOf(capital, b);
            && out.metrics.endingCapital == Round6(b.cash)
            && out.metrics.trades == |b.pnls|
            && out.pnls == b.pnls
            && out.curve == b.curve
  {
    hide Round6, WorstFall, Winning, Losing;
  }

  // ---- All windows ----

  predicate InPlace(window: Window, r: Request, i: nat) {
    && window.index == i + 1
    && window.trainingFrom == Offset(r, i)
    && window.testingFrom == Offset(r, i) + r.training
    && window.testingTo == Offset(r, i + 1) + r.training
  }

  lemma {:induction false} WindowInPlace(closes: seq<real>, r: Request, w: nat, capital: real)
    requires Priced(closes) && Fits(closes, r, w)
    ensures InPlace(WindowOf(closes, r, w, capital), r, w)
    ensures WindowOf(closes, r, w, capital).outOfSample == TestRun(closes, r, w, capital).metrics
  {
    hide TestRun, CandidateRun, Simulated, Chosen, TrainingSlice, TestingSlice;
  }

  function TotalTrades(windows: seq<Window>): nat {
    if windows == [] then 0
    else TotalTrades(windows[..|windows| - 1]) + windows[|windows| - 1].outOfSample.trades
  }

  /** The bookkeeping of a run after w windows. */
  predicate Consistent(p: Progress, closes: seq<real>, r: Request, w: nat)
    requires Offset(r, w) + r.training <= |closes|
  {
    && |p.windows| == w == |p.inSampleReturns|
    && (forall i :: 0 <= i < w ==> InPlace(p.windows[i], r, i))
    && p.tested == closes[r.training..r.training + Offset(r, w)]
    && |p.curve| == 1 + Offset(r, w)
    && p.curve[|p.curve| - 1] == p.capital
    && NonNegative(p.curve)
    && |p.pnls| == TotalTrades(p.windows)
  }

  lemma {:induction false} AdvanceFields(closes: seq<real>, r: Request, w: nat, p: Progress)
    requires Priced(closes) && ValidRequest(r) && Fits(closes, r, w) && p.capital >= 0.0
    ensures var next, out := Advance(closes, r, w, p), TestRun(closes, r, w, p.capital);
            && AddsUp(out, p.capital, r.testing)
            && next.capital == out.metrics.endingCapital
            && next.pnls == p.pnls + out.pnls
            && next.curve == p.curve + out.curve[1..]
            && next.tested == p.tested + TestingSlice(closes, r, w)
            && |next.inSampleReturns| == |p.inSampleReturns| + 1
            && next.windows == p.windows + [WindowOf(closes, r, w, p.capital)]
  {
    hide TestRun, WindowOf, TestingSlice, Round6, Sum;
    TestRunAddsUp(closes, r, w, p.capital);
  }

  lemma {:induction false} WindowsGrow(windows: seq<Window>, window: Window, r: Request, w: nat)
    requires |windows| == w && InPlace(window, r, w)
    requires forall i :: 0 <= i < w ==> InPlace(windows[i], r, i)
    ensures forall i :: 0 <= i < w + 1 ==> InPlace((windows + [window])[i], r, i)
    ensures TotalTrades(windows + [window]) == TotalTrades(windows) + window.outOfSample.trades
  {
    hide InPlace;
    assert (windows + [window])[..w] == windows;
  }

  lemma {:induction false} CurveGrows(curve: seq<real>, out: Output, capital: real, points: nat)
    requires NonNegative(curve) && AddsUp(out, capital, points) && points > 0
    ensures var next := curve + out.curve[1..];
            && |next| == |curve| + points
            && NonNegative(next)
            && next[|next| - 1] == out.metrics.endingCapital
  {
    hide Round6, Sum;
  }

  lemma {:induction false} TestedGrows(closes: seq<real>, r: Request, w: nat)
    requires Fits(closes, r, w)
    ensures closes[r.training..r.training + Offset(r, w)] + TestingSlice(closes, r, w)
            == closes[r.training..r.training + Offset(r, w + 1)]
  {
  }

  lemma {:induction false} AdvanceConsistent(closes: seq<real>, r: Request, w: nat, p: Progress)
    requires Priced(closes) && ValidRequest(r) && Fits(closes, r, w) && p.capital >= 0.0
    requires Consistent(p, closes, r, w)
    ensures Consistent(Advance(closes, r, w, p), closes, r, w + 1)
  {
    hide Advance, TestRun, TestingSlice, InPlace, WindowOf, Priced, NonNegative;
    AdvanceFields(closes, r, w, p);
    var out, window := TestRun(closes, r, w, p.capital), WindowOf(closes, r, w, p.capital);
    WindowInPlace(closes, r, w, p.capital);
    WindowsGrow(p.windows, window, r, w);
    CurveGrows(p.curve, out, p.capital, r.testing);
    TestedGrows(closes, r, w);
    hide Round6, Sum, TotalTrades;
  }

  lemma {:induction false} RoundDrift(x: real)
    ensures -HALF_STEP <= Round6(x) - x <= HALF_STEP
  {
    RoundToError(x, MILLION);
  }

  /** After every window: the windows tile the tested candles, and money is carried with bounded rounding. */
  lemma {:induction false} RunInvariant(closes: seq<real>, r: Request, w: nat)
    requires Priced(closes) && ValidRequest(r) && Offset(r, w) + r.training <= |closes|
    ensures var p := After(closes, r, w);
            && Consistent(p, closes, r, w)
            && p.capital >= 0.0
            && -(w as real * HALF_STEP) <= p.capital - r.capital - Sum(p.pnls) <= w as real * HALF_STEP
            && (w > 0 ==> OnGrid(p.capital, MILLION))
    decreases w
  {
    hide Advance, Round6, OnGrid, Offset, Consistent, Sum, ValidRequest, Priced, Fits;
    if w == 0 {
      EmptyRun(closes, r);
    } else {
      FitsBefore(closes, r, w);
      RunInvariant(closes, r, w - 1);
      var p := After(closes, r, w - 1);
      AdvanceConsistent(closes, r, w - 1, p);
      AdvanceDrift(closes, r, w - 1, p);
    }
  }

  lemma {:induction false} AdvanceDrift(closes: seq<real>, r: Request, w: nat, p: Progress)
    requires Priced(closes) && ValidRequest(r) && Fits(closes, r, w) && p.capital >= 0.0
    ensures var next := Advance(closes, r, w, p);
            && next.capital >= 0.0
            && OnGrid(next.capital, MILLION)
            && -HALF_STEP <= (next.capital - Sum(next.pnls)) - (p.capital - Sum(p.pnls)) <= HALF_STEP
  {
    hide Advance, TestRun, Round6, Sum, OnGrid, WindowOf, TestingSlice;
    AdvanceFields(closes, r, w, p);
    var out := TestRun(closes, r, w, p.capital);
    SumConcat(p.pnls, out.pnls);
    RoundDrift(p.capital + Sum(out.pnls));
    RoundedOnGrid(p.capital + Sum(out.pnls));
  }

  lemma {:induction false} RoundedOnGrid(x: real)
    ensures OnGrid(Round6(x), MILLION)
  {
    RoundToExact(x, MILLION);
  }

  lemma {:induction false} EmptyRun(closes: seq<real>, r: Request)
    requires Priced(closes) && ValidRequest(r) && Offset(r, 0) + r.training <= |closes|
    ensures Consistent(After(closes, r, 0), closes, r, 0)
    ensures After(closes, r, 0).capital == r.capital >= 0.0 && Sum(After(closes, r, 0).pnls) == 0.0
  {
  }

  /**
   * A finished walk-forward run has at least two windows; their testing slices tile the candles
   * after the first training slice and leave fewer than one slice untested; its curve has one
   * point per tested candle after the opening one and ends at the reported capital; and that
   * capital differs from the initial one plus all the trades by at most half a millionth per window.
   */
  lemma {:induction false} WalkForwardAddsUp(closes: seq<real>, r: Request)
    requires Priced(closes) && ValidRequest(r)
    ensures var report := ReportOf(closes, r);
            && (report.NoCandles? <==> closes == [])
            && (report.TooFewCandles? <==> 0 < |closes| < r.training + 2 * r.testing)
            && (report.Report? ==>
                  var p, w := report.progress, |report.progress.windows|;
                  && w >= 2
                  && r.training + Offset(r, w) <= |closes| < r.training + Offset(r, w + 1)
                  && Consistent(p, closes, r, w)
                  && report.outOfSample.endingCapital == p.capital
                  && report.outOfSample.trades == TotalTrades(p.windows)
                  && Abs(p.capital - r.capital - Sum(p.pnls)) <= w as real * HALF_STEP)
  {
    hide After, MetricsOf, Consistent, RoundTo, OnGrid, Offset, WindowCount, TotalTrades, BestIndex, Simulated;
    var report := ReportOf(closes, r);
    if report.Report? {
      WindowsFit(|closes|, r);
      var w := WindowCount(|closes|, r);
      RunInvariant(closes, r, w);
      var p := After(closes, r, w);
      RoundToExact(p.capital, MILLION);
      SummaryFields(r, p);
      WindowsCounted(p, closes, r, w);
    }
  }

  lemma {:induction false} WindowsCounted(p: Progress, closes: seq<real>, r: Request, w: nat)
    requires Offset(r, w) + r.training <= |closes| && Consistent(p, closes, r, w)
    ensures |p.windows| == w && |p.pnls| == TotalTrades(p.windows)
  {
  }

  lemma {:induction false} SummaryFields(r: Request, p: Progress)
    ensures MetricsOf(r.capital, p.capital, p.pnls, p.curve).endingCapital == Round6(p.capital)
    ensures MetricsOf(r.capital, p.capital, p.pnls, p.curve).trades == |p.pnls|
  {
    hide Round6, WorstFall, Winning, Losing;
  }

  // ---- What a window may see ----

  lemma {:induction false} SlicesOfPrefix(closes: seq<real>, r: Request, w: nat, m: nat)
    requires m <= |closes| && Fits(closes[..m], r, w)
    ensures TrainingSlice(closes[..m], r, w) == TrainingSlice(closes, r, w)
    ensures TestingSlice(closes[..m], r, w) == TestingSlice(closes, r, w)
    ensures WarmSlice(closes[..m], r, w) == WarmSlice(closes, r, w)
  {
  }

  lemma {:induction false} AdvanceOfPrefix(closes: seq<real>, r: Request, w: nat, m: nat, p: Progress)
    requires Priced(closes) && m <= |closes| && Fits(closes[..m], r, w)
    ensures Advance(closes[..m], r, w, p) == Advance(closes, r, w, p)
  {
    SlicesOfPrefix(closes, r, w, m);
    hide TrainingSlice, TestingSlice, WarmSlice, BestIndex, StrategyRun, CandidateRun, Simulated, HoldTape;
  }

  /** Later candles never change an earlier window. */
  lemma {:induction false} LaterCandlesAreIrrelevant(closes: seq<real>, r: Request, w: nat, m: nat)
    requires Priced(closes) && Offset(r, w) + r.training <= m <= |closes|
    ensures After(closes[..m], r, w) == After(closes, r, w)
    decreases w
  {
    hide Advance, Offset;
    if w > 0 {
      FitsBefore(closes, r, w);
      FitsBefore(closes[..m], r, w);
      LaterCandlesAreIrrelevant(closes, r, w - 1, m);
      AdvanceOfPrefix(closes, r, w - 1, m, After(closes, r, w - 1));
    }
  }

  /**
   * A window's parameters and starting capital are settled before its first testing candle: two
   * histories that agree up to there choose alike, whatever they test on.
   */
  lemma {:induction false} ChoiceNeverSeesTheTest(xs: seq<real>, ys: seq<real>, r: Request, w: nat)
    requires Priced(xs) && Priced(ys) && Fits(xs, r, w) && Fits(ys, r, w)
    requires xs[..Offset(r, w) + r.training] == ys[..Offset(r, w) + r.training]
    ensures Chosen(xs, r, w) == Chosen(ys, r, w)
    ensures After(xs, r, w) == After(ys, r, w)
  {
    hide *;
    var m := Offset(r, w) + r.training;
    FitsCovers(xs, r, w);
    FitsCovers(ys, r, w);
    LaterCandlesAreIrrelevant(xs, r, w, m);
    LaterCandlesAreIrrelevant(ys, r, w, m);
    SameTraining(xs, ys, r, w);
    ChosenFromTraining(xs, ys, r, w);
  }

  lemma {:induction false} FitsCovers(closes: seq<real>, r: Request, w: nat)
    requires Fits(closes, r, w)
    ensures Offset(r, w) + r.training <= |closes|
  {
  }

  lemma {:induction false} SameTraining(xs: seq<real>, ys: seq<real>, r: Request, w: nat)
    requires Fits(xs, r, w) && Fits(ys, r, w)
    requires xs[..Offset(r, w) + r.training] == ys[..Offset(r, w) + r.training]
    ensures TrainingSlice(xs, r, w) == TrainingSlice(ys, r, w)
  {
    var m := Offset(r, w) + r.training;
    assert TrainingSlice(xs, r, w) == xs[..m][Offset(r, w)..];
    assert TrainingSlice(ys, r, w) == ys[..m][Offset(r, w)..];
  }

  lemma {:induction false} ChosenFromTraining(xs: seq<real>, ys: seq<real>, r: Request, w: nat)
    requires Priced(xs) && Priced(ys) && Fits(xs, r, w) && Fits(ys, r, w)
    requires TrainingSlice(xs, r, w) == TrainingSlice(ys, r, w)
    ensures Chosen(xs, r, w) == Chosen(ys, r, w)
  {
    hide TrainingSlice, BestIndex, Offset, Fits, Priced;
  }

  // ---- Warm-up ----

  /** A candle has all five readings exactly when both averages were already running before it and the index is. */
  lemma {:induction false} ReadyExactly(closes: seq<real>, p: Parameters, i: nat)
    requires Usable(p) && 0 < i < |closes|
    ensures ReadingAt(closes, p, i).Some? <==> p.fast <= i && p.slow <= i && RSI_PERIOD <= i
  {
    hide Ema, Round6, ComputeRsi, AverageGain, AverageLoss;
  }

  /** The warm-up is enough: every testing candle of every window can signal, with any candidate. */
  lemma {:induction false} EveryTestCandleCanSignal(closes: seq<real>, r: Request, w: nat, p: Parameters, i: nat)
    requires ValidRequest(r) && Fits(closes, r, w) && p in CANDIDATES && Usable(p)
    requires WarmAccount(r, w, 0.0).start <= i < |WarmSlice(closes, r, w)|
    ensures ReadingAt(WarmSlice(closes, r, w), p, i).Some?
  {
    CandidatesUsable();
    ReadyExactly(WarmSlice(closes, r, w), p, i);
    hide ReadingAt, Offset, WarmSlice;
  }

  /** And not one candle more than needed: with a shorter warm-up the first testing candle cannot signal. */
  lemma {:induction false} WarmUpIsTight(closes: seq<real>, p: Parameters, warm: nat)
    requires p in CANDIDATES && Usable(p) && 0 < warm < |closes|
    ensures ReadingAt(closes, p, warm).Some? <==> warm >= MAX_WARMUP
  {
    ReadyExactly(closes, p, warm);
    hide ReadingAt;
  }
}
