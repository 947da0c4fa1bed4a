/**
 * The walk-forward run: parameters are chosen on a training slice, tried on the slice after it,
 * and the capital is carried, rounded, from one testing slice to the next.
 */
module WalkForward {
  import opened Backtest
  import opened Indicators

  const MAX_WARMUP: nat := 30

  datatype Request = Request(training: nat, testing: nat, capital: real, fee: real)

  predicate ValidRequest(r: Request) {
    r.training >= 30 && r.testing >= 10 && r.capital > 0.0 && 0.0 <= r.fee <= 0.05
  }

  datatype Window = Window(
    index: nat,
    trainingFrom: nat,
    testingFrom: nat,
    testingTo: nat,
    parameters: Parameters,
    inSample: Metrics,
    inSampleBenchmark: Metrics,
    outOfSample: Metrics,
    outOfSampleBenchmark: Metrics)

  datatype Progress = Progress(
    windows: seq<Window>,
    inSampleReturns: seq<real>,
    capital: real,
    pnls: seq<real>,
    curve: seq<real>,
    tested: seq<real>)

  datatype Report =
    | NoCandles
    | TooFewCandles
    | Report(
        fullPeriod: Metrics,
        fullPeriodBenchmark: Metrics,
        averageInSample: real,
        outOfSample: Metrics,
        outOfSampleBenchmark: Metrics,
        progress: Progress)

  /** The candle the training slice of window w begins at. */
  function Offset(r: Request, w: nat): nat { if w == 0 then 0 else Offset(r, w - 1) + r.testing }

  predicate Fits(closes: seq<real>, r: Request, w: nat) { Offset(r, w) + r.training + r.testing <= |closes| }

  function WarmFrom(r: Request, w: nat): (from: nat)
    ensures from <= Offset(r, w) + r.training
  {
    var testingFrom := Offset(r, w) + r.training;
    if testingFrom < MAX_WARMUP then 0 else testingFrom - MAX_WARMUP
  }

  function TrainingSlice(closes: seq<real>, r: Request, w: nat): seq<real>
    requires Fits(closes, r, w)
  {
    closes[Offset(r, w)..Offset(r, w) + r.training]
  }

  function TestingSlice(closes: seq<real>, r: Request, w: nat): seq<real>
    requires Fits(closes, r, w)
  {
    closes[Offset(r, w) + r.training..Offset(r, w) + r.training + r.testing]
  }

  function WarmSlice(closes: seq<real>, r: Request, w: nat): seq<real>
    requires Fits(closes, r, w)
  {
    closes[WarmFrom(r, w)..Offset(r, w) + r.training + r.testing]
  }

  function WarmAccount(r: Request, w: nat, capital: real): Account {
    Account(capital, r.fee, Offset(r, w) + r.training - WarmFrom(r, w))
  }

  /** The place, among the candidates, of the parameters chosen on the training slice. */
  function Chosen(closes: seq<real>, r: Request, w: nat): (best: nat)
    requires Priced(closes) && Fits(closes, r, w)
    ensures best < |CANDIDATES|
  {
    CandidatesUsable();
    BestIndex(TrainingSlice(closes, r, w), CANDIDATES, Account(r.capital, r.fee, 0), |CANDIDATES|)
  }

  lemma {:induction false} CandidatesUsable()
    ensures forall p :: p in CANDIDATES ==>
      Usable(p) && p.slow <= MAX_WARMUP && p.fast <= p.slow && p.entryMin > p.exitMax
  {
  }

  function TestRun(closes: seq<real>, r: Request, w: nat, capital: real): Output
    requires Priced(closes) && Fits(closes, r, w)
  {
    CandidatesUsable();
    StrategyRun(WarmSlice(closes, r, w), CANDIDATES[Chosen(closes, r, w)], WarmAccount(r, w, capital))
  }

  function WindowOf(closes: seq<real>, r: Request, w: nat, capital: real): Window
    requires Priced(closes) && Fits(closes, r, w)
  {
    hide BestIndex, Simulated, StrategyRun, CandidateRun;
    CandidatesUsable();
    var best := Chosen(closes, r, w);
    var training, testing := TrainingSlice(closes, r, w), TestingSlice(closes, r, w);
    Window(
      w + 1, Offset(r, w), Offset(r, w) + r.training, Offset(r, w) + r.training + r.testing,
      CANDIDATES[best],
      CandidateRun(training, CANDIDATES, best, Account(r.capital, r.fee, 0)).metrics,
      Simulated(HoldTape(training), Account(r.capital, r.fee, 0)).metrics,
      TestRun(closes, r, w, capital).metrics,
      Simulated(HoldTape(testing), Account(capital, r.fee, 0)).metrics)
  }

  function Advance(closes: seq<real>, r: Request, w: nat, p: Progress): Progress
    requires Priced(closes) && Fits(closes, r, w)
  {
    var window, out := WindowOf(closes, r, w, p.capital), TestRun(closes, r, w, p.capital);
    Progress(
      p.windows + [window],
      p.inSampleReturns + [window.inSample.totalReturn],
      out.metrics.endingCapital,
      p.pnls + out.pnls,
      p.curve + (if out.curve == [] then [] else out.curve[1..]),
      p.tested + TestingSlice(closes, r, w))
  }

  lemma {:induction false} FitsBefore(closes: seq<real>, r: Request, w: nat)
    requires w > 0 && Offset(r, w) + r.training <= |closes|
    ensures Fits(closes, r, w - 1) && Offset(r, w) == Offset(r, w - 1) + r.testing
  {
  }

  /** The state of the run after w windows. */
  function After(closes: seq<real>, r: Request, w: nat): Progress
    requires Priced(closes) && Offset(r, w) + r.training <= |closes|
    decreases w
  {
    hide Advance;
    if w == 0 then Progress([], [], r.capital, [], [r.capital], [])
    else
      FitsBefore(closes, r, w);
      Advance(closes, r, w - 1, After(closes, r, w - 1))
  }

  function WindowCount(n: nat, r: Request): nat
    requires r.training <= n && r.testing > 0
  {
    (n - r.training) / r.testing
  }

  lemma {:induction false} OffsetIsProduct(r: Request, w: nat)
    ensures Offset(r, w) == w * r.testing
  {
    if w > 0 {
      OffsetIsProduct(r, w - 1);
      assert w * r.testing == (w - 1) * r.testing + r.testing;
    }
  }

  lemma {:induction false} WindowsFit(n: nat, r: Request)
    requires r.training <= n && r.testing > 0
    ensures Offset(r, WindowCount(n, r)) + r.training <= n < Offset(r, WindowCount(n, r) + 1) + r.training
    ensures n >= r.training + 2 * r.testing ==> WindowCount(n, r) >= 2
  {
    var w := WindowCount(n, r);
    assert n - r.training == w * r.testing + (n - r.training) % r.testing;
    OffsetIsProduct(r, w);
    OffsetIsProduct(r, w + 1);
    hide WindowCount;
    assert (w + 1) * r.testing == w * r.testing + r.testing;
    if w < 2 {
      assert w == 0 || w == 1;
    }
  }

  function ReportOf(closes: seq<real>, r: Request): Report
    requires Priced(closes) && ValidRequest(r)
  {
    hide Advance, BestIndex, CandidateRun, Simulated, MetricsOf, HoldTape;
    if closes == [] then NoCandles
    else if |closes| < r.training + 2 * r.testing then TooFewCandles
    else
      WindowsFit(|closes|, r);
      CandidatesUsable();
      var whole := Account(r.capital, r.fee, 0);
      var p := After(closes, r, WindowCount(|closes|, r));
      TestedIsPriced(closes, r, WindowCount(|closes|, r));
      Report(
        CandidateRun(closes, CANDIDATES, BestIndex(closes, CANDIDATES, whole, |CANDIDATES|), whole).metrics,
        Simulated(HoldTape(closes), whole).metrics,
        if p.inSampleReturns != [] then Round6(Mean(p.inSampleReturns)) else 0.0,
        MetricsOf(r.capital, p.capital, p.pnls, p.curve),
        Simulated(HoldTape(p.tested), whole).metrics,
        p)
  }

  lemma {:induction false} TestingIsPriced(closes: seq<real>, r: Request, w: nat)
    requires Priced(closes) && Fits(closes, r, w)
    ensures Priced(TestingSlice(closes, r, w)) && |TestingSlice(closes, r, w)| == r.testing
  {
  }

  lemma {:induction false} TestedIsPriced(closes: seq<real>, r: Request, w: nat)
    requires Priced(closes) && Offset(r, w) + r.training <= |closes|
    ensures Priced(After(closes, r, w).tested)
  {
    hide TestRun, WindowOf, TestingSlice;
    if w > 0 {
      FitsBefore(closes, r, w);
      TestedIsPriced(closes, r, w - 1);
      TestingIsPriced(closes, r, w - 1);
    }
  }

  method RunWindow(closes: seq<real>, r: Request, start: nat, w: nat, p: Progress) returns (next: Progress)
    requires Priced(closes) && ValidRequest(r) && start == Offset(r, w) && Fits(closes, r, w)
    ensures next == Advance(closes, r, w, p)
  {
    CandidatesUsable();
    hide Offset, Simulated, CandidateRun, StrategyRun, BestIndex, ValidRequest, HoldTape;
    var training := closes[start..start + r.training];
    var testing := closes[start + r.training..start + r.training + r.testing];
    var whole := Account(r.capital, r.fee, 0);
    var parameters, inSample := SelectBest(training, CANDIDATES, whole);
    var inSampleBenchmark := SimulateBuyAndHold(training, r.capital, r.fee);
    var warmFrom := if start + r.training < MAX_WARMUP then 0 else start + r.training - MAX_WARMUP;
    var withWarmup := closes[warmFrom..start + r.training + r.testing];
    var warmup := |withWarmup| - |testing|;
    var out := SimulateStrategy(withWarmup, parameters, Account(p.capital, r.fee, warmup));
    var benchmark := SimulateBuyAndHold(testing, p.capital, r.fee);
    var window := Window(
      w + 1, start, start + r.training, start + r.training + r.testing, parameters,
      inSample.metrics, inSampleBenchmark.metrics, out.metrics, benchmark.metrics);
    next := Progress(
      p.windows + [window],
      p.inSampleReturns + [inSample.metrics.totalReturn],
      out.metrics.endingCapital,
      p.pnls + out.pnls,
      p.curve + (if out.curve == [] then [] else out.curve[1..]),
      p.tested + testing);
  }

  method Run(closes: seq<real>, r: Request) returns (report: Report)
    requires Priced(closes) && ValidRequest(r)
    ensures report == ReportOf(closes, r)
  {
    hide Simulated, CandidateRun, BestIndex, HoldTape, Advance, MetricsOf, WindowCount, Mean, Round6;
    if closes == [] {
      return NoCandles;
    }
    if |closes| < r.training + 2 * r.testing {
      return TooFewCandles;
    }
    CandidatesUsable();
    WindowsFit(|closes|, r);
    var whole := Account(r.capital, r.fee, 0);
    var _, fullPeriod := SelectBest(closes, CANDIDATES, whole);
    var fullPeriodBenchmark := SimulateBuyAndHold(closes, r.capital, r.fee);
    var p := Progress([], [], r.capital, [], [r.capital], []);
    var lastStart := |closes| - (r.training + r.testing);
    var start := 0;
    ghost var w := 0;
    while start <= lastStart
      invariant start == Offset(r, w) && start <= lastStart + r.testing
      invariant p == After(closes, r, w) && |p.windows| == w
    {
      p := RunWindow(closes, r, start, |p.windows|, p);
      AdvanceCounts(closes, r, w, After(closes, r, w));
      start := start + r.testing;
      w := w + 1;
    }
    CountIsLast(|closes|, r, w);
    TestedIsPriced(closes, r, w);
    var benchmark := SimulateBuyAndHold(p.tested, r.capital, r.fee);
    var outOfSample := BuildMetrics(r.capital, p.capital, p.pnls, p.curve);
    var average := if p.inSampleReturns != [] then Round6(Mean(p.inSampleReturns)) else 0.0;
    report := Report(fullPeriod.metrics, fullPeriodBenchmark.metrics, average, outOfSample, benchmark.metrics, p);
  }

  lemma {:induction false} AdvanceCounts(closes: seq<real>, r: Request, w: nat, p: Progress)
    requires Priced(closes) && Fits(closes, r, w)
    ensures |Advance(closes, r, w, p).windows| == |p.windows| + 1
  {
    hide WindowOf, TestRun;
  }

  lemma {:induction false} OffsetMonotone(r: Request, v: nat, w: nat)
    requires v <= w
    ensures Offset(r, v) <= Offset(r, w)
  {
    if v < w {
      OffsetMonotone(r, v, w - 1);
    }
  }

  lemma {:induction false} CountIsLast(n: nat, r: Request, w: nat)
    requires r.training <= n && r.testing > 0
    requires n - r.testing < Offset(r, w) + r.training <= n
    ensures w == WindowCount(n, r)
  {
    WindowsFit(n, r);
    var v := WindowCount(n, r);
    hide WindowCount;
    if w < v {
      OffsetMonotone(r, w + 1, v);
    } else if w > v {
      OffsetMonotone(r, v + 1, w);
    }
  }
}
