/**
 * The simulator of the backtesting service: signals from the averages and the index, a cash and
 * units book, the metrics of a run and the choice among candidate parameters.
 */
module Backtest {
  import opened Indicators
  import opened Numeric
  import opened Options

  const RSI_PERIOD: nat := 14

  datatype Parameters = Parameters(fast: nat, slow: nat, entryMin: real, exitMax: real)

  predicate Usable(p: Parameters) { p.fast >= 2 && p.slow >= 3 }

  const CANDIDATES: seq<Parameters> := [
    Parameters(12, 30, 50.0, 47.0),
    Parameters(9, 30, 50.0, 45.0),
    Parameters(5, 30, 50.0, 45.0)
  ]

  /** Closes with an entry and an exit signal for each. */
  datatype Tape = Tape(closes: seq<real>, entries: seq<bool>, exits: seq<bool>)

  predicate Priced(closes: seq<real>) { forall i :: 0 <= i < |closes| ==> closes[i] > 0.0 }

  predicate ValidTape(t: Tape) { Priced(t.closes) && |t.entries| == |t.closes| == |t.exits| }

  datatype Account = Account(capital: real, fee: real, start: nat)

  predicate ValidAccount(a: Account) { a.capital >= 0.0 && 0.0 <= a.fee <= 0.05 }

  datatype Book = Book(cash: real, units: real, entryCost: real, pnls: seq<real>, curve: seq<real>)

  function Bought(cash: real, fee: real, price: real): real
    requires price > 0.0
  {
    cash * (1.0 - fee) / price
  }

  function Proceeds(units: real, price: real, fee: real): real { units * price * (1.0 - fee) }

  function Worth(cash: real, units: real, price: real): real { if units == 0.0 then cash else units * price }

  function Opened(a: Account): Book { Book(a.capital, 0.0, 0.0, [], [a.capital]) }

  /** What one candle's signals do to the book; an entry is looked at before an exit. */
  function Traded(b: Book, price: real, enter: bool, exit: bool, fee: real): Book
    requires price > 0.0
  {
    if enter && b.units == 0.0 && b.cash > 0.0 then
      b.(units := Bought(b.cash, fee, price), entryCost := b.cash, cash := 0.0)
    else if exit && b.units > 0.0 then
      Closed(b, price, fee)
    else b
  }

  function Closed(b: Book, price: real, fee: real): Book {
    var cash := Proceeds(b.units, price, fee);
    b.(cash := cash, pnls := b.pnls + [cash - b.entryCost], units := 0.0, entryCost := 0.0)
  }

  function Marked(b: Book, price: real): Book {
    b.(curve := b.curve + [Round6(Worth(b.cash, b.units, price))])
  }

  /** The book after the first n candles; candles before the start only warm the indicators. */
  function BookAfter(t: Tape, a: Account, n: nat): Book
    requires ValidTape(t) && n <= |t.closes|
  {
    if n == 0 then Opened(a)
    else
      var b := BookAfter(t, a, n - 1);
      if n - 1 < a.start then b
      else Marked(Traded(b, t.closes[n - 1], t.entries[n - 1], t.exits[n - 1], a.fee), t.closes[n - 1])
  }

  /** A position still open at the end is sold at the last close and replaces the last point. */
  function Settled(b: Book, price: real, fee: real): Book
    requires b.curve != []
  {
    if b.units > 0.0 then
      var sold := Closed(b, price, fee);
      sold.(curve := b.curve[|b.curve| - 1 := Round6(sold.cash)])
    else b
  }

  function Finished(t: Tape, a: Account): Book
    requires ValidTape(t)
  {
    var n := |t.closes|;
    var b := BookAfter(t, a, n);
    CurveLength(t, a, n);
    if b.units > 0.0 then Settled(b, t.closes[n - 1], a.fee) else b
  }

  lemma {:induction false} CurveLength(t: Tape, a: Account, n: nat)
    requires ValidTape(t) && n <= |t.closes|
    ensures |BookAfter(t, a, n).curve| == 1 + if n <= a.start then 0 else n - a.start
  {
    if n > 0 {
      CurveLength(t, a, n - 1);
    }
  }

  function Winning(pnls: seq<real>): (wins: seq<real>)
    ensures |wins| <= |pnls|
  {
    var n := |pnls| - 1;
    if pnls == [] then [] else Winning(pnls[..n]) + if pnls[n] > 0.0 then [pnls[n]] else []
  }

  function Losing(pnls: seq<real>): (losses: seq<real>)
    ensures losses != [] ==> Sum(losses) < 0.0
  {
    var n := |pnls| - 1;
    if pnls == [] then []
    else
      var front := Losing(pnls[..n]);
      if pnls[n] < 0.0 then
        assert (front + [pnls[n]])[..|front|] == front;
        front + [pnls[n]]
      else front
  }

  function PeakOf(curve: seq<real>): real
    requires curve != []
  {
    var n := |curve| - 1;
    if n == 0 then curve[0] else Max(PeakOf(curve[..n]), curve[n])
  }

  function FallPct(peak: real, equity: real): real
    requires peak != 0.0
  {
    (peak - equity) / peak * 100.0
  }

  /** The running-peak drawdown. */
  function WorstFall(curve: seq<real>): real {
    if curve == [] then 0.0
    else
      var n := |curve| - 1;
      var peak := PeakOf(curve);
      if peak == 0.0 then WorstFall(curve[..n]) else Max(WorstFall(curve[..n]), FallPct(peak, curve[n]))
  }

  method MaxDrawdownPct(curve: seq<real>) returns (pct: real)
    ensures pct == Round6(WorstFall(curve))
  {
    var peak := if curve == [] then 0.0 else curve[0];
    var worst := 0.0;
    for i := 0 to |curve|
      invariant peak == if curve == [] then 0.0 else if i == 0 then curve[0] else PeakOf(curve[..i])
      invariant worst == WorstFall(curve[..i])
    {
      assert curve[..i + 1][..i] == curve[..i];
      peak := Max(peak, curve[i]);
      if peak == 0.0 {
        continue;
      }
      worst := Max(worst, (peak - curve[i]) / peak * 100.0);
    }
    assert curve[..|curve|] == curve;
    return Round6(worst);
  }

  datatype Metrics = Metrics(
    totalReturn: real,
    winRate: real,
    profitFactor: Option<real>,
    maxDrawdown: real,
    trades: nat,
    endingCapital: real)

  function MetricsOf(initial: real, ending: real, pnls: seq<real>, curve: seq<real>): Metrics {
    var wins, losses := Winning(pnls), Losing(pnls);
    Metrics(
      if initial != 0.0 then Round6((ending / initial - 1.0) * 100.0) else 0.0,
      if pnls != [] then Round6(|wins| as real / |pnls| as real * 100.0) else 0.0,
      if losses != [] then Some(Round6(Sum(wins) / Abs(Sum(losses)))) else None,
      Round6(WorstFall(curve)),
      |pnls|,
      Round6(ending))
  }

  method BuildMetrics(initial: real, ending: real, pnls: seq<real>, curve: seq<real>) returns (m: Metrics)
    ensures m == MetricsOf(initial, ending, pnls, curve)
  {
    var drawdown := MaxDrawdownPct(curve);
    m := MetricsOf(initial, ending, pnls, []).(maxDrawdown := drawdown);
  }

  datatype Output = Output(metrics: Metrics, pnls: seq<real>, curve: seq<real>)

  function OutputOf(capital: real, b: Book): Output {
    Output(MetricsOf(capital, b.cash, b.pnls, b.curve), b.pnls, b.curve)
  }

  function Simulated(t: Tape, a: Account): Output
    requires ValidTape(t)
  {
    OutputOf(a.capital, Finished(t, a))
  }

  method SimulateFromSignals(t: Tape, a: Account) returns (out: Output)
    requires ValidTape(t)
    ensures out == Simulated(t, a)
  {
    hide Traded, Round6, Proceeds, Bought, MetricsOf;
    var cash, units, entryCost := a.capital, 0.0, 0.0;
    var pnls: seq<real>, curve := [], [a.capital];
    for index := 0 to |t.closes|
      invariant Book(cash, units, entryCost, pnls, curve) == BookAfter(t, a, index)
    {
      if index < a.start {
        continue;
      }
      var price := t.closes[index];
      TradedByCases(Book(cash, units, entryCost, pnls, curve), price, t.entries[index], t.exits[index], a.fee);
      if t.entries[index] && units == 0.0 && cash > 0.0 {
        units := Bought(cash, a.fee, price);
        entryCost := cash;
        cash := 0.0;
      } else if t.exits[index] && units > 0.0 {
        cash := Proceeds(units, price, a.fee);
        pnls := pnls + [cash - entryCost];
        units := 0.0;
        entryCost := 0.0;
      }
      curve := curve + [Round6(Worth(cash, units, price))];
    }
    CurveLength(t, a, |t.closes|);
    if units > 0.0 {
      var finalCash := Proceeds(units, t.closes[|t.closes| - 1], a.fee);
      pnls := pnls + [finalCash - entryCost];
      cash := finalCash;
      curve := curve[|curve| - 1 := Round6(cash)];
    }
    var metrics := BuildMetrics(a.capital, cash, pnls, curve);
    out := Output(metrics, pnls, curve);
  }

  lemma {:induction false} TradedByCases(b: Book, price: real, enter: bool, exit: bool, fee: real)
    requires price > 0.0
    ensures Traded(b, price, enter, exit, fee) ==
            if enter && b.units == 0.0 && b.cash > 0.0 then
              b.(units := Bought(b.cash, fee, price), entryCost := b.cash, cash := 0.0)
            else if exit && b.units > 0.0 then Closed(b, price, fee)
            else b
  {
  }

  /** The five readings a candle's signals are taken from, when all of them exist. */
  datatype Reading = Reading(fast: real, slow: real, fastBefore: real, slowBefore: real, rsi: real)

  function ReadingAt(closes: seq<real>, p: Parameters, i: nat): Option<Reading>
    requires Usable(p) && 0 < i < |closes|
  {
    var fast, slow := EmaAt(closes, p.fast, i), EmaAt(closes, p.slow, i);
    var fastBefore, slowBefore := EmaAt(closes, p.fast, i - 1), EmaAt(closes, p.slow, i - 1);
    var rsi := RsiAt(closes, RSI_PERIOD, i);
    if fast.Some? && slow.Some? && fastBefore.Some? && slowBefore.Some? && rsi.Some?
    then Some(Reading(fast.value, slow.value, fastBefore.value, slowBefore.value, rsi.value))
    else None
  }

  predicate EntrySignal(r: Reading, p: Parameters) {
    r.fast > r.slow && r.fastBefore <= r.slowBefore && r.rsi >= p.entryMin
  }

  predicate ExitSignal(r: Reading, p: Parameters) {
    (r.fast < r.slow && r.fastBefore >= r.slowBefore) || r.rsi <= p.exitMax
  }

  predicate EntersAt(closes: seq<real>, p: Parameters, start: nat, i: nat)
    requires Usable(p) && i < |closes|
  {
    0 < i && start <= i && var r := ReadingAt(closes, p, i); r.Some? && EntrySignal(r.value, p)
  }

  predicate ExitsAt(closes: seq<real>, p: Parameters, start: nat, i: nat)
    requires Usable(p) && i < |closes|
  {
    0 < i && start <= i && var r := ReadingAt(closes, p, i); r.Some? && ExitSignal(r.value, p)
  }

  function StrategyTape(closes: seq<real>, p: Parameters, start: nat): Tape
    requires Usable(p)
  {
    Tape(closes,
         seq(|closes|, i requires 0 <= i < |closes| => EntersAt(closes, p, start, i)),
         seq(|closes|, i requires 0 <= i < |closes| => ExitsAt(closes, p, start, i)))
  }

  function StrategyRun(closes: seq<real>, p: Parameters, a: Account): Output
    requires Usable(p) && Priced(closes)
  {
    Simulated(StrategyTape(closes, p, a.start), a)
  }

  method SimulateStrategy(closes: seq<real>, p: Parameters, a: Account) returns (out: Output)
    requires Usable(p) && Priced(closes)
    ensures out == StrategyRun(closes, p, a)
  {
    hide EmaAt, RsiAt, Simulated;
    var fast := EmaSeries(closes, p.fast);
    var slow := EmaSeries(closes, p.slow);
    var rsi := RsiSeries(closes, RSI_PERIOD);
    var entries := new bool[|closes|](_ => false);
    var exits := new bool[|closes|](_ => false);
    var first := if a.start < 1 then 1 else a.start;
    var index := first;
    while index < |closes|
      invariant first <= index
      invariant forall i :: 0 <= i < index && i < |closes| ==> entries[i] == EntersAt(closes, p, a.start, i)
      invariant forall i :: 0 <= i < index && i < |closes| ==> exits[i] == ExitsAt(closes, p, a.start, i)
      invariant forall i :: index <= i < |closes| ==> !entries[i] && !exits[i]
    {
      if fast[index].Some? && slow[index].Some? && fast[index - 1].Some? && slow[index - 1].Some? && rsi[index].Some? {
        var r := Reading(
          fast[index].value, slow[index].value, fast[index - 1].value, slow[index - 1].value, rsi[index].value);
        var crossedUp := r.fast > r.slow && r.fastBefore <= r.slowBefore;
        var crossedDown := r.fast < r.slow && r.fastBefore >= r.slowBefore;
        entries[index] := crossedUp && r.rsi >= p.entryMin;
        exits[index] := crossedDown || r.rsi <= p.exitMax;
      }
      index := index + 1;
    }
    var tape := Tape(closes, entries[..], exits[..]);
    assert tape.entries == StrategyTape(closes, p, a.start).entries;
    assert tape.exits == StrategyTape(closes, p, a.start).exits;
    out := SimulateFromSignals(tape, a);
  }

  function HoldTape(closes: seq<real>): (t: Tape)
    ensures t.closes == closes && |t.entries| == |closes| == |t.exits|
  {
    var n := |closes|;
    var none := seq(n, _ => false);
    if n == 0 then Tape(closes, [], []) else Tape(closes, none[0 := true], none[n - 1 := true])
  }

  method SimulateBuyAndHold(closes: seq<real>, capital: real, fee: real) returns (out: Output)
    requires Priced(closes)
    ensures out == Simulated(HoldTape(closes), Account(capital, fee, 0))
  {
    out := SimulateFromSignals(HoldTape(closes), Account(capital, fee, 0));
  }

  const TOLERANCE := 0.000_000_001

  predicate IsClose(x: real, y: real) { Abs(x - y) <= TOLERANCE }

  predicate IsBetter(candidate: Metrics, current: Metrics) {
    if !IsClose(candidate.totalReturn, current.totalReturn) then candidate.totalReturn > current.totalReturn
    else if !IsClose(candidate.maxDrawdown, current.maxDrawdown) then candidate.maxDrawdown < current.maxDrawdown
    else candidate.trades < current.trades
  }

  function CandidateRun(closes: seq<real>, candidates: seq<Parameters>, i: nat, a: Account): Output
    requires Priced(closes) && i < |candidates| && Usable(candidates[i])
  {
    StrategyRun(closes, candidates[i], a)
  }

  /** The place of the candidate the selection loop ends with, among the first n. */
  function BestIndex(closes: seq<real>, candidates: seq<Parameters>, a: Account, n: nat): (best: nat)
    requires Priced(closes) && 0 < n <= |candidates| && forall p :: p in candidates ==> Usable(p)
    ensures best < n
  {
    if n == 1 then 0
    else
      var best := BestIndex(closes, candidates, a, n - 1);
      var newcomer := CandidateRun(closes, candidates, n - 1, a);
      if IsBetter(newcomer.metrics, CandidateRun(closes, candidates, best, a).metrics) then n - 1 else best
  }

  method SelectBest(closes: seq<real>, candidates: seq<Parameters>, a: Account)
    returns (parameters: Parameters, result: Output)
    requires Priced(closes) && candidates != [] && forall p :: p in candidates ==> Usable(p)
    ensures var best := BestIndex(closes, candidates, a, |candidates|);
            parameters == candidates[best] && result == CandidateRun(closes, candidates, best, a)
  {
    hide StrategyRun, IsBetter;
    parameters := candidates[0];
    result := SimulateStrategy(closes, parameters, a);
    for i := 1 to |candidates|
      invariant parameters == candidates[BestIndex(closes, candidates, a, i)]
      invariant result == CandidateRun(closes, candidates, BestIndex(closes, candidates, a, i), a)
    {
      var candidate := SimulateStrategy(closes, candidates[i], a);
      if IsBetter(candidate.metrics, result.metrics) {
        parameters, result := candidates[i], candidate;
      }
    }
  }
}
