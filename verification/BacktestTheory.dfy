/** What every simulated run keeps: money, time order, and the meaning of its metrics. */
module BacktestTheory {
  import opened Backtest
  import opened Indicators
  import opened Numeric
  import opened Options

  // ---- Conservation ----

  /** All the money is either cash or the cost of the one open position. */
  predicate Balanced(b: Book, capital: real) {
    && b.units >= 0.0
    && b.cash >= 0.0
    && b.cash + b.entryCost == capital + Sum(b.pnls)
    && (b.units == 0.0 ==> b.entryCost == 0.0)
    && (b.units > 0.0 ==> b.cash == 0.0 && b.entryCost > 0.0)
    && (b.units == 0.0 && capital > 0.0 ==> b.cash > 0.0)
  }

  lemma {:induction false} BoughtPositive(cash: real, fee: real, price: real)
    requires cash > 0.0 && 0.0 <= fee <= 0.05 && price > 0.0
    ensures Bought(cash, fee, price) > 0.0
  {
    ProductPositive(cash, 1.0 - fee);
    QuotientPositive(cash * (1.0 - fee), price);
  }

  lemma {:induction false} ProceedsPositive(units: real, price: real, fee: real)
    requires units > 0.0 && 0.0 <= fee <= 0.05 && price > 0.0
    ensures Proceeds(units, price, fee) > 0.0
  {
    ProductPositive(units, price);
    ProductPositive(units * price, 1.0 - fee);
  }

  lemma {:induction false} SumAppend(xs: seq<real>, x: real)
    ensures Sum(xs + [x]) == Sum(xs) + x
  {
    assert (xs + [x])[..|xs|] == xs;
  }

  lemma {:induction false} ClosedBalances(b: Book, price: real, fee: real, capital: real)
    requires Balanced(b, capital) && b.units > 0.0 && price > 0.0 && 0.0 <= fee <= 0.05
    ensures Balanced(Closed(b, price, fee), capital) && Closed(b, price, fee).units == 0.0
  {
    ProceedsPositive(b.units, price, fee);
    SumAppend(b.pnls, Proceeds(b.units, price, fee) - b.entryCost);
    hide Proceeds, Sum;
  }

  lemma {:induction false} TradedBalances(b: Book, price: real, enter: bool, exit: bool, fee: real, capital: real)
    requires Balanced(b, capital) && price > 0.0 && 0.0 <= fee <= 0.05
    ensures Balanced(Traded(b, price, enter, exit, fee), capital)
  {
    if enter && b.units == 0.0 && b.cash > 0.0 {
      BoughtPositive(b.cash, fee, price);
      hide Bought, Sum;
    } else if exit && b.units > 0.0 {
      ClosedBalances(b, price, fee, capital);
      hide Closed, Sum;
    }
  }

  lemma {:induction false} BookBalances(t: Tape, a: Account, n: nat)
    requires ValidTape(t) && ValidAccount(a) && n <= |t.closes|
    ensures Balanced(BookAfter(t, a, n), a.capital)
  {
    if n > 0 {
      BookBalances(t, a, n - 1);
      if n - 1 >= a.start {
        var price, enter, exit := t.closes[n - 1], t.entries[n - 1], t.exits[n - 1];
        TradedBalances(BookAfter(t, a, n - 1), price, enter, exit, a.fee, a.capital);
        hide Traded, Sum, Round6;
      }
    }
  }

  lemma {:induction false} RoundKeepsSign(x: real)
    requires x >= 0.0
    ensures Round6(x) >= 0.0
  {
    RoundToMonotone(0.0, x, MILLION);
    assert Round6(0.0) == 0.0;
  }

  lemma {:induction false} CurveNonNegative(t: Tape, a: Account, n: nat)
    requires ValidTape(t) && ValidAccount(a) && n <= |t.closes|
    ensures NonNegative(BookAfter(t, a, n).curve)
  {
    if n > 0 {
      CurveNonNegative(t, a, n - 1);
      BookBalances(t, a, n);
      var b := BookAfter(t, a, n);
      var price := t.closes[n - 1];
      if n - 1 >= a.start {
        if b.units > 0.0 { ProductPositive(b.units, price); }
        RoundKeepsSign(Worth(b.cash, b.units, price));
        hide Traded, Round6, Balanced;
      }
    }
  }

  /**
   * A finished run holds no position, ends with its starting capital plus the profit of its
   * trades, and reports that amount as the last point of a curve that never goes below zero.
   */
  lemma {:induction false} RunConservesMoney(t: Tape, a: Account)
    requires ValidTape(t) && ValidAccount(a)
    ensures var b := Finished(t, a);
            && b.units == 0.0
            && b.cash == a.capital + Sum(b.pnls)
            && b.cash >= 0.0
            && NonNegative(b.curve)
            && |b.curve| == 1 + (if |t.closes| <= a.start then 0 else |t.closes| - a.start)
            && (a.start < |t.closes| ==> b.curve[|b.curve| - 1] == Round6(b.cash))
  {
    var n := |t.closes|;
    var b := BookAfter(t, a, n);
    BookBalances(t, a, n);
    CurveNonNegative(t, a, n);
    CurveLength(t, a, n);
    if b.units > 0.0 {
      ClosedBalances(b, t.closes[n - 1], a.fee, a.capital);
      RoundKeepsSign(Closed(b, t.closes[n - 1], a.fee).cash);
    }
    hide Traded, Closed, Round6, Sum, BookAfter;
    if a.start < n && b.units == 0.0 {
      LastPoint(t, a, n);
    }
  }

  lemma {:induction false} LastPoint(t: Tape, a: Account, n: nat)
    requires ValidTape(t) && a.start < n <= |t.closes|
    ensures var b := BookAfter(t, a, n);
            b.curve != [] && b.curve[|b.curve| - 1] == Round6(Worth(b.cash, b.units, t.closes[n - 1]))
  {
    hide Traded, Round6, Worth;
  }

  lemma {:induction false} ReturnOf(capital: real, gain: real)
    requires capital > 0.0
    ensures ((capital + gain) / capital - 1.0) * 100.0 == gain / capital * 100.0
  {
    var grown, share := (capital + gain) / capital, gain / capital;
    assert grown * capital == capital + gain && share * capital == gain;
    CancelRight(grown - 1.0, share, capital);
  }

  /** The reported return and ending capital are functions of the trades alone. */
  lemma {:induction false} ReturnIsTheTrades(t: Tape, a: Account)
    requires ValidTape(t) && ValidAccount(a) && a.capital > 0.0
    ensures var out := Simulated(t, a);
            && out.metrics.totalReturn == Round6(Sum(out.pnls) / a.capital * 100.0)
            && out.metrics.endingCapital == Round6(a.capital + Sum(out.pnls))
            && out.metrics.trades == |out.pnls|
  {
    RunConservesMoney(t, a);
    ReturnOf(a.capital, Sum(Finished(t, a).pnls));
    hide Finished, Sum, Round6, WorstFall, Winning, Losing;
  }

  // ---- Drawdown ----

  lemma {:induction false} FallRange(peak: real, equity: real)
    requires 0.0 <= equity <= peak && peak > 0.0
    ensures 0.0 <= FallPct(peak, equity) <= 100.0
  {
    DivideBounds(0.0, peak - equity, peak, peak);
  }

  lemma {:induction false} SmallerPart(x: real, y: real, lower: real, higher: real)
    requires 0.0 < lower <= higher && x * higher == y * lower && y * lower >= 0.0
    ensures x <= y
  {
    if x > y {
      assert false;
    }
  }

  lemma {:induction false} FallGrowsWithPeak(lower: real, higher: real, equity: real)
    requires 0.0 < lower <= higher && equity >= 0.0
    ensures FallPct(lower, equity) <= FallPct(higher, equity)
  {
    var x, y := (lower - equity) / lower, (higher - equity) / higher;
    assert x * lower == lower - equity && y * higher == higher - equity;
    assert (1.0 - x) * lower == equity && (1.0 - y) * higher == equity;
    SmallerPart(1.0 - y, 1.0 - x, lower, higher);
  }

  lemma {:induction false} PeakIsMax(curve: seq<real>)
    requires curve != []
    ensures forall i :: 0 <= i < |curve| ==> curve[i] <= PeakOf(curve)
    ensures exists i :: 0 <= i < |curve| && curve[i] == PeakOf(curve)
  {
    var n := |curve| - 1;
    if n > 0 {
      PeakIsMax(curve[..n]);
      var i :| 0 <= i < n && curve[..n][i] == PeakOf(curve[..n]);
      assert curve[i] == curve[..n][i];
      forall k | 0 <= k < n ensures curve[k] <= PeakOf(curve) {
        assert curve[k] == curve[..n][k];
      }
      assert curve[n] <= PeakOf(curve);
    }
  }

  /** d is at least every fall from an earlier positive point to a later one. */
  predicate Covers(curve: seq<real>, d: real) {
    forall i, j :: 0 <= i <= j < |curve| && curve[i] > 0.0 ==> FallPct(curve[i], curve[j]) <= d
  }

  predicate Attained(curve: seq<real>, d: real) {
    exists i, j :: 0 <= i <= j < |curve| && curve[i] > 0.0 && FallPct(curve[i], curve[j]) == d
  }

  lemma {:induction false} CoversNext(curve: seq<real>, d: real)
    requires curve != [] && NonNegative(curve) && d >= 0.0
    requires Covers(curve[..|curve| - 1], d)
    requires PeakOf(curve) > 0.0 ==> FallPct(PeakOf(curve), curve[|curve| - 1]) <= d
    ensures Covers(curve, d)
  {
    var n := |curve| - 1;
    PeakIsMax(curve);
    forall i, j | 0 <= i <= j < |curve| && curve[i] > 0.0 ensures FallPct(curve[i], curve[j]) <= d {
      if j < n {
        assert curve[..n][i] == curve[i] && curve[..n][j] == curve[j];
      } else {
        FallGrowsWithPeak(curve[i], PeakOf(curve), curve[n]);
      }
    }
  }

  lemma {:induction false} AttainedNext(curve: seq<real>, d: real)
    requires curve != [] && (Attained(curve[..|curve| - 1], d) || d == 0.0)
    ensures Attained(curve, d) || d == 0.0
  {
    if d != 0.0 {
      var front := curve[..|curve| - 1];
      var i, j :| 0 <= i <= j < |front| && front[i] > 0.0 && FallPct(front[i], front[j]) == d;
      assert FallPct(curve[i], curve[j]) == d;
    }
  }

  /**
   * The running-peak loop finds the greatest percentage fall between any two points of the
   * curve in time order, and it is a percentage.
   */
  lemma {:induction false} DrawdownIsTheWorstFall(curve: seq<real>)
    requires NonNegative(curve)
    ensures Covers(curve, WorstFall(curve))
    ensures Attained(curve, WorstFall(curve)) || WorstFall(curve) == 0.0
    ensures 0.0 <= WorstFall(curve) <= 100.0
  {
    if curve != [] {
      var n := |curve| - 1;
      var front, peak := curve[..n], PeakOf(curve);
      DrawdownIsTheWorstFall(front);
      PeakIsMax(curve);
      var top :| 0 <= top < |curve| && curve[top] == peak;
      if peak > 0.0 {
        FallRange(peak, curve[n]);
      }
      hide FallPct, Covers;
      AttainedNext(curve, WorstFall(front));
      CoversFrom(front, WorstFall(front), WorstFall(curve));
      CoversNext(curve, WorstFall(curve));
      assert peak > 0.0 && WorstFall(curve) != WorstFall(front) ==> FallPct(curve[top], curve[n]) == WorstFall(curve);
    }
  }

  lemma {:induction false} CoversFrom(curve: seq<real>, d: real, e: real)
    requires Covers(curve, d) && d <= e
    ensures Covers(curve, e)
  {
  }

  /** The reported drawdown of every run is the rounded worst fall of its own curve. */
  lemma {:induction false} RunDrawdown(t: Tape, a: Account)
    requires ValidTape(t) && ValidAccount(a)
    ensures var out := Simulated(t, a);
            exists worst :: Covers(out.curve, worst) && (Attained(out.curve, worst) || worst == 0.0)
                            && out.metrics.maxDrawdown == Round6(worst)
  {
    RunConservesMoney(t, a);
    var curve := Finished(t, a).curve;
    DrawdownIsTheWorstFall(curve);
    hide Covers, Attained, WorstFall, Round6, Finished;
    var worst := WorstFall(curve);
    assert Covers(curve, worst) && (Attained(curve, worst) || worst == 0.0);
    assert Simulated(t, a).curve == curve && Simulated(t, a).metrics.maxDrawdown == Round6(worst);
  }

  // ---- Time order ----

  function TapePrefix(t: Tape, k: nat): Tape
    requires ValidTape(t) && k <= |t.closes|
  {
    Tape(t.closes[..k], t.entries[..k], t.exits[..k])
  }

  lemma {:induction false} BookOfPrefix(t: Tape, a: Account, k: nat, n: nat)
    requires ValidTape(t) && n <= k <= |t.closes|
    ensures BookAfter(TapePrefix(t, k), a, n) == BookAfter(t, a, n)
  {
    if n > 0 {
      BookOfPrefix(t, a, k, n - 1);
      hide Traded;
    }
  }

  lemma {:induction false} BookGrows(t: Tape, a: Account, k: nat, n: nat)
    requires ValidTape(t) && k <= n <= |t.closes|
    ensures BookAfter(t, a, k).pnls <= BookAfter(t, a, n).pnls
    ensures BookAfter(t, a, k).curve <= BookAfter(t, a, n).curve
  {
    if k < n {
      BookGrows(t, a, k, n - 1);
      hide Proceeds, Bought, Round6;
    }
  }

  lemma {:induction false} ReadingOfPrefix(closes: seq<real>, p: Parameters, k: nat, i: nat)
    requires Usable(p) && 0 < i < k <= |closes|
    ensures ReadingAt(closes[..k], p, i) == ReadingAt(closes, p, i)
  {
    assert closes[..k][..i + 1] == closes[..i + 1];
    assert closes[..k][..i] == closes[..i];
    hide Ema, Round6, AverageGain, AverageLoss, ComputeRsi;
  }

  lemma {:induction false} StrategyTapeOfPrefix(closes: seq<real>, p: Parameters, start: nat, k: nat)
    requires Usable(p) && Priced(closes) && k <= |closes|
    ensures StrategyTape(closes[..k], p, start) == TapePrefix(StrategyTape(closes, p, start), k)
  {
    forall i | 0 < i < k ensures ReadingAt(closes[..k], p, i) == ReadingAt(closes, p, i) {
      ReadingOfPrefix(closes, p, k, i);
    }
    hide ReadingAt;
    var short, full := StrategyTape(closes[..k], p, start), StrategyTape(closes, p, start);
    assert short.entries == full.entries[..k];
    assert short.exits == full.exits[..k];
  }

  /** How a run cut after k candles sits inside the full run. */
  ghost predicate CutShort(short: Output, full: Output, atCut: Book, lastClose: real, fee: real) {
    && atCut.pnls <= full.pnls
    && short.pnls == (if atCut.units > 0.0
                      then atCut.pnls + [Proceeds(atCut.units, lastClose, fee) - atCut.entryCost] else atCut.pnls)
    && 0 < |short.curve| <= |full.curve|
    && short.curve[..|short.curve| - 1] == full.curve[..|short.curve| - 1]
    && (atCut.units == 0.0 ==> short.curve <= full.curve)
  }

  lemma {:induction false} OutputByCases(t: Tape, a: Account, b: Book, lastClose: real)
    requires ValidTape(t) && ValidAccount(a) && t.closes != []
    requires b == BookAfter(t, a, |t.closes|) && lastClose == t.closes[|t.closes| - 1]
    ensures var out := Simulated(t, a);
            && b.units >= 0.0
            && |out.curve| == |b.curve| == 1 + (if |t.closes| <= a.start then 0 else |t.closes| - a.start)
            && out.curve[..|out.curve| - 1] == b.curve[..|out.curve| - 1]
            && (b.units == 0.0 ==> out.curve == b.curve)
            && b.pnls <= out.pnls
            && out.pnls == (if b.units > 0.0
                 then b.pnls + [Proceeds(b.units, lastClose, a.fee) - b.entryCost] else b.pnls)
  {
    CurveLength(t, a, |t.closes|);
    BookBalances(t, a, |t.closes|);
    hide BookAfter, Round6, Proceeds, MetricsOf;
  }

  lemma {:induction false} PrefixTape(t: Tape, k: nat)
    requires ValidTape(t) && 0 < k <= |t.closes|
    ensures var cut := TapePrefix(t, k);
            && ValidTape(cut) && |cut.closes| == k
            && cut.closes[k - 1] == t.closes[k - 1]
            && (k == |t.closes| ==> cut == t)
  {
  }

  lemma {:induction false} CutBooks(
      atCut: Book, atEnd: Book, short: Output, full: Output, lastClose: real, fee: real)
    requires atCut.curve != [] && atCut.curve <= atEnd.curve && atCut.pnls <= atEnd.pnls
    requires |short.curve| == |atCut.curve| && |full.curve| == |atEnd.curve|
    requires short.curve[..|short.curve| - 1] == atCut.curve[..|short.curve| - 1]
    requires full.curve[..|full.curve| - 1] == atEnd.curve[..|full.curve| - 1]
    requires atCut.units == 0.0 ==> short.curve == atCut.curve
    requires |atCut.curve| == |atEnd.curve| ==> atEnd.units == 0.0 || short == full
    requires atEnd.units == 0.0 ==> full.curve == atEnd.curve
    requires atEnd.pnls <= full.pnls
    requires short.pnls == (if atCut.units > 0.0
               then atCut.pnls + [Proceeds(atCut.units, lastClose, fee) - atCut.entryCost] else atCut.pnls)
    ensures CutShort(short, full, atCut, lastClose, fee)
  {
    hide Proceeds;
    var m := |short.curve|;
    assert atCut.curve[..m - 1] == atEnd.curve[..m - 1];
    assert full.curve[..|full.curve| - 1][..m - 1] == full.curve[..m - 1];
    if |atCut.curve| < |atEnd.curve| {
      assert full.curve[..|full.curve| - 1][..m] == full.curve[..m];
    }
  }

  lemma {:induction false} CutTape(t: Tape, a: Account, k: nat)
    requires ValidTape(t) && ValidAccount(a) && 0 < k <= |t.closes|
    ensures CutShort(Simulated(TapePrefix(t, k), a), Simulated(t, a), BookAfter(t, a, k), t.closes[k - 1], a.fee)
  {
    hide *;
    var n, cut := |t.closes|, TapePrefix(t, k);
    PrefixTape(t, k);
    BookOfPrefix(t, a, k, k);
    BookGrows(t, a, k, n);
    var atCut, atEnd := BookAfter(t, a, k), BookAfter(t, a, n);
    OutputByCases(cut, a, atCut, t.closes[k - 1]);
    OutputByCases(t, a, atEnd, t.closes[n - 1]);
    if |atCut.curve| == |atEnd.curve| && k < n {
      StillFlat(t, a);
    }
    CutBooks(atCut, atEnd, Simulated(cut, a), Simulated(t, a), t.closes[k - 1], a.fee);
  }

  lemma {:induction false} StillFlat(t: Tape, a: Account)
    requires ValidTape(t) && |t.closes| <= a.start
    ensures BookAfter(t, a, |t.closes|).units == 0.0
  {
    WarmUpNeverTrades(t, a, |t.closes|);
  }

  /**
   * No look-ahead: cut the history after k candles and the strategy reports the same trades and
   * the same equity curve up to there, except for the last point and one forced sale when a
   * position is open at the cut.
   */
  lemma {:induction false} NoLookAhead(closes: seq<real>, p: Parameters, a: Account, k: nat)
    requires Priced(closes) && Usable(p) && ValidAccount(a) && 0 < k <= |closes|
    ensures CutShort(StrategyRun(closes[..k], p, a), StrategyRun(closes, p, a),
                     BookAfter(StrategyTape(closes, p, a.start), a, k), closes[k - 1], a.fee)
  {
    StrategyTapeOfPrefix(closes, p, a.start, k);
    CutTape(StrategyTape(closes, p, a.start), a, k);
    hide BookAfter, CutShort, Simulated, EntersAt, ExitsAt;
  }

  /** Two histories that agree on their first k closes give the same book at k. */
  lemma {:induction false} FutureIsIrrelevant(xs: seq<real>, ys: seq<real>, p: Parameters, a: Account, k: nat)
    requires Priced(xs) && Priced(ys) && Usable(p)
    requires k <= |xs| && k <= |ys| && xs[..k] == ys[..k]
    ensures BookAfter(StrategyTape(xs, p, a.start), a, k) == BookAfter(StrategyTape(ys, p, a.start), a, k)
  {
    StrategyTapeOfPrefix(xs, p, a.start, k);
    StrategyTapeOfPrefix(ys, p, a.start, k);
    BookOfPrefix(StrategyTape(xs, p, a.start), a, k, k);
    BookOfPrefix(StrategyTape(ys, p, a.start), a, k, k);
    hide BookAfter, EntersAt, ExitsAt;
  }

  /** Warm-up candles never trade, whatever their signals. */
  lemma {:induction false} WarmUpNeverTrades(t: Tape, a: Account, n: nat)
    requires ValidTape(t) && n <= |t.closes|
    ensures n <= a.start ==> BookAfter(t, a, n) == Opened(a)
  {
    if n > 0 {
      WarmUpNeverTrades(t, a, n - 1);
    }
  }

  // ---- Trades ----

  datatype Trip = Trip(bought: nat, sold: nat)

  /** What a round trip makes of the money put into it. */
  function TripProfit(cost: real, fee: real, buy: real, sell: real): real
    requires buy > 0.0
  {
    cost * ((1.0 - fee) * (1.0 - fee) * (sell / buy) - 1.0)
  }

  lemma {:induction false} RoundTripProfit(cost: real, fee: real, buy: real, sell: real)
    requires buy > 0.0
    ensures Proceeds(Bought(cash := cost, fee := fee, price := buy), sell, fee) - cost ==
      TripProfit(cost, fee, buy, sell)
  {
    var kept := 1.0 - fee;
    assert cost * kept / buy * sell * kept == cost * (kept * kept * (sell / buy));
  }

  /** A trade that was really entered on an entry signal and left on an exit signal. */
  ghost predicate IsTrip(t: Tape, a: Account, pnls: seq<real>, j: nat, trip: Trip, n: nat)
    requires ValidTape(t) && n <= |t.closes| && j < |pnls|
  {
    && a.start <= trip.bought <= trip.sold < n
    && t.entries[trip.bought]
    && pnls[j] == TripProfit(a.capital + Sum(pnls[..j]), a.fee, t.closes[trip.bought], t.closes[trip.sold])
  }

  ghost predicate AreTrips(t: Tape, a: Account, pnls: seq<real>, trips: seq<Trip>, n: nat)
    requires ValidTape(t) && n <= |t.closes|
  {
    && |trips| == |pnls|
    && (forall j :: 0 <= j < |trips| ==> IsTrip(t, a, pnls, j, trips[j], n))
    && (forall i, j :: 0 <= i < j < |trips| ==> trips[i].sold < trips[j].bought)
  }

  /** Where the open position was bought, and that it holds what was bought there. */
  ghost predicate OpenSince(t: Tape, a: Account, b: Book, trips: seq<Trip>, bought: nat, n: nat)
    requires ValidTape(t) && n <= |t.closes|
  {
    && a.start <= bought < n
    && t.entries[bought]
    && b.units == Bought(b.entryCost, a.fee, t.closes[bought])
    && b.entryCost == a.capital + Sum(b.pnls)
    && (forall j :: 0 <= j < |trips| ==> trips[j].sold < bought)
  }

  lemma {:induction false} AddTrip(t: Tape, a: Account, b: Book, trips: seq<Trip>, bought: nat, sold: nat, n: nat)
    requires ValidTape(t) && sold < n <= |t.closes| && bought <= sold
    requires AreTrips(t, a, b.pnls, trips, n) && OpenSince(t, a, b, trips, bought, n)
    ensures AreTrips(t, a, Closed(b, t.closes[sold], a.fee).pnls, trips + [Trip(bought, sold)], n)
  {
    var buy, sell := t.closes[bought], t.closes[sold];
    var profit := Proceeds(b.units, sell, a.fee) - b.entryCost;
    RoundTripProfit(b.entryCost, a.fee, buy, sell);
    var more, all := b.pnls + [profit], trips + [Trip(bought, sold)];
    hide Proceeds, Bought, TripProfit, Sum;
    forall j | 0 <= j < |all| ensures IsTrip(t, a, more, j, all[j], n) {
      if j < |trips| {
        assert more[..j] == b.pnls[..j];
        assert IsTrip(t, a, b.pnls, j, trips[j], n);
      } else {
        assert more[..j] == b.pnls;
      }
    }
  }

  lemma {:induction false} TripsLater(t: Tape, a: Account, pnls: seq<real>, trips: seq<Trip>, n: nat, m: nat)
    requires ValidTape(t) && n <= m <= |t.closes| && AreTrips(t, a, pnls, trips, n)
    ensures AreTrips(t, a, pnls, trips, m)
  {
    hide TripProfit, Sum;
    forall j | 0 <= j < |trips| ensures IsTrip(t, a, pnls, j, trips[j], m) {
      assert IsTrip(t, a, pnls, j, trips[j], n);
    }
  }

  ghost predicate Inside(trips: seq<Trip>, i: nat) {
    exists j :: 0 <= j < |trips| && trips[j].bought <= i <= trips[j].sold
  }

  /** Every entry signal so far fell inside a trip, finished or still open. */
  ghost predicate EntriesTaken(t: Tape, a: Account, trips: seq<Trip>, open: Option<nat>, n: nat)
    requires ValidTape(t) && n <= |t.closes|
  {
    forall i :: a.start <= i < n && t.entries[i] ==> Inside(trips, i) || (open.Some? && open.value <= i)
  }

  /** No trip sat through an exit signal after the candle it was bought on. */
  ghost predicate ExitsTaken(t: Tape, trips: seq<Trip>, open: Option<nat>, n: nat)
    requires ValidTape(t) && n <= |t.closes|
  {
    && (forall j, i :: 0 <= j < |trips| && trips[j].bought < i < trips[j].sold && i < n ==> !t.exits[i])
    && (open.Some? ==> forall i :: open.value < i < n ==> !t.exits[i])
  }

  lemma {:induction false} SignalsTaken(
      t: Tape, a: Account, b: Book, trips: seq<Trip>, open: Option<nat>, more: seq<Trip>, after: Option<nat>, i: nat)
    requires ValidTape(t) && i < |t.closes|
    requires EntriesTaken(t, a, trips, open, i) && ExitsTaken(t, trips, open, i)
    requires forall j :: 0 <= j < |trips| ==> trips[j].sold < i
    requires t.entries[i] && open.None? ==> more == trips && after == Some(i)
    requires !t.entries[i] && open.None? ==> more == trips && after == None
    requires t.exits[i] && open.Some? ==> open.value <= i && more == trips + [Trip(open.value, i)] && after == None
    requires !t.exits[i] && open.Some? ==> open.value <= i && more == trips && after == open
    ensures EntriesTaken(t, a, more, after, i + 1) && ExitsTaken(t, more, after, i + 1)
  {
    forall k | a.start <= k < i + 1 && t.entries[k]
      ensures Inside(more, k) || (after.Some? && after.value <= k)
    {
      if Inside(trips, k) {
        var j :| 0 <= j < |trips| && trips[j].bought <= k <= trips[j].sold;
        assert more[j] == trips[j];
      } else if |more| > |trips| {
        assert more[|trips|] == Trip(open.value, i);
      }
    }
    forall j, k | 0 <= j < |more| && more[j].bought < k < more[j].sold && k < i + 1 ensures !t.exits[k] {
      if j < |trips| {
        assert more[j] == trips[j];
      }
    }
  }

  lemma {:induction false} TripsSoFar(t: Tape, a: Account, n: nat) returns (trips: seq<Trip>, open: Option<nat>)
    requires ValidTape(t) && ValidAccount(a) && a.capital > 0.0 && n <= |t.closes|
    ensures var b := BookAfter(t, a, n);
            && AreTrips(t, a, b.pnls, trips, n)
            && (forall j :: 0 <= j < |trips| ==> t.exits[trips[j].sold])
            && EntriesTaken(t, a, trips, open, n)
            && ExitsTaken(t, trips, open, n)
            && (open.Some? <==> b.units > 0.0)
            && (open.Some? ==> OpenSince(t, a, b, trips, open.value, n))
  {
    hide Proceeds, Bought, Sum, TripProfit, Round6, Worth, EntriesTaken, ExitsTaken, AreTrips;
    if n == 0 {
      trips, open := [], None;
      NoTrips(t, a);
    } else {
      var i := n - 1;
      var earlier, since := TripsSoFar(t, a, i);
      trips, open := earlier, since;
      var b := BookAfter(t, a, i);
      TripsLater(t, a, b.pnls, earlier, i, n);
      BookBalances(t, a, i);
      if i >= a.start {
        TradedByCases(b, t.closes[i], t.entries[i], t.exits[i], a.fee);
        BoughtIfFlat(b, t.closes[i], a);
        TripsBounded(t, a, b.pnls, earlier, i);
        hide Traded;
        if t.entries[i] && since.None? {
          open := Some(i);
        } else if t.exits[i] && since.Some? {
          AddTrip(t, a, b, earlier, since.value, i, n);
          trips, open := earlier + [Trip(since.value, i)], None;
        }
        SignalsTaken(t, a, b, earlier, since, trips, open, i);
      } else {
        WarmUpNeverTrades(t, a, i);
        TripsBounded(t, a, b.pnls, earlier, i);
        StillWarming(t, a, earlier, since, i);
      }
    }
  }

  lemma {:induction false} NoTrips(t: Tape, a: Account)
    requires ValidTape(t)
    ensures AreTrips(t, a, [], [], 0) && EntriesTaken(t, a, [], None, 0) && ExitsTaken(t, [], None, 0)
  {
  }

  lemma {:induction false} TripsBounded(t: Tape, a: Account, pnls: seq<real>, trips: seq<Trip>, n: nat)
    requires ValidTape(t) && n <= |t.closes| && AreTrips(t, a, pnls, trips, n)
    ensures forall j :: 0 <= j < |trips| ==> trips[j].sold < n
  {
    hide TripProfit, Sum;
    forall j | 0 <= j < |trips| ensures trips[j].sold < n {
      assert IsTrip(t, a, pnls, j, trips[j], n);
    }
  }

  lemma {:induction false} StillWarming(t: Tape, a: Account, trips: seq<Trip>, open: Option<nat>, i: nat)
    requires ValidTape(t) && i < |t.closes| && i < a.start && open.None?
    requires ExitsTaken(t, trips, open, i) && forall j :: 0 <= j < |trips| ==> trips[j].sold < i
    ensures EntriesTaken(t, a, trips, open, i + 1) && ExitsTaken(t, trips, open, i + 1)
  {
  }

  lemma {:induction false} BoughtIfFlat(b: Book, price: real, a: Account)
    requires price > 0.0 && ValidAccount(a) && b.cash >= 0.0
    ensures b.cash > 0.0 ==> Bought(b.cash, a.fee, price) > 0.0
  {
    if b.cash > 0.0 {
      BoughtPositive(b.cash, a.fee, price);
    }
  }

  /**
   * The trades of a run are exactly its round trips: each is bought on an entry signal and sold
   * on an exit signal or at the end of the history, one after the other, with the whole capital
   * of the moment and both fees paid; no entry signal falls outside them and none of them sits
   * through an exit signal.
   */
  lemma {:induction false} TradesAreRoundTrips(t: Tape, a: Account) returns (trips: seq<Trip>)
    requires ValidTape(t) && ValidAccount(a) && a.capital > 0.0
    ensures AreTrips(t, a, Finished(t, a).pnls, trips, |t.closes|)
    ensures EntriesTaken(t, a, trips, None, |t.closes|)
    ensures ExitsTaken(t, trips, None, |t.closes|)
    ensures forall j :: 0 <= j < |trips| ==>
              t.exits[trips[j].sold] || (j == |trips| - 1 && trips[j].sold == |t.closes| - 1)
  {
    var n := |t.closes|;
    var open;
    trips, open := TripsSoFar(t, a, n);
    var b := BookAfter(t, a, n);
    FinishedTrades(t, a);
    hide BookAfter, Finished, Closed, AreTrips, EntriesTaken, ExitsTaken, Bought, Sum;
    if open.Some? {
      AddTrip(t, a, b, trips, open.value, n - 1, n);
      var all := trips + [Trip(open.value, n - 1)];
      LastTrip(t, a, trips, open.value);
      trips := all;
    }
  }

  lemma {:induction false} FinishedTrades(t: Tape, a: Account)
    requires ValidTape(t) && ValidAccount(a)
    ensures var n := |t.closes|; var b := BookAfter(t, a, n);
            Finished(t, a).pnls == if b.units > 0.0 && n > 0 then Closed(b, t.closes[n - 1], a.fee).pnls else b.pnls
  {
    hide Proceeds, Round6;
  }

  lemma {:induction false} LastTrip(t: Tape, a: Account, trips: seq<Trip>, bought: nat)
    requires ValidTape(t) && bought < |t.closes|
    requires EntriesTaken(t, a, trips, Some(bought), |t.closes|) && ExitsTaken(t, trips, Some(bought), |t.closes|)
    ensures var all := trips + [Trip(bought, |t.closes| - 1)];
            EntriesTaken(t, a, all, None, |t.closes|) && ExitsTaken(t, all, None, |t.closes|)
  {
    var n := |t.closes|;
    var all := trips + [Trip(bought, n - 1)];
    forall k | a.start <= k < n && t.entries[k] ensures Inside(all, k) {
      if Inside(trips, k) {
        var j :| 0 <= j < |trips| && trips[j].bought <= k <= trips[j].sold;
        assert all[j] == trips[j];
      } else {
        assert all[|trips|] == Trip(bought, n - 1);
      }
    }
    forall j, k | 0 <= j < |all| && all[j].bought < k < all[j].sold && k < n ensures !t.exits[k] {
      if j < |trips| {
        assert all[j] == trips[j];
      }
    }
  }

  /** What the capital of the moment, put into a position at one close, is worth at another. */
  function MarkedToMarket(capital: real, fee: real, buy: real, now: real): real
    requires buy > 0.0
  {
    capital * (1.0 - fee) * (now / buy)
  }

  lemma {:induction false} UnitsWorth(b: Book, fee: real, buy: real, now: real)
    requires buy > 0.0 && b.units > 0.0 && b.units == Bought(b.entryCost, fee, buy)
    ensures Worth(b.cash, b.units, now) == MarkedToMarket(b.entryCost, fee, buy, now)
  {
  }

  /**
   * Every point of the curve is the capital of the moment: the initial capital plus the finished
   * trades when flat, and that amount bought in at the open trade's entry and marked at the
   * candle's close otherwise.
   */
  lemma {:induction false} PointsAreMarkedToMarket(t: Tape, a: Account, n: nat)
    returns (trips: seq<Trip>, open: Option<nat>)
    requires ValidTape(t) && ValidAccount(a) && a.capital > 0.0 && a.start < n <= |t.closes|
    ensures var b := BookAfter(t, a, n);
            && AreTrips(t, a, b.pnls, trips, n)
            && (open.Some? ==> OpenSince(t, a, b, trips, open.value, n))
            && |b.curve| == 1 + n - a.start
            && b.curve[n - a.start] == Round6(
                 if open.None? then a.capital + Sum(b.pnls)
                 else MarkedToMarket(a.capital + Sum(b.pnls), a.fee, t.closes[open.value], t.closes[n - 1]))
  {
    trips, open := TripsSoFar(t, a, n);
    var b := BookAfter(t, a, n);
    BookBalances(t, a, n);
    CurveLength(t, a, n);
    LastPoint(t, a, n);
    hide BookAfter, AreTrips, Round6, Sum, Bought, MarkedToMarket;
    if open.Some? {
      UnitsWorth(b, a.fee, t.closes[open.value], t.closes[n - 1]);
      hide Worth;
    }
  }

  // ---- Metrics ----

  lemma {:induction false} SumOfNone()
    ensures Sum([]) == 0.0
  {
  }

  lemma {:induction false} WinsPlusLosses(pnls: seq<real>)
    ensures Sum(Winning(pnls)) + Sum(Losing(pnls)) == Sum(pnls)
  {
    hide Sum;
    if pnls == [] {
      SumOfNone();
    } else {
      var n := |pnls| - 1;
      var front, last := pnls[..n], pnls[n];
      WinsPlusLosses(front);
      assert front + [last] == pnls;
      SumAppend(front, last);
      if last > 0.0 {
        SumAppend(Winning(front), last);
      } else if last < 0.0 {
        assert Winning(pnls) == Winning(front);
        SumAppend(Losing(front), last);
      } else {
        assert Winning(pnls) == Winning(front) && Losing(pnls) == Losing(front);
      }
    }
  }

  predicate AllAbove(xs: seq<real>) { forall i :: 0 <= i < |xs| ==> xs[i] > 0.0 }

  predicate NoneAbove(xs: seq<real>) { forall i :: 0 <= i < |xs| ==> xs[i] <= 0.0 }

  lemma {:induction false} SplitLast(xs: seq<real>)
    requires xs != []
    ensures AllAbove(xs) <==> AllAbove(xs[..|xs| - 1]) && xs[|xs| - 1] > 0.0
    ensures NoneAbove(xs) <==> NoneAbove(xs[..|xs| - 1]) && xs[|xs| - 1] <= 0.0
    ensures NonNegative(xs) <==> NonNegative(xs[..|xs| - 1]) && xs[|xs| - 1] >= 0.0
  {
    var front := xs[..|xs| - 1];
    assert forall i :: 0 <= i < |front| ==> front[i] == xs[i];
    assert forall i :: 0 <= i < |xs| - 1 ==> xs[i] == front[i];
  }

  lemma {:induction false} WinsAndLosses(pnls: seq<real>)
    ensures |Winning(pnls)| == |pnls| <==> AllAbove(pnls)
    ensures Winning(pnls) == [] <==> NoneAbove(pnls)
    ensures Losing(pnls) == [] <==> NonNegative(pnls)
  {
    if pnls != [] {
      WinsAndLosses(pnls[..|pnls| - 1]);
      SplitLast(pnls);
      hide AllAbove, NoneAbove, NonNegative, Sum;
    }
  }

  /** Before rounding: the profit factor exceeds one exactly for a run that earned money; it is absent exactly
      without a loss. */
  lemma {:induction false} ProfitFactorReadsTrades(pnls: seq<real>)
    ensures Losing(pnls) == [] <==> NonNegative(pnls)
    ensures Losing(pnls) != [] ==> (Sum(Winning(pnls)) / Abs(Sum(Losing(pnls))) > 1.0 <==> Sum(pnls) > 0.0)
  {
    WinsAndLosses(pnls);
    WinsPlusLosses(pnls);
    if Losing(pnls) != [] {
      RatioAboveOne(Sum(Winning(pnls)), Abs(Sum(Losing(pnls))));
    }
  }

  lemma {:induction false} RatioAboveOne(x: real, y: real)
    requires y > 0.0
    ensures x / y > 1.0 <==> x > y
  {
    var q := x / y;
    assert q * y == x;
    if q > 1.0 {
      ProductPositive(q - 1.0, y);
    } else {
      ProductOrder(q, 1.0, y);
    }
  }

  /** Before rounding: the win rate is a percentage, 100 exactly when every trade won and 0 exactly when none did. */
  lemma {:induction false} WinRateReadsTrades(pnls: seq<real>)
    requires pnls != []
    ensures var rate := |Winning(pnls)| as real / |pnls| as real * 100.0;
            && 0.0 <= rate <= 100.0
            && (rate == 100.0 <==> AllAbove(pnls))
            && (rate == 0.0 <==> NoneAbove(pnls))
  {
    WinsAndLosses(pnls);
    var won, all := |Winning(pnls)| as real, |pnls| as real;
    hide Winning, Losing, Sum;
    Percentage(won, all);
  }

  lemma {:induction false} Percentage(part: real, whole: real)
    requires 0.0 <= part <= whole && whole > 0.0
    ensures 0.0 <= part / whole * 100.0 <= 100.0
    ensures part / whole * 100.0 == 100.0 <==> part == whole
    ensures part / whole * 100.0 == 0.0 <==> part == 0.0
  {
    DivideBounds(0.0, part, whole, whole);
    var share := part / whole;
    assert share * whole == part && whole / whole == 1.0 && 0.0 / whole == 0.0;
  }
}
