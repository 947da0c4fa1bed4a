/** The benchmark run in closed form, and the choice among candidate parameters. */
module BacktestSelection {
  import opened Backtest
  import opened BacktestTheory
  import opened Indicators
  import opened Numeric
  import opened Options

  // ---- Buy and hold ----

  lemma {:induction false} OnlyTrip(t: Tape, a: Account, trips: seq<Trip>)
    requires ValidTape(t) && t.closes != [] && a.start == 0
    requires forall i :: 0 <= i < |t.closes| ==> (t.entries[i] <==> i == 0)
    requires forall i :: 0 <= i < |t.closes| ==> (t.exits[i] <==> i == |t.closes| - 1)
    requires EntriesTaken(t, a, trips, None, |t.closes|)
    requires forall j :: 0 <= j < |trips| ==> 0 <= trips[j].bought <= trips[j].sold < |t.closes|
    requires forall j :: 0 <= j < |trips| ==> t.exits[trips[j].sold] || trips[j].sold == |t.closes| - 1
    requires forall i, j :: 0 <= i < j < |trips| ==> trips[i].sold < trips[j].bought
    ensures trips == [Trip(0, |t.closes| - 1)]
  {
    assert t.entries[0];
    assert Inside(trips, 0);
    var j :| 0 <= j < |trips| && trips[j].bought <= 0 <= trips[j].sold;
    var last := |trips| - 1;
    assert forall i :: 0 <= i < |trips| ==> trips[i].sold == |t.closes| - 1;
    assert trips[0].sold == trips[last].sold;
  }

  lemma {:induction false} HoldSignals(closes: seq<real>)
    requires Priced(closes) && closes != []
    ensures var t := HoldTape(closes);
            && ValidTape(t) && t.closes == closes
            && (forall i :: 0 <= i < |closes| ==> (t.entries[i] <==> i == 0))
            && (forall i :: 0 <= i < |closes| ==> (t.exits[i] <==> i == |closes| - 1))
  {
    var t := HoldTape(closes);
    assert t.entries[0] && t.exits[|closes| - 1];
  }

  lemma {:induction false} HoldTrades(closes: seq<real>, a: Account)
    requires Priced(closes) && closes != [] && ValidAccount(a) && a.capital > 0.0 && a.start == 0
    requires ValidTape(HoldTape(closes))
    ensures Finished(HoldTape(closes), a).pnls == [TripProfit(a.capital, a.fee, closes[0], closes[|closes| - 1])]
  {
    var t := HoldTape(closes);
    HoldSignals(closes);
    var trips := TradesAreRoundTrips(t, a);
    var pnls := Finished(t, a).pnls;
    hide HoldTape, TripProfit, EntriesTaken, ExitsTaken, Finished;
    forall j | 0 <= j < |trips| ensures 0 <= trips[j].bought <= trips[j].sold < |closes| {
      assert IsTrip(t, a, pnls, j, trips[j], |closes|);
    }
    OnlyTrip(t, a, trips);
    assert IsTrip(t, a, pnls, 0, trips[0], |closes|);
    assert pnls[..0] == [] && pnls == [pnls[0]];
  }

  /**
   * Buying at the first close and holding to the last is one round trip of the whole capital,
   * on a single candle too, where the sale is the forced one.
   */
  lemma {:induction false} HoldIsOneTrip(closes: seq<real>, capital: real, fee: real)
    requires Priced(closes) && closes != [] && capital > 0.0 && 0.0 <= fee <= 0.05
    ensures var out := Simulated(HoldTape(closes), Account(capital, fee, 0));
            var profit := TripProfit(capital, fee, closes[0], closes[|closes| - 1]);
            && out.pnls == [profit]
            && out.metrics.endingCapital == Round6(capital + profit)
            && out.metrics.totalReturn == Round6(profit / capital * 100.0)
  {
    var t, a := HoldTape(closes), Account(capital, fee, 0);
    HoldTrades(closes, a);
    ReturnIsTheTrades(t, a);
    hide *;
    SumOne(TripProfit(capital, fee, closes[0], closes[|closes| - 1]));
    PnlsReported(t, a);
  }

  lemma {:induction false} PnlsReported(t: Tape, a: Account)
    requires ValidTape(t)
    ensures Simulated(t, a).pnls == Finished(t, a).pnls
  {
    hide Finished, MetricsOf;
  }

  lemma {:induction false} SumOne(x: real)
    ensures Sum([x]) == x
  {
    assert [x][..0] == [];
  }

  // ---- Selection ----

  predicate Graded(m: Metrics) { OnGrid(m.totalReturn, MILLION) && OnGrid(m.maxDrawdown, MILLION) }

  lemma {:induction false} MetricsAreGraded(initial: real, ending: real, pnls: seq<real>, curve: seq<real>)
    ensures Graded(MetricsOf(initial, ending, pnls, curve))
  {
    RoundToExact((if initial != 0.0 then ending / initial - 1.0 else 0.0) * 100.0, MILLION);
    RoundToExact(WorstFall(curve), MILLION);
    OnGridFrom(0.0, MILLION, 0);
    hide RoundTo, OnGrid, WorstFall, Winning, Losing;
  }

  /** Higher return first, then smaller drawdown, then fewer trades. */
  predicate Ahead(x: Metrics, y: Metrics) {
    || x.totalReturn > y.totalReturn
    || (x.totalReturn == y.totalReturn && x.maxDrawdown < y.maxDrawdown)
    || (x.totalReturn == y.totalReturn && x.maxDrawdown == y.maxDrawdown && x.trades < y.trades)
  }

  lemma {:induction false} CloseOnGrid(x: real, y: real)
    requires OnGrid(x, MILLION) && OnGrid(y, MILLION)
    ensures IsClose(x, y) <==> x == y
  {
    var m, n := (x * MILLION).Floor, (y * MILLION).Floor;
    assert (x - y) * MILLION == (m - n) as real;
    if IsClose(x, y) {
      assert -1.0 < (m - n) as real < 1.0;
    }
  }

  /** On reported metrics the tolerant comparison is exactly the strict order Ahead. */
  lemma {:induction false} BetterIsAhead(x: Metrics, y: Metrics)
    requires Graded(x) && Graded(y)
    ensures IsBetter(x, y) <==> Ahead(x, y)
  {
    CloseOnGrid(x.totalReturn, y.totalReturn);
    CloseOnGrid(x.maxDrawdown, y.maxDrawdown);
    hide OnGrid, IsClose;
  }

  /** Without the rounding the comparison runs in a circle. */
  lemma {:induction false} ToleranceAloneIsNoOrder()
    ensures exists x: Metrics, y: Metrics, z: Metrics :: IsBetter(x, y) && IsBetter(y, z) && IsBetter(z, x)
  {
    var step := TOLERANCE * 0.75;
    var x := Metrics(0.0, 0.0, None, 1.0, 0, 0.0);
    var y := Metrics(step, 0.0, None, 2.0, 0, 0.0);
    var z := Metrics(step * 2.0, 0.0, None, 3.0, 0, 0.0);
    assert IsBetter(x, y) && IsBetter(y, z) && IsBetter(z, x);
  }

  lemma {:induction false} RunsAreGraded(closes: seq<real>, candidates: seq<Parameters>, i: nat, a: Account)
    requires Priced(closes) && i < |candidates| && Usable(candidates[i])
    ensures Graded(CandidateRun(closes, candidates, i, a).metrics)
  {
    var b := Finished(StrategyTape(closes, candidates[i], a.start), a);
    MetricsAreGraded(a.capital, b.cash, b.pnls, b.curve);
    hide Finished, StrategyTape, MetricsOf, Graded;
  }

  /** The loop keeps the first of the best: nothing beats it, and it beats all that came before it. */
  lemma {:induction false} SelectionIsFirstBest(closes: seq<real>, candidates: seq<Parameters>, a: Account, n: nat)
    requires Priced(closes) && 0 < n <= |candidates| && forall p :: p in candidates ==> Usable(p)
    ensures var best := BestIndex(closes, candidates, a, n);
            && (forall i :: 0 <= i < n ==>
                  !Ahead(CandidateRun(closes, candidates, i, a).metrics,
                         CandidateRun(closes, candidates, best, a).metrics))
            && (forall i :: 0 <= i < best ==>
                  Ahead(CandidateRun(closes, candidates, best, a).metrics,
                        CandidateRun(closes, candidates, i, a).metrics))
  {
    hide CandidateRun, IsBetter, Graded;
    if n > 1 {
      SelectionIsFirstBest(closes, candidates, a, n - 1);
      var best := BestIndex(closes, candidates, a, n - 1);
      RunsAreGraded(closes, candidates, n - 1, a);
      RunsAreGraded(closes, candidates, best, a);
      BetterIsAhead(CandidateRun(closes, candidates, n - 1, a).metrics,
                    CandidateRun(closes, candidates, best, a).metrics);
    }
  }
}
