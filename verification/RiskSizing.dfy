/** How further exposure bears on the size of the next trade: the engine alone, and engine plus gate. */
module RiskSizing {
  import opened Numeric
  import opened RiskEngine
  import opened FinalGate
  import opened RiskRuns

  // ----- Score and volatility -----

  lemma {:induction false} ScaledGrows(base: real, a: real, b: real, c: real, a1: real, b1: real, c1: real)
    requires base >= 0.0 && 0.0 <= a <= a1 && 0.0 <= b <= b1 && 0.0 <= c <= c1
    ensures ScaledRisk(base, a, b, c) <= ScaledRisk(base, a1, b1, c1)
  {
    StepGrows(base, base, a, a1);
    StepGrows(Times(base, a), Times(base, a1), b, b1);
    StepGrows(Times(Times(base, a), b), Times(Times(base, a1), b1), c, c1);
  }

  lemma {:induction false} StepGrows(x: real, x1: real, y: real, y1: real)
    requires 0.0 <= x <= x1 && 0.0 <= y <= y1
    ensures 0.0 <= Times(x, y) <= Times(x1, y1)
  {
    ProductOrder(x, x1, y);
    ProductOrder(y, y1, x1);
    assert x1 * y == y * x1 && x1 * y1 == y1 * x1;
    ProductOrder(0.0, x, y);
  }

  lemma {:induction false} FactorsFollow(p: Policy, s: real, s1: real, regime: Regime, confidence: real, v: real,
                                         v1: real)
    requires Sane(p) && s <= s1 && v1 <= v
    ensures 0.0 <= ScoreMultiplier(s, p.minScore) <= ScoreMultiplier(s1, p.minScore)
    ensures 0.0 <= CappedRegimeMultiplier(p, regime, confidence, v) <= CappedRegimeMultiplier(p, regime, confidence, v1)
    ensures 0.0 < VolatilityMultiplier(p, v) <= VolatilityMultiplier(p, v1)
  {
  }

  lemma {:induction false} SuggestionGrows(p: Policy, s: real, s1: real, regime: Regime, r: real, r1: real,
                                           confidence: real, confidence1: real, regime1: Regime, v: real, v1: real)
    requires Sane(p)
    requires 0.0 <= ScoreMultiplier(s, p.minScore) <= ScoreMultiplier(s1, p.minScore)
    requires r == CappedRegimeMultiplier(p, regime, confidence, v)
    requires r1 == CappedRegimeMultiplier(p, regime1, confidence1, v1)
    requires 0.0 <= r <= r1
    requires 0.0 < VolatilityMultiplier(p, v) <= VolatilityMultiplier(p, v1)
    ensures SuggestRisk(p, s, regime, confidence, v) <= SuggestRisk(p, s1, regime1, confidence1, v1)
  {
    SuggestBounds(p, s1, regime1, confidence1, v1);
    hide ScoreMultiplier, CappedRegimeMultiplier, VolatilityMultiplier, RoundTo, ScaledRisk, OnGrid;
    var a, a1 := ScoreMultiplier(s, p.minScore), ScoreMultiplier(s1, p.minScore);
    var c, c1 := VolatilityMultiplier(p, v), VolatilityMultiplier(p, v1);
    ScaledGrows(p.base, a, r, c, a1, r1, c1);
    RoundToMonotone(Min(ScaledRisk(p.base, a, r, c), p.maxSingle), Min(ScaledRisk(p.base, a1, r1, c1), p.maxSingle),
                    PCT);
  }

  /** A better score never suggests less, and a more volatile market never more. */
  lemma {:induction false} SuggestionFollowsMarket(
      p: Policy, s: real, s1: real, regime: Regime, confidence: real, v: real, v1: real)
    requires Sane(p) && s <= s1 && v1 <= v
    ensures SuggestRisk(p, s, regime, confidence, v) <= SuggestRisk(p, s1, regime, confidence, v1)
  {
    FactorsFollow(p, s, s1, regime, confidence, v, v1);
    SuggestionGrows(p, s, s1, regime, CappedRegimeMultiplier(p, regime, confidence, v),
                    CappedRegimeMultiplier(p, regime, confidence, v1), confidence, confidence, regime, v, v1);
  }

  /** In a market observed to be highly volatile, no regime a caller claims earns more than the high-volatility one. */
  lemma {:induction false} ClaimedRegimeCannotLoosen(p: Policy, s: real, regime: Regime, confidence: real, v: real)
    requires Sane(p) && v >= p.highVolatility
    ensures SuggestRisk(p, s, regime, confidence, v) <= SuggestRisk(p, s, HighVolatility, Clamp(v * 18.0), v)
  {
    FactorsFollow(p, s, s, regime, confidence, v, v);
    SuggestionGrows(p, s, s, regime, CappedRegimeMultiplier(p, regime, confidence, v),
                    CappedRegimeMultiplier(p, HighVolatility, Clamp(v * 18.0), v),
                    confidence, Clamp(v * 18.0), HighVolatility, v, v);
  }

  // ----- More exposure -----

  lemma {:induction false} PressureGrows(target: Cluster, es: seq<Exposure>, x: Exposure, maxRisk: real)
    ensures Pressure(target, es, maxRisk) <= Pressure(target, es + [x], maxRisk)
  {
    assert (es + [x])[..|es|] == es;
  }

  lemma {:induction false} BeforeGrows(existing: real, es: seq<Exposure>, x: Exposure, scope: Scope)
    requires x.risk >= 0.0
    ensures Before(existing, es, scope) <= Before(existing, es + [x], scope)
  {
    hide RoundTo, InScope;
    assert (es + [x])[..|es|] == es;
    var a, b := RiskIn(es, scope), RiskIn(es + [x], scope);
    RoundToMonotone(a, b, PCT);
    RoundToMonotone(Min(100.0, existing + RoundTo(a, PCT)), Min(100.0, existing + RoundTo(b, PCT)), PCT);
  }

  /** On a suggestion with four decimals, degrading is one rounding of the product. */
  lemma {:induction false} ReducedIsRounded(p: Policy, l: Limits, r: Request, es: seq<Exposure>)
    requires Sane(p) && l.correlationGuard
    ensures var m := PressureMultiplier(Pressure(ClusterOf(Upper(r.symbol)), es, LimitOf(p, l, Portfolio)));
      Reduced(p, l, r, es) == RoundTo(Times(BaseSuggestion(p, r), m), PCT)
  {
    hide BaseSuggestion, OnGrid, RoundTo, Pressure, ClusterOf, Upper;
    SuggestionIsNonNegative(p, r);
    RoundToExact(BaseSuggestion(p, r), PCT);
    OnGridFrom(0.0, PCT, 0);
    RoundToExact(0.0, PCT);
  }

  lemma {:induction false} MultiplierFalls(u: real, v: real)
    requires u <= v
    ensures PressureMultiplier(v) <= PressureMultiplier(u)
  {
  }

  lemma {:induction false} ReducedShrinks(p: Policy, l: Limits, r: Request, es: seq<Exposure>, x: Exposure)
    requires Sane(p)
    ensures Reduced(p, l, r, es + [x]) <= Reduced(p, l, r, es)
  {
    if l.correlationGuard {
      ReducedIsRounded(p, l, r, es);
      ReducedIsRounded(p, l, r, es + [x]);
      hide *;
      var target, maxRisk := ClusterOf(Upper(r.symbol)), LimitOf(p, l, Portfolio);
      var s := BaseSuggestion(p, r);
      PressureGrows(target, es, x, maxRisk);
      MultiplierFalls(Pressure(target, es, maxRisk), Pressure(target, es + [x], maxRisk));
      SuggestionIsNonNegative(p, r);
      RoundedShare(s, PressureMultiplier(Pressure(target, es + [x], maxRisk)),
                   PressureMultiplier(Pressure(target, es, maxRisk)));
    }
  }

  lemma {:induction false} RoundedShare(s: real, n: real, m: real)
    requires s >= 0.0 && n <= m
    ensures RoundTo(Times(s, n), PCT) <= RoundTo(Times(s, m), PCT)
  {
    ProductOrder(n, m, s);
    RoundToMonotone(s * n, s * m, PCT);
  }

  lemma {:induction false} RoomShrinks(p: Policy, l: Limits, r: Request, es: seq<Exposure>, x: Exposure)
    requires x.risk >= 0.0
    ensures Room(p, l, r, es + [x]) <= Room(p, l, r, es)
  {
    hide Before, Upper, ClusterOf, LimitOf;
    BeforeGrows(r.existing, es, x, Portfolio);
    BeforeGrows(r.existing, es, x, OfSymbol(Upper(r.symbol)));
    BeforeGrows(r.existing, es, x, OfCluster(ClusterOf(Upper(r.symbol))));
  }

  lemma {:induction false} NotionalGrows(r: Request, a: real, b: real)
    requires r.entry != r.stop && r.entry > 0.0 && r.capital > 0.0 && 0.0 <= a <= b
    ensures 0.0 <= NotionalFor(r, a) <= NotionalFor(r, b)
  {
    hide Quantity, RoundTo, Times;
    QuantityGrows(r, a, b);
    RoundedProduct(Quantity(r, a), Quantity(r, b), r.entry);
  }

  lemma {:induction false} QuantityGrows(r: Request, a: real, b: real)
    requires r.entry != r.stop && r.capital > 0.0 && 0.0 <= a <= b
    ensures 0.0 <= Quantity(r, a) <= Quantity(r, b)
  {
    Quantities(r.capital, a, b, Abs(r.entry - r.stop));
  }

  lemma {:induction false} RoundedProduct(u: real, v: real, entry: real)
    requires 0.0 <= u <= v && entry > 0.0
    ensures 0.0 <= RoundTo(Times(u, entry), 100.0) <= RoundTo(Times(v, entry), 100.0)
  {
    hide RoundTo;
    ProductOrder(u, v, entry);
    ProductOrder(0.0, u, entry);
    RoundToMonotone(u * entry, v * entry, 100.0);
    RoundToMonotone(0.0, u * entry, 100.0);
    OnGridFrom(0.0, 100.0, 0);
    RoundToExact(0.0, 100.0);
  }

  lemma {:induction false} Quantities(capital: real, a: real, b: real, distance: real)
    requires capital > 0.0 && 0.0 <= a <= b && distance > 0.0
    ensures 0.0 <= capital * (a / 100.0) / distance <= capital * (b / 100.0) / distance
  {
    ProductOrder(a / 100.0, b / 100.0, capital);
    ProductOrder(0.0, a / 100.0, capital);
    Numeric.Scaled(capital * (a / 100.0), capital * (b / 100.0), distance);
    Numeric.Scaled(0.0, capital * (a / 100.0), distance);
  }

  /** One more position, whatever it is, never earns the next trade a bigger risk share or notional. */
  lemma {:induction false} MoreExposureNeverBuysMore(p: Policy, l: Limits, r: Request, es: seq<Exposure>, x: Exposure)
    requires Sane(p) && r.existing >= 0.0 && x.risk >= 0.0 && r.entry > 0.0 && r.capital > 0.0
    ensures AppliedRisk(p, l, r, es + [x]) <= AppliedRisk(p, l, r, es)
    ensures Notional(p, l, r, es + [x]) <= Notional(p, l, r, es)
  {
    hide Reduced, Room, NotionalFor;
    ReducedShrinks(p, l, r, es, x);
    RoomShrinks(p, l, r, es, x);
    ReducedBounds(p, l, r, es);
    ReducedBounds(p, l, r, es + [x]);
    if r.entry != r.stop {
      var a, b := AppliedRisk(p, l, r, es + [x]), AppliedRisk(p, l, r, es);
      NotionalGrows(r, a, b);
      NotionalGrows(r, b, b);
    }
  }

  /** The same for any list of further positions. */
  lemma {:induction false} MoreExposuresNeverBuyMore(p: Policy, l: Limits, r: Request,
                                                     es: seq<Exposure>, more: seq<Exposure>)
    requires Sane(p) && r.existing >= 0.0 && WellFormed(more) && r.entry > 0.0 && r.capital > 0.0
    ensures AppliedRisk(p, l, r, es + more) <= AppliedRisk(p, l, r, es)
    ensures Notional(p, l, r, es + more) <= Notional(p, l, r, es)
  {
    hide AppliedRisk, Notional;
    if more == [] {
      assert es + more == es;
    } else {
      var init, x := more[..|more| - 1], more[|more| - 1];
      MoreExposuresNeverBuyMore(p, l, r, es, init);
      MoreExposureNeverBuysMore(p, l, r, es + init, x);
      assert es + more == es + init + [x];
    }
  }

  /** With the gate in the loop the size can grow, and does so exactly when the smaller portfolio was stopped as
      overheated while the larger one, its trade cut back by correlation or limits, clears both judges. */
  lemma {:induction false} GateOverturnsExactly(p: Policy, g: GatePolicy, l: Limits, r: Request, es: seq<Exposure>,
                                                x: Exposure)
    requires Sane(p) && r.existing >= 0.0 && x.risk >= 0.0 && r.entry > 0.0 && r.capital > 0.0
    ensures PlannedRisk(p, g, l, r, es + [x]) > PlannedRisk(p, g, l, r, es) <==>
      PortfolioAfter(p, l, r, es) >= g.maxPortfolioRisk && Cleared(p, g, l, r, es + [x])
  {
    hide AppliedRisk, Notional, MarketAdmits, PortfolioAfter, Approved;
    MoreExposureNeverBuysMore(p, l, r, es, x);
    GrantBounds(p, l, r, es);
    GrantBounds(p, l, r, es + [x]);
    assert !Approved(p, l, r, es) ==> AppliedRisk(p, l, r, es) == 0.0 by { RejectedTakesNothing(p, l, r, es); }
  }

  lemma {:induction false} RejectedTakesNothing(p: Policy, l: Limits, r: Request, es: seq<Exposure>)
    ensures !Approved(p, l, r, es) ==> AppliedRisk(p, l, r, es) == 0.0
  {
    hide Approved;
  }

  /** And it happens: 3.61% exposed, the trade is blocked; 0.02% more, and it is approved at 1.1109%. */
  lemma {:induction false} GateOverturnHappens()
    ensures var l := Limits(5.0, 2.5, 1.5, true);
      var es := [Exposure("ADAUSDT", 3.1), Exposure("ETHUSDT", 0.51)];
      && PlannedRisk(DEFAULT_POLICY, DEFAULT_GATE, l, STRONG, es) == 0.0
      && PlannedRisk(DEFAULT_POLICY, DEFAULT_GATE, l, STRONG, es + [Exposure("ETHUSDT", 0.02)]) == 1.1109
  {
    var l := Limits(5.0, 2.5, 1.5, true);
    var es := [Exposure("ADAUSDT", 3.1), Exposure("ETHUSDT", 0.51)];
    var more := es + [Exposure("ETHUSDT", 0.02)];
    Clusters();
    OverturnPressure();
    OverturnExposure();
    hide Pressure, RiskIn, ClusterOf, Upper, PlannedRisk;
    OverturnSizes(l, es, more);
  }

  lemma {:induction false} OverturnPressure()
    ensures var es := [Exposure("ADAUSDT", 3.1), Exposure("ETHUSDT", 0.51)];
            Pressure(BtcCore, es, 5.0) == 0.4485 && Pressure(BtcCore, es + [Exposure("ETHUSDT", 0.02)], 5.0) == 0.4515
  {
    var es := [Exposure("ADAUSDT", 3.1), Exposure("ETHUSDT", 0.51)];
    var more := es + [Exposure("ETHUSDT", 0.02)];
    Clusters();
    hide ClusterOf, Upper;
    assert es[..1] == [Exposure("ADAUSDT", 3.1)] && es[..1][..0] == [] && more[..2] == es;
    assert Pressure(BtcCore, es[..1], 5.0) == 0.372;
  }

  lemma {:induction false} OverturnExposure()
    ensures var es := [Exposure("ADAUSDT", 3.1), Exposure("ETHUSDT", 0.51)];
            var more := es + [Exposure("ETHUSDT", 0.02)];
            && RiskIn(es, Portfolio) == 3.61 && RiskIn(more, Portfolio) == 3.63
            && RiskIn(es, OfSymbol("BTCUSDT")) == 0.0 == RiskIn(more, OfSymbol("BTCUSDT"))
            && RiskIn(es, OfCluster(BtcCore)) == 0.0 == RiskIn(more, OfCluster(BtcCore))
  {
    var es := [Exposure("ADAUSDT", 3.1), Exposure("ETHUSDT", 0.51)];
    var more := es + [Exposure("ETHUSDT", 0.02)];
    Clusters();
    hide ClusterOf, Upper;
    assert es[..1] == [Exposure("ADAUSDT", 3.1)] && es[..1][..0] == [] && more[..2] == es;
    forall scope | scope in [Portfolio, OfSymbol("BTCUSDT"), OfCluster(BtcCore)]
      ensures RiskIn(es, scope) == RiskIn(es[..1], scope) + (if scope == Portfolio then 0.51 else 0.0)
    {
    }
  }

  lemma {:induction false} Clusters()
    ensures ClusterOf("ADAUSDT") == LargeAlt && ClusterOf("ETHUSDT") == EthCore
    ensures ClusterOf("BTCUSDT") == BtcCore && ClusterOf(Upper("BTCUSDT")) == BtcCore
    ensures Upper("ADAUSDT") == "ADAUSDT" && Upper("ETHUSDT") == "ETHUSDT" && Upper("BTCUSDT") == "BTCUSDT"
  {
    assert Upper("ADAUSDT") == "ADAUSDT" && RemoveSuffix("ADAUSDT", "USDT") == "ADA";
    assert Upper("ETHUSDT") == "ETHUSDT" && RemoveSuffix("ETHUSDT", "USDT") == "ETH";
    assert Upper("BTCUSDT") == "BTCUSDT" && RemoveSuffix("BTCUSDT", "USDT") == "BTC";
    assert "ADA"[0] == 'A' && "ETH"[0] == 'E' && "BTC" <= "BTC" && "ETH" <= "ETH";
  }

  lemma {:induction false} OverturnSizes(l: Limits, es: seq<Exposure>, more: seq<Exposure>)
    requires l == Limits(5.0, 2.5, 1.5, true)
    requires RiskIn(es, Portfolio) == 3.61 && RiskIn(more, Portfolio) == 3.63
    requires ClusterOf(Upper("BTCUSDT")) == BtcCore
    requires Pressure(BtcCore, es, 5.0) == 0.4485 && Pressure(BtcCore, more, 5.0) == 0.4515
    requires RiskIn(es, OfSymbol(Upper("BTCUSDT"))) == 0.0 && RiskIn(more, OfSymbol(Upper("BTCUSDT"))) == 0.0
    requires RiskIn(es, OfCluster(BtcCore)) == 0.0 && RiskIn(more, OfCluster(BtcCore)) == 0.0
    ensures PlannedRisk(DEFAULT_POLICY, DEFAULT_GATE, l, STRONG, es) == 0.0
    ensures PlannedRisk(DEFAULT_POLICY, DEFAULT_GATE, l, STRONG, more) == 1.1109
  {
    StrongSuggestion();
    hide RiskIn, Pressure, BaseSuggestion, MarketAdmits, ClusterOf, Upper;
    assert RoundInt(36100.0) == 36100 && RoundInt(36300.0) == 36300 && RoundInt(0.0) == 0;
    assert RoundInt(11109.0) == 11109 && RoundInt(48175.0) == 48175 && RoundInt(47409.0) == 47409;
    assert Reduced(DEFAULT_POLICY, l, STRONG, es) == 1.2075;
    assert Reduced(DEFAULT_POLICY, l, STRONG, more) == 1.1109;
  }
}
