/** The final decision gate and the sizing a trade plan is created with once both judges have spoken. */
module FinalGate {
  import opened Numeric
  import opened Options
  import opened RiskEngine

  datatype GatePolicy = GatePolicy(minScore: real, extremeVolatility: real, minLiquidity: real,
                                   maxPortfolioRisk: real, minConfidence: real, liquidityWeight: real)

  const DEFAULT_GATE := GatePolicy(65.0, 6.0, 20.0, 4.8, 30.0, LIQUIDITY_WEIGHT)

  datatype Breaker = ExtremeVolatility | LowLiquidity | PortfolioOverheat | RegimeUncertainty

  datatype Verdict = Passed | PreRejected | BreakerTripped | LowScore

  function FinalScore(g: GatePolicy, score: real, confidence: real, liquidity: real): real {
    RoundTo(Clamp(score - liquidity * g.liquidityWeight) * 0.5 + confidence * 0.3 + liquidity * 0.2, 100.0)
  }

  /** Whether one circuit breaker is tripped, whatever the others say. */
  predicate Trips(g: GatePolicy, b: Breaker, m: Market, confidence: real, portfolioAfter: real) {
    match b
    case ExtremeVolatility => m.volatility >= g.extremeVolatility
    case LowLiquidity => m.liquidity <= g.minLiquidity
    case PortfolioOverheat => portfolioAfter >= g.maxPortfolioRisk
    case RegimeUncertainty => confidence <= g.minConfidence
  }

  /** Every breaker that trips, in the order they are checked. */
  function Tripped(g: GatePolicy, m: Market, confidence: real, portfolioAfter: real): seq<Breaker> {
    (if m.volatility >= g.extremeVolatility then [ExtremeVolatility] else [])
    + (if m.liquidity <= g.minLiquidity then [LowLiquidity] else [])
    + (if portfolioAfter >= g.maxPortfolioRisk then [PortfolioOverheat] else [])
    + (if confidence <= g.minConfidence then [RegimeUncertainty] else [])
  }

  datatype GateEvent = BreakerEvent(breaker: Breaker) | LowScoreEvent | PassEvent

  function BreakerEvents(tripped: seq<Breaker>): seq<GateEvent> {
    seq(|tripped|, i requires 0 <= i < |tripped| => BreakerEvent(tripped[i]))
  }

  function GateEvents(tripped: seq<Breaker>, verdict: Verdict): seq<GateEvent> {
    BreakerEvents(tripped) + match verdict
      case Passed => [PassEvent]
      case LowScore => [LowScoreEvent]
      case _ => []
  }

  method Judge(g: GatePolicy, d: Decision, m: Market)
    returns (verdict: Verdict, score: real, tripped: seq<Breaker>, events: seq<GateEvent>)
    ensures score == FinalScore(g, d.score, d.confidence, m.liquidity)
    ensures verdict == PreRejected <==> !d.approved
    ensures verdict == Passed <==>
      && d.approved && score >= g.minScore
      && forall b: Breaker :: !Trips(g, b, m, d.confidence, d.portfolioAfter)
    ensures verdict == BreakerTripped <==>
      d.approved && exists b: Breaker :: Trips(g, b, m, d.confidence, d.portfolioAfter)
    ensures forall b: Breaker :: b in tripped <==> Trips(g, b, m, d.confidence, d.portfolioAfter)
    ensures tripped == Tripped(g, m, d.confidence, d.portfolioAfter) && events == GateEvents(tripped, verdict)
  {
    score := FinalScore(g, d.score, d.confidence, m.liquidity);
    tripped, events := [], [];
    TrippedTells(g, m, d.confidence, d.portfolioAfter);
    hide Trips, FinalScore, BreakerEvents;
    NoBreakers();
    if m.volatility >= g.extremeVolatility {
      BreakerAppend(tripped, ExtremeVolatility);
      tripped, events := tripped + [ExtremeVolatility], events + [BreakerEvent(ExtremeVolatility)];
    }
    if m.liquidity <= g.minLiquidity {
      BreakerAppend(tripped, LowLiquidity);
      tripped, events := tripped + [LowLiquidity], events + [BreakerEvent(LowLiquidity)];
    }
    if d.portfolioAfter >= g.maxPortfolioRisk {
      BreakerAppend(tripped, PortfolioOverheat);
      tripped, events := tripped + [PortfolioOverheat], events + [BreakerEvent(PortfolioOverheat)];
    }
    if d.confidence <= g.minConfidence {
      BreakerAppend(tripped, RegimeUncertainty);
      tripped, events := tripped + [RegimeUncertainty], events + [BreakerEvent(RegimeUncertainty)];
    }
    assert events == BreakerEvents(tripped) && tripped == Tripped(g, m, d.confidence, d.portfolioAfter);
    hide Tripped;
    if !d.approved {
      return PreRejected, score, tripped, events;
    }
    if tripped != [] {
      assert Trips(g, tripped[0], m, d.confidence, d.portfolioAfter);
      return BreakerTripped, score, tripped, events;
    }
    if score < g.minScore {
      return LowScore, score, [], events + [LowScoreEvent];
    }
    return Passed, score, [], events + [PassEvent];
  }

  lemma {:induction false} NoBreakers()
    ensures BreakerEvents([]) == []
  {
  }

  lemma {:induction false} BreakerAppend(tripped: seq<Breaker>, b: Breaker)
    ensures BreakerEvents(tripped + [b]) == BreakerEvents(tripped) + [BreakerEvent(b)]
  {
  }

  lemma {:induction false} TrippedTells(g: GatePolicy, m: Market, confidence: real, portfolioAfter: real)
    ensures forall b: Breaker ::
      b in Tripped(g, m, confidence, portfolioAfter) <==> Trips(g, b, m, confidence, portfolioAfter)
  {
  }

  // ----- Engine and gate together -----

  /** Everything the gate checks that the open positions have no influence on. */
  predicate MarketAdmits(p: Policy, g: GatePolicy, r: Request) {
    var regime := ResolveRegime(p, r.market);
    var confidence := RegimeConfidence(r.market, regime);
    && r.market.volatility < g.extremeVolatility
    && r.market.liquidity > g.minLiquidity
    && confidence > g.minConfidence
    && FinalScore(g, AggregateScore(r.signals, r.market), confidence, r.market.liquidity) >= g.minScore
  }

  predicate Cleared(p: Policy, g: GatePolicy, l: Limits, r: Request, es: seq<Exposure>) {
    && Approved(p, l, r, es) && MarketAdmits(p, g, r)
    && PortfolioAfter(p, l, r, es) < g.maxPortfolioRisk
  }

  /** The risk a created trade plan carries: the engine's figure, or zero when either judge objects. */
  function PlannedRisk(p: Policy, g: GatePolicy, l: Limits, r: Request, es: seq<Exposure>): real {
    if Cleared(p, g, l, r, es) then AppliedRisk(p, l, r, es) else 0.0
  }

  function PlannedNotional(p: Policy, g: GatePolicy, l: Limits, r: Request, es: seq<Exposure>): real {
    if Cleared(p, g, l, r, es) then Notional(p, l, r, es) else 0.0
  }

  /** The gate's word on what the engine decided. */
  function VerdictOf(p: Policy, g: GatePolicy, l: Limits, r: Request, es: seq<Exposure>): Verdict {
    var confidence := RegimeConfidence(r.market, ResolveRegime(p, r.market));
    if !Approved(p, l, r, es) then PreRejected
    else if Tripped(g, r.market, confidence, PortfolioAfter(p, l, r, es)) != [] then BreakerTripped
    else if FinalScore(g, AggregateScore(r.signals, r.market), confidence, r.market.liquidity) < g.minScore
    then LowScore
    else Passed
  }

  datatype PlanEvent = FromEngine(risk: RiskEvent) | FromGate(gate: GateEvent)

  function EngineEvents(events: seq<RiskEvent>): seq<PlanEvent> {
    seq(|events|, i requires 0 <= i < |events| => FromEngine(events[i]))
  }

  function GateSide(events: seq<GateEvent>): seq<PlanEvent> {
    seq(|events|, i requires 0 <= i < |events| => FromGate(events[i]))
  }

  /** What is stored with a plan: the engine's events, then the gate's. */
  function PlanEvents(p: Policy, g: GatePolicy, l: Limits, r: Request, es: seq<Exposure>): seq<PlanEvent> {
    var confidence := RegimeConfidence(r.market, ResolveRegime(p, r.market));
    EngineEvents(EventsOf(p, l, r, es)) +
    GateSide(GateEvents(Tripped(g, r.market, confidence, PortfolioAfter(p, l, r, es)), VerdictOf(p, g, l, r, es)))
  }

  datatype PlanReason = ByEngine(reason: Reason) | ByGate(verdict: Verdict)

  datatype Sizing = Sizing(approved: bool, risk: real, notional: real, reason: PlanReason, verdict: Verdict,
                           events: seq<PlanEvent>)

  lemma {:induction false} PassedIsCleared(p: Policy, g: GatePolicy, l: Limits, r: Request, es: seq<Exposure>)
    ensures VerdictOf(p, g, l, r, es) == Passed <==> Cleared(p, g, l, r, es)
  {
    hide Approved, PortfolioAfter, ResolveRegime, RegimeConfidence, FinalScore, AggregateScore;
  }

  /** The decision part of creating a trade plan. */
  method DecideTradePlan(p: Policy, g: GatePolicy, l: Limits, r: Request, es: seq<Exposure>)
    returns (answer: Option<Sizing>)
    ensures answer.Some? <==> FiguresFit(p, l, r, es)
    ensures answer.Some? ==>
      var s := answer.value;
      && (s.approved <==> Cleared(p, g, l, r, es)) && s.verdict == VerdictOf(p, g, l, r, es)
      && s.risk == PlannedRisk(p, g, l, r, es) && s.notional == PlannedNotional(p, g, l, r, es)
      && s.events == PlanEvents(p, g, l, r, es)
      && s.reason == if Approved(p, l, r, es) && !s.approved then ByGate(s.verdict) else ByEngine(ReasonOf(p, l, r, es))
  {
    var evaluated := Evaluate(p, l, r, es);
    if evaluated.None? {
      return None;
    }
    var d := evaluated.value;
    var verdict, score, tripped, events := Judge(g, d, r.market);
    PassedIsCleared(p, g, l, r, es);
    TrippedTells(g, r.market, d.confidence, d.portfolioAfter);
    hide Approved, AppliedRisk, Notional, PortfolioAfter, ResolveRegime, RegimeConfidence, FinalScore,
      AggregateScore, Tripped, Trips, EventsOf, ReasonOf, GateEvents, EngineEvents, GateSide, Cleared, FiguresFit;
    assert tripped == [] <==> forall b: Breaker :: !Trips(g, b, r.market, d.confidence, d.portfolioAfter) by {
      NoneIn(tripped);
    }
    assert verdict == VerdictOf(p, g, l, r, es);
    var cleared := d.approved && verdict == Passed;
    answer := Some(Sizing(cleared, if cleared then d.risk else 0.0, if cleared then d.notional else 0.0,
                          if d.approved && !cleared then ByGate(verdict) else ByEngine(d.reason),
                          verdict, EngineEvents(d.events) + GateSide(events)));
  }

  lemma {:induction false} NoneIn(tripped: seq<Breaker>)
    ensures tripped == [] <==> forall b: Breaker :: b !in tripped
  {
    if tripped != [] {
      assert tripped[0] in tripped;
    }
  }

  // ----- What the gate's score means -----

  predicate Percentages(s: Signals, m: Market) {
    && Fits(s.technical) && Fits(s.fundamental) && Fits(s.sentiment) && Fits(s.confidence) && Fits(m.liquidity)
  }

  /** Liquidity is counted once: in the gate's score it weighs a fifth, the regime's confidence three tenths, and the
      four signals half of what they weigh in the engine's, up to the two roundings. */
  lemma {:induction false} LiquidityCountsOnce(s: Signals, m: Market, confidence: real)
    requires Percentages(s, m)
    ensures Abs(1000.0 * FinalScore(DEFAULT_GATE, AggregateScore(s, m), confidence, m.liquidity)
                - Thousandths(s, m, confidence)) <= 7.5
  {
    ScoreWeighs(s, m);
    var score := AggregateScore(s, m);
    RoundToError(Clamp(score - m.liquidity * LIQUIDITY_WEIGHT) * 0.5 + confidence * 0.3 + m.liquidity * 0.2, 100.0);
    hide RoundTo, AggregateScore;
  }

  /** What the gate's score is made of, in thousandths. */
  function Thousandths(s: Signals, m: Market, confidence: real): real {
    200.0 * s.technical + 100.0 * s.fundamental + 100.0 * s.sentiment + 75.0 * s.confidence
    + 300.0 * confidence + 200.0 * m.liquidity
  }

  /** The market is calm and liquid enough, its regime sure enough, and the portfolio not overheated by the trade. */
  predicate NothingAlarms(m: Market, confidence: real, portfolioAfter: real) {
    m.volatility < 6.0 && m.liquidity > 20.0 && confidence > 30.0 && portfolioAfter < 4.8
  }

  /** Through the default gate a trade the engine approves is cleared exactly when nothing alarms and its figures weigh
      65 or more, up to the two roundings. */
  lemma {:induction false} ClearedInNumbers(p: Policy, l: Limits, r: Request, es: seq<Exposure>)
    requires Percentages(r.signals, r.market)
    ensures var confidence := RegimeConfidence(r.market, ResolveRegime(p, r.market));
      var weight, alarm := Thousandths(r.signals, r.market, confidence),
        !NothingAlarms(r.market, confidence, PortfolioAfter(p, l, r, es));
      && (Cleared(p, DEFAULT_GATE, l, r, es) ==> Approved(p, l, r, es) && !alarm && weight >= 65000.0 - 7.5)
      && (Approved(p, l, r, es) && !alarm && weight >= 65000.0 + 7.5 ==> Cleared(p, DEFAULT_GATE, l, r, es))
  {
    var confidence := RegimeConfidence(r.market, ResolveRegime(p, r.market));
    LiquidityCountsOnce(r.signals, r.market, confidence);
    hide Approved, PortfolioAfter, RegimeConfidence, ResolveRegime, FinalScore, AggregateScore, Percentages;
  }
}
