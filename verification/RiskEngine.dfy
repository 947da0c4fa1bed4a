/** The portfolio risk engine: how much risk a proposed trade may take, given what is already exposed. */
module RiskEngine {
  import opened Numeric
  import opened Options

  const PCT := 10000.0

  datatype Regime = Bullish | Bearish | Sideways | Transition | HighVolatility | UnknownRegime

  datatype Policy = Policy(maxAccount: real, base: real, maxSingle: real, minScore: real,
                           defaultCluster: real, defaultSymbol: real, highVolatility: real) {
    /** What `__post_init__` enforces. */
    predicate Valid() {
      highVolatility >= 3.0 && defaultSymbol <= defaultCluster <= maxAccount
    }
  }

  const DEFAULT_POLICY := Policy(5.0, 1.0, 1.25, 60.0, 2.5, 1.5, 4.0)

  datatype Signals = Signals(technical: real, fundamental: real, sentiment: real, confidence: real)

  datatype Market = Market(volatility: real, trend: real, liquidity: real,
                           regime: Option<Regime>, confidence: Option<real>)

  datatype Exposure = Exposure(symbol: string, risk: real)

  datatype Limits = Limits(portfolio: real, cluster: real, symbol: real, correlationGuard: bool) {
    /** Field bounds and hierarchy of `PortfolioState`. */
    predicate Valid() {
      0.0 < symbol <= cluster <= portfolio <= 100.0
    }
  }

  datatype Request = Request(capital: real, existing: real, signals: Signals, market: Market,
                             entry: real, stop: real, symbol: string)

  // ----- Score, regime and suggested size -----

  function Clamp(x: real): real { Max(0.0, Min(100.0, x)) }

  function ResolveRegime(p: Policy, m: Market): Regime {
    match m.regime
    case Some(r) => r
    case None =>
      if m.volatility >= p.highVolatility then HighVolatility
      else if m.trend >= 70.0 then Bullish
      else if m.trend <= 35.0 then Sideways
      else Transition
  }

  function RegimeConfidence(m: Market, regime: Regime): real {
    if m.confidence.Some? then Clamp(m.confidence.value)
    else if regime == UnknownRegime then 0.0
    else RoundTo(UnroundedConfidence(m, regime), PCT)
  }

  function UnroundedConfidence(m: Market, regime: Regime): real {
    var volatilityScore := Clamp(m.volatility * 18.0);
    var calm := 100.0 - volatilityScore;
    match regime
    case HighVolatility => volatilityScore
    case Bullish | Bearish => Clamp(m.trend * 0.6 + calm * 0.4)
    case Sideways => Clamp((100.0 - m.trend) * 0.6 + calm * 0.4)
    case Transition => Clamp((100.0 - Abs(m.trend - 50.0) * 2.0) * 0.55 + calm * 0.45)
    case UnknownRegime => 0.0
  }

  const LIQUIDITY_WEIGHT := 0.05

  function AggregateScore(s: Signals, m: Market): real {
    RoundTo(s.technical * 0.4 + s.fundamental * 0.2 + s.sentiment * 0.2 + s.confidence * 0.15
            + m.liquidity * LIQUIDITY_WEIGHT, 100.0)
  }

  function ScoreMultiplier(score: real, minimum: real): real {
    if score < minimum then 0.0
    else if score >= minimum + 25.0 then 1.15
    else if score >= minimum + 15.0 then 1.0
    else if score >= minimum + 5.0 then 0.8
    else 0.65
  }

  function RegimeMultiplier(regime: Regime, confidence: real): real {
    match regime
    case UnknownRegime => 0.0
    case HighVolatility => if confidence >= 70.0 then 0.45 else if confidence >= 50.0 then 0.6 else 0.75
    case Transition => if confidence >= 70.0 then 0.75 else 0.85
    case Sideways => 0.8
    case Bullish | Bearish => if confidence >= 75.0 then 1.05 else if confidence < 45.0 then 0.95 else 1.0
  }

  function VolatilityMultiplier(p: Policy, volatility: real): real {
    var elevated := Max(2.0, p.highVolatility - 1.0);
    var mild := Max(0.5, Min(2.0, elevated - 0.5));
    if volatility >= p.highVolatility + 1.0 then 0.45
    else if volatility >= p.highVolatility then 0.6
    else if volatility >= elevated then 0.75
    else if volatility >= mild then 0.9
    else 1.0
  }

  /** A regime supplied by the caller cannot loosen what the observed volatility calls for. */
  function CappedRegimeMultiplier(p: Policy, regime: Regime, confidence: real, volatility: real): real {
    var plain := RegimeMultiplier(regime, confidence);
    if volatility >= p.highVolatility
    then Min(plain, RegimeMultiplier(HighVolatility, Clamp(volatility * 18.0)))
    else plain
  }

  function SuggestRisk(p: Policy, score: real, regime: Regime, confidence: real, volatility: real): real {
    var byScore := ScoreMultiplier(score, p.minScore);
    var byRegime := CappedRegimeMultiplier(p, regime, confidence, volatility);
    if byScore <= 0.0 || byRegime <= 0.0 then 0.0
    else RoundTo(Min(ScaledRisk(p.base, byScore, byRegime, VolatilityMultiplier(p, volatility)), p.maxSingle), PCT)
  }

  function ScaledRisk(base: real, byScore: real, byRegime: real, byVolatility: real): real {
    base * byScore * byRegime * byVolatility
  }

  // ----- Clusters and correlation -----

  datatype Cluster = BtcCore | EthCore | LargeAlt | Alts

  function UpperChar(c: char): char {
    if 'a' <= c <= 'z' then (c as int - 'a' as int + 'A' as int) as char else c
  }

  function Upper(s: string): string { seq(|s|, i requires 0 <= i < |s| => UpperChar(s[i])) }

  function RemoveSuffix(s: string, suffix: string): string {
    if |suffix| <= |s| && s[|s| - |suffix|..] == suffix then s[..|s| - |suffix|] else s
  }

  function ClusterOf(symbol: string): Cluster {
    var token := RemoveSuffix(Upper(symbol), "USDT");
    if "BTC" <= token then BtcCore
    else if "ETH" <= token then EthCore
    else if token in ["BNB", "SOL", "XRP", "ADA", "DOGE", "LINK", "AVAX"] then LargeAlt
    else Alts
  }

  function Correlation(a: Cluster, b: Cluster): real {
    if a == b then 0.95
    else match (a, b)
      case (BtcCore, EthCore) | (EthCore, BtcCore) => 0.75
      case (BtcCore, LargeAlt) | (LargeAlt, BtcCore) => 0.6
      case (EthCore, LargeAlt) | (LargeAlt, EthCore) => 0.65
      case (BtcCore, Alts) | (Alts, BtcCore) => 0.5
      case (EthCore, Alts) | (Alts, EthCore) => 0.55
      case _ => 0.7
  }

  function Weight(target: Cluster, e: Exposure, maxRisk: real): (w: real)
    ensures w >= 0.0
  {
    Correlation(target, ClusterOf(e.symbol)) * Max(0.0, Min(1.0, e.risk / Max(maxRisk, 0.0001)))
  }

  function Pressure(target: Cluster, es: seq<Exposure>, maxRisk: real): (s: real)
    ensures s >= 0.0
  {
    if es == [] then 0.0
    else Pressure(target, es[..|es| - 1], maxRisk) + Weight(target, es[|es| - 1], maxRisk)
  }

  function PressureMultiplier(pressure: real): real {
    if pressure >= 0.8 then 0.72 else if pressure >= 0.6 then 0.84 else if pressure >= 0.45 then 0.92 else 1.0
  }

  method CorrelationMultiplier(symbol: string, es: seq<Exposure>, maxRisk: real)
    returns (multiplier: real, pressure: real)
    ensures pressure == Min(1.0, Pressure(ClusterOf(symbol), es, maxRisk))
    ensures multiplier == PressureMultiplier(Pressure(ClusterOf(symbol), es, maxRisk))
  {
    hide ClusterOf, Weight;
    if es == [] {
      return 1.0, 0.0;
    }
    var target := ClusterOf(symbol);
    var aggregated := 0.0;
    for i := 0 to |es|
      invariant aggregated == Pressure(target, es[..i], maxRisk)
    {
      assert es[..i + 1][..i] == es[..i];
      aggregated := aggregated + Weight(target, es[i], maxRisk);
    }
    assert es[..|es|] == es;
    pressure := Min(1.0, aggregated);
    multiplier := PressureMultiplier(pressure);
  }

  // ----- What is already exposed -----

  /** The three circles each trade is counted in. */
  datatype Scope = Portfolio | OfSymbol(name: string) | OfCluster(cluster: Cluster)

  predicate InScope(symbol: string, scope: Scope) {
    match scope
    case Portfolio => true
    case OfSymbol(name) => Upper(symbol) == name
    case OfCluster(c) => ClusterOf(symbol) == c
  }

  function RiskIn(es: seq<Exposure>, scope: Scope): real {
    if es == [] then 0.0
    else RiskIn(es[..|es| - 1], scope) +
         if InScope(es[|es| - 1].symbol, scope) then es[|es| - 1].risk else 0.0
  }

  /** Exposure as the engine sees it: rounded to four decimals, the caller's own figure added to the portfolio. */
  function Before(existing: real, es: seq<Exposure>, scope: Scope): real {
    if scope == Portfolio
    then RoundTo(Min(100.0, existing + RoundTo(RiskIn(es, scope), PCT)), PCT)
    else RoundTo(RiskIn(es, scope), PCT)
  }

  function LimitOf(p: Policy, l: Limits, scope: Scope): real {
    var portfolio := Min(p.maxAccount, l.portfolio);
    match scope
    case Portfolio => portfolio
    case OfSymbol(_) => Min(portfolio, l.symbol)
    case OfCluster(_) => Min(portfolio, l.cluster)
  }

  function Available(p: Policy, l: Limits, existing: real, es: seq<Exposure>, scope: Scope): real {
    Max(LimitOf(p, l, scope) - Before(existing, es, scope), 0.0)
  }

  // ----- The decision -----

  function BaseSuggestion(p: Policy, r: Request): real {
    var regime := ResolveRegime(p, r.market);
    SuggestRisk(p, AggregateScore(r.signals, r.market), regime, RegimeConfidence(r.market, regime),
                r.market.volatility)
  }

  function Reduced(p: Policy, l: Limits, r: Request, es: seq<Exposure>): real {
    var suggested := BaseSuggestion(p, r);
    var m := PressureMultiplier(Pressure(ClusterOf(Upper(r.symbol)), es, LimitOf(p, l, Portfolio)));
    if l.correlationGuard && m < 1.0 && suggested > 0.0 then RoundTo(Times(suggested, m), PCT) else suggested
  }

  function Room(p: Policy, l: Limits, r: Request, es: seq<Exposure>): real {
    Min(Min(Available(p, l, r.existing, es, Portfolio),
            Available(p, l, r.existing, es, OfSymbol(Upper(r.symbol)))),
        Available(p, l, r.existing, es, OfCluster(ClusterOf(Upper(r.symbol)))))
  }

  predicate Approved(p: Policy, l: Limits, r: Request, es: seq<Exposure>) {
    Reduced(p, l, r, es) != 0.0 && Room(p, l, r, es) > 0.0 && r.entry != r.stop
  }

  /** The risk percentage granted; zero when rejected. */
  function AppliedRisk(p: Policy, l: Limits, r: Request, es: seq<Exposure>): real {
    if Approved(p, l, r, es) then Min(Reduced(p, l, r, es), Room(p, l, r, es)) else 0.0
  }

  function Quantity(r: Request, risk: real): real
    requires r.entry != r.stop
  {
    r.capital * (risk / 100.0) / Abs(r.entry - r.stop)
  }

  function NotionalFor(r: Request, risk: real): real
    requires r.entry != r.stop
  {
    RoundTo(Times(Quantity(r, risk), r.entry), 100.0)
  }

  function Notional(p: Policy, l: Limits, r: Request, es: seq<Exposure>): real {
    if Approved(p, l, r, es) then NotionalFor(r, AppliedRisk(p, l, r, es)) else 0.0
  }

  datatype RiskEvent = CorrelationPressure | ScoreOrRegimeGate | LimitBreached(scope: Scope)
                     | CappedByPortfolio | InvalidStopDistance | PortfolioRiskApproved

  /** The reason text of a decision. */
  datatype Reason = ScoreInsufficient | Breached(scope: Scope) | ZeroStop | ApprovedByEngine

  datatype Decision = Decision(approved: bool, notional: real, risk: real, reason: Reason, regime: Regime, score: real,
                               confidence: real, cluster: Cluster, portfolioBefore: real, portfolioAfter: real,
                               symbolBefore: real, symbolAfter: real, clusterBefore: real, clusterAfter: real,
                               multiplier: real, events: seq<RiskEvent>)

  function BreachEvents(symbol: string, cluster: Cluster, portfolio: real, bySymbol: real, byCluster: real)
    : seq<RiskEvent>
  {
    (if portfolio <= 0.0 then [LimitBreached(Portfolio)] else [])
    + (if bySymbol <= 0.0 then [LimitBreached(OfSymbol(symbol))] else [])
    + (if byCluster <= 0.0 then [LimitBreached(OfCluster(cluster))] else [])
  }

  method Breaches(symbol: string, cluster: Cluster, portfolio: real, bySymbol: real, byCluster: real)
    returns (events: seq<RiskEvent>)
    ensures events == BreachEvents(symbol, cluster, portfolio, bySymbol, byCluster)
    ensures portfolio <= 0.0 || bySymbol <= 0.0 || byCluster <= 0.0 ==>
      events != [] && events[0] == LimitBreached(if portfolio <= 0.0 then Portfolio
                                                 else if bySymbol <= 0.0 then OfSymbol(symbol) else OfCluster(cluster))
  {
    events := [];
    if portfolio <= 0.0 { events := events + [LimitBreached(Portfolio)]; }
    if bySymbol <= 0.0 { events := events + [LimitBreached(OfSymbol(symbol))]; }
    if byCluster <= 0.0 { events := events + [LimitBreached(OfCluster(cluster))]; }
  }

  predicate Degraded(p: Policy, l: Limits, r: Request, es: seq<Exposure>) {
    && l.correlationGuard && BaseSuggestion(p, r) > 0.0
    && Pressure(ClusterOf(Upper(r.symbol)), es, LimitOf(p, l, Portfolio)) >= 0.45
  }

  function Multiplier(p: Policy, l: Limits, r: Request, es: seq<Exposure>): real {
    if l.correlationGuard then PressureMultiplier(Pressure(ClusterOf(Upper(r.symbol)), es, LimitOf(p, l, Portfolio)))
    else 1.0
  }

  /** The size the score asks for, cut when the portfolio leans the same way. */
  method Suggest(p: Policy, l: Limits, r: Request, es: seq<Exposure>)
    returns (suggested: real, multiplier: real, events: seq<RiskEvent>)
    ensures suggested == Reduced(p, l, r, es) && multiplier == Multiplier(p, l, r, es)
    ensures events == if Degraded(p, l, r, es) then [CorrelationPressure] else []
  {
    hide ResolveRegime, RegimeConfidence, AggregateScore, SuggestRisk, ClusterOf, Upper, Pressure, RoundTo, Times;
    var regime := ResolveRegime(p, r.market);
    multiplier, events := 1.0, [];
    suggested := SuggestRisk(
      p, AggregateScore(r.signals, r.market), regime, RegimeConfidence(r.market, regime), r.market.volatility);
    if l.correlationGuard {
      var pressure: real;
      multiplier, pressure := CorrelationMultiplier(Upper(r.symbol), es, Min(p.maxAccount, l.portfolio));
      if multiplier < 1.0 && suggested > 0.0 {
        suggested := RoundTo(Times(suggested, multiplier), PCT);
        events := events + [CorrelationPressure];
      }
    }
  }

  function EventList(degraded: bool, reduced: real, room: real, breached: seq<RiskEvent>, noDistance: bool)
    : seq<RiskEvent>
  {
    (if degraded then [CorrelationPressure] else []) +
    (if reduced == 0.0 then [ScoreOrRegimeGate]
     else if room <= 0.0 then breached
     else (if room < reduced then [CappedByPortfolio] else [])
          + [if noDistance then InvalidStopDistance else PortfolioRiskApproved])
  }

  /** The events of a decision, in the order they are raised. */
  function EventsOf(p: Policy, l: Limits, r: Request, es: seq<Exposure>): seq<RiskEvent> {
    EventList(Degraded(p, l, r, es), Reduced(p, l, r, es), Room(p, l, r, es), BreachesOf(p, l, r, es),
              r.entry == r.stop)
  }

  function BreachesOf(p: Policy, l: Limits, r: Request, es: seq<Exposure>): seq<RiskEvent> {
    var symbol := Upper(r.symbol);
    BreachEvents(symbol, ClusterOf(symbol), Available(p, l, r.existing, es, Portfolio),
                 Available(p, l, r.existing, es, OfSymbol(symbol)),
                 Available(p, l, r.existing, es, OfCluster(ClusterOf(symbol))))
  }

  /** The first complaint of the engine, limits in the order portfolio, symbol, cluster. */
  function ReasonOf(p: Policy, l: Limits, r: Request, es: seq<Exposure>): Reason {
    var symbol := Upper(r.symbol);
    if Reduced(p, l, r, es) == 0.0 then ScoreInsufficient
    else if Available(p, l, r.existing, es, Portfolio) <= 0.0 then Breached(Portfolio)
    else if Available(p, l, r.existing, es, OfSymbol(symbol)) <= 0.0 then Breached(OfSymbol(symbol))
    else if Available(p, l, r.existing, es, OfCluster(ClusterOf(symbol))) <= 0.0
    then Breached(OfCluster(ClusterOf(symbol)))
    else if r.entry == r.stop then ZeroStop
    else ApprovedByEngine
  }

  function AfterIn(p: Policy, l: Limits, r: Request, es: seq<Exposure>, scope: Scope): real {
    var before := Before(r.existing, es, scope);
    if Approved(p, l, r, es) then RoundTo(before + AppliedRisk(p, l, r, es), PCT) else before
  }

  function PortfolioAfter(p: Policy, l: Limits, r: Request, es: seq<Exposure>): real {
    AfterIn(p, l, r, es, Portfolio)
  }

  /** A percentage a decision may report. */
  predicate Fits(x: real) { 0.0 <= x <= 100.0 }

  /** The response schema admits the exposures of the decision, before and after the trade. */
  predicate FiguresFit(p: Policy, l: Limits, r: Request, es: seq<Exposure>) {
    var symbol := Upper(r.symbol);
    && Fits(Before(r.existing, es, Portfolio)) && Fits(PortfolioAfter(p, l, r, es))
    && Fits(Before(r.existing, es, OfSymbol(symbol))) && Fits(AfterIn(p, l, r, es, OfSymbol(symbol)))
    && Fits(Before(r.existing, es, OfCluster(ClusterOf(symbol))))
    && Fits(AfterIn(p, l, r, es, OfCluster(ClusterOf(symbol))))
  }

  /** The remaining figures of a decision are percentages and a factor whatever the request. */
  lemma {:induction false} OtherFiguresFit(p: Policy, l: Limits, r: Request, es: seq<Exposure>)
    ensures Fits(RegimeConfidence(r.market, ResolveRegime(p, r.market)))
    ensures 0.0 <= Multiplier(p, l, r, es) <= 1.0
  {
    hide Pressure, ClusterOf, Upper;
    ConfidenceFits(r.market, ResolveRegime(p, r.market));
  }

  lemma {:induction false} RoundedPercentage(x: real)
    requires Fits(x)
    ensures Fits(RoundTo(x, PCT))
  {
    assert RoundInt(0.0) == 0 && RoundInt(1000000.0) == 1000000;
    RoundIntMonotone(0.0, x * PCT);
    RoundIntMonotone(x * PCT, 1000000.0);
    hide RoundInt;
  }

  lemma {:induction false} ConfidenceFits(m: Market, regime: Regime)
    ensures Fits(RegimeConfidence(m, regime))
  {
    hide RoundTo;
    forall x: real ensures Fits(Clamp(x)) && Fits(RoundTo(Clamp(x), PCT)) {
      RoundedPercentage(Clamp(x));
    }
  }

  /** Everything a decision says about a request. */
  predicate Describes(d: Decision, p: Policy, l: Limits, r: Request, es: seq<Exposure>) {
    var symbol, cluster := Upper(r.symbol), ClusterOf(Upper(r.symbol));
    && (d.approved <==> Approved(p, l, r, es)) && d.reason == ReasonOf(p, l, r, es)
    && d.risk == AppliedRisk(p, l, r, es) && d.notional == Notional(p, l, r, es)
    && d.regime == ResolveRegime(p, r.market) && d.confidence == RegimeConfidence(r.market, d.regime)
    && d.score == AggregateScore(r.signals, r.market) && d.multiplier == Multiplier(p, l, r, es)
    && d.cluster == cluster && d.events == EventsOf(p, l, r, es)
    && d.portfolioBefore == Before(r.existing, es, Portfolio) && d.portfolioAfter == PortfolioAfter(p, l, r, es)
    && d.symbolBefore == Before(r.existing, es, OfSymbol(symbol))
    && d.symbolAfter == AfterIn(p, l, r, es, OfSymbol(symbol))
    && d.clusterBefore == Before(r.existing, es, OfCluster(cluster))
    && d.clusterAfter == AfterIn(p, l, r, es, OfCluster(cluster))
  }

  /** A position of this notional loses that share of the capital when the price goes from entry to stop, up to half a
      cent of notional; both sides are multiplied by the stop distance and by the entry price. */
  predicate LosesItsShare(notional: real, capital: real, risk: real, entry: real, stop: real) {
    var distance := Abs(entry - stop);
    Abs(Times(notional, distance) - Times(Times(capital, risk / 100.0), entry)) <= 0.005 * distance
  }

  lemma {:induction false} QuantityAtStop(r: Request, risk: real)
    requires r.entry != r.stop
    ensures Times(Quantity(r, risk), Abs(r.entry - r.stop)) == Times(r.capital, risk / 100.0)
  {
    var share, distance := r.capital * (risk / 100.0), Abs(r.entry - r.stop);
    var q := share / distance;
    assert q * distance == share;
  }

  lemma {:induction false} TimesAround(q: real, entry: real, distance: real, share: real)
    requires Times(q, distance) == share
    ensures Times(Times(q, entry), distance) == Times(share, entry)
  {
    assert q * entry * distance == q * distance * entry;
  }

  lemma {:induction false} RoundedTimes(x: real, distance: real)
    requires distance > 0.0
    ensures Abs(Times(RoundTo(x, 100.0), distance) - Times(x, distance)) <= 0.005 * distance
  {
    RoundToError(x, 100.0);
    assert Times(0.005, distance) == 0.005 * distance;
    hide RoundTo, Times;
    TimesError(RoundTo(x, 100.0), x, 0.005, distance);
  }

  lemma {:induction false} SizedRisksTheShare(r: Request, risk: real)
    requires r.entry != r.stop
    ensures LosesItsShare(NotionalFor(r, risk), r.capital, risk, r.entry, r.stop)
  {
    hide Quantity, RoundTo, Times;
    QuantityAtStop(r, risk);
    var q, distance := Quantity(r, risk), Abs(r.entry - r.stop);
    TimesAround(q, r.entry, distance, Times(r.capital, risk / 100.0));
    RoundedTimes(Times(q, r.entry), distance);
  }

  /** The notional of an approved trade is sized to lose the granted share of the capital at the stop. */
  lemma {:induction false} NotionalRisksTheShare(p: Policy, l: Limits, r: Request, es: seq<Exposure>)
    requires Approved(p, l, r, es)
    ensures LosesItsShare(Notional(p, l, r, es), r.capital, AppliedRisk(p, l, r, es), r.entry, r.stop)
  {
    hide AppliedRisk, NotionalFor, LosesItsShare;
    SizedRisksTheShare(r, AppliedRisk(p, l, r, es));
  }

  /** The engine's answer to a request, or none when the decision would not validate. */
  method Evaluate(p: Policy, l: Limits, r: Request, es: seq<Exposure>) returns (answer: Option<Decision>)
    ensures answer.Some? <==> FiguresFit(p, l, r, es)
    ensures answer.Some? ==> Describes(answer.value, p, l, r, es)
    ensures answer.Some? && answer.value.approved ==>
      LosesItsShare(answer.value.notional, r.capital, answer.value.risk, r.entry, r.stop)
    ensures answer.Some? && !answer.value.approved ==> answer.value.notional == 0.0 == answer.value.risk
  {
    if Approved(p, l, r, es) {
      NotionalRisksTheShare(p, l, r, es);
    }
    assert !Approved(p, l, r, es) ==> AppliedRisk(p, l, r, es) == 0.0 == Notional(p, l, r, es);
    hide ReasonOf, AppliedRisk, Notional, ResolveRegime, RegimeConfidence, AggregateScore, Multiplier, EventsOf,
      Approved, AfterIn, Before, Upper, ClusterOf, LosesItsShare;
    var d := Decide(p, l, r, es);
    var valid := Fits(d.portfolioBefore) && Fits(d.portfolioAfter) && Fits(d.symbolBefore) && Fits(d.symbolAfter)
      && Fits(d.clusterBefore) && Fits(d.clusterAfter);
    answer := if valid then Some(d) else None;
  }

  method Decide(p: Policy, l: Limits, r: Request, es: seq<Exposure>) returns (d: Decision)
    ensures Describes(d, p, l, r, es)
  {
    hide ResolveRegime, RegimeConfidence, AggregateScore, ClusterOf, Upper, RiskIn, RoundTo, NotionalFor, Before,
      Reduced, Multiplier, Degraded, BreachEvents;
    var regime := ResolveRegime(p, r.market);
    var confidence := RegimeConfidence(r.market, regime);
    var score := AggregateScore(r.signals, r.market);
    var symbol := Upper(r.symbol);
    var cluster := ClusterOf(symbol);
    var portfolioBefore := Before(r.existing, es, Portfolio);
    var symbolBefore := Before(r.existing, es, OfSymbol(symbol));
    var clusterBefore := Before(r.existing, es, OfCluster(cluster));
    var maxPortfolio := Min(p.maxAccount, l.portfolio);
    var suggested, multiplier, events := Suggest(p, l, r, es);
    var availablePortfolio := Max(maxPortfolio - portfolioBefore, 0.0);
    var availableSymbol := Max(Min(maxPortfolio, l.symbol) - symbolBefore, 0.0);
    var availableCluster := Max(Min(maxPortfolio, l.cluster) - clusterBefore, 0.0);
    var available := Min(Min(availablePortfolio, availableSymbol), availableCluster);
    d := Decision(false, 0.0, 0.0, ScoreInsufficient, regime, score, confidence, cluster,
                  portfolioBefore, portfolioBefore, symbolBefore, symbolBefore, clusterBefore, clusterBefore,
                  multiplier, events);
    if suggested == 0.0 {
      return d.(events := events + [ScoreOrRegimeGate]);
    }
    if available <= 0.0 {
      var breached := Breaches(symbol, cluster, availablePortfolio, availableSymbol, availableCluster);
      return d.(reason := Breached(breached[0].scope), events := events + breached);
    }
    var applied := Min(suggested, available);
    if applied < suggested {
      events := events + [CappedByPortfolio];
    }
    if r.entry == r.stop {
      return d.(reason := ZeroStop, events := events + [InvalidStopDistance]);
    }
    d := d.(approved := true, reason := ApprovedByEngine, notional := NotionalFor(r, applied), risk := applied,
            portfolioAfter := RoundTo(portfolioBefore + applied, PCT),
            symbolAfter := RoundTo(symbolBefore + applied, PCT),
            clusterAfter := RoundTo(clusterBefore + applied, PCT),
            events := events + [PortfolioRiskApproved]);
  }

  lemma {:induction false} BreachesTell(symbol: string, cluster: Cluster, portfolio: real, bySymbol: real,
                                        byCluster: real)
    ensures forall e :: e in BreachEvents(symbol, cluster, portfolio, bySymbol, byCluster) <==>
      || (e == LimitBreached(Portfolio) && portfolio <= 0.0)
      || (e == LimitBreached(OfSymbol(symbol)) && bySymbol <= 0.0)
      || (e == LimitBreached(OfCluster(cluster)) && byCluster <= 0.0)
  {
  }

  lemma {:induction false} ListTells(degraded: bool, reduced: real, room: real, breached: seq<RiskEvent>,
                                     noDistance: bool)
    requires forall e :: e in breached ==> e.LimitBreached?
    ensures forall e :: e in EventList(degraded, reduced, room, breached, noDistance) <==>
      match e
      case CorrelationPressure => degraded
      case ScoreOrRegimeGate => reduced == 0.0
      case LimitBreached(_) => reduced != 0.0 && room <= 0.0 && e in breached
      case CappedByPortfolio => reduced != 0.0 && 0.0 < room < reduced
      case InvalidStopDistance => reduced != 0.0 && room > 0.0 && noDistance
      case PortfolioRiskApproved => reduced != 0.0 && room > 0.0 && !noDistance
  {
  }

  lemma {:induction false} RoomTells(p: Policy, l: Limits, r: Request, es: seq<Exposure>)
    ensures Room(p, l, r, es) <= 0.0 <==>
      || Available(p, l, r.existing, es, Portfolio) <= 0.0
      || Available(p, l, r.existing, es, OfSymbol(Upper(r.symbol))) <= 0.0
      || Available(p, l, r.existing, es, OfCluster(ClusterOf(Upper(r.symbol)))) <= 0.0
  {
    hide Available, Upper, ClusterOf;
  }

  /** Every event is raised in its own situation and in no other. */
  lemma {:induction false} EventsTell(p: Policy, l: Limits, r: Request, es: seq<Exposure>)
    ensures CorrelationPressure in EventsOf(p, l, r, es) <==> Degraded(p, l, r, es)
    ensures forall s :: LimitBreached(s) in EventsOf(p, l, r, es) <==>
      && Reduced(p, l, r, es) != 0.0
      && s in [Portfolio, OfSymbol(Upper(r.symbol)), OfCluster(ClusterOf(Upper(r.symbol)))]
      && Available(p, l, r.existing, es, s) <= 0.0
    ensures ScoreOrRegimeGate in EventsOf(p, l, r, es) <==> Reduced(p, l, r, es) == 0.0
    ensures InvalidStopDistance in EventsOf(p, l, r, es) <==>
      Reduced(p, l, r, es) != 0.0 && Room(p, l, r, es) > 0.0 && r.entry == r.stop
    ensures CappedByPortfolio in EventsOf(p, l, r, es) <==>
      Reduced(p, l, r, es) != 0.0 && 0.0 < Room(p, l, r, es) < Reduced(p, l, r, es)
    ensures PortfolioRiskApproved in EventsOf(p, l, r, es) <==> Approved(p, l, r, es)
  {
    hide Upper, ClusterOf, Reduced, Degraded, Available, BreachEvents, EventList, Min;
    var symbol := Upper(r.symbol);
    BreachesTell(symbol, ClusterOf(symbol), Available(p, l, r.existing, es, Portfolio),
                 Available(p, l, r.existing, es, OfSymbol(symbol)),
                 Available(p, l, r.existing, es, OfCluster(ClusterOf(symbol))));
    RoomTells(p, l, r, es);
    ListTells(Degraded(p, l, r, es), Reduced(p, l, r, es), Room(p, l, r, es), BreachesOf(p, l, r, es),
              r.entry == r.stop);
    hide Room;
  }

  /** The reason names the first event that speaks against the trade; an approval has none. */
  lemma {:induction false} ReasonTells(p: Policy, l: Limits, r: Request, es: seq<Exposure>)
    ensures ReasonOf(p, l, r, es) == ApprovedByEngine <==> Approved(p, l, r, es)
    ensures ReasonOf(p, l, r, es) == ScoreInsufficient <==> ScoreOrRegimeGate in EventsOf(p, l, r, es)
    ensures ReasonOf(p, l, r, es) == ZeroStop <==> InvalidStopDistance in EventsOf(p, l, r, es)
    ensures forall s :: ReasonOf(p, l, r, es) == Breached(s) ==> LimitBreached(s) in EventsOf(p, l, r, es)
    ensures (exists s :: LimitBreached(s) in EventsOf(p, l, r, es)) ==> ReasonOf(p, l, r, es).Breached?
  {
    EventsTell(p, l, r, es);
    RoomTells(p, l, r, es);
    hide Upper, ClusterOf, Reduced, Degraded, Available, EventsOf, Room;
  }

  // ----- What the tables mean -----

  /** The score, in hundredths: the weighted sum of the five figures, rounded. */
  lemma {:induction false} ScoreWeighs(s: Signals, m: Market)
    ensures var hundredths := 40.0 * s.technical + 20.0 * s.fundamental + 20.0 * s.sentiment + 15.0 * s.confidence
                              + 5.0 * m.liquidity;
      Abs(100.0 * AggregateScore(s, m) - hundredths) <= 0.5
  {
    RoundToError(s.technical * 0.4 + s.fundamental * 0.2 + s.sentiment * 0.2 + s.confidence * 0.15
                 + m.liquidity * LIQUIDITY_WEIGHT, 100.0);
    hide RoundTo;
  }

  /** Under the default policy nothing is suggested exactly for a score below sixty or an unknown regime; everything
      else is worth between 0.1316 and 1.2075 percent. */
  lemma {:induction false} SuggestedNothingExactly(score: real, regime: Regime, confidence: real, volatility: real)
    ensures var s := SuggestRisk(DEFAULT_POLICY, score, regime, confidence, volatility);
      && (s == 0.0 <==> score < 60.0 || regime == UnknownRegime)
      && (s == 0.0 || 0.1316 <= s <= 1.2075)
  {
    var p := DEFAULT_POLICY;
    var a, b, c := ScoreMultiplier(score, 60.0), CappedRegimeMultiplier(p, regime, confidence, volatility),
      VolatilityMultiplier(p, volatility);
    FactorBounds(score, regime, confidence, volatility);
    hide ScoreMultiplier, CappedRegimeMultiplier, VolatilityMultiplier;
    if a > 0.0 && b > 0.0 {
      ScaledBounds(a, b, c);
      var x := Min(ScaledRisk(1.0, a, b, c), 1.25);
      hide ScaledRisk;
      assert RoundInt(1316.25) == 1316 && RoundInt(12075.0) == 12075;
      RoundToMonotone(0.131625, x, PCT);
      RoundToMonotone(x, 1.2075, PCT);
    }
  }

  lemma {:induction false} FactorBounds(score: real, regime: Regime, confidence: real, volatility: real)
    ensures var a := ScoreMultiplier(score, 60.0); if score < 60.0 then a == 0.0 else 0.65 <= a <= 1.15
    ensures var b := CappedRegimeMultiplier(DEFAULT_POLICY, regime, confidence, volatility);
      if regime == UnknownRegime then b == 0.0 else 0.45 <= b <= 1.05
    ensures 0.45 <= VolatilityMultiplier(DEFAULT_POLICY, volatility) <= 1.0
  {
  }

  lemma {:induction false} ProductBetween(x0: real, x: real, x1: real, y0: real, y: real, y1: real)
    requires 0.0 <= x0 <= x <= x1 && 0.0 <= y0 <= y <= y1
    ensures x0 * y0 <= x * y <= x1 * y1
  {
    ProductOrder(x0, x, y);
    ProductOrder(x, x1, y);
    ProductOrder(y0, y, x0);
    ProductOrder(y, y1, x1);
  }

  lemma {:induction false} ScaledBounds(a: real, b: real, c: real)
    requires 0.65 <= a <= 1.15 && 0.45 <= b <= 1.05 && 0.45 <= c <= 1.0
    ensures 0.131625 <= ScaledRisk(1.0, a, b, c) <= 1.2075
  {
    ProductBetween(0.65, a, 1.15, 0.45, b, 1.05);
    ProductBetween(0.2925, a * b, 1.2075, 0.45, c, 1.0);
    assert ScaledRisk(1.0, a, b, c) == 1.0 * a * b * c && 1.0 * a == a;
  }

  /** Correlation does not depend on the order, is strongest within a cluster, and is stronger to the large coins the
      nearer a cluster is to them. */
  lemma {:induction false} CorrelationIsOrdered(a: Cluster, b: Cluster)
    ensures Correlation(a, b) == Correlation(b, a) && 0.5 <= Correlation(a, b) <= Correlation(a, a) == 0.95
    ensures a != b ==> Correlation(a, b) < 0.95
    ensures Correlation(BtcCore, EthCore) > Correlation(BtcCore, LargeAlt) > Correlation(BtcCore, Alts)
    ensures Correlation(EthCore, LargeAlt) > Correlation(EthCore, Alts)
    ensures Correlation(LargeAlt, Alts) > Correlation(EthCore, LargeAlt) > Correlation(BtcCore, LargeAlt)
  {
  }

  /** What one position adds to the pressure: its share of the account limit, at most all of it and never less than
      nothing, times how closely its cluster moves with the trade's. */
  predicate Presses(target: Cluster, e: Exposure, limit: real, w: real) {
    var correlation := Correlation(target, ClusterOf(e.symbol));
    if e.risk <= 0.0 then w == 0.0
    else if e.risk >= limit then w == correlation
    else Times(w, limit) == Times(correlation, e.risk)
  }

  /** The pressure is what the positions add one by one, and a position in the trade's own cluster never adds less than
      one of the same risk elsewhere. */
  lemma {:induction false} PressureWeighs(target: Cluster, es: seq<Exposure>, e: Exposure, twin: Exposure, limit: real)
    requires limit >= 0.0001
    ensures Pressure(target, [], limit) == 0.0
    ensures Presses(target, e, limit, Pressure(target, es + [e], limit) - Pressure(target, es, limit))
    ensures twin.risk == e.risk && ClusterOf(twin.symbol) == target ==>
      Pressure(target, es + [e], limit) <= Pressure(target, es + [twin], limit)
  {
    assert (es + [e])[..|es|] == es == (es + [twin])[..|es|];
    WeightPresses(target, e, limit);
    if twin.risk == e.risk && ClusterOf(twin.symbol) == target {
      WeightOfTwin(target, e, twin, limit);
    }
    hide Weight, Presses, ClusterOf;
  }

  lemma {:induction false} WeightPresses(target: Cluster, e: Exposure, limit: real)
    requires limit >= 0.0001
    ensures Presses(target, e, limit, Weight(target, e, limit))
  {
    hide ClusterOf, Correlation, Weight, Times;
    var c := Correlation(target, ClusterOf(e.symbol));
    var share := ShareOf(e.risk, limit);
    WeightOfShare(target, e, limit, share);
    TimesBounds(share, limit);
    TimesEnds(c);
    TimesSwap(c, share, limit);
  }

  lemma {:induction false} WeightOfShare(target: Cluster, e: Exposure, limit: real, share: real)
    requires limit >= 0.0001 && share == e.risk / limit
    ensures Weight(target, e, limit) == Times(Correlation(target, ClusterOf(e.symbol)), Max(0.0, Min(1.0, share)))
  {
    hide ClusterOf, Correlation;
  }

  function ShareOf(risk: real, limit: real): (share: real)
    requires limit > 0.0
    ensures Times(share, limit) == risk && share == risk / limit
  {
    risk / limit
  }

  lemma {:induction false} TimesBounds(share: real, limit: real)
    requires limit > 0.0
    ensures Times(share, limit) <= 0.0 <==> share <= 0.0
    ensures Times(share, limit) >= limit <==> share >= 1.0
  {
    TimesEnds(limit);
    hide Times;
    if share > 0.0 {
      TimesPositive(share, limit);
    } else {
      TimesOrder(share, 0.0, limit);
    }
    if share >= 1.0 {
      TimesOrder(1.0, share, limit);
    } else {
      TimesPositive(1.0 - share, limit);
      TimesDifference(1.0, share, limit);
    }
  }

  lemma {:induction false} TimesPositive(x: real, y: real)
    requires x > 0.0 && y > 0.0
    ensures Times(x, y) > 0.0
  {
    ProductPositive(x, y);
  }

  lemma {:induction false} TimesEnds(c: real)
    ensures Times(c, 0.0) == 0.0 == Times(0.0, c) && Times(c, 1.0) == c == Times(1.0, c)
  {
  }

  lemma {:induction false} TimesSwap(c: real, share: real, limit: real)
    ensures Times(Times(c, share), limit) == Times(c, Times(share, limit))
  {
  }

  lemma {:induction false} WeightOfTwin(target: Cluster, e: Exposure, twin: Exposure, limit: real)
    requires limit >= 0.0001 && twin.risk == e.risk && ClusterOf(twin.symbol) == target
    ensures Weight(target, e, limit) <= Weight(target, twin, limit)
  {
    CorrelationIsOrdered(target, ClusterOf(e.symbol));
    hide ClusterOf, Correlation, Weight, Times;
    var share := ShareOf(e.risk, limit);
    WeightOfShare(target, e, limit, share);
    WeightOfShare(target, twin, limit, share);
    TimesOrder(Correlation(target, ClusterOf(e.symbol)), 0.95, Max(0.0, Min(1.0, share)));
  }

  /** Without a claim the regime is read off the market: highly volatile exactly from the threshold on, else bullish
      from a trend of 70 on, sideways up to 35 and in transition between. */
  lemma {:induction false} RegimeReadsMarket(p: Policy, m: Market)
    requires m.regime.None?
    ensures var regime := ResolveRegime(p, m);
      && (regime == HighVolatility <==> m.volatility >= p.highVolatility)
      && (regime == Bullish <==> m.volatility < p.highVolatility && m.trend >= 70.0)
      && (regime == Sideways <==> m.volatility < p.highVolatility && m.trend <= 35.0)
      && regime in [HighVolatility, Bullish, Sideways, Transition]
  {
  }

  /** How the confidence in a regime is read off two markets without a claim: more volatility speaks for high volatility
      and against all others; more trend for a trend and against a sideways market; transition is surest half-way. */
  lemma {:induction false} ConfidenceFollowsMarket(m: Market, n: Market, regime: Regime)
    requires m.confidence.None? && n.confidence.None? && regime != UnknownRegime
    ensures 0.0 <= RegimeConfidence(m, regime) <= 100.0
    ensures m.trend == n.trend && m.volatility <= n.volatility ==>
      if regime == HighVolatility then RegimeConfidence(m, regime) <= RegimeConfidence(n, regime)
      else RegimeConfidence(m, regime) >= RegimeConfidence(n, regime)
    ensures m.volatility == n.volatility && m.trend <= n.trend ==>
      && (regime in [Bullish, Bearish] ==> RegimeConfidence(m, regime) <= RegimeConfidence(n, regime))
      && (regime == Sideways ==> RegimeConfidence(m, regime) >= RegimeConfidence(n, regime))
      && (regime == Transition && n.trend <= 50.0 ==> RegimeConfidence(m, regime) <= RegimeConfidence(n, regime))
      && (regime == Transition && m.trend >= 50.0 ==> RegimeConfidence(m, regime) >= RegimeConfidence(n, regime))
  {
    var x, y := UnroundedConfidence(m, regime), UnroundedConfidence(n, regime);
    UnroundedFollowsMarket(m, n, regime);
    RoundToMonotone(Min(x, y), Max(x, y), PCT);
    ConfidenceFits(m, regime);
    hide RoundTo, UnroundedConfidence;
  }

  lemma {:induction false} UnroundedFollowsMarket(m: Market, n: Market, regime: Regime)
    ensures m.trend == n.trend && m.volatility <= n.volatility ==>
      if regime == HighVolatility then UnroundedConfidence(m, regime) <= UnroundedConfidence(n, regime)
      else UnroundedConfidence(m, regime) >= UnroundedConfidence(n, regime)
    ensures m.volatility == n.volatility && m.trend <= n.trend ==>
      && (regime in [Bullish, Bearish] ==> UnroundedConfidence(m, regime) <= UnroundedConfidence(n, regime))
      && (regime == Sideways ==> UnroundedConfidence(m, regime) >= UnroundedConfidence(n, regime))
      && (regime == Transition && n.trend <= 50.0 ==> UnroundedConfidence(m, regime) <= UnroundedConfidence(n, regime))
      && (regime == Transition && m.trend >= 50.0 ==> UnroundedConfidence(m, regime) >= UnroundedConfidence(n, regime))
  {
  }

  /** The exposure reported after an approved trade is the one before and the granted risk, to the fourth decimal; after
      a rejection nothing is added, in all three circles. */
  lemma {:induction false} AfterAddsRisk(p: Policy, l: Limits, r: Request, es: seq<Exposure>, scope: Scope)
    ensures Abs(AfterIn(p, l, r, es, scope) - Before(r.existing, es, scope) - AppliedRisk(p, l, r, es)) <= 0.00005
    ensures !Approved(p, l, r, es) ==> AfterIn(p, l, r, es, scope) == Before(r.existing, es, scope)
  {
    RoundToError(Before(r.existing, es, scope) + AppliedRisk(p, l, r, es), PCT);
    hide RoundTo, Before, Approved;
    assert !Approved(p, l, r, es) ==> AppliedRisk(p, l, r, es) == 0.0;
    hide AppliedRisk;
  }
}
