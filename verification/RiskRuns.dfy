/** What the risk limits guarantee over whole runs, given what each request reports as already exposed. */
module RiskRuns {
  import opened Numeric
  import opened Options
  import opened RiskEngine
  import opened FinalGate

  /** Half a unit of the fourth decimal: what one rounding can hide. */
  const SLACK := 0.00005

  /** A request brings its own limits and its own list of open positions; nothing ties that list to the trades opened
      before. Any exposure may be closed at any time. */
  datatype Step = Open(limits: Limits, reported: seq<Exposure>, request: Request) | Close(index: nat)

  /** The size a trade is opened at; with a gate, opening goes through the gate as well. */
  function Granted(p: Policy, g: Option<GatePolicy>, s: Step): real
    requires s.Open?
  {
    match g
    case None => AppliedRisk(p, s.limits, s.request, s.reported)
    case Some(gate) => PlannedRisk(p, gate, s.limits, s.request, s.reported)
  }

  function Next(p: Policy, g: Option<GatePolicy>, es: seq<Exposure>, s: Step): seq<Exposure> {
    match s
    case Close(i) => if i < |es| then es[..i] + es[i + 1..] else es
    case Open(_, _, r) => if Granted(p, g, s) == 0.0 then es else es + [Exposure(r.symbol, Granted(p, g, s))]
  }

  /** The risk really open after a run. */
  function Run(p: Policy, g: Option<GatePolicy>, steps: seq<Step>): seq<Exposure> {
    if steps == [] then [] else Next(p, g, Run(p, g, steps[..|steps| - 1]), steps[|steps| - 1])
  }

  /** Requests as the schema admits them. */
  predicate Admitted(s: Step) {
    s.Open? ==>
      && s.limits.Valid() && 0.0 <= s.request.existing <= 100.0
      && forall i :: 0 <= i < |s.reported| ==> 0.0 <= s.reported[i].risk <= 100.0
  }

  predicate Requests(steps: seq<Step>) { forall i :: 0 <= i < |steps| ==> Admitted(steps[i]) }

  predicate Sane(p: Policy) {
    p.Valid() && p.base >= 0.0 && p.maxSingle >= 0.0 && 0.0 < p.maxAccount <= 100.0
  }

  /** The limits in force, once the account ceiling has capped them, have at most four decimals. */
  ghost predicate FourDecimals(p: Policy, l: Limits) {
    forall scope :: OnGrid(LimitOf(p, l, scope), PCT)
  }

  predicate WellFormed(es: seq<Exposure>) {
    forall i :: 0 <= i < |es| ==> es[i].risk >= 0.0
  }

  predicate OnFourDecimals(es: seq<Exposure>) {
    forall i :: 0 <= i < |es| ==> OnGrid(es[i].risk, PCT)
  }

  // ----- What requests leave unreported -----

  /** What a request reports as open in a scope: its positions, and for the portfolio its own figure on top, cut to four
      decimals. */
  function Shown(s: Step, scope: Scope): real
    requires s.Open?
  {
    RiskIn(s.reported, scope) + if scope == Portfolio then Cut(s.request.existing) else 0.0
  }

  function Cut(x: real): real { (x * PCT).Floor as real / PCT }

  /** What rounding can take off a report: nothing off positions with four decimals. */
  function Blur(s: Step): (t: real)
    requires s.Open?
    ensures 0.0 <= t <= SLACK
  {
    if OnFourDecimals(s.reported) then 0.0 else SLACK
  }

  predicate Concerns(s: Step, scope: Scope) { s.Open? && InScope(s.request.symbol, scope) }

  /** The most that was open in a scope and not reported, over the requests of a run that fall in it. */
  function Shortfall(p: Policy, g: Option<GatePolicy>, steps: seq<Step>, scope: Scope): (d: real)
    ensures d >= 0.0
  {
    if steps == [] then 0.0
    else
      var init, s := steps[..|steps| - 1], steps[|steps| - 1];
      var earlier := Shortfall(p, g, init, scope);
      if Concerns(s, scope) then Max(earlier, RiskIn(Run(p, g, init), scope) - Shown(s, scope)) else earlier
  }

  /** The most that rounding can have taken off a report of the run. */
  function Tolerance(steps: seq<Step>): (t: real)
    ensures 0.0 <= t <= SLACK
  {
    if steps == [] then 0.0
    else
      var s, earlier := steps[|steps| - 1], Tolerance(steps[..|steps| - 1]);
      if s.Open? then Max(earlier, Blur(s)) else earlier
  }

  // ----- Sums over a scope -----

  lemma {:induction false} RiskInConcat(a: seq<Exposure>, b: seq<Exposure>, scope: Scope)
    ensures RiskIn(a + b, scope) == RiskIn(a, scope) + RiskIn(b, scope)
  {
    if b == [] {
      assert a + b == a;
    } else {
      RiskInConcat(a, b[..|b| - 1], scope);
      assert (a + b)[..|a + b| - 1] == a + b[..|b| - 1];
    }
  }

  lemma {:induction false} RiskInNonNegative(es: seq<Exposure>, scope: Scope)
    requires WellFormed(es)
    ensures RiskIn(es, scope) >= 0.0
  {
    if es != [] {
      RiskInNonNegative(es[..|es| - 1], scope);
    }
  }

  lemma {:induction false} RiskInOnGrid(es: seq<Exposure>, scope: Scope)
    requires OnFourDecimals(es)
    ensures OnGrid(RiskIn(es, scope), PCT)
  {
    if es != [] {
      var init := es[..|es| - 1];
      RiskInOnGrid(init, scope);
      hide OnGrid;
      GridClosed(RiskIn(init, scope), es[|es| - 1].risk, PCT);
    }
  }

  lemma {:induction false} ClosingLowers(es: seq<Exposure>, i: nat, scope: Scope)
    requires WellFormed(es) && i < |es|
    ensures RiskIn(es[..i] + es[i + 1..], scope) <= RiskIn(es, scope)
  {
    hide InScope;
    RiskInConcat(es[..i], es[i + 1..], scope);
    RiskInConcat(es[..i], es[i..i + 1], scope);
    RiskInConcat(es[..i + 1], es[i + 1..], scope);
    assert es[..i + 1] == es[..i] + es[i..i + 1];
    assert es == es[..i + 1] + es[i + 1..];
    assert WellFormed(es[i..i + 1]) by { assert es[i..i + 1] == [es[i]]; }
    RiskInNonNegative(es[i..i + 1], scope);
  }

  // ----- One granted trade -----

  lemma {:induction false} SuggestionIsNonNegative(p: Policy, r: Request)
    requires Sane(p)
    ensures BaseSuggestion(p, r) >= 0.0 && OnGrid(BaseSuggestion(p, r), PCT)
  {
    var regime := ResolveRegime(p, r.market);
    var confidence := RegimeConfidence(r.market, regime);
    SuggestBounds(p, AggregateScore(r.signals, r.market), regime, confidence, r.market.volatility);
  }

  lemma {:induction false} SuggestBounds(p: Policy, score: real, regime: Regime, confidence: real, volatility: real)
    requires Sane(p)
    ensures SuggestRisk(p, score, regime, confidence, volatility) >= 0.0
    ensures OnGrid(SuggestRisk(p, score, regime, confidence, volatility), PCT)
  {
    hide ScoreMultiplier, CappedRegimeMultiplier, VolatilityMultiplier, OnGrid, RoundTo, ScaledRisk;
    var a := ScoreMultiplier(score, p.minScore);
    var b := CappedRegimeMultiplier(p, regime, confidence, volatility);
    var c := VolatilityMultiplier(p, volatility);
    OnGridFrom(0.0, PCT, 0);
    if a > 0.0 && b > 0.0 {
      VolatilityPositive(p, volatility);
      ScaledNonNegative(p.base, a, b, c);
      var x := Min(ScaledRisk(p.base, a, b, c), p.maxSingle);
      RoundedNonNegative(x);
      RoundToExact(x, PCT);
    }
  }

  lemma {:induction false} VolatilityPositive(p: Policy, volatility: real)
    ensures VolatilityMultiplier(p, volatility) > 0.0
  {
  }

  lemma {:induction false} ScaledNonNegative(base: real, a: real, b: real, c: real)
    requires base >= 0.0 && a > 0.0 && b > 0.0 && c > 0.0
    ensures ScaledRisk(base, a, b, c) >= 0.0
  {
    ProductOrder(0.0, base, a);
    ProductOrder(0.0, base * a, b);
    ProductOrder(0.0, base * a * b, c);
  }

  lemma {:induction false} RoundedNonNegative(x: real)
    requires x >= 0.0
    ensures RoundTo(x, PCT) >= 0.0
  {
    RoundToMonotone(0.0, x, PCT);
  }

  lemma {:induction false} ReducedBounds(p: Policy, l: Limits, r: Request, es: seq<Exposure>)
    requires Sane(p)
    ensures 0.0 <= Reduced(p, l, r, es) && OnGrid(Reduced(p, l, r, es), PCT)
  {
    hide BaseSuggestion, OnGrid, RoundTo, Pressure, ClusterOf, Upper;
    SuggestionIsNonNegative(p, r);
    var m := PressureMultiplier(Pressure(ClusterOf(Upper(r.symbol)), es, LimitOf(p, l, Portfolio)));
    var x := Times(BaseSuggestion(p, r), m);
    ProductOrder(0.0, m, BaseSuggestion(p, r));
    RoundedNonNegative(x);
    RoundToExact(x, PCT);
  }

  /** The engine's view of what is open is at most the rounding below the report. */
  lemma {:induction false} BeforeCovers(s: Step, scope: Scope)
    requires s.Open? && s.request.existing >= 0.0
    ensures var seen := Before(s.request.existing, s.reported, scope);
      (seen >= Shown(s, scope) - Blur(s) || seen == 100.0) && OnGrid(seen, PCT)
  {
    hide RiskIn, OnGrid, RoundTo;
    var existing, risk := s.request.existing, RiskIn(s.reported, scope);
    var rounded := RoundTo(risk, PCT);
    RoundToError(risk, PCT);
    RoundToExact(risk, PCT);
    if OnFourDecimals(s.reported) {
      RiskInOnGrid(s.reported, scope);
    }
    RoundToExact(rounded, PCT);
    if scope == Portfolio {
      AddedCovers(existing, rounded);
    }
  }

  lemma {:induction false} AddedCovers(existing: real, rounded: real)
    requires OnGrid(rounded, PCT)
    ensures var seen := RoundTo(Min(100.0, existing + rounded), PCT);
      OnGrid(seen, PCT) && (seen == 100.0 || seen >= Cut(existing) + rounded)
  {
    hide OnGrid, RoundTo, Cut;
    var x := Min(100.0, existing + rounded);
    RoundToExact(x, PCT);
    if x == 100.0 {
      OnGridFrom(100.0, PCT, 1000000);
    } else {
      CutBelow(existing);
      GridClosed(Cut(existing), rounded, PCT);
      RoundToExact(Cut(existing) + rounded, PCT);
      RoundToMonotone(Cut(existing) + rounded, x, PCT);
    }
  }

  lemma {:induction false} CutBelow(x: real)
    ensures Cut(x) <= x && OnGrid(Cut(x), PCT)
  {
    OnGridFrom(Cut(x), PCT, (x * PCT).Floor);
  }

  lemma {:induction false} UpperTwice(s: string)
    ensures Upper(Upper(s)) == Upper(s)
  {
  }

  lemma {:induction false} ClusterOfUpper(s: string)
    ensures ClusterOf(Upper(s)) == ClusterOf(s)
  {
    UpperTwice(s);
  }

  /** A granted trade fits the limit of every scope it falls in on top of what its request reports, up to the
      rounding. */
  lemma {:induction false} GrantKeepsLimit(p: Policy, s: Step, scope: Scope)
    requires Sane(p) && s.Open? && s.request.existing >= 0.0 && Approved(p, s.limits, s.request, s.reported)
    requires InScope(s.request.symbol, scope)
    ensures var applied := AppliedRisk(p, s.limits, s.request, s.reported);
      && Before(s.request.existing, s.reported, scope) + applied <= LimitOf(p, s.limits, scope)
      && Shown(s, scope) + applied <= LimitOf(p, s.limits, scope) + Blur(s)
  {
    hide Shown, Blur, Reduced, Before, Upper, ClusterOf;
    UpperTwice(s.request.symbol);
    ClusterOfUpper(s.request.symbol);
    BeforeCovers(s, scope);
    var applied := AppliedRisk(p, s.limits, s.request, s.reported);
    assert 0.0 < applied <= Available(p, s.limits, s.request.existing, s.reported, scope) || applied <= 0.0;
    assert LimitOf(p, s.limits, scope) <= 100.0;
  }

  lemma {:induction false} GrantBounds(p: Policy, l: Limits, r: Request, es: seq<Exposure>)
    requires Sane(p) && r.existing >= 0.0
    ensures AppliedRisk(p, l, r, es) >= 0.0
    ensures Approved(p, l, r, es) ==> AppliedRisk(p, l, r, es) > 0.0
    ensures FourDecimals(p, l) ==> OnGrid(AppliedRisk(p, l, r, es), PCT)
  {
    hide RiskIn, Reduced, Before, OnGrid, Upper, ClusterOf;
    ReducedBounds(p, l, r, es);
    OnGridFrom(0.0, PCT, 0);
    if FourDecimals(p, l) {
      AvailableOnGrid(p, l, r, es, Portfolio);
      AvailableOnGrid(p, l, r, es, OfSymbol(Upper(r.symbol)));
      AvailableOnGrid(p, l, r, es, OfCluster(ClusterOf(Upper(r.symbol))));
    }
  }

  lemma {:induction false} AvailableOnGrid(p: Policy, l: Limits, r: Request, es: seq<Exposure>, scope: Scope)
    requires FourDecimals(p, l) && r.existing >= 0.0
    ensures OnGrid(Available(p, l, r.existing, es, scope), PCT)
  {
    hide Before, OnGrid;
    BeforeCovers(Open(l, es, r), scope);
    GridClosed(LimitOf(p, l, scope), Before(r.existing, es, scope), PCT);
    OnGridFrom(0.0, PCT, 0);
  }

  // ----- When the figures of a decision can be reported -----

  lemma {:induction false} RiskInCluster(es: seq<Exposure>, symbol: string)
    requires WellFormed(es)
    ensures 0.0 <= RiskIn(es, OfSymbol(Upper(symbol))) <= RiskIn(es, OfCluster(ClusterOf(Upper(symbol))))
  {
    if es != [] {
      RiskInCluster(es[..|es| - 1], symbol);
      var last := es[|es| - 1].symbol;
      ClusterOfUpper(last);
      hide Upper, ClusterOf;
    }
  }

  lemma {:induction false} RoundedWithin(x: real, bound: int)
    requires 0.0 <= x
    ensures 0.0 <= RoundTo(x, PCT)
    ensures x <= bound as real ==> RoundTo(x, PCT) <= bound as real
  {
    RoundedNonNegative(x);
    if x <= bound as real {
      RoundToMonotone(x, bound as real, PCT);
      OnGridFrom(bound as real, PCT, bound * 10000);
      RoundToExact(bound as real, PCT);
    }
  }

  lemma {:induction false} PortfolioFits(s: Step)
    requires s.Open? && Admitted(s)
    ensures 0.0 <= Before(s.request.existing, s.reported, Portfolio) <= 100.0
  {
    RiskInNonNegative(s.reported, Portfolio);
    RoundedNonNegative(RiskIn(s.reported, Portfolio));
    hide RiskIn, RoundTo;
    RoundedWithin(Min(100.0, s.request.existing + RoundTo(RiskIn(s.reported, Portfolio), PCT)), 100);
  }

  lemma {:induction false} SymbolFits(s: Step)
    requires s.Open? && Admitted(s)
    ensures var existing, es, symbol := s.request.existing, s.reported, Upper(s.request.symbol);
      0.0 <= Before(existing, es, OfSymbol(symbol)) <= Before(existing, es, OfCluster(ClusterOf(symbol)))
  {
    var es, symbol := s.reported, Upper(s.request.symbol);
    RiskInCluster(es, s.request.symbol);
    ClusterOfUpper(s.request.symbol);
    hide RiskIn, RoundTo, Upper, ClusterOf;
    RoundToMonotone(RiskIn(es, OfSymbol(symbol)), RiskIn(es, OfCluster(ClusterOf(symbol))), PCT);
    RoundedNonNegative(RiskIn(es, OfSymbol(symbol)));
  }

  /** A request is answered exactly when the positions it reports in the trade's cluster do not exceed a hundred
      percent; a decision on any other would not validate. */
  lemma {:induction false} AnsweredExactly(p: Policy, s: Step)
    requires Sane(p) && s.Open? && Admitted(s)
    ensures FiguresFit(p, s.limits, s.request, s.reported) <==>
      Before(s.request.existing, s.reported, OfCluster(ClusterOf(Upper(s.request.symbol)))) <= 100.0
    ensures Approved(p, s.limits, s.request, s.reported) ==> FiguresFit(p, s.limits, s.request, s.reported)
  {
    PortfolioFits(s);
    SymbolFits(s);
    UpperTwice(s.request.symbol);
    ClusterOfUpper(s.request.symbol);
    hide Before, Upper, ClusterOf, Approved, AppliedRisk, RoundTo;
    if Approved(p, s.limits, s.request, s.reported) {
      var symbol := Upper(s.request.symbol);
      AfterFits(p, s, Portfolio);
      AfterFits(p, s, OfSymbol(symbol));
      AfterFits(p, s, OfCluster(ClusterOf(symbol)));
    }
  }

  lemma {:induction false} AfterFits(p: Policy, s: Step, scope: Scope)
    requires Sane(p) && s.Open? && Admitted(s) && Approved(p, s.limits, s.request, s.reported)
    requires InScope(s.request.symbol, scope) && Before(s.request.existing, s.reported, scope) >= 0.0
    ensures Before(s.request.existing, s.reported, scope) <= 100.0
    ensures 0.0 <= AfterIn(p, s.limits, s.request, s.reported, scope) <= 100.0
  {
    hide Before, InScope, Approved, AppliedRisk, RoundTo;
    GrantKeepsLimit(p, s, scope);
    GrantBounds(p, s.limits, s.request, s.reported);
    RoundedWithin(
      Before(s.request.existing, s.reported, scope) + AppliedRisk(p, s.limits, s.request, s.reported), 100);
  }

  // ----- Whole runs -----

  lemma {:induction false} GrantedBounds(p: Policy, g: Option<GatePolicy>, s: Step)
    requires Sane(p) && s.Open? && Admitted(s)
    ensures Granted(p, g, s) >= 0.0
    ensures Granted(p, g, s) != 0.0 ==> Approved(p, s.limits, s.request, s.reported)
    ensures Granted(p, g, s) in [0.0, AppliedRisk(p, s.limits, s.request, s.reported)]
    ensures g.Some? && Granted(p, g, s) != 0.0 ==> Cleared(p, g.value, s.limits, s.request, s.reported)
  {
    hide Approved, MarketAdmits, PortfolioAfter;
    GrantBounds(p, s.limits, s.request, s.reported);
  }

  lemma {:induction false} OpenedRisk(es: seq<Exposure>, e: Exposure, scope: Scope)
    ensures RiskIn(es + [e], scope) == RiskIn(es, scope) + if InScope(e.symbol, scope) then e.risk else 0.0
  {
    assert (es + [e])[..|es|] == es;
    hide InScope;
  }

  lemma {:induction false} NextOpens(p: Policy, g: Option<GatePolicy>, es: seq<Exposure>, s: Step, scope: Scope)
    requires s.Open?
    ensures RiskIn(Next(p, g, es, s), scope) ==
      RiskIn(es, scope) + if InScope(s.request.symbol, scope) then Granted(p, g, s) else 0.0
  {
    hide Granted, InScope, RiskIn;
    OpenedRisk(es, Exposure(s.request.symbol, Granted(p, g, s)), scope);
  }

  /** Opening adds what is granted to the scopes the trade falls in; closing adds nothing to any. */
  lemma {:induction false} StepAdds(p: Policy, g: Option<GatePolicy>, es: seq<Exposure>, s: Step, scope: Scope)
    requires WellFormed(es)
    ensures RiskIn(Next(p, g, es, s), scope) <=
      RiskIn(es, scope) + if Concerns(s, scope) then Granted(p, g, s) else 0.0
  {
    match s
    case Close(i) => if i < |es| { ClosingLowers(es, i, scope); }
    case Open(_, _, _) => NextOpens(p, g, es, s, scope);
  }

  lemma {:induction false} StepIsWellFormed(p: Policy, g: Option<GatePolicy>, es: seq<Exposure>, s: Step)
    requires Sane(p) && Admitted(s) && WellFormed(es)
    ensures WellFormed(Next(p, g, es, s))
  {
    if s.Open? {
      GrantedBounds(p, g, s);
    }
    hide Granted, Admitted;
  }

  /** No request asks for more than these limits, once the account ceiling has capped both. */
  ghost predicate Covers(p: Policy, l: Limits, steps: seq<Step>) {
    forall i :: 0 <= i < |steps| && steps[i].Open? ==>
      forall scope :: LimitOf(p, steps[i].limits, scope) <= LimitOf(p, l, scope)
  }

  ghost predicate WithinLimits(p: Policy, g: Option<GatePolicy>, l: Limits, steps: seq<Step>) {
    && WellFormed(Run(p, g, steps))
    && forall scope ::
         RiskIn(Run(p, g, steps), scope) <=
         LimitOf(p, l, scope) + Shortfall(p, g, steps, scope) + Tolerance(steps)
  }

  lemma {:induction false} RunLast(p: Policy, g: Option<GatePolicy>, steps: seq<Step>, scope: Scope)
    requires steps != []
    ensures var init, s := steps[..|steps| - 1], steps[|steps| - 1];
      && Run(p, g, steps) == Next(p, g, Run(p, g, init), s)
      && Tolerance(steps) == Max(Tolerance(init), if s.Open? then Blur(s) else 0.0)
      && Shortfall(p, g, steps, scope) ==
           Max(Shortfall(p, g, init, scope),
               if Concerns(s, scope) then RiskIn(Run(p, g, init), scope) - Shown(s, scope) else 0.0)
  {
    hide Next, Shown, Blur, RiskIn, Concerns;
  }

  lemma {:induction false} StepKeepsLimit(p: Policy, g: Option<GatePolicy>, l: Limits, steps: seq<Step>, scope: Scope)
    requires Sane(p) && steps != [] && Admitted(steps[|steps| - 1])
    requires steps[|steps| - 1].Open? ==> LimitOf(p, steps[|steps| - 1].limits, scope) <= LimitOf(p, l, scope)
    requires WellFormed(Run(p, g, steps[..|steps| - 1]))
    requires var init := steps[..|steps| - 1];
      RiskIn(Run(p, g, init), scope) <= LimitOf(p, l, scope) + Shortfall(p, g, init, scope) + Tolerance(init)
    ensures RiskIn(Run(p, g, steps), scope) <=
      LimitOf(p, l, scope) + Shortfall(p, g, steps, scope) + Tolerance(steps)
  {
    var init, s := steps[..|steps| - 1], steps[|steps| - 1];
    RunLast(p, g, steps, scope);
    StepAdds(p, g, Run(p, g, init), s, scope);
    hide Run, Shortfall, Tolerance, Next, InScope, Shown, Blur, Granted, LimitOf, WellFormed, RiskIn;
    if Concerns(s, scope) {
      GrantedBounds(p, g, s);
      if Granted(p, g, s) != 0.0 {
        GrantKeepsLimit(p, s, scope);
      }
    }
  }

  /** At every state a run can reach, portfolio, every symbol and every cluster are within any limits that cover
      those of all requests, up to the most that requests left unreported and what rounding takes off their reports. */
  lemma {:induction false} LimitsHoldOverRuns(p: Policy, g: Option<GatePolicy>, l: Limits, steps: seq<Step>)
    requires Sane(p) && l.Valid() && Requests(steps) && Covers(p, l, steps)
    ensures WithinLimits(p, g, l, steps)
  {
    if steps != [] {
      var init := steps[..|steps| - 1];
      LimitsHoldOverRuns(p, g, l, init);
      StepIsWellFormed(p, g, Run(p, g, init), steps[|steps| - 1]);
      hide LimitOf, RiskIn, Shortfall, Tolerance, Next, WellFormed, Admitted;
      forall scope ensures RiskIn(Run(p, g, steps), scope) <=
        LimitOf(p, l, scope) + Shortfall(p, g, steps, scope) + Tolerance(steps)
      {
        StepKeepsLimit(p, g, l, steps, scope);
      }
    }
  }

  /** The account ceiling of the engine alone, whatever limits the requests bring. */
  lemma {:induction false} AccountCeiling(p: Policy, g: Option<GatePolicy>, c: real, steps: seq<Step>)
    requires Sane(p) && Requests(steps) && 0.0 < c <= 100.0 && CappedAt(steps, c)
    ensures RiskIn(Run(p, g, steps), Portfolio) <=
      Min(p.maxAccount, c) + Shortfall(p, g, steps, Portfolio) + Tolerance(steps)
  {
    hide RiskIn, Run, Shortfall, Tolerance;
    LimitsHoldOverRuns(p, g, Limits(c, c, c, false), steps);
  }

  predicate CappedAt(steps: seq<Step>, c: real) {
    forall i :: 0 <= i < |steps| && steps[i].Open? ==> steps[i].limits.portfolio <= c
  }

  // ----- Runs whose requests report what is open -----

  /** Every request reports exactly the trades open at the time. */
  predicate Faithful(p: Policy, g: Option<GatePolicy>, steps: seq<Step>) {
    forall i :: 0 <= i < |steps| && steps[i].Open? ==>
      steps[i].reported == Run(p, g, steps[..i]) && steps[i].request.existing == 0.0
  }

  lemma {:induction false} FaithfulInit(p: Policy, g: Option<GatePolicy>, steps: seq<Step>)
    requires steps != [] && Faithful(p, g, steps)
    ensures Faithful(p, g, steps[..|steps| - 1])
  {
    hide Run;
    var init := steps[..|steps| - 1];
    forall i | 0 <= i < |init| && init[i].Open?
      ensures init[i].reported == Run(p, g, init[..i]) && init[i].request.existing == 0.0
    {
      assert init[..i] == steps[..i];
    }
  }

  /** Then nothing goes unreported. */
  lemma {:induction false} FaithfulRunsHideNothing(p: Policy, g: Option<GatePolicy>, steps: seq<Step>, scope: Scope)
    requires Faithful(p, g, steps)
    ensures Shortfall(p, g, steps, scope) == 0.0
  {
    if steps != [] {
      FaithfulInit(p, g, steps);
      FaithfulRunsHideNothing(p, g, steps[..|steps| - 1], scope);
      assert (0.0).Floor == 0;
      hide RiskIn, InScope;
    }
  }

  ghost predicate FourDecimalLimits(p: Policy, steps: seq<Step>) {
    forall i :: 0 <= i < |steps| && steps[i].Open? ==> FourDecimals(p, steps[i].limits)
  }

  lemma {:induction false} NextOnGrid(p: Policy, g: Option<GatePolicy>, es: seq<Exposure>, s: Step)
    requires OnFourDecimals(es) && (s.Open? ==> OnGrid(Granted(p, g, s), PCT))
    ensures OnFourDecimals(Next(p, g, es, s))
  {
    hide Granted, OnGrid;
  }

  /** And limits with four decimals leave nothing to rounding. */
  lemma {:induction false} FaithfulRunsAreExact(p: Policy, g: Option<GatePolicy>, steps: seq<Step>)
    requires Sane(p) && Requests(steps) && Faithful(p, g, steps) && FourDecimalLimits(p, steps)
    ensures Tolerance(steps) == 0.0 && OnFourDecimals(Run(p, g, steps))
  {
    if steps != [] {
      var init, s := steps[..|steps| - 1], steps[|steps| - 1];
      FaithfulInit(p, g, steps);
      FaithfulRunsAreExact(p, g, init);
      assert s.Open? ==> s.reported == Run(p, g, init);
      if s.Open? {
        GrantedOnGrid(p, g, s);
      }
      hide Granted, FourDecimals, FourDecimalLimits, OnGrid, Requests, Faithful, OnFourDecimals, Next;
      NextOnGrid(p, g, Run(p, g, init), s);
    }
  }

  lemma {:induction false} GrantedOnGrid(p: Policy, g: Option<GatePolicy>, s: Step)
    requires Sane(p) && s.Open? && Admitted(s) && FourDecimals(p, s.limits)
    ensures OnGrid(Granted(p, g, s), PCT)
  {
    GrantedBounds(p, g, s);
    GrantBounds(p, s.limits, s.request, s.reported);
    OnGridFrom(0.0, PCT, 0);
    hide Granted, FourDecimals, OnGrid, AppliedRisk, Approved, Cleared;
  }

  // ----- The gate's own ceiling -----

  /** Staying below a threshold after rounding keeps one rounding further down than the threshold's next unit. */
  lemma {:induction false} RoundedBelow(x: real, threshold: real, k: int)
    requires RoundTo(x, PCT) < threshold && threshold * PCT <= k as real
    ensures (x + SLACK) * PCT <= k as real
    ensures k % 2 == 0 ==> (x + SLACK) * PCT < k as real
  {
    var n := RoundInt(x * PCT);
    assert RoundTo(x, PCT) * PCT == n as real;
    hide RoundInt, RoundTo;
    assert n <= k - 1;
    if k % 2 == 0 && n == k - 1 {
      assert x * PCT != n as real + 0.5;
    }
  }

  lemma {:induction false} GateGrant(p: Policy, g: GatePolicy, s: Step, k: int)
    requires Sane(p) && s.Open? && s.request.existing >= 0.0 && g.maxPortfolioRisk * PCT <= k as real
    requires Cleared(p, g, s.limits, s.request, s.reported)
    ensures var total := Shown(s, Portfolio) - Blur(s) + AppliedRisk(p, s.limits, s.request, s.reported);
      && (total + SLACK) * PCT <= k as real
      && (k % 2 == 0 ==> (total + SLACK) * PCT < k as real)
      && (FourDecimals(p, s.limits) ==> total < g.maxPortfolioRisk)
  {
    var before, applied :=
      Before(s.request.existing, s.reported, Portfolio), AppliedRisk(p, s.limits, s.request, s.reported);
    hide Shown, Blur, Reduced, Before, OnGrid, Upper, ClusterOf, MarketAdmits, RoundTo, FourDecimals;
    BeforeCovers(s, Portfolio);
    assert Shown(s, Portfolio) - Blur(s) <= before;
    RoundedBelow(before + applied, g.maxPortfolioRisk, k);
    if FourDecimals(p, s.limits) {
      GrantBounds(p, s.limits, s.request, s.reported);
      GridClosed(before, applied, PCT);
      RoundToExact(before + applied, PCT);
    }
  }

  /** What requests hid from the gate, by not reporting it or by rounding. */
  function Hidden(p: Policy, g: Option<GatePolicy>, steps: seq<Step>): real {
    Shortfall(p, g, steps, Portfolio) + Tolerance(steps)
  }

  /** Below the threshold, which k units of the fourth decimal reach, up to what was hidden. */
  ghost predicate BelowGate(p: Policy, g: GatePolicy, steps: seq<Step>, k: int) {
    var total := RiskIn(Run(p, Some(g), steps), Portfolio) - Hidden(p, Some(g), steps);
    && (total + SLACK) * PCT <= k as real
    && (k % 2 == 0 ==> (total + SLACK) * PCT < k as real)
    && (FourDecimalLimits(p, steps) ==> total < g.maxPortfolioRisk)
  }

  lemma {:induction false} StepKeepsGate(p: Policy, g: GatePolicy, steps: seq<Step>, k: int)
    requires Sane(p) && Requests(steps) && steps != [] && WellFormed(Run(p, Some(g), steps[..|steps| - 1]))
    requires BelowGate(p, g, steps[..|steps| - 1], k) && g.maxPortfolioRisk * PCT <= k as real
    ensures BelowGate(p, g, steps, k)
  {
    var init, s := steps[..|steps| - 1], steps[|steps| - 1];
    RunLast(p, Some(g), steps, Portfolio);
    StepAdds(p, Some(g), Run(p, Some(g), init), s, Portfolio);
    hide Run, Shortfall, Tolerance, Next, Shown, Blur, Granted, WellFormed, RiskIn, FourDecimals, Cleared;
    if s.Open? {
      GrantedBounds(p, Some(g), s);
      if Granted(p, Some(g), s) != 0.0 {
        GateGrant(p, g, s, k);
      }
    }
    hide AppliedRisk, Admitted, Approved;
  }

  lemma {:induction false} RunsAreWellFormed(p: Policy, g: Option<GatePolicy>, steps: seq<Step>)
    requires Sane(p) && Requests(steps)
    ensures WellFormed(Run(p, g, steps))
  {
    if steps != [] {
      var init := steps[..|steps| - 1];
      RunsAreWellFormed(p, g, init);
      hide WellFormed, Admitted, Next;
      StepIsWellFormed(p, g, Run(p, g, init), steps[|steps| - 1]);
    }
  }

  /** With the gate in the loop and for any limits the requests bring, the total stays half a unit of the fourth decimal
      below the first four-decimal figure that reaches the threshold, and strictly so when that figure's last unit is
      even; limits with four decimals keep it strictly below the threshold. All that up to what the requests hid. */
  lemma {:induction false} GateHoldsOverRuns(p: Policy, g: GatePolicy, steps: seq<Step>, k: int)
    requires Sane(p) && Requests(steps)
    requires g.maxPortfolioRisk > 0.0 && g.maxPortfolioRisk * PCT <= k as real
    ensures BelowGate(p, g, steps, k)
  {
    if steps != [] {
      var init := steps[..|steps| - 1];
      GateHoldsOverRuns(p, g, init, k);
      RunsAreWellFormed(p, Some(g), init);
      hide BelowGate, WellFormed, Admitted;
      StepKeepsGate(p, g, steps, k);
    }
  }

  /** Under the default gate, for all limits the requests bring: less than 4.8 percent at risk, up to what they leave
      unreported. */
  lemma {:induction false} GateCeiling(p: Policy, steps: seq<Step>)
    requires Sane(p) && Requests(steps)
    ensures RiskIn(Run(p, Some(DEFAULT_GATE), steps), Portfolio) <
      4.8 + Shortfall(p, Some(DEFAULT_GATE), steps, Portfolio)
  {
    GateHoldsOverRuns(p, DEFAULT_GATE, steps, 48000);
    hide Run, Shortfall, Tolerance, RiskIn;
  }

  // ----- How far the total can really go -----

  const STRONG := Request(1000.0, 0.0, Signals(100.0, 100.0, 100.0, 100.0),
                          Market(0.0, 80.0, 100.0, Some(Bullish), Some(80.0)), 100.0, 90.0, "BTCUSDT")

  lemma {:induction false} StrongSuggestion()
    ensures BaseSuggestion(DEFAULT_POLICY, STRONG) == 1.2075
    ensures MarketAdmits(DEFAULT_POLICY, DEFAULT_GATE, STRONG)
  {
    assert AggregateScore(STRONG.signals, STRONG.market) == 100.0 by {
      assert RoundInt(10000.0) == 10000;
    }
    assert RegimeConfidence(STRONG.market, Bullish) == 80.0;
    assert RoundInt(12075.0) == 12075;
    assert ScaledRisk(1.0, 1.15, 1.05, 1.0) == 1.2075;
    assert RoundInt(9150.0) == 9150;
  }

  /** A purchase that reports what is open as one position. */
  function Buy(limit: real, shown: real): Step {
    Open(Limits(limit, limit, limit, false), [Exposure("BTCUSDT", shown)], STRONG)
  }

  lemma {:induction false} BuySees(limit: real, shown: real, scope: Scope)
    requires InScope("BTCUSDT", scope)
    ensures RiskIn(Buy(limit, shown).reported, scope) == shown
  {
    hide InScope;
    var es := [Exposure("BTCUSDT", shown)];
    assert es[..0] == [];
  }

  lemma {:induction false} BuyReports(limit: real, shown: real)
    ensures Shown(Buy(limit, shown), Portfolio) == shown
    ensures Blur(Buy(limit, shown)) == if OnGrid(shown, PCT) then 0.0 else SLACK
  {
    BuySees(limit, shown, Portfolio);
    hide RiskIn, OnGrid;
    assert (0.0).Floor == 0;
  }

  lemma {:induction false} BuyViews(limit: real, shown: real, b: real)
    requires b < limit <= 5.0 && RoundTo(shown, PCT) == b == RoundTo(b, PCT)
    ensures var es, symbol := Buy(limit, shown).reported, Upper("BTCUSDT");
      && Before(0.0, es, Portfolio) == b && Before(0.0, es, OfSymbol(symbol)) == b
      && Before(0.0, es, OfCluster(ClusterOf(symbol))) == b
  {
    UpperTwice("BTCUSDT");
    ClusterOfUpper("BTCUSDT");
    BuySees(limit, shown, Portfolio);
    BuySees(limit, shown, OfSymbol(Upper("BTCUSDT")));
    BuySees(limit, shown, OfCluster(ClusterOf(Upper("BTCUSDT"))));
    hide RiskIn, RoundTo, Upper, ClusterOf, Buy;
  }

  /** What is granted on a report that reads as b in every scope. */
  lemma {:induction false} GrantedOn(g: Option<GatePolicy>, s: Step, limit: real, b: real)
    requires s.Open? && s.limits == Limits(limit, limit, limit, false) && b < limit <= 5.0
    requires g == None || (g == Some(DEFAULT_GATE) && RoundTo(b + Min(1.2075, limit - b), PCT) < 4.8)
    requires BaseSuggestion(DEFAULT_POLICY, s.request) == 1.2075 && s.request.entry != s.request.stop
    requires MarketAdmits(DEFAULT_POLICY, DEFAULT_GATE, s.request)
    requires var existing, es, symbol := s.request.existing, s.reported, Upper(s.request.symbol);
      && Before(existing, es, Portfolio) == b && Before(existing, es, OfSymbol(symbol)) == b
      && Before(existing, es, OfCluster(ClusterOf(symbol))) == b
    ensures Granted(DEFAULT_POLICY, g, s) == Min(1.2075, limit - b)
  {
    hide Before, RoundTo, BaseSuggestion, MarketAdmits, Upper, ClusterOf, Pressure;
  }

  lemma {:induction false} BuyGrants(g: Option<GatePolicy>, limit: real, shown: real, b: real)
    requires b < limit <= 5.0 && RoundTo(shown, PCT) == b == RoundTo(b, PCT)
    requires g == None || (g == Some(DEFAULT_GATE) && RoundTo(b + Min(1.2075, limit - b), PCT) < 4.8)
    ensures Granted(DEFAULT_POLICY, g, Buy(limit, shown)) == Min(1.2075, limit - b)
  {
    BuyViews(limit, shown, b);
    StrongSuggestion();
    hide Before, RoundTo, BaseSuggestion, MarketAdmits, Upper, ClusterOf, Granted, Min;
    GrantedOn(g, Buy(limit, shown), limit, b);
  }

  /** What rounding can take off the report 4.4 + t: t itself. */
  predicate IsBlur(t: real) { t in [0.0, SLACK] }

  /** Four purchases that report all there is and reach 4.4 + t + d; then one that leaves d unreported and has t
      taken off its report by rounding, under a limit of its own. */
  function FiveTrades(limit: real, t: real, d: real): seq<Step> {
    [Buy(4.7, 0.0), Buy(4.7, 1.2075), Buy(4.7, 2.415), Buy(4.4 + t + d, 3.6225), Buy(limit, 4.4 + t)]
  }

  lemma {:induction false} BlurredReport(t: real)
    requires IsBlur(t)
    ensures RoundTo(4.4 + t, PCT) == 4.4 == RoundTo(4.4, PCT)
    ensures (if OnGrid(4.4 + t, PCT) then 0.0 else SLACK) <= t
  {
    assert RoundInt(44000.0) == 44000 && RoundInt(44000.5) == 44000;
    OnGridFrom(4.4, PCT, 44000);
    hide RoundInt, OnGrid;
  }

  lemma {:induction false} ExactReport(x: real, n: int)
    requires x * PCT == n as real
    ensures RoundTo(x, PCT) == x && OnGrid(x, PCT)
  {
    OnGridFrom(x, PCT, n);
    RoundToExact(x, PCT);
  }

  lemma {:induction false} RoundsBelowGate(x: real)
    requires x < 4.8 - SLACK
    ensures RoundTo(x, PCT) < 4.8
  {
    assert RoundInt(x * PCT) < 48000;
    hide RoundInt;
  }

  /** After n steps that much is open, at most d went unreported and rounding took at most t off a report. */
  predicate Reached(p: Policy, g: Option<GatePolicy>, steps: seq<Step>, n: nat, total: real, d: real, t: real)
    requires n <= |steps|
  {
    && RiskIn(Run(p, g, steps[..n]), Portfolio) == total
    && Shortfall(p, g, steps[..n], Portfolio) <= d && Tolerance(steps[..n]) <= t
  }

  lemma {:induction false} ReachedNext(p: Policy, g: Option<GatePolicy>, steps: seq<Step>, n: nat,
                                       total: real, d: real, t: real)
    requires n < |steps| && steps[n].Open? && Reached(p, g, steps, n, total, d, t)
    requires total - Shown(steps[n], Portfolio) <= d && Blur(steps[n]) <= t
    ensures Reached(p, g, steps, n + 1, total + Granted(p, g, steps[n]), d, t)
  {
    hide Next, Shown, Blur, RiskIn, Run, Shortfall, Tolerance, Granted;
    RunLast(p, g, steps[..n + 1], Portfolio);
    assert steps[..n + 1][..n] == steps[..n];
    NextOpens(p, g, Run(p, g, steps[..n]), steps[n], Portfolio);
  }

  lemma {:induction false} NothingReached(p: Policy, g: Option<GatePolicy>, steps: seq<Step>, d: real, t: real)
    requires d >= 0.0 && t >= 0.0
    ensures Reached(p, g, steps, 0, 0.0, d, t)
  {
    assert steps[..0] == [];
  }

  lemma {:induction false} BuyFacts(g: Option<GatePolicy>, s: Step, limit: real, shown: real, b: real)
    requires s == Buy(limit, shown)
    requires 0.0 <= b < limit <= 5.0 && RoundTo(shown, PCT) == b == RoundTo(b, PCT)
    requires g == None || (g == Some(DEFAULT_GATE) && b + Min(1.2075, limit - b) < 4.8 - SLACK)
    ensures s.Open? && Granted(DEFAULT_POLICY, g, s) == Min(1.2075, limit - b)
    ensures Shown(s, Portfolio) == shown && Blur(s) == if OnGrid(shown, PCT) then 0.0 else SLACK
  {
    if g.Some? {
      RoundsBelowGate(b + Min(1.2075, limit - b));
    }
    BuyReports(limit, shown);
    BuyGrants(g, limit, shown, b);
    hide Granted, Shown, Blur, RoundTo, OnGrid;
  }

  lemma {:induction false} BuyNext(g: Option<GatePolicy>, steps: seq<Step>, n: nat, limit: real, shown: real,
                                   b: real, total: real, d: real, t: real)
    requires n < |steps| && steps[n] == Buy(limit, shown)
    requires 0.0 <= b < limit <= 5.0 && RoundTo(shown, PCT) == b == RoundTo(b, PCT)
    requires g == None || (g == Some(DEFAULT_GATE) && b + Min(1.2075, limit - b) < 4.8 - SLACK)
    requires Reached(DEFAULT_POLICY, g, steps, n, total, d, t)
    requires total - shown <= d && (if OnGrid(shown, PCT) then 0.0 else SLACK) <= t
    ensures Reached(DEFAULT_POLICY, g, steps, n + 1, total + Min(1.2075, limit - b), d, t)
  {
    hide Reached, Granted, RoundTo, Buy, Shown, Blur, OnGrid;
    BuyFacts(g, steps[n], limit, shown, b);
    ReachedNext(DEFAULT_POLICY, g, steps, n, total, d, t);
  }

  lemma {:induction false} FiveAdmitted(limit: real, t: real, d: real)
    requires IsBlur(t) && 0.0 <= d <= 0.3 && 4.4 < limit <= 5.0
    ensures Requests(FiveTrades(limit, t, d)) && CappedAt(FiveTrades(limit, t, d), Max(4.4 + t + d, Max(4.7, limit)))
  {
  }

  /** A purchase that reports all there is, k units of the fourth decimal. */
  lemma {:induction false} HonestBuy(g: Option<GatePolicy>, steps: seq<Step>, n: nat, limit: real, total: real, k: nat,
                                     d: real, t: real)
    requires n < |steps| && steps[n] == Buy(limit, total) && total * PCT == k as real && d >= 0.0 && t >= 0.0
    requires total < limit < 4.8 - SLACK && g in [None, Some(DEFAULT_GATE)]
    requires Reached(DEFAULT_POLICY, g, steps, n, total, d, t)
    ensures Reached(DEFAULT_POLICY, g, steps, n + 1, total + Min(1.2075, limit - total), d, t)
  {
    ExactReport(total, k);
    assert total >= 0.0;
    hide Reached, RoundTo, OnGrid, Buy;
    BuyNext(g, steps, n, limit, total, total, total, d, t);
  }

  lemma {:induction false} FirstFour(g: Option<GatePolicy>, steps: seq<Step>, last: real, d: real, t: real)
    requires |steps| >= 4 && steps[0] == Buy(4.7, 0.0) && steps[1] == Buy(4.7, 1.2075)
    requires steps[2] == Buy(4.7, 2.415) && steps[3] == Buy(last, 3.6225)
    requires 4.4 <= last < 4.8 - SLACK && g in [None, Some(DEFAULT_GATE)] && d >= 0.0 && t >= 0.0
    ensures Reached(DEFAULT_POLICY, g, steps, 4, last, d, t)
  {
    hide Reached, Buy;
    NothingReached(DEFAULT_POLICY, g, steps, d, t);
    HonestBuy(g, steps, 0, 4.7, 0.0, 0, d, t);
    HonestBuy(g, steps, 1, 4.7, 1.2075, 12075, d, t);
    HonestBuy(g, steps, 2, 4.7, 2.415, 24150, d, t);
    HonestBuy(g, steps, 3, last, 3.6225, 36225, d, t);
  }

  lemma {:induction false} FifthTrade(g: Option<GatePolicy>, steps: seq<Step>, limit: real, t: real, d: real)
    requires IsBlur(t) && 0.0 <= d <= 0.3 && 4.4 < limit <= 5.0
    requires g == None || (g == Some(DEFAULT_GATE) && limit < 4.8 - SLACK)
    requires |steps| >= 5 && steps[4] == Buy(limit, 4.4 + t)
    requires Reached(DEFAULT_POLICY, g, steps, 4, 4.4 + t + d, d, t)
    ensures Reached(DEFAULT_POLICY, g, steps, 5, limit + t + d, d, t)
  {
    BlurredReport(t);
    hide Reached, RoundTo, OnGrid, Buy, IsBlur;
    BuyNext(g, steps, 4, limit, 4.4 + t, 4.4, 4.4 + t + d, d, t);
  }

  /** The bounds are attained: with d unreported and t lost to rounding, the total passes the last limit by d + t. */
  lemma {:induction false} OverrunIsReal(g: Option<GatePolicy>, limit: real, t: real, d: real)
    requires IsBlur(t) && 0.0 <= d <= 0.3 && 4.4 < limit <= 5.0
    requires g == None || (g == Some(DEFAULT_GATE) && limit < 4.8 - SLACK)
    ensures var steps := FiveTrades(limit, t, d);
      && Requests(steps) && CappedAt(steps, Max(4.4 + t + d, Max(4.7, limit)))
      && RiskIn(Run(DEFAULT_POLICY, g, steps), Portfolio) == limit + t + d
      && Shortfall(DEFAULT_POLICY, g, steps, Portfolio) <= d && Tolerance(steps) <= t
  {
    var steps := FiveTrades(limit, t, d);
    FiveAdmitted(limit, t, d);
    assert steps[..5] == steps;
    hide RiskIn, Run, Shortfall, Tolerance, Requests, CappedAt, Buy, Max;
    FirstFour(g, steps, 4.4 + t + d, d, t);
    FifthTrade(g, steps, limit, t, d);
  }

  predicate AllOn(es: seq<Exposure>, symbol: string) { forall i :: 0 <= i < |es| ==> es[i].symbol == symbol }

  lemma {:induction false} OneSymbol(es: seq<Exposure>, symbol: string, scope: Scope)
    requires AllOn(es, symbol) && InScope(symbol, scope)
    ensures RiskIn(es, scope) == RiskIn(es, Portfolio)
  {
    hide InScope;
    if es != [] {
      OneSymbol(es[..|es| - 1], symbol, scope);
      assert InScope(es[|es| - 1].symbol, Portfolio) by { InPortfolio(symbol); }
    }
  }

  lemma {:induction false} InPortfolio(symbol: string)
    ensures InScope(symbol, Portfolio)
  {
  }

  predicate AllBought(steps: seq<Step>) {
    forall i :: 0 <= i < |steps| ==> steps[i].Open? && steps[i].request.symbol == "BTCUSDT"
  }

  lemma {:induction false} FiveBought(limit: real, t: real, d: real)
    ensures AllBought(FiveTrades(limit, t, d))
  {
  }

  lemma {:induction false} OnlyBought(g: Option<GatePolicy>, steps: seq<Step>)
    requires AllBought(steps)
    ensures AllOn(Run(DEFAULT_POLICY, g, steps), "BTCUSDT")
  {
    if steps != [] {
      OnlyBought(g, steps[..|steps| - 1]);
      hide Granted;
    }
  }

  /** And so they are for the symbol and the cluster, whose limits are the same in that run. */
  lemma {:induction false} OverrunInEveryScope(limit: real, t: real, scope: Scope)
    requires IsBlur(t) && 4.4 < limit <= 5.0 && InScope("BTCUSDT", scope)
    ensures RiskIn(Run(DEFAULT_POLICY, None, FiveTrades(limit, t, 0.0)), scope) == limit + t
  {
    hide Run, RiskIn, FiveTrades, InScope, AllBought, AllOn, Requests, CappedAt, Shortfall, Tolerance, Max;
    OverrunIsReal(None, limit, t, 0.0);
    FiveBought(limit, t, 0.0);
    OnlyBought(None, FiveTrades(limit, t, 0.0));
    OneSymbol(Run(DEFAULT_POLICY, None, FiveTrades(limit, t, 0.0)), "BTCUSDT", scope);
  }

  lemma {:induction false} CappedMore(steps: seq<Step>, c: real, d: real)
    requires CappedAt(steps, c) && c <= d
    ensures CappedAt(steps, d)
  {
  }

  /** The engine alone, asked by requests that report all there is and bring account limits of at most c: it keeps the
      golden rule if and only if c leaves room for what rounding takes. */
  lemma {:induction false} EngineRuleExactly(c: real, t: real)
    requires IsBlur(t) && 0.0 < c <= 100.0
    ensures (forall steps :: Requests(steps) && CappedAt(steps, c) && Tolerance(steps) <= t
                             && Shortfall(DEFAULT_POLICY, None, steps, Portfolio) == 0.0
                             ==> RiskIn(Run(DEFAULT_POLICY, None, steps), Portfolio) <= 5.0)
            <==> Min(5.0, c) + t <= 5.0
  {
    hide RiskIn, Run, Shortfall, Tolerance, Requests;
    if Min(5.0, c) + t <= 5.0 {
      forall steps | Requests(steps) && CappedAt(steps, c) && Tolerance(steps) <= t
                     && Shortfall(DEFAULT_POLICY, None, steps, Portfolio) == 0.0
        ensures RiskIn(Run(DEFAULT_POLICY, None, steps), Portfolio) <= 5.0
      {
        AccountCeiling(DEFAULT_POLICY, None, c, steps);
      }
    } else {
      OverrunIsReal(None, Min(5.0, c), t, 0.0);
      FiveAdmitted(Min(5.0, c), t, 0.0);
      CappedMore(FiveTrades(Min(5.0, c), t, 0.0), Max(4.4 + t, Max(4.7, Min(5.0, c))), c);
    }
  }

  // ----- Requests that report nothing -----

  /** The kind of request the worker sends: default limits, no positions, nothing of its own. */
  const SILENT := Open(Limits(5.0, 2.5, 1.5, true), [], STRONG)

  function Silent(n: nat): seq<Step> { seq(n, _ => SILENT) }

  lemma {:induction false} SilentFacts(g: Option<GatePolicy>, s: Step)
    requires g in [None, Some(DEFAULT_GATE)] && s == SILENT
    ensures Granted(DEFAULT_POLICY, g, s) == 1.2075
    ensures Shown(s, Portfolio) == 0.0 == Blur(s)
  {
    StrongSuggestion();
    OnGridFrom(0.0, PCT, 0);
    assert RoundInt(0.0) == 0 && RoundInt(12075.0) == 12075;
    hide BaseSuggestion, MarketAdmits, ClusterOf, Upper, RoundInt, OnGrid;
  }

  lemma {:induction false} SilentAdmitted(n: nat)
    ensures Requests(Silent(n))
    ensures n > 0 ==> Silent(n)[..n - 1] == Silent(n - 1) && Silent(n)[n - 1] == SILENT && Silent(n)[..n] == Silent(n)
  {
  }

  lemma {:induction false} SilentReach(g: Option<GatePolicy>, steps: seq<Step>, n: nat, d: real)
    requires n <= |steps| && (forall i :: 0 <= i < n ==> steps[i] == SILENT) && g in [None, Some(DEFAULT_GATE)]
    requires d >= 0.0 && d >= (n - 1) as real * 1.2075
    ensures Reached(DEFAULT_POLICY, g, steps, n, n as real * 1.2075, d, 0.0)
  {
    hide Reached, Granted, Shown, Blur;
    if n == 0 {
      NothingReached(DEFAULT_POLICY, g, steps, d, 0.0);
    } else {
      SilentReach(g, steps, n - 1, d);
      SilentFacts(g, steps[n - 1]);
      ReachedNext(DEFAULT_POLICY, g, steps, n - 1, (n - 1) as real * 1.2075, d, 0.0);
    }
  }

  /** With or without the gate, n such trades put n times 1.2075 percent at risk: no total is too large to be
      reached. */
  lemma {:induction false} SilentTradesAddUp(g: Option<GatePolicy>, n: nat)
    requires g in [None, Some(DEFAULT_GATE)] && n > 0
    ensures Requests(Silent(n)) && Tolerance(Silent(n)) == 0.0
    ensures RiskIn(Run(DEFAULT_POLICY, g, Silent(n)), Portfolio) == n as real * 1.2075
    ensures Shortfall(DEFAULT_POLICY, g, Silent(n), Portfolio) <= (n - 1) as real * 1.2075
  {
    SilentAdmitted(n);
    SilentReach(g, Silent(n), n, (n - 1) as real * 1.2075);
    hide RiskIn, Run, Shortfall, Tolerance, Silent, Requests;
  }
}
