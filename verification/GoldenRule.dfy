/** The golden rule, never more than five percent of the capital at risk, over whole runs of the trading API. */
module GoldenRule {
  import opened Numeric
  import opened Options
  import opened Records
  import opened Execution
  import opened ExecutionRuns
  import opened ExecutionTheorems
  import opened RiskRuns
  import R = RiskEngine
  import G = FinalGate

  // ----- The risk of the plans not yet closed -----

  function RiskOf(p: Plan): real { if p.status == TestnetClosed then 0.0 else p.riskPct }

  function OpenRisk(plans: seq<Plan>): real {
    if plans == [] then 0.0 else OpenRisk(plans[..|plans| - 1]) + RiskOf(plans[|plans| - 1])
  }

  function AsStep(p: Proposal): Step { Open(p.limits, p.exposures, p.request) }

  /** Calls as the service makes them: admitted requests, judged under a sane policy and the default gate. */
  predicate Served(c: Call) {
    c.Create? ==>
      && Admitted(AsStep(c.proposal)) && Sane(c.proposal.policy) && c.proposal.gate == G.DEFAULT_GATE
  }

  predicate AllServed(calls: seq<Call>) { forall i :: 0 <= i < |calls| ==> Served(calls[i]) }

  /** The most risk of plans not yet closed that a proposal of the run did not report. */
  function Unreported(calls: seq<Call>): (d: real)
    ensures d >= 0.0
  {
    if calls == [] then 0.0
    else
      var init, c := calls[..|calls| - 1], calls[|calls| - 1];
      if c.Create?
      then Max(Unreported(init), OpenRisk(ExecutionTheorems.Run(init).plans) - Shown(AsStep(c.proposal), R.Portfolio))
      else Unreported(init)
  }

  // ----- One call -----

  predicate NoNegatives(plans: seq<Plan>) { forall i :: 0 <= i < |plans| ==> plans[i].riskPct >= 0.0 }

  lemma {:induction false} OpenRiskAppend(plans: seq<Plan>, p: Plan)
    ensures OpenRisk(plans + [p]) == OpenRisk(plans) + RiskOf(p)
  {
    assert (plans + [p])[..|plans|] == plans;
  }

  lemma {:induction false} CreateAdds(db: Db, p: Proposal)
    requires Served(Create(p)) && NoNegatives(db.plans)
    ensures NoNegatives(CreatePlan(db, p).plans)
    ensures OpenRisk(CreatePlan(db, p).plans) ==
      OpenRisk(db.plans) + G.PlannedRisk(p.policy, p.gate, p.limits, p.request, p.exposures)
  {
    R.OtherFiguresFit(p.policy, p.limits, p.request, p.exposures);
    AnsweredExactly(p.policy, AsStep(p));
    GrantBounds(p.policy, p.limits, p.request, p.exposures);
    OpenRiskAppend(db.plans, PlanFor(p));
    hide R.FiguresFit, R.Approved, R.AppliedRisk, R.Notional, G.MarketAdmits, R.PortfolioAfter, OpenRisk, Findings;
  }

  lemma {:induction false} OnlyCreateAddsPlans(db: Db, c: Call)
    requires Invariant(db) && !c.Create?
    ensures |Apply(db, c).plans| == |db.plans|
  {
    match c
    case Paper(id) => hide RawQuantity, Invariant;
    case Testnet(id, enabled, a) => hide EntryOf, Protect, RawQuantity, Invariant, OpenOn;
    case Sync(id, enabled, a) =>
      SyncAddsNoPlan(db, id, enabled, a);
      hide SyncExit, Commits;
    case SyncOpen(enabled, answers) =>
      SyncAllAddsNoPlan(db, OpenPlans(db.positions), enabled, answers);
      hide SyncAll;
  }

  /** Plans that keep their terms and move forward only carry no more risk than before. */
  lemma {:induction false} ProgressLowers(a: seq<Plan>, b: seq<Plan>)
    requires |a| == |b| && NoNegatives(a)
    requires forall i :: 0 <= i < |a| ==> b[i] == a[i].(status := b[i].status) && Moves(a[i].status, b[i].status)
    ensures OpenRisk(b) <= OpenRisk(a) && NoNegatives(b)
  {
    if a != [] {
      ProgressLowers(a[..|a| - 1], b[..|b| - 1]);
    }
  }

  lemma {:induction false} OthersAddNothing(db: Db, c: Call)
    requires Invariant(db) && !c.Create? && NoNegatives(db.plans)
    ensures OpenRisk(Apply(db, c).plans) <= OpenRisk(db.plans) && NoNegatives(Apply(db, c).plans)
  {
    OnlyCreateAddsPlans(db, c);
    HistoryOnlyGrows(db, c);
    hide Apply, Moves, Invariant, OpenRisk, NoNegatives;
    ProgressLowers(db.plans, Apply(db, c).plans);
  }

  /** What a cleared proposal adds fits below the gate's threshold on top of what it reports. */
  lemma {:induction false} PlannedFits(p: Proposal)
    requires Served(Create(p)) && G.Cleared(p.policy, p.gate, p.limits, p.request, p.exposures)
    ensures Shown(AsStep(p), R.Portfolio) + R.AppliedRisk(p.policy, p.limits, p.request, p.exposures) < 4.8
  {
    hide G.Cleared, R.AppliedRisk, Shown, Blur, FourDecimals;
    GateGrant(p.policy, p.gate, AsStep(p), 48000);
  }

  // ----- Whole runs -----

  lemma {:induction false} LastCall(calls: seq<Call>)
    requires calls != []
    ensures var init, c := calls[..|calls| - 1], calls[|calls| - 1];
      && ExecutionTheorems.Run(calls) == Apply(ExecutionTheorems.Run(init), c)
      && Unreported(calls) ==
           if c.Create?
           then Max(Unreported(init),
                    OpenRisk(ExecutionTheorems.Run(init).plans) - Shown(AsStep(c.proposal), R.Portfolio))
           else Unreported(init)
  {
    hide Apply, OpenRisk, Shown, Max;
  }

  lemma {:induction false} CreateStaysBelow(db: Db, p: Proposal, d: real)
    requires Served(Create(p)) && NoNegatives(db.plans)
    requires OpenRisk(db.plans) < 4.8 + d
    ensures NoNegatives(CreatePlan(db, p).plans)
    ensures OpenRisk(CreatePlan(db, p).plans) < 4.8 + Max(d, OpenRisk(db.plans) - Shown(AsStep(p), R.Portfolio))
  {
    hide G.Cleared, R.AppliedRisk, Shown, OpenRisk, CreatePlan, NoNegatives, Served, AsStep;
    CreateAdds(db, p);
    if G.Cleared(p.policy, p.gate, p.limits, p.request, p.exposures) {
      PlannedFits(p);
    }
  }

  /** At every reachable state the plans not yet closed put less than 4.8 percent of the capital at risk, whatever
      limits their requests brought, up to the most that a request left unreported. */
  lemma {:induction false} PlansStayBelowFivePercent(calls: seq<Call>)
    requires AllServed(calls)
    ensures OpenRisk(ExecutionTheorems.Run(calls).plans) < 4.8 + Unreported(calls)
    ensures NoNegatives(ExecutionTheorems.Run(calls).plans)
  {
    hide ExecutionTheorems.Run, OpenRisk, NoNegatives, Unreported, Served, AllServed, Invariant, Shown, Apply, AsStep;
    if calls == [] {
      NothingRun();
    } else {
      var init := calls[..|calls| - 1];
      ServedInit(calls);
      PlansStayBelowFivePercent(init);
      RunsAreConsistent(init);
      LastCall(calls);
      CallStaysBelow(ExecutionTheorems.Run(init), calls[|calls| - 1], Unreported(init));
    }
  }

  lemma {:induction false} ServedInit(calls: seq<Call>)
    requires calls != [] && AllServed(calls)
    ensures AllServed(calls[..|calls| - 1]) && Served(calls[|calls| - 1])
  {
    hide Served;
  }

  lemma {:induction false} NothingRun()
    ensures NoNegatives(ExecutionTheorems.Run([]).plans) && OpenRisk(ExecutionTheorems.Run([]).plans) == 0.0
  {
  }

  lemma {:induction false} CallStaysBelow(db: Db, c: Call, d: real)
    requires Invariant(db) && Served(c) && NoNegatives(db.plans) && OpenRisk(db.plans) < 4.8 + d
    ensures NoNegatives(Apply(db, c).plans)
    ensures OpenRisk(Apply(db, c).plans) <
      4.8 + if c.Create? then Max(d, OpenRisk(db.plans) - Shown(AsStep(c.proposal), R.Portfolio)) else d
  {
    hide Served, NoNegatives, OpenRisk, Shown, CreatePlan, Invariant;
    if c.Create? {
      CreateStaysBelow(db, c.proposal, d);
    } else {
      hide Apply;
      OthersAddNothing(db, c);
    }
  }

  // ----- The condition is exact -----

  function AsCall(s: Step): Call
    requires s.Open?
  {
    Create(Proposal(R.DEFAULT_POLICY, G.DEFAULT_GATE, s.limits, s.request, s.reported, "long", 110.0))
  }

  predicate AllOpen(steps: seq<Step>) { forall i :: 0 <= i < |steps| ==> steps[i].Open? }

  function AsCalls(steps: seq<Step>): seq<Call>
    requires AllOpen(steps)
  {
    seq(|steps|, i requires 0 <= i < |steps| => AsCall(steps[i]))
  }

  lemma {:induction false} OneMoreCall(db: Db, es: seq<R.Exposure>, s: Step)
    requires s.Open? && Admitted(s) && NoNegatives(db.plans) && OpenRisk(db.plans) == R.RiskIn(es, R.Portfolio)
    ensures Served(AsCall(s)) && NoNegatives(Apply(db, AsCall(s)).plans)
    ensures OpenRisk(Apply(db, AsCall(s)).plans) ==
      R.RiskIn(Next(R.DEFAULT_POLICY, Some(G.DEFAULT_GATE), es, s), R.Portfolio)
  {
    CreateAdds(db, AsCall(s).proposal);
    NextOpens(R.DEFAULT_POLICY, Some(G.DEFAULT_GATE), es, s, R.Portfolio);
    hide OpenRisk, R.RiskIn, Next, CreatePlan, NoNegatives, G.PlannedRisk, Admitted;
  }

  lemma {:induction false} StepsInit(steps: seq<Step>)
    requires steps != [] && Requests(steps) && AllOpen(steps)
    ensures var init, s := steps[..|steps| - 1], steps[|steps| - 1];
      && Requests(init) && AllOpen(init) && s.Open? && Admitted(s) && AsStep(AsCall(s).proposal) == s
      && |AsCalls(steps)| == |steps| && AsCalls(steps)[..|steps| - 1] == AsCalls(init)
      && AsCalls(steps)[|steps| - 1] == AsCall(s) && AsCall(s).Create?
  {
    hide Admitted;
  }

  lemma {:induction false} ServedNext(calls: seq<Call>)
    requires calls != [] && AllServed(calls[..|calls| - 1]) && Served(calls[|calls| - 1])
    ensures AllServed(calls)
  {
    hide Served;
  }

  /** Proposals made through the API do what they do in a run of the two judges alone. */
  lemma {:induction false} CallsFollowSteps(steps: seq<Step>)
    requires Requests(steps) && AllOpen(steps)
    ensures var calls, after := AsCalls(steps), RiskRuns.Run(R.DEFAULT_POLICY, Some(G.DEFAULT_GATE), steps);
      && AllServed(calls) && NoNegatives(ExecutionTheorems.Run(calls).plans)
      && OpenRisk(ExecutionTheorems.Run(calls).plans) == R.RiskIn(after, R.Portfolio)
      && Unreported(calls) == Shortfall(R.DEFAULT_POLICY, Some(G.DEFAULT_GATE), steps, R.Portfolio)
  {
    if steps != [] {
      hide ExecutionTheorems.Run, RiskRuns.Run, OpenRisk, R.RiskIn, Unreported, Shortfall, Shown, Admitted, NoNegatives,
        Apply, AsCalls, Next, AsCall, Served, AllServed, Requests, AllOpen, AsStep, Blur, RiskRuns.Tolerance;
      var g, init, s := Some(G.DEFAULT_GATE), steps[..|steps| - 1], steps[|steps| - 1];
      StepsInit(steps);
      CallsFollowSteps(init);
      LastCall(AsCalls(steps));
      OneMoreCall(ExecutionTheorems.Run(AsCalls(init)), RiskRuns.Run(R.DEFAULT_POLICY, g, init), s);
      RunLast(R.DEFAULT_POLICY, g, steps, R.Portfolio);
      ServedNext(AsCalls(steps));
    }
  }

  /** The golden rule holds for all runs in which at most d goes unreported if and only if d is at most the fifth of a
      percent the gate leaves. */
  lemma {:induction false} GoldenRuleExactly(d: real)
    ensures (forall calls :: AllServed(calls) && Unreported(calls) <= d ==>
               OpenRisk(ExecutionTheorems.Run(calls).plans) <= 5.0)
            <==> d <= 0.2
  {
    hide ExecutionTheorems.Run, RiskRuns.Run, OpenRisk, R.RiskIn, Unreported, Shortfall, AllServed, RiskRuns.Tolerance;
    if d <= 0.2 {
      forall calls | AllServed(calls) && Unreported(calls) <= d
        ensures OpenRisk(ExecutionTheorems.Run(calls).plans) <= 5.0
      {
        PlansStayBelowFivePercent(calls);
      }
    } else {
      var excess := Min(0.3, d) - 0.2;
      var steps := FiveTrades(4.8 - SLACK - excess / 2.0, SLACK, Min(0.3, d));
      OverrunIsReal(Some(G.DEFAULT_GATE), 4.8 - SLACK - excess / 2.0, SLACK, Min(0.3, d));
      CallsFollowSteps(steps);
    }
  }

  /** Proposals that report nothing, as the worker's do, reach any total: n of them put n times 1.2075 percent at
      risk. */
  lemma {:induction false} SilentPlansAddUp(n: nat)
    requires n > 0
    ensures var calls := AsCalls(Silent(n));
      && AllServed(calls) && OpenRisk(ExecutionTheorems.Run(calls).plans) == n as real * 1.2075
      && Unreported(calls) <= (n - 1) as real * 1.2075
  {
    hide ExecutionTheorems.Run, RiskRuns.Run, OpenRisk, R.RiskIn, Unreported, Shortfall, AllServed, Requests, Silent,
      NoNegatives, RiskRuns.Tolerance, AllOpen, AsCalls;
    SilentTradesAddUp(Some(G.DEFAULT_GATE), n);
    SilentAreOpen(n);
    CallsFollowSteps(Silent(n));
  }

  lemma {:induction false} SilentAreOpen(n: nat)
    ensures AllOpen(Silent(n))
  {
  }
}
