/** Whole runs of the trading API, and what single calls guarantee, against an arbitrary exchange. */
module ExecutionTheorems {
  import opened Numeric
  import opened Options
  import opened OrderMath
  import opened Records
  import opened Execution
  import opened ExecutionRuns
  import opened Reconciler
  import R = RiskEngine
  import G = FinalGate
  import RiskRuns

  // ----- Calls and runs -----

  /** What a plan is created from: the request and the portfolio the two judges see. */
  datatype Proposal = Proposal(policy: R.Policy, gate: G.GatePolicy, limits: R.Limits, request: R.Request,
                               exposures: seq<R.Exposure>, side: string, takeProfit: real)

  function PlanFor(p: Proposal): Plan {
    Plan(p.request.symbol, p.side, p.request.entry, p.request.stop, p.takeProfit, p.request.capital,
         G.PlannedRisk(p.policy, p.gate, p.limits, p.request, p.exposures),
         G.PlannedNotional(p.policy, p.gate, p.limits, p.request, p.exposures),
         if G.Cleared(p.policy, p.gate, p.limits, p.request, p.exposures) then Approved else Blocked)
  }

  /** The events stored with a new plan: all the engine raised, then all the gate did. */
  function Findings(p: Proposal): seq<EventKind> {
    var events := G.PlanEvents(p.policy, p.gate, p.limits, p.request, p.exposures);
    seq(|events|, i requires 0 <= i < |events| => Decided(events[i]))
  }

  /** Whether the proposal is answered at all; if not, the call fails before anything is stored. */
  predicate Answered(p: Proposal) { R.FiguresFit(p.policy, p.limits, p.request, p.exposures) }

  function CreatePlan(db: Db, p: Proposal): Db {
    if Answered(p) then Log(db.(plans := db.plans + [PlanFor(p)]), |db.plans|, Findings(p)) else db
  }

  datatype Call =
    | Create(proposal: Proposal)
    | Paper(id: nat)
    | Testnet(id: nat, enabled: bool, exec: ExecAnswers)
    | Sync(id: nat, enabled: bool, sync: SyncAnswers)
    | SyncOpen(enabled: bool, answers: nat -> SyncAnswers)

  function Apply(db: Db, c: Call): Db {
    match c
    case Create(p) => CreatePlan(db, p)
    case Paper(id) => PaperExecute(db, id).0
    case Testnet(id, enabled, a) => TestnetExecute(db, id, enabled, a).0
    case Sync(id, enabled, a) => SyncOne(db, id, enabled, a).0
    case SyncOpen(enabled, answers) => SyncAll(db, OpenPlans(db.positions), enabled, answers).saved
  }

  const EMPTY := Db([], [], [], [])

  function Run(calls: seq<Call>): Db {
    if calls == [] then EMPTY else Apply(Run(calls[..|calls| - 1]), calls[|calls| - 1])
  }

  lemma {:induction false} QuietFindings(p: Proposal)
    ensures NoFailureIn(Findings(p))
  {
    hide G.PlanEvents;
  }

  lemma {:induction false} CreateBelongs(db: Db, p: Proposal)
    requires RowsBelong(db) && Answered(p)
    ensures RowsBelong(CreatePlan(db, p)) && |CreatePlan(db, p).plans| == |db.plans| + 1
  {
    hide PlanFor, Findings, Answered;
  }

  lemma {:induction false} CreatedView(db: Db, p: Proposal, id: nat)
    requires Invariant(db) && Answered(p) && id < |CreatePlan(db, p).plans|
    ensures Consistent(ViewOf(CreatePlan(db, p), id))
  {
    hide Consistent, ViewOf, Answered, PlanFor, Findings;
    if id < |db.plans| {
      OldPlanView(db, CreatePlan(db, p), p, id);
    } else {
      FreshPlanView(db, CreatePlan(db, p), p);
    }
  }

  lemma {:induction false} CreateKeeps(db: Db, p: Proposal)
    requires Invariant(db)
    ensures Invariant(CreatePlan(db, p))
  {
    hide CreatePlan, Answered, Consistent, ViewOf, RowsBelong;
    var after := CreatePlan(db, p);
    if Answered(p) {
      CreateBelongs(db, p);
      forall id | 0 <= id < |after.plans| ensures Consistent(ViewOf(after, id)) {
        CreatedView(db, p, id);
      }
    } else {
      Unanswered(db, p);
    }
  }

  lemma {:induction false} Unanswered(db: Db, p: Proposal)
    requires !Answered(p)
    ensures CreatePlan(db, p) == db
  {
    hide Answered;
  }

  lemma {:induction false} OldPlanView(db: Db, after: Db, p: Proposal, id: nat)
    requires Answered(p) && after == CreatePlan(db, p) && id < |db.plans|
    ensures ViewOf(after, id) == ViewOf(db, id)
  {
    QuietFindings(p);
    FailureConcat(db.events, EventsFor(|db.plans|, Findings(p)), id);
    LogFailures(|db.plans|, Findings(p), id);
    hide PlanFor, Findings, NoFailureIn, Answered, OrdersOf, ProtectionOf, PositionsOf, HasFailure, EventsFor;
  }

  lemma {:induction false} FreshPlanView(db: Db, after: Db, p: Proposal)
    requires RowsBelong(db) && Answered(p) && after == CreatePlan(db, p)
    ensures Consistent(ViewOf(after, |db.plans|))
  {
    var n := |db.plans|;
    QuietFindings(p);
    hide Findings, NoFailureIn, G.PlannedRisk, G.PlannedNotional, Answered;
    ForeignOrders(db.orders, n);
    ForeignPositions(db.positions, n);
    FailureConcat(db.events, EventsFor(n, Findings(p)), n);
    LogFailures(n, Findings(p), n);
    ForeignEvents(db.events, n);
  }

  lemma {:induction false} ApplyKeeps(db: Db, c: Call)
    requires Invariant(db)
    ensures Invariant(Apply(db, c))
  {
    hide Invariant, PaperExecute, TestnetExecute, SyncOne, SyncAll, CreatePlan;
    match c
    case Create(p) => CreateKeeps(db, p);
    case Paper(id) => PaperKeeps(db, id);
    case Testnet(id, enabled, a) => TestnetKeeps(db, id, enabled, a);
    case Sync(id, enabled, a) => SyncOneKeeps(db, id, enabled, a);
    case SyncOpen(enabled, answers) => SyncAllKeeps(db, OpenPlans(db.positions), enabled, answers);
  }

  /** After every run: statuses, positions, orders and failure events of each plan fit together. */
  lemma {:induction false} RunsAreConsistent(calls: seq<Call>)
    ensures Invariant(Run(calls))
  {
    hide Apply;
    if calls != [] {
      RunsAreConsistent(calls[..|calls| - 1]);
      ApplyKeeps(Run(calls[..|calls| - 1]), calls[|calls| - 1]);
    }
  }

  // ----- What the reconciler can report about a reachable plan -----

  lemma {:induction false} ProtectiveMatches(os: seq<Order>, id: nat)
    ensures ProtectiveOnes(OrdersOf(os, id)) == ProtectionOf(os, id)
  {
    if os != [] {
      var init, last := os[..|os| - 1], os[|os| - 1];
      ProtectiveMatches(init, id);
      var kept := OrdersOf(os, id);
      if last.planId == id {
        assert kept == OrdersOf(init, id) + [last];
        assert kept[..|kept| - 1] == OrdersOf(init, id);
      } else {
        assert kept == OrdersOf(init, id);
      }
    }
  }

  lemma {:induction false} OneOpen(ps: seq<Position>)
    requires |ps| == 1
    ensures |OpenOnes(ps)| <= 1
  {
    assert OpenOnes(ps[..0]) == [];
  }

  /** No run leads to a plan without its position, with a stale open status or with two open positions; missing exit
      protection is reported for the executed plans that stored no stop and take-profit pair, and for no others. */
  lemma {:induction false} ReconcilerVerdicts(calls: seq<Call>, id: nat)
    requires id < |Run(calls).plans|
    ensures var v := ViewOf(Run(calls), id);
      && !Drifts(MissingPosition, v.plan.status, v.orders, v.positions)
      && !Drifts(ClosedButExecuted, v.plan.status, v.orders, v.positions)
      && !Drifts(MultipleOpenPositions, v.plan.status, v.orders, v.positions)
      && (Drifts(MissingExitProtection, v.plan.status, v.orders, v.positions) <==>
            ExecutedStatus(v.plan.status) && !IsPair(v.protection))
      && (v.plan.status == TestnetExecuted ==> (IsPair(v.protection) <==> !v.failed))
  {
    RunsAreConsistent(calls);
    ProtectiveMatches(Run(calls).orders, id);
    assert Consistent(ViewOf(Run(calls), id));
    hide Run, Invariant;
    ViewVerdicts(ViewOf(Run(calls), id));
  }

  lemma {:induction false} ViewVerdicts(v: View)
    requires Consistent(v) && ProtectiveOnes(v.orders) == v.protection
    ensures !Drifts(MissingPosition, v.plan.status, v.orders, v.positions)
    ensures !Drifts(ClosedButExecuted, v.plan.status, v.orders, v.positions)
    ensures !Drifts(MultipleOpenPositions, v.plan.status, v.orders, v.positions)
    ensures Drifts(MissingExitProtection, v.plan.status, v.orders, v.positions) <==>
      ExecutedStatus(v.plan.status) && !IsPair(v.protection)
    ensures v.plan.status == TestnetExecuted ==> (IsPair(v.protection) <==> !v.failed)
  {
    if |v.positions| == 1 {
      OneOpen(v.positions);
    }
    hide ProtectiveOnes, OpenOnes, Counted;
    match v.plan.status
    case Approved => case Blocked => case TestnetClosed =>
    case PaperExecuted => assert v.positions[0].isOpen;
    case TestnetExecuted => assert v.positions[0].isOpen;
  }

  /** A filled or part-filled order is on record, and none was rejected. */
  predicate OrdersInOrder(os: seq<Order>) {
    && (exists i :: 0 <= i < |os| && (os[i].status in [Filled, PartiallyFilled] || os[i].executed > 0.0))
    && (forall i :: 0 <= i < |os| ==> os[i].status != Rejected)
  }

  lemma {:induction false} OrderDrifts(s: PlanStatus, os: seq<Order>, ps: seq<Position>)
    ensures !Drifts(MissingFilledOrder, s, os, ps) && !Drifts(RejectedOrders, s, os, ps) <==>
      ExecutedStatus(s) ==> OrdersInOrder(os)
  {
  }

  lemma {:induction false} NoDrift(s: PlanStatus, os: seq<Order>, ps: seq<Position>)
    requires !Drifts(MissingPosition, s, os, ps) && !Drifts(ClosedButExecuted, s, os, ps)
    requires !Drifts(MultipleOpenPositions, s, os, ps) && !Drifts(MissingExitProtection, s, os, ps)
    requires !Drifts(MissingFilledOrder, s, os, ps) && !Drifts(RejectedOrders, s, os, ps)
    ensures forall d: Drift :: !Drifts(d, s, os, ps)
  {
    hide Drifts;
    forall d: Drift ensures !Drifts(d, s, os, ps) {
      match d
      case MissingPosition => case ClosedButExecuted => case MultipleOpenPositions =>
      case MissingExitProtection => case MissingFilledOrder => case RejectedOrders =>
    }
  }

  lemma {:induction false} PaperIsBare(v: View)
    requires Consistent(v)
    ensures v.plan.status == PaperExecuted ==> !IsPair(v.protection)
  {
  }

  /** Exactly when a reachable plan is judged healthy. */
  lemma {:induction false} HealthyExactly(calls: seq<Call>, id: nat)
    requires id < |Run(calls).plans|
    ensures var v := ViewOf(Run(calls), id);
      (forall d: Drift :: !Drifts(d, v.plan.status, v.orders, v.positions)) <==>
        !ExecutedStatus(v.plan.status) ||
        (v.plan.status == TestnetExecuted && !v.failed && OrdersInOrder(v.orders))
  {
    var v := ViewOf(Run(calls), id);
    RunsAreConsistent(calls);
    PaperIsBare(v);
    hide Run, Invariant, ViewOf, Drifts, OrdersInOrder, Consistent, IsPair;
    ReconcilerVerdicts(calls, id);
    OrderDrifts(v.plan.status, v.orders, v.positions);
    if !Drifts(MissingExitProtection, v.plan.status, v.orders, v.positions)
       && !Drifts(MissingFilledOrder, v.plan.status, v.orders, v.positions)
       && !Drifts(RejectedOrders, v.plan.status, v.orders, v.positions) {
      NoDrift(v.plan.status, v.orders, v.positions);
    }
  }

  // ----- Histories only grow -----

  predicate Moves(s: PlanStatus, t: PlanStatus) {
    || s == t
    || (s == Approved && t != Blocked)
    || (s in [PaperExecuted, TestnetExecuted] && t == TestnetClosed)
  }

  /** Closed stays closed, and who holds what at which entry is never rewritten. */
  predicate SameHolding(p: Position, q: Position) {
    && q.planId == p.planId && q.symbol == p.symbol && q.side == p.side && q.quantity == p.quantity
    && q.entry == p.entry && q.leverage == p.leverage && (q.isOpen ==> p.isOpen)
  }

  /** Later tables extend earlier ones: plans keep their terms and move forward only, rows keep their identity,
      the event log is append-only. */
  predicate Progress(db: Db, after: Db) {
    && |db.plans| <= |after.plans| && |db.orders| <= |after.orders| && |db.positions| <= |after.positions|
    && db.events <= after.events
    && (forall i :: 0 <= i < |db.plans| ==>
          && after.plans[i] == db.plans[i].(status := after.plans[i].status)
          && Moves(db.plans[i].status, after.plans[i].status))
    && (forall j :: 0 <= j < |db.orders| ==> after.orders[j] == db.orders[j].(status := after.orders[j].status))
    && (forall k :: 0 <= k < |db.positions| ==> SameHolding(db.positions[k], after.positions[k]))
  }

  lemma {:induction false} ProgressTransitive(a: Db, b: Db, c: Db)
    requires Progress(a, b) && Progress(b, c)
    ensures Progress(a, c)
  {
    hide Moves, SameHolding;
    forall i | 0 <= i < |a.plans| ensures Moves(a.plans[i].status, c.plans[i].status) {
      MovesTransitive(a.plans[i].status, b.plans[i].status, c.plans[i].status);
    }
    forall k | 0 <= k < |a.positions| ensures SameHolding(a.positions[k], c.positions[k]) {
      HoldingTransitive(a.positions[k], b.positions[k], c.positions[k]);
    }
  }

  lemma {:induction false} MovesTransitive(s: PlanStatus, t: PlanStatus, u: PlanStatus)
    requires Moves(s, t) && Moves(t, u)
    ensures Moves(s, u)
  {
  }

  lemma {:induction false} HoldingTransitive(p: Position, q: Position, r: Position)
    requires SameHolding(p, q) && SameHolding(q, r)
    ensures SameHolding(p, r)
  {
  }

  lemma {:induction false} ProtectedProgress(db: Db, id: nat, k: nat, a: SyncAnswers)
    requires id < |db.plans| && k < |db.positions| && db.plans[id].status in [PaperExecuted, TestnetExecuted]
    ensures Progress(db, SyncProtected(db, id, k, a).0)
  {
    hide RefreshOne, Cancels, FirstProblem, TriggeredBy, SiblingEvents, LastCanceled, LiveSibling;
  }

  lemma {:induction false} UnprotectedProgress(db: Db, id: nat, k: nat, a: SyncAnswers)
    requires id < |db.plans| && k < |db.positions| && db.plans[id].status in [PaperExecuted, TestnetExecuted]
    ensures Progress(db, SyncUnprotected(db, id, k, a).0)
  {
    hide DetectLocalExit, LocalLevels, Confirmed, ConfirmationFails, FillPrice, NormalizeStatus, LegacyExternalId,
      Tolerance;
  }

  lemma {:induction false} SyncProgress(db: Db, id: nat, enabled: bool, a: SyncAnswers)
    requires Invariant(db)
    ensures Progress(db, SyncExit(db, id, enabled, a).0)
  {
    hide Invariant, SyncProtected, SyncUnprotected, ProtectionOf;
    if enabled && id < |db.plans| && db.plans[id].status != TestnetClosed {
      var k := OpenPositionOf(db.positions, id);
      if k.Some? {
        OpenMeansExecuted(db, id, k.value);
        ProtectedProgress(db, id, k.value, a);
        UnprotectedProgress(db, id, k.value, a);
      }
    }
  }

  lemma {:induction false} SyncOneProgress(db: Db, id: nat, enabled: bool, a: SyncAnswers)
    requires Invariant(db)
    ensures Progress(db, SyncOne(db, id, enabled, a).0)
  {
    hide Invariant, SyncExit, Progress;
    SyncProgress(db, id, enabled, a);
    ProgressReflexive(db);
  }

  lemma {:induction false} SyncAllProgress(db: Db, ids: seq<nat>, enabled: bool, a: nat -> SyncAnswers)
    requires Invariant(db)
    ensures Progress(db, SyncAll(db, ids, enabled, a).saved) && Progress(db, SyncAll(db, ids, enabled, a).working)
  {
    hide Invariant, SyncExit, Progress, Commits, Checked;
    if ids == [] {
      ProgressReflexive(db);
    } else {
      var n := |ids| - 1;
      var before := SyncAll(db, ids[..n], enabled, a).working;
      SyncAllKeeps(db, ids[..n], enabled, a);
      SyncAllProgress(db, ids[..n], enabled, a);
      SyncProgress(before, ids[n], enabled, a(ids[n]));
      ProgressTransitive(db, before, SyncExit(before, ids[n], enabled, a(ids[n])).0);
    }
  }

  lemma {:induction false} ProgressReflexive(db: Db)
    ensures Progress(db, db)
  {
  }

  /** No call ever rewrites history. */
  lemma {:induction false} HistoryOnlyGrows(db: Db, c: Call)
    requires Invariant(db)
    ensures Progress(db, Apply(db, c))
  {
    hide PaperExecute, TestnetExecute, SyncOne, SyncAll, CreatePlan, Progress, Invariant;
    match c
    case Create(p) => CreateProgress(db, p);
    case Paper(id) => PaperProgress(db, id);
    case Testnet(id, enabled, a) => TestnetProgress(db, id, enabled, a);
    case Sync(id, enabled, a) => SyncOneProgress(db, id, enabled, a);
    case SyncOpen(enabled, answers) => SyncAllProgress(db, OpenPlans(db.positions), enabled, answers);
  }

  lemma {:induction false} CreateProgress(db: Db, p: Proposal)
    ensures Progress(db, CreatePlan(db, p))
  {
    hide PlanFor, Findings, Answered;
  }

  lemma {:induction false} PaperProgress(db: Db, id: nat)
    ensures Progress(db, PaperExecute(db, id).0)
  {
    hide RawQuantity, Digits;
  }

  lemma {:induction false} TestnetProgress(db: Db, id: nat, enabled: bool, a: ExecAnswers)
    ensures Progress(db, TestnetExecute(db, id, enabled, a).0)
  {
    hide EntryOf, Protect, RawQuantity, RoundToStep, OpenOn;
  }

  // ----- One testnet execution per symbol and side at a time -----

  /** No two plans that are executed on the testnet and not yet closed share symbol and side. */
  predicate OnePerMarket(db: Db) {
    forall i, j | 0 <= i < j < |db.plans| && Live(db.plans[i]) && Live(db.plans[j]) ::
      (db.plans[i].symbol, db.plans[i].side) != (db.plans[j].symbol, db.plans[j].side)
  }

  predicate Live(p: Plan) { p.status == TestnetExecuted }

  lemma {:induction false} HeldRow(ps: seq<Position>, id: nat, p: Position)
    requires p in PositionsOf(ps, id)
    ensures exists k :: 0 <= k < |ps| && ps[k] == p
  {
    var n := |ps| - 1;
    if p in PositionsOf(ps[..n], id) {
      HeldRow(ps[..n], id, p);
      var k :| 0 <= k < n && ps[..n][k] == p;
      assert ps[k] == p;
    } else {
      assert ps[n] == p;
    }
  }

  lemma {:induction false} ExecutedBlocksMarket(db: Db, i: nat)
    requires Invariant(db) && i < |db.plans| && db.plans[i].status == TestnetExecuted
    ensures OpenOn(db.positions, db.plans[i].symbol, db.plans[i].side).Some?
  {
    var v := ViewOf(db, i);
    assert Consistent(v);
    HeldRow(db.positions, i, v.positions[0]);
  }

  lemma {:induction false} OnePerMarketKept(db: Db, c: Call)
    requires Invariant(db) && OnePerMarket(db)
    ensures OnePerMarket(Apply(db, c))
  {
    HistoryOnlyGrows(db, c);
    var after := Apply(db, c);
    NewlyExecuted(db, c);
    hide Apply, Invariant;
    forall i, j | 0 <= i < j < |after.plans| && Live(after.plans[i]) && Live(after.plans[j])
      ensures (after.plans[i].symbol, after.plans[i].side) != (after.plans[j].symbol, after.plans[j].side)
    {
      if i < |db.plans| && db.plans[i].status == TestnetExecuted {
        ExecutedBlocksMarket(db, i);
      }
      if j < |db.plans| && db.plans[j].status == TestnetExecuted {
        ExecutedBlocksMarket(db, j);
      }
    }
  }

  /** A plan becomes testnet-executed only by its own execution call, which found its market free. */
  lemma {:induction false} NewlyExecuted(db: Db, c: Call)
    requires Invariant(db)
    ensures forall i :: 0 <= i < |Apply(db, c).plans| && Apply(db, c).plans[i].status == TestnetExecuted ==>
      && i < |db.plans|
      && (db.plans[i].status != TestnetExecuted ==>
            c.Testnet? && c.id == i && OpenOn(db.positions, db.plans[i].symbol, db.plans[i].side).None?)
  {
    match c
    case Create(p) => hide Invariant, G.Cleared, Findings, Answered;
    case Paper(id) => hide RawQuantity, Invariant;
    case Testnet(id, enabled, a) => hide EntryOf, Protect, RawQuantity, Invariant, OpenOn;
    case Sync(id, enabled, a) =>
      SyncAddsNoPlan(db, id, enabled, a);
      hide SyncExit, Commits;
    case SyncOpen(enabled, answers) =>
      SyncAllAddsNoPlan(db, OpenPlans(db.positions), enabled, answers);
      hide SyncAll;
  }

  lemma {:induction false} SyncAddsNoPlan(db: Db, id: nat, enabled: bool, a: SyncAnswers)
    requires Invariant(db)
    ensures |SyncExit(db, id, enabled, a).0.plans| == |db.plans|
    ensures forall i :: 0 <= i < |db.plans| ==>
      SyncExit(db, id, enabled, a).0.plans[i].status in [db.plans[i].status, TestnetClosed]
  {
    hide Invariant, FirstProblem, TriggeredBy, RefreshOne, RefreshedRows, SettledRows, SiblingEvents, LastCanceled,
      DetectLocalExit, LocalLevels, Confirmed, ConfirmationFails, FillPrice, NormalizeStatus, Tolerance, ProtectionOf;
  }

  /** b's plans are a's, some of them closed. */
  predicate OnlyCloses(a: seq<Plan>, b: seq<Plan>) {
    |b| == |a| && forall i :: 0 <= i < |a| ==> b[i].status in [a[i].status, TestnetClosed]
  }

  lemma {:induction false} SyncAllAddsNoPlan(db: Db, ids: seq<nat>, enabled: bool, a: nat -> SyncAnswers)
    requires Invariant(db)
    ensures OnlyCloses(db.plans, SyncAll(db, ids, enabled, a).saved.plans)
    ensures OnlyCloses(db.plans, SyncAll(db, ids, enabled, a).working.plans)
  {
    hide Invariant, SyncExit, Commits, Checked;
    if ids != [] {
      var n := |ids| - 1;
      SyncAllAddsNoPlan(db, ids[..n], enabled, a);
      SyncAllKeeps(db, ids[..n], enabled, a);
      SyncAddsNoPlan(SyncAll(db, ids[..n], enabled, a).working, ids[n], enabled, a(ids[n]));
    }
  }

  /** At every reachable state at most one testnet execution is live per symbol and side. */
  lemma {:induction false} OneTestnetExecutionPerMarket(calls: seq<Call>)
    ensures OnePerMarket(Run(calls))
  {
    hide Apply, Invariant, OnePerMarket;
    if calls == [] {
      NothingPerMarket();
    } else {
      var init := calls[..|calls| - 1];
      OneTestnetExecutionPerMarket(init);
      RunsAreConsistent(init);
      OnePerMarketKept(Run(init), calls[|calls| - 1]);
    }
  }

  lemma {:induction false} NothingPerMarket()
    ensures OnePerMarket(EMPTY)
  {
  }

  // ----- Exit sync: all or nothing, and it cleans up -----

  /** The protected branch of a sync is reached. */
  predicate ProtectedSync(db: Db, id: nat, enabled: bool, a: SyncAnswers) {
    && enabled && id < |db.plans| && db.plans[id].status != TestnetClosed
    && OpenPositionOf(db.positions, id).Some? && ProtectionOf(db.orders, id) != []
    && (a.hasGetOrder || a.hasGetAlgo)
  }

  /** If asking about any protection order of the plan brings no status, no plan, order or position changes; the log
      gains at most one warning, which names the first such order, and the call reports a failure. */
  lemma {:induction false} FailedSyncChangesNothing(db: Db, id: nat, enabled: bool, a: SyncAnswers)
    requires ProtectedSync(db, id, enabled, a) && !AllRefreshed(db.orders, id, a)
    ensures var (after, outcome) := SyncExit(db, id, enabled, a);
      && outcome in [RefreshFailed, GetOrderUnavailable, UnresolvableReference]
      && exists j :: 0 <= j < |db.orders| && Protects(db.orders[j], id) && !RefreshOne(j, db.orders[j], a).Status?
           && (forall i :: 0 <= i < j && Protects(db.orders[i], id) ==> RefreshOne(i, db.orders[i], a).Status?)
           && after == Log(db, id, if outcome == RefreshFailed then [ExitRefreshFailed(db.orders[j].external)] else [])
  {
    var k, n := OpenPositionOf(db.positions, id).value, |db.orders|;
    assert SyncExit(db, id, enabled, a) == SyncProtected(db, id, k, a) by {
      hide SyncProtected, SyncUnprotected;
    }
    var j := FirstProblem(db.orders, id, a, n);
    assert j.Some?;
    FirstIsFirst(db.orders, id, a, n);
    hide RefreshOne, FirstProblem, SettledRows, RefreshedRows, SiblingEvents, LastCanceled, ProtectionOf, SyncExit;
    assert db.events + EventsFor(id, []) == db.events;
  }

  lemma {:induction false} FirstIsFirst(os: seq<Order>, id: nat, a: SyncAnswers, n: nat)
    requires n <= |os|
    ensures var k := FirstProblem(os, id, a, n);
      k.Some? ==> forall i :: 0 <= i < k.value && Protects(os[i], id) ==> RefreshOne(i, os[i], a).Status?
  {
    hide RefreshOne;
    if n > 0 {
      FirstIsFirst(os, id, a, n - 1);
    }
  }

  /** A protected plan is closed exactly when every protection order could be refreshed and one came back filled; in
      particular an order that was merely triggered closes nothing. */
  lemma {:induction false} ProtectedCloseExactly(db: Db, id: nat, enabled: bool, a: SyncAnswers)
    requires ProtectedSync(db, id, enabled, a)
    ensures SyncExit(db, id, enabled, a).0.plans[id].status == TestnetClosed <==>
      && AllRefreshed(db.orders, id, a)
      && exists j :: 0 <= j < |db.orders| && FilledAt(db.orders, id, a, j)
    ensures SyncExit(db, id, enabled, a).1.ExitFilled? <==>
      SyncExit(db, id, enabled, a).0.plans[id].status == TestnetClosed
  {
    hide RefreshOne, SettledRows, RefreshedRows, SiblingEvents, LastCanceled, ProtectionOf;
    var k := OpenPositionOf(db.positions, id).value;
    var n := |db.orders|;
    var problem, hit := FirstProblem(db.orders, id, a, n), TriggeredBy(db.orders, id, a, n);
    assert problem.None? <==> AllRefreshed(db.orders, id, a);
    hide FirstProblem, TriggeredBy;
    assert SyncExit(db, id, enabled, a) == SyncProtected(db, id, k, a);
  }

  /** Order j ends in a terminal status, or a warning logged in this very call names it. */
  predicate SettledOrNamed(db: Db, after: Db, id: nat, j: nat)
    requires j < |db.orders| <= |after.orders| && |db.events| <= |after.events|
  {
    || Terminal(after.orders[j].status)
    || Event(id, SiblingCancelFailed(db.orders[j].external)) in after.events[|db.events|..]
    || Event(id, SiblingCancelUnavailable(db.orders[j].external)) in after.events[|db.events|..]
  }

  lemma {:induction false} SiblingNamed(os: seq<Order>, id: nat, c: CancelClient, n: nat, j: nat)
    requires j < n <= |os| && LiveSibling(os[j], id) && !Cancels(c, os[j].external)
    ensures
      || SiblingCancelFailed(os[j].external) in SiblingEvents(os, id, c, n)
      || SiblingCancelUnavailable(os[j].external) in SiblingEvents(os, id, c, n)
  {
    hide Cancels;
    if j < n - 1 {
      SiblingNamed(os, id, c, n - 1, j);
    }
  }

  lemma {:induction false} LoggedKind(id: nat, kinds: seq<EventKind>, kind: EventKind)
    requires kind in kinds
    ensures Event(id, kind) in EventsFor(id, kinds)
  {
    var i :| 0 <= i < |kinds| && kinds[i] == kind;
    assert EventsFor(id, kinds)[i] == Event(id, kind);
  }

  /** When an exit order is filled, plan and position close together, nothing else is closed, and every protection
      order of the plan ends terminal or is named by a warning. */
  lemma {:induction false} FilledExitCleansUp(db: Db, id: nat, enabled: bool, a: SyncAnswers)
    requires SyncExit(db, id, enabled, a).1.ExitFilled?
    ensures var after := SyncExit(db, id, enabled, a).0;
      var k := OpenPositionOf(db.positions, id);
      && id < |db.plans| && k.Some?
      && after.plans == db.plans[id := db.plans[id].(status := TestnetClosed)]
      && after.positions == db.positions[k.value := db.positions[k.value].(isOpen := false)]
      && |after.orders| == |db.orders| && db.events <= after.events
      && Event(id, ExitOrderFilled(SyncExit(db, id, enabled, a).1.trigger)) in after.events[|db.events|..]
      && (forall j :: 0 <= j < |db.orders| && Protects(db.orders[j], id) ==> SettledOrNamed(db, after, id, j))
      && (forall j :: 0 <= j < |db.orders| && !Protects(db.orders[j], id) ==> after.orders[j] == db.orders[j])
  {
    hide RefreshOne, FirstProblem, TriggeredBy, LastCanceled, ProtectionOf, SiblingEvents, Cancels, LiveSibling;
    var after := SyncExit(db, id, enabled, a).0;
    var refreshed := RefreshedRows(db.orders, id, a);
    var kind := SyncExit(db, id, enabled, a).1.trigger;
    var kinds := [ExitOrderFilled(kind)] + SiblingEvents(refreshed, id, a.cancel, |refreshed|);
    assert after.events == db.events + EventsFor(id, kinds);
    assert after.events[|db.events|..] == EventsFor(id, kinds);
    LoggedKind(id, kinds, ExitOrderFilled(kind));
    forall j | 0 <= j < |db.orders| && Protects(db.orders[j], id) ensures SettledOrNamed(db, after, id, j) {
      SiblingSettles(refreshed, id, a.cancel, j, kinds);
    }
    assert forall j :: 0 <= j < |db.orders| && !Protects(db.orders[j], id) ==> !LiveSibling(refreshed[j], id) by {
      NotMineNotSibling(refreshed, id);
    }
  }

  lemma {:induction false} NotMineNotSibling(os: seq<Order>, id: nat)
    ensures forall j :: 0 <= j < |os| && !Protects(os[j], id) ==> !LiveSibling(os[j], id)
  {
  }

  lemma {:induction false} SiblingSettles(os: seq<Order>, id: nat, c: CancelClient, j: nat, kinds: seq<EventKind>)
    requires j < |os| && Protects(os[j], id)
    requires |kinds| > 0 && kinds == kinds[..1] + SiblingEvents(os, id, c, |os|)
    ensures
      || Terminal(SettledRow(os[j], id, c).status)
      || Event(id, SiblingCancelFailed(os[j].external)) in EventsFor(id, kinds)
      || Event(id, SiblingCancelUnavailable(os[j].external)) in EventsFor(id, kinds)
  {
    hide Cancels;
    if LiveSibling(os[j], id) && !Cancels(c, os[j].external) {
      SiblingNamed(os, id, c, |os|, j);
      var kind := if SiblingCancelFailed(os[j].external) in SiblingEvents(os, id, c, |os|)
                  then SiblingCancelFailed(os[j].external) else SiblingCancelUnavailable(os[j].external);
      assert kind in kinds;
      LoggedKind(id, kinds, kind);
    }
  }

  // ----- The batch counts what it closes -----

  function ClosedPlans(plans: seq<Plan>): nat {
    if plans == [] then 0
    else ClosedPlans(plans[..|plans| - 1]) + if plans[|plans| - 1].status == TestnetClosed then 1 else 0
  }

  lemma {:induction false} ClosingOne(plans: seq<Plan>, id: nat)
    requires id < |plans| && plans[id].status != TestnetClosed
    ensures ClosedPlans(plans[id := plans[id].(status := TestnetClosed)]) == ClosedPlans(plans) + 1
  {
    var n := |plans| - 1;
    var closed := plans[id := plans[id].(status := TestnetClosed)];
    if id < n {
      assert closed[..n] == plans[..n][id := plans[id].(status := TestnetClosed)];
      ClosingOne(plans[..n], id);
    } else {
      assert closed[..n] == plans[..n];
    }
  }

  /** A sync either closes exactly its own plan, commits and says so, or leaves the plans alone. */
  lemma {:induction false} SyncClosesOrNot(db: Db, id: nat, enabled: bool, a: SyncAnswers)
    ensures var (after, outcome) := SyncExit(db, id, enabled, a);
      if LeavesPosition(outcome)
      then id < |db.plans| && db.plans[id].status != TestnetClosed && Commits(outcome) && Checked(outcome)
           && after.plans == db.plans[id := db.plans[id].(status := TestnetClosed)]
      else after.plans == db.plans
  {
    hide FirstProblem, TriggeredBy, RefreshOne, RefreshedRows, SettledRows, SiblingEvents, LastCanceled,
      DetectLocalExit, LocalLevels, Confirmed, ConfirmationFails, FillPrice, NormalizeStatus, Tolerance, ProtectionOf;
  }

  lemma {:induction false} CountNext(results: seq<(nat, SyncOutcome)>, r: (nat, SyncOutcome))
    ensures CountTriggered(results + [r]) == CountTriggered(results) + if LeavesPosition(r.1) then 1 else 0
  {
    assert (results + [r])[..|results|] == results;
    hide LeavesPosition;
  }

  lemma {:induction false} BatchCounts(db: Db, ids: seq<nat>, enabled: bool, a: nat -> SyncAnswers)
    ensures var b := SyncAll(db, ids, enabled, a);
      && b.saved.plans == b.working.plans
      && ClosedPlans(b.saved.plans) == ClosedPlans(db.plans) + CountTriggered(b.results)
  {
    hide SyncExit, Commits, Checked, LeavesPosition;
    if ids != [] {
      var n := |ids| - 1;
      var b := SyncAll(db, ids[..n], enabled, a);
      BatchCounts(db, ids[..n], enabled, a);
      SyncClosesOrNot(b.working, ids[n], enabled, a(ids[n]));
      var outcome := SyncExit(b.working, ids[n], enabled, a(ids[n])).1;
      CountNext(b.results, (ids[n], outcome));
      assert b.results + [] == b.results;
      if LeavesPosition(outcome) {
        ClosingOne(b.working.plans, ids[n]);
      }
    }
  }

  /** The number a batch reports as triggered is the number of plans it closed, and all of those closings are
      committed. */
  lemma {:induction false} TriggeredIsClosed(db: Db, enabled: bool, a: nat -> SyncAnswers)
    ensures var report := ReportOf(db, enabled, a);
      && ClosedPlans(Apply(db, SyncOpen(enabled, a)).plans) == ClosedPlans(db.plans) + report.triggered
      && report.triggered <= report.checked <= report.open
  {
    hide SyncAll, CountTriggered;
    BatchCounts(db, OpenPlans(db.positions), enabled, a);
    AtMostAll(SyncAll(db, OpenPlans(db.positions), enabled, a).results);
    ResultsFit(db, OpenPlans(db.positions), enabled, a);
  }

  lemma {:induction false} AtMostAll(results: seq<(nat, SyncOutcome)>)
    ensures CountTriggered(results) <= |results|
  {
    if results != [] {
      AtMostAll(results[..|results| - 1]);
    }
  }

  lemma {:induction false} ResultsFit(db: Db, ids: seq<nat>, enabled: bool, a: nat -> SyncAnswers)
    ensures |SyncAll(db, ids, enabled, a).results| <= |ids|
  {
    hide SyncExit;
    if ids != [] {
      ResultsFit(db, ids[..|ids| - 1], enabled, a);
    }
  }

  // ----- Failed protection placement -----

  predicate Handled(p: Protection, ref: string) { ref in p.canceled || CleanupFailed(ref) in p.events }

  /** When no pair could be placed, every order the exchange had accepted is cancelled or named by a warning, except
      in one situation: a client without algo orders whose plain stop went through before the take-profit failed. */
  lemma {:induction false} FailedPlacementCleansUpExactly(id: nat, plan: Plan, fill: real, mark: real,
                                                          a: ProtectAnswers)
    requires Protect(id, plan, fill, mark, a).pair.None?
    ensures var p := Protect(id, plan, fill, mark, a);
      (forall ref :: ref in p.accepted ==> Handled(p, ref)) <==> a.algo || a.stopPlain.None?
  {
    hide Levels, Cancels;
    var p := Protect(id, plan, fill, mark, a);
    if !a.algo && a.stopPlain.Some? {
      assert LegacyExternalId(a.stopPlain.value, a.stopClient) in p.accepted;
    }
  }

  /** When a pair is stored, every other order accepted on the way is cancelled or named. */
  lemma {:induction false} StoredPairLeavesNoStray(id: nat, plan: Plan, fill: real, mark: real, a: ProtectAnswers)
    requires Protect(id, plan, fill, mark, a).pair.Some?
    ensures var p := Protect(id, plan, fill, mark, a);
      && p.pair.value.0.external in p.accepted && p.pair.value.1.external in p.accepted
      && forall ref :: ref in p.accepted && ref !in [p.pair.value.0.external, p.pair.value.1.external] ==>
           Handled(p, ref)
  {
    hide Levels, Cancels;
  }

  // ----- Over whole runs no accepted protection order is lost sight of -----

  /** The situation of FailedPlacementCleansUpExactly that leaves an accepted stop behind. */
  predicate LeavesStop(p: Protection, a: ProtectAnswers) { p.pair.None? && !a.algo && a.stopPlain.Some? }

  /** The reference is stored as a protection order of the plan, was cancelled, or is named by a warning on record. */
  predicate Accounted(db: Db, id: nat, p: Protection, ref: string) {
    || ref in p.canceled
    || Event(id, CleanupFailed(ref)) in db.events
    || exists j :: 0 <= j < |db.orders| && Protects(db.orders[j], id) && db.orders[j].external == ref
  }

  lemma {:induction false} AccountedStays(db: Db, after: Db, id: nat, p: Protection, ref: string)
    requires Progress(db, after) && Accounted(db, id, p, ref)
    ensures Accounted(after, id, p, ref)
  {
    hide Moves, SameHolding;
    if j :| 0 <= j < |db.orders| && Protects(db.orders[j], id) && db.orders[j].external == ref {
      assert Protects(after.orders[j], id) && after.orders[j].external == ref;
    }
  }

  lemma {:induction false} RunProgress(calls: seq<Call>, k: nat)
    requires k <= |calls|
    ensures Progress(Run(calls[..k]), Run(calls))
  {
    hide Apply, Progress, Invariant;
    if k == |calls| {
      assert calls[..k] == calls;
      ProgressReflexive(Run(calls));
    } else {
      var init := calls[..|calls| - 1];
      assert init[..k] == calls[..k];
      RunProgress(init, k);
      RunsAreConsistent(init);
      HistoryOnlyGrows(Run(init), calls[|calls| - 1]);
      ProgressTransitive(Run(calls[..k]), Run(init), Run(calls));
    }
  }

  /** The placement an execution makes. */
  function PlacementOf(db: Db, id: nat, a: ExecAnswers): Protection
    requires id < |db.plans| && Refusal(db, id, true, a).None?
  {
    var plan := db.plans[id];
    var e := EntryOf(id, plan, RoundToStep(RawQuantity(plan), a.step.value), a.place.payload, a);
    Protect(id, plan, e.order.price, e.position.mark, a.protect)
  }

  lemma {:induction false} PairIsProtection(id: nat, plan: Plan, fill: real, mark: real, a: ProtectAnswers)
    ensures var p := Protect(id, plan, fill, mark, a);
      p.pair.Some? ==> Protects(p.pair.value.0, id) && Protects(p.pair.value.1, id)
  {
    hide Levels, Cancels;
  }

  lemma {:induction false} PlacementHandles(id: nat, plan: Plan, fill: real, mark: real, a: ProtectAnswers, ref: string)
    requires var p := Protect(id, plan, fill, mark, a); ref in p.accepted && !LeavesStop(p, a)
    ensures var p := Protect(id, plan, fill, mark, a);
      || Handled(p, ref)
      || (p.pair.Some? && ref in [p.pair.value.0.external, p.pair.value.1.external]
          && Protects(p.pair.value.0, id) && Protects(p.pair.value.1, id))
  {
    hide Protect, Handled, Protects;
    PairIsProtection(id, plan, fill, mark, a);
    if Protect(id, plan, fill, mark, a).pair.None? {
      FailedPlacementCleansUpExactly(id, plan, fill, mark, a);
    } else {
      StoredPairLeavesNoStray(id, plan, fill, mark, a);
    }
  }

  lemma {:induction false} ExecutionAccounts(db: Db, id: nat, a: ExecAnswers, ref: string)
    requires id < |db.plans| && Refusal(db, id, true, a).None?
    requires ref in PlacementOf(db, id, a).accepted && !LeavesStop(PlacementOf(db, id, a), a.protect)
    ensures Accounted(TestnetExecute(db, id, true, a).0, id, PlacementOf(db, id, a), ref)
  {
    var plan, after, p := db.plans[id], TestnetExecute(db, id, true, a).0, PlacementOf(db, id, a);
    var e := EntryOf(id, plan, RoundToStep(RawQuantity(plan), a.step.value), a.place.payload, a);
    hide EntryOf, RawQuantity, RoundToStep, Refusal, EventsFor, Protect, LeavesStop, Protects;
    assert p == Protect(id, plan, e.order.price, e.position.mark, a.protect);
    PlacementHandles(id, plan, e.order.price, e.position.mark, a.protect, ref);
    var kinds := e.events + p.events + [ExecutionSubmitted];
    assert after.events == db.events + EventsFor(id, kinds);
    if CleanupFailed(ref) in p.events {
      LoggedKind(id, kinds, CleanupFailed(ref));
    } else if p.pair.Some? {
      var n := |db.orders|;
      assert after.orders[n + 1] == p.pair.value.0 && after.orders[n + 2] == p.pair.value.1;
    }
  }

  lemma {:induction false} RunStep(calls: seq<Call>, k: nat)
    requires k < |calls|
    ensures Run(calls[..k + 1]) == Apply(Run(calls[..k]), calls[k])
  {
    assert calls[..k + 1][..k] == calls[..k];
    hide Apply;
  }

  /** Whatever happens afterwards in a run, every protection order the exchange accepted during an execution is stored,
      was cancelled, or is named by a warning, unless its placement was the one that leaves an accepted stop behind. */
  lemma {:induction false} AcceptedOrdersStayAccountedFor(calls: seq<Call>, k: nat, ref: string)
    requires k < |calls| && calls[k].Testnet? && calls[k].enabled
    requires var db, id := Run(calls[..k]), calls[k].id; id < |db.plans| && Refusal(db, id, true, calls[k].exec).None?
    requires var p := PlacementOf(Run(calls[..k]), calls[k].id, calls[k].exec);
      ref in p.accepted && !LeavesStop(p, calls[k].exec.protect)
    ensures Accounted(Run(calls), calls[k].id, PlacementOf(Run(calls[..k]), calls[k].id, calls[k].exec), ref)
  {
    hide Run, TestnetExecute, PlacementOf, Accounted, Progress, LeavesStop, Refusal;
    var db, id, a := Run(calls[..k]), calls[k].id, calls[k].exec;
    ExecutionAccounts(db, id, a, ref);
    RunStep(calls, k);
    RunProgress(calls, k + 1);
    AccountedStays(Run(calls[..k + 1]), Run(calls), id, PlacementOf(db, id, a), ref);
  }

  // ----- A plan left unprotected is watched, and not shot down at once -----

  lemma {:induction false} LevelsFromLog(plan: Plan, id: nat, es: seq<Event>, e: Event, f: EventKind)
    requires f.ProtectionFailed? && !e.kind.ProtectionFailed?
    ensures LocalLevels(plan, id, es + [Event(id, f), e]) == (f.stop, f.profit)
  {
    var all := es + [Event(id, f), e];
    assert all[..|all| - 1] == es + [Event(id, f)];
    assert LocalLevels(plan, id, all) == LocalLevels(plan, id, es + [Event(id, f)]);
  }

  lemma {:induction false} LoggedTail(db: Db, id: nat, init: seq<EventKind>, last: EventKind)
    ensures db.events + EventsFor(id, init + [last, ExecutionSubmitted]) ==
      db.events + EventsFor(id, init) + [Event(id, last), Event(id, ExecutionSubmitted)]
  {
  }

  lemma {:induction false} ApprovedIsBare(db: Db, id: nat)
    requires Invariant(db) && id < |db.plans| && db.plans[id].status == Approved
    ensures ProtectionOf(db.orders, id) == []
  {
    assert Consistent(ViewOf(db, id));
  }

  /** The entry an execution makes. */
  function EntryMade(db: Db, id: nat, a: ExecAnswers): Entry
    requires id < |db.plans| && Refusal(db, id, true, a).None?
  {
    EntryOf(id, db.plans[id], RoundToStep(RawQuantity(db.plans[id]), a.step.value), a.place.payload, a)
  }

  /** The tables after an execution whose protection failed: one order, one open position, the failure logged last. */
  lemma {:induction false} FailedExecution(db: Db, id: nat, a: ExecAnswers)
    requires id < |db.plans| && Refusal(db, id, true, a).None?
    requires TestnetExecute(db, id, true, a).1.protectionFailed
    ensures var plan, e, p := db.plans[id], EntryMade(db, id, a), PlacementOf(db, id, a);
      var after := TestnetExecute(db, id, true, a).0;
      && plan.status == Approved
      && after.orders == db.orders + [e.order] && after.positions == db.positions + [e.position]
      && after.plans == db.plans[id := plan.(status := TestnetExecuted)]
      && after.events == db.events + EventsFor(id, e.events + p.events + [ExecutionSubmitted])
      && SoundEntry(id, plan, e) && |p.events| > 0
      && var (stop, profit) := Levels(plan, e.order.price, e.position.mark, a.protect.tick);
         p.events[|p.events| - 1] == ProtectionFailed(stop, profit, e.order.price, e.position.mark)
  {
    var plan, e := db.plans[id], EntryMade(db, id, a);
    EntryIsQuiet(id, plan, RoundToStep(RawQuantity(plan), a.step.value), a.place.payload, a);
    ProtectShape(id, plan, e.order.price, e.position.mark, a.protect);
    hide EntryOf, Protect, RawQuantity, RoundToStep, EventsFor, Levels, NoFailureIn, IsPair;
    assert [e.order] + PairRows(None) == [e.order];
  }

  /** What a sync finds after such an execution: no protection, and the levels derived then to watch. */
  lemma {:induction false} UnprotectedAfterFailure(db: Db, id: nat, a: ExecAnswers)
    requires Invariant(db) && id < |db.plans| && Refusal(db, id, true, a).None?
    requires TestnetExecute(db, id, true, a).1.protectionFailed
    ensures var after := TestnetExecute(db, id, true, a).0;
      var held := after.positions[|db.positions|];
      && |after.positions| == |db.positions| + 1 && held.planId == id && held.isOpen
      && ProtectionOf(after.orders, id) == [] && after.plans[id].status == TestnetExecuted
      && LocalLevels(after.plans[id], id, after.events) ==
           Levels(db.plans[id], held.entry, held.mark, a.protect.tick)
      && after.plans[id] == db.plans[id].(status := TestnetExecuted)
  {
    hide TestnetExecute, EntryMade, PlacementOf, Refusal, Invariant, OrdersOf, ProtectionOf, LocalLevels, EventsFor,
      Levels, NoFailureIn;
    FailedExecution(db, id, a);
    ApprovedIsBare(db, id);
    var e := EntryMade(db, id, a);
    FailureLoggedLast(db, TestnetExecute(db, id, true, a).0, id, e, PlacementOf(db, id, a));
    OneOrder(e.order);
    OrdersConcat(db.orders, [e.order], id);
  }

  lemma {:induction false} FailureLoggedLast(db: Db, after: Db, id: nat, e: Entry, p: Protection)
    requires id < |after.plans| && |p.events| > 0 && p.events[|p.events| - 1].ProtectionFailed?
    requires after.events == db.events + EventsFor(id, e.events + p.events + [ExecutionSubmitted])
    ensures LocalLevels(after.plans[id], id, after.events) ==
      (p.events[|p.events| - 1].stop, p.events[|p.events| - 1].profit)
  {
    hide LocalLevels, EventsFor;
    var f := p.events[|p.events| - 1];
    var init := e.events + p.events[..|p.events| - 1];
    assert e.events + p.events + [ExecutionSubmitted] == init + [f, ExecutionSubmitted];
    LoggedTail(db, id, init, f);
    LevelsFromLog(after.plans[id], id, db.events + EventsFor(id, init), Event(id, ExecutionSubmitted), f);
  }

  /** Placement fails, the levels are saved with the failure; a sync at the same mark price then finds them, triggers
      nothing and leaves every row as it is. */
  lemma {:induction false} FreshFailureIsNotClosedAtOnce(db: Db, id: nat, a: ExecAnswers, b: SyncAnswers)
    requires Invariant(db) && id < |db.plans| && Refusal(db, id, true, a).None?
    requires TestnetExecute(db, id, true, a).1.protectionFailed
    requires var plan, held := db.plans[id], TestnetExecute(db, id, true, a).0.positions[|db.positions|];
      var tick := if a.protect.tick.Some? then a.protect.tick.value else 0.0;
      HoldsOff(tick) || ClearOfRounding(plan.entry, plan.stopLoss, plan.takeProfit, held.entry, held.mark, tick)
    requires b.hasRisk && b.risk.Some?
    requires var mark := TestnetExecute(db, id, true, a).0.positions[|db.positions|].mark;
      b.risk.value.ToFloat(mark) == mark
    ensures var after := TestnetExecute(db, id, true, a).0;
      SyncExit(after, id, true, b) == (after, NothingTriggered)
  {
    UnprotectedAfterFailure(db, id, a);
    var after := TestnetExecute(db, id, true, a).0;
    var plan := db.plans[id];
    hide TestnetExecute, Invariant, LocalLevels, ProtectionOf, Refusal, ProtectionLevels, DetectLocalExit, HoldsOff,
      ClearOfRounding;
    var held := after.positions[|db.positions|];
    var tick := if a.protect.tick.Some? then a.protect.tick.value else 0.0;
    FreshLevelsDoNotFire(plan.side, plan.entry, plan.stopLoss, plan.takeProfit, held.entry, held.mark, tick);
    assert OpenPositionOf(after.positions, id) == Some(|db.positions|);
    assert after.positions == after.positions[|db.positions| := held];
  }

  // ----- What an execution stores -----

  /** The share of the capital a plan was approved to lose at its stop. */
  function ApprovedLoss(plan: Plan): real { plan.capital * (plan.riskPct / 100.0) }

  function StopDistance(plan: Plan): real { Abs(plan.entry - plan.stopLoss) }

  lemma {:induction false} RawQuantityRisks(plan: Plan)
    requires plan.entry != plan.stopLoss
    ensures Times(RawQuantity(plan), StopDistance(plan)) == ApprovedLoss(plan) && StopDistance(plan) > 0.0
  {
    var distance := Abs(plan.entry - plan.stopLoss);
    var q := plan.capital * (plan.riskPct / 100.0) / distance;
    assert q * distance == plan.capital * (plan.riskPct / 100.0);
  }

  /** A paper position loses the approved share at the planned stop, up to half a unit of the sixth decimal of its
      size. */
  lemma {:induction false} PaperPositionRisk(db: Db, id: nat)
    requires id < |db.plans| && db.plans[id].status == Approved && db.plans[id].entry != db.plans[id].stopLoss
    ensures var plan, after := db.plans[id], PaperExecute(db, id).0;
      && |after.positions| == |db.positions| + 1
      && var distance, held := StopDistance(plan), after.positions[|db.positions|];
         && held.entry == plan.entry && held.symbol == plan.symbol && held.side == plan.side
         && Abs(Times(held.quantity, distance) - ApprovedLoss(plan)) <= Times(0.0000005, distance)
  {
    var plan := db.plans[id];
    RawQuantityRisks(plan);
    RoundToError(RawQuantity(plan), 1000000.0);
    hide RawQuantity, RoundTo, Digits, Times, ApprovedLoss;
    TimesError(RoundTo(RawQuantity(plan), 1000000.0), RawQuantity(plan), 0.0000005, StopDistance(plan));
  }

  lemma {:induction false} SizedRisk(plan: Plan, step: real)
    requires UsableTick(step) && RoundToStep(RawQuantity(plan), step) > 0.0
    ensures var q := RoundToStep(RawQuantity(plan), step);
      && StopDistance(plan) > 0.0 && Times(q, StopDistance(plan)) <= ApprovedLoss(plan)
      && (step > 0.0 ==> SentAsSized(q))
  {
    NothingWithoutDistance(plan, step);
    RawQuantityRisks(plan);
    hide RawQuantity, DecimalSize, SentAsSized, Times, ApprovedLoss, StopDistance;
    if step > 0.0 {
      hide RoundToStep;
      SizedAtMost(RawQuantity(plan), StopDistance(plan), step);
    }
  }

  /** The text on the wire denotes the quantity itself. */
  predicate SentAsSized(q: real) { SerializeQuantity(q).Text? && ParseDecimal(SerializeQuantity(q).digits) == q }

  lemma {:induction false} SizedAtMost(raw: real, distance: real, step: real)
    requires distance > 0.0 && DecimalSize(step) && RoundToStep(raw, step) > 0.0
    ensures SentAsSized(RoundToStep(raw, step)) && Times(RoundToStep(raw, step), distance) <= Times(raw, distance)
  {
    hide DecimalSize, RoundToStep, SerializeQuantity, ParseDecimal;
    SizedSurvivesTheWire(raw, distance, step);
  }

  lemma {:induction false} EntryStored(db: Db, id: nat, a: ExecAnswers)
    requires id < |db.plans| && Refusal(db, id, true, a).None?
    ensures var after, q := TestnetExecute(db, id, true, a).0, RoundToStep(RawQuantity(db.plans[id]), a.step.value);
      && q > 0.0 && |after.orders| > |db.orders| && after.orders[|db.orders|].planId == id
      && after.orders[|db.orders|].kind == Market && after.orders[|db.orders|].quantity == q
  {
    hide RawQuantity, RoundToStep, Protect, EntryEvents, Confirmed, FillPrice, PriceOfTrades, QuantityOfTrades,
      TradesOf, NormalizeStatus, LeverageOf, LegacyExternalId, Pnl, EventsFor, OpenOn;
  }

  /** A testnet order is sized to lose at most the approved share of the capital at the planned stop, whatever the
      exchange answers, when its step is a decimal size or none; and its text on the wire is the quantity stored. */
  lemma {:induction false} TestnetOrderRisk(db: Db, id: nat, a: ExecAnswers)
    requires id < |db.plans| && Refusal(db, id, true, a).None? && UsableTick(a.step.value)
    ensures var plan, after := db.plans[id], TestnetExecute(db, id, true, a).0;
      && |after.orders| > |db.orders|
      && var order := after.orders[|db.orders|];
         && order.planId == id && order.kind == Market && order.quantity > 0.0 && StopDistance(plan) > 0.0
         && Times(order.quantity, StopDistance(plan)) <= ApprovedLoss(plan)
         && (a.step.value > 0.0 ==> SentAsSized(order.quantity))
  {
    EntryStored(db, id, a);
    hide TestnetExecute, RawQuantity, RoundToStep, SentAsSized, UsableTick, Times, ApprovedLoss, StopDistance, OpenOn;
    SizedRisk(db.plans[id], a.step.value);
  }

  lemma {:induction false} NothingWithoutDistance(plan: Plan, step: real)
    requires UsableTick(step) && RoundToStep(RawQuantity(plan), step) > 0.0
    ensures plan.entry != plan.stopLoss
  {
    if step > 0.0 {
      RoundToStepGreatest(RawQuantity(plan), step);
      hide RoundToStep, DecimalSize;
    }
  }

  lemma {:induction false} FillIsPositive(p: Payload, ts: seq<Trade>, fallback: real)
    requires fallback > 0.0
    ensures FillPrice(p, fallback) > 0.0 && PriceOfTrades(ts, fallback) > 0.0
  {
    hide TotalQty, TotalQuote;
    var qty, quote := p.executedQty.ToFloat(0.0), p.cumQuote.ToFloat(0.0);
    if qty > 0.0 && quote > 0.0 {
      QuotientPositive(quote, qty);
    }
    if TotalQty(ts) > 0.0 && TotalQuote(ts) > 0.0 {
      QuotientPositive(TotalQuote(ts), TotalQty(ts));
    }
  }

  /** Whatever the exchange answers, the stored entry has positive prices, its order and position agree, and it is empty
      only for a reply that names neither a fill nor an order still working. */
  lemma {:induction false} StoredEntryIsSound(id: nat, plan: Plan, q: real, sent: Payload, a: ExecAnswers)
    requires plan.entry > 0.0 && q > 0.0
    ensures var e := EntryOf(id, plan, q, sent, a);
      && e.order.price > 0.0 && e.position.mark > 0.0
      && e.position.entry == e.order.price && e.position.quantity == e.order.executed && e.order.quantity == q
      && (e.order.executed > 0.0 || e.order.status !in [Filled, PartiallyFilled, New])
      && (e.position.mark == e.order.price ==> e.position.pnl == 0.0)
  {
    var known := Confirmed(sent, a.confirm);
    FillIsPositive(known, [], plan.entry);
    FillIsPositive(known, TradesOf(known, a.trades), FillPrice(known, plan.entry));
    hide Confirmed, FillPrice, PriceOfTrades, QuantityOfTrades, TradesOf, NormalizeStatus, LeverageOf,
      ConfirmationFails, LegacyExternalId, Pnl;
    var e := EntryOf(id, plan, q, sent, a);
    FlatPnl(e.order.price, e.order.executed, plan.side);
  }

  lemma {:induction false} FlatPnl(price: real, executed: real, side: string)
    ensures Pnl(price, price, executed, side) == 0.0
  {
    assert Times(0.0, executed) == 0.0;
    assert RoundInt(0.0) == 0;
  }

  // ----- What a created plan carries -----

  /** An approved plan has a positive risk share and a real stop distance; a blocked one is worth nothing. */
  lemma {:induction false} CreatedPlanSizes(p: Proposal)
    requires RiskRuns.Sane(p.policy) && p.request.existing >= 0.0
    ensures PlanFor(p).status == Approved ==> PlanFor(p).riskPct > 0.0 && PlanFor(p).entry != PlanFor(p).stopLoss
    ensures PlanFor(p).status == Blocked ==> PlanFor(p).riskPct == 0.0 == PlanFor(p).notional
  {
    RiskRuns.GrantBounds(p.policy, p.limits, p.request, p.exposures);
  }

  /** The notional of an approved plan loses the plan's share of its capital at its stop, up to half a cent. */
  lemma {:induction false} CreatedPlanNotional(p: Proposal)
    requires PlanFor(p).status == Approved
    ensures var plan := PlanFor(p);
      R.LosesItsShare(plan.notional, plan.capital, plan.riskPct, plan.entry, plan.stopLoss)
  {
    R.NotionalRisksTheShare(p.policy, p.limits, p.request, p.exposures);
    hide R.LosesItsShare, R.Approved, R.AppliedRisk, R.Notional, G.MarketAdmits, R.PortfolioAfter;
  }
}
