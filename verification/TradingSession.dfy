/** The services as they run: tables held by a session, rewritten in place call by call. */
module TradingSession {
  import opened Numeric
  import opened Options
  import opened OrderMath
  import opened Records
  import opened Execution
  import opened ExecutionRuns
  import opened ExecutionTheorems
  import G = FinalGate
  import R = RiskEngine

  class Session {
    var plans: seq<Plan>
    var orders: seq<Order>
    var positions: seq<Position>
    var events: seq<Event>

    ghost function State(): Db
      reads this
    {
      Db(plans, orders, positions, events)
    }

    constructor ()
      ensures State() == EMPTY
    {
      plans, orders, positions, events := [], [], [], [];
    }

    method LogRiskEvent(id: nat, kind: EventKind)
      modifies `events
      ensures events == old(events) + EventsFor(id, [kind])
    {
      events := events + [Event(id, kind)];
    }

    method SetStatus(id: nat, status: PlanStatus)
      requires id < |plans|
      modifies `plans
      ensures plans == old(plans)[id := old(plans)[id].(status := status)]
    {
      plans := plans[id := plans[id].(status := status)];
    }

    method CreateTradePlan(p: Proposal) returns (created: Option<nat>)
      modifies this
      ensures State() == CreatePlan(old(State()), p)
      ensures created == if Answered(p) then Some(|old(plans)|) else None
      ensures created.Some? ==> |plans| == created.value + 1 && plans[created.value] == PlanFor(p)
    {
      hide G.Cleared, G.PlannedRisk, G.PlannedNotional, G.PlanEvents, G.VerdictOf, R.FiguresFit, R.Approved, R.ReasonOf,
        EventsFor;
      var decided := G.DecideTradePlan(p.policy, p.gate, p.limits, p.request, p.exposures);
      assert decided.Some? == Answered(p);
      hide Answered;
      if decided.None? {
        return None;
      }
      var sizing, id := decided.value, |plans|;
      plans := plans + [Plan(p.request.symbol, p.side, p.request.entry, p.request.stop, p.takeProfit,
                             p.request.capital, sizing.risk, sizing.notional,
                             if sizing.approved then Approved else Blocked)];
      ghost var log := Findings(p);
      LogNothing(events, id);
      for i := 0 to |sizing.events|
        invariant events == old(events) + EventsFor(id, log[..i])
        invariant orders == old(orders) && positions == old(positions) && |plans| == id + 1
        invariant plans == old(plans) + [PlanFor(p)]
      {
        LogRiskEvent(id, Decided(sizing.events[i]));
        LogJoined(old(events), id, log[..i], [log[i]]);
        assert log[..i + 1] == log[..i] + [log[i]];
      }
      assert log[..|sizing.events|] == log;
      created := Some(id);
    }

    method ExecuteOnPaper(id: nat) returns (outcome: PaperOutcome)
      modifies this
      ensures (State(), outcome) == PaperExecute(old(State()), id)
    {
      hide RawQuantity, Digits;
      if id >= |plans| {
        return PaperUnknownPlan;
      }
      var plan := plans[id];
      if plan.status != Approved {
        LogRiskEvent(id, PaperBlocked);
        return PaperNotApproved;
      }
      var quantity := RoundTo(RawQuantity(plan), 1000000.0);
      outcome := PaperDone(|orders|, |positions|);
      SetStatus(id, PaperExecuted);
      orders := orders + [Order(id, "paper-" + Digits(id), Market, Filled, plan.entry, quantity, quantity)];
      positions := positions + [Position(id, plan.symbol, plan.side, quantity, plan.entry, plan.entry, 0.0, 1, true)];
    }

    // ----- Protection orders -----

    /** Asks the exchange to cancel; a failure is logged under the caller's event. */
    method CancelExchangeOrder(id: nat, external: string, reason: EventKind, c: CancelClient) returns (ok: bool)
      modifies `events
      ensures ok <==> Cancels(c, external)
      ensures events == old(events) + EventsFor(id, if ok then [] else [reason])
    {
      var ref := ResolveRef(external);
      ok := ref.Some? && (if ref.value.IsAlgo() then c.hasCancelAlgo else c.hasCancel) && c.succeeds(external);
      if !ok {
        LogRiskEvent(id, reason);
      }
    }

    method PlaceProtectionOrders(id: nat, fill: real, mark: real, a: ProtectAnswers)
      returns (pair: Option<(Order, Order)>, accepted: seq<string>, canceled: seq<string>)
      requires id < |plans|
      modifies `events
      ensures var p := Protect(id, plans[id], fill, mark, a);
        && pair == p.pair && accepted == p.accepted && canceled == p.canceled
        && events == old(events) + EventsFor(id, p.events)
    {
      hide Levels, Cancels, AlgoExternalId, LegacyExternalId, AlgoStatus, EventsFor;
      var plan := plans[id];
      var levels := Levels(plan, fill, mark, a.tick);
      ghost var log: seq<EventKind> := [];
      LogNothing(events, id);
      accepted, canceled := [], [];
      if a.algo {
        if a.stopAlgo.Some? {
          accepted := [AlgoExternalId(a.stopAlgo.value, a.stopClient)];
          if a.profitAlgo.Some? {
            var rows := AlgoPair(id, levels, a.stopAlgo.value, a.profitAlgo.value, a);
            LogRiskEvent(id, Submitted(rows));
            return Some(rows), [rows.0.external, rows.1.external], [];
          }
          var ok := CancelExchangeOrder(id, accepted[0], CleanupFailed(accepted[0]), a.cancel);
          log := if ok then [] else [CleanupFailed(accepted[0])];
          canceled := if ok then accepted else [];
        }
      }
      if a.stopPlain.Some? {
        var stopRef := LegacyExternalId(a.stopPlain.value, a.stopClient);
        if a.profitPlain.Some? {
          var rows := PlainPair(id, levels, a.stopPlain.value, a.profitPlain.value, a);
          LogRiskEvent(id, Submitted(rows));
          LogJoined(old(events), id, log, [Submitted(rows)]);
          return Some(rows), accepted + [rows.0.external, rows.1.external], canceled;
        }
        accepted := accepted + [stopRef];
        if a.algo {
          var ok := CancelExchangeOrder(id, stopRef, CleanupFailed(stopRef), a.cancel);
          LogJoined(old(events), id, log, if ok then [] else [CleanupFailed(stopRef)]);
          log := log + if ok then [] else [CleanupFailed(stopRef)];
          canceled := canceled + if ok then [stopRef] else [];
        }
      }
      var failure := ProtectionFailed(levels.0, levels.1, fill, mark);
      LogRiskEvent(id, failure);
      LogJoined(old(events), id, log, [failure]);
      pair := None;
    }

    // ----- Testnet execution -----

    /** The checks before anything is sent, and the sending; None when the market order was accepted. */
    method TrySend(id: nat, enabled: bool, a: ExecAnswers) returns (refused: Option<ExecOutcome>, quantity: real)
      requires id < |plans|
      modifies `events
      ensures var refusal := Refusal(old(State()), id, enabled, a);
        && refused == (if refusal.Some? then Some(refusal.value.1) else None)
        && events == old(events) + EventsFor(id, if refusal.Some? then [refusal.value.0] else [])
        && (refused.None? ==>
              a.step.Some? && a.place.Placed? && quantity == RoundToStep(RawQuantity(plans[id]), a.step.value))
    {
      hide RawQuantity, RoundToStep, OpenOn;
      LogNothing(events, id);
      quantity := 0.0;
      var plan := plans[id];
      if !enabled {
        LogRiskEvent(id, ExecutionDisabledEvent);
        return Some(TestnetDisabled), quantity;
      }
      if plan.status != Approved {
        LogRiskEvent(id, BlockedNotApproved);
        return Some(NotApproved), quantity;
      }
      var existing := OpenOn(positions, plan.symbol, plan.side);
      if existing.Some? {
        LogRiskEvent(id, BlockedExistingPosition(existing.value));
        return Some(ExistingOpenPosition), quantity;
      }
      if a.step.None? {
        LogRiskEvent(id, StepSizeMissing);
        return Some(StepSizeUnavailable), quantity;
      }
      quantity := RoundToStep(RawQuantity(plan), a.step.value);
      if quantity <= 0.0 {
        LogRiskEvent(id, QuantityInvalid);
        return Some(InvalidQuantity), quantity;
      }
      if plan.side !in ["long", "short"] {
        LogRiskEvent(id, SideInvalid);
        return Some(InvalidSide), quantity;
      }
      match a.place
      case MissingCredentials =>
        LogRiskEvent(id, CredentialsMissingEvent);
        return Some(CredentialsMissing), quantity;
      case RuntimeFailure =>
        LogRiskEvent(id, RuntimeErrorEvent);
        return Some(ApiError), quantity;
      case OtherFailure =>
        LogRiskEvent(id, SendError);
        return Some(ApiError), quantity;
      case Placed(_) =>
        return None, quantity;
    }

    /** Leverage, mark price and profit so far, with local fallbacks. */
    method ReadPositionRisk(id: nat, side: string, price: real, executed: real, risk: RiskAnswer)
      returns (leverage: int, mark: real, pnl: real, ghost log: seq<EventKind>)
      modifies `events
      ensures events == old(events) + EventsFor(id, log)
      ensures log == (if risk.RiskRaises? then [PositionRiskFailed]
                      else if risk.RiskNotCallable? && risk.leverage.None? then [LeverageFallback] else [])
      ensures leverage == match risk
        case RiskNotCallable(x) => (if x.Some? then x.value else 1)
        case RiskReply(f, _) => LeverageOf(f)
        case _ => 1
      ensures mark == if risk.RiskReply? && risk.mark.ToFloat(0.0) > 0.0 then risk.mark.number else price
      ensures pnl == if risk.RiskReply? then Pnl(mark, price, executed, side) else 0.0
    {
      hide LeverageOf, Pnl, EventsFor;
      LogNothing(events, id);
      leverage, mark, pnl, log := 1, price, 0.0, [];
      match risk
      case RiskReply(field, quoted) =>
        leverage := LeverageOf(field);
        if quoted.ToFloat(0.0) > 0.0 {
          mark := quoted.number;
        }
        pnl := Pnl(mark, price, executed, side);
      case RiskRaises =>
        LogRiskEvent(id, PositionRiskFailed);
        log := [PositionRiskFailed];
      case RiskNotADict =>
      case RiskNotCallable(known) =>
        if known.Some? {
          leverage := known.value;
        } else {
          LogRiskEvent(id, LeverageFallback);
          log := [LeverageFallback];
        }
    }

    method ConfirmOrder(id: nat, sent: Payload, c: Confirmation)
      returns (known: Payload, ghost log: seq<EventKind>)
      modifies `events
      ensures known == Confirmed(sent, c) && events == old(events) + EventsFor(id, log)
      ensures log == if ConfirmationFails(sent, c) then [OrderRefreshFailed] else []
    {
      LogNothing(events, id);
      log := [];
      known := sent;
      if NeedsRefresh(sent) && !c.NotCallable? {
        if c.Raises? || !AskableId(sent.orderId) {
          LogRiskEvent(id, OrderRefreshFailed);
          log := [OrderRefreshFailed];
        } else if c.Reply? {
          known := Merge(sent, c.payload);
        }
      }
    }

    method LookUpTrades(id: nat, known: Payload, t: TradesAnswer)
      returns (trades: seq<Trade>, ghost log: seq<EventKind>)
      modifies `events
      ensures trades == TradesOf(known, t) && events == old(events) + EventsFor(id, log)
      ensures log == if !t.TradesNotCallable? && !known.orderId.NoId? && (t.TradesRaise? || !known.orderId.Numeric())
                     then [TradesLookupFailed] else []
    {
      LogNothing(events, id);
      log := [];
      trades := [];
      if !t.TradesNotCallable? && !known.orderId.NoId? {
        if t.TradesReply? && known.orderId.Numeric() {
          trades := t.trades;
        } else {
          LogRiskEvent(id, TradesLookupFailed);
          log := [TradesLookupFailed];
        }
      }
    }

    /** Confirms the order and gathers fills, leverage and mark price. */
    method BuildEntry(id: nat, quantity: real, sent: Payload, a: ExecAnswers) returns (order: Order, held: Position)
      requires id < |plans|
      modifies `events
      ensures var e := EntryOf(id, plans[id], quantity, sent, a);
        order == e.order && held == e.position && events == old(events) + EventsFor(id, e.events)
    {
      hide Confirmed, PriceOfTrades, QuantityOfTrades, TradesOf, FillPrice, NormalizeStatus, Pnl, ConfirmationFails,
        LegacyExternalId, AskableId, LeverageOf, EventsFor;
      var plan := plans[id];
      var known, confirmLog := ConfirmOrder(id, sent, a.confirm);
      var trades, tradesLog := LookUpTrades(id, known, a.trades);
      var price := FillPriceFromTrades(trades, FillPrice(known, plan.entry));
      var executed := ExecutedQuantityFromTrades(trades, known.executedQty.ToFloat(0.0));
      var status := NormalizeStatus(known.status, executed, quantity);
      if executed <= 0.0 && status in [Filled, PartiallyFilled, New] {
        executed := quantity;
      }
      var leverage, mark, pnl, riskLog := ReadPositionRisk(id, plan.side, price, executed, a.risk);
      LogJoined(old(events), id, confirmLog, tradesLog);
      LogJoined(old(events), id, confirmLog + tradesLog, riskLog);
      order := Order(id, LegacyExternalId(known, a.clientId), Market, status, price, quantity, executed);
      held := Position(id, plan.symbol, plan.side, executed, price, mark, pnl, leverage, true);
    }

    method ExecuteOnTestnet(id: nat, enabled: bool, a: ExecAnswers) returns (outcome: ExecOutcome)
      modifies this
      ensures (State(), outcome) == TestnetExecute(old(State()), id, enabled, a)
    {
      hide Refusal, EntryOf, Protect, RawQuantity, RoundToStep, EventsFor;
      if id >= |plans| {
        return ExecUnknownPlan;
      }
      var refused, quantity := TrySend(id, enabled, a);
      if refused.Some? {
        return refused.value;
      }
      LogNothing(old(events), id);
      var order, held := BuildEntry(id, quantity, a.place.payload, a);
      var pair, accepted, canceled := PlaceProtectionOrders(id, order.price, held.mark, a.protect);
      ghost var e := EntryOf(id, plans[id], quantity, a.place.payload, a);
      ghost var p := Protect(id, plans[id], order.price, held.mark, a.protect);
      SetStatus(id, TestnetExecuted);
      LogRiskEvent(id, ExecutionSubmitted);
      LogJoined(old(events), id, e.events, p.events);
      LogJoined(old(events), id, e.events + p.events, [ExecutionSubmitted]);
      outcome := Executed(|orders|, |positions|, pair.None?);
      orders := orders + ([order] + PairRows(pair));
      positions := positions + [held];
    }

    // ----- Exit synchronisation -----

    /** Phase one: ask about every protection order, change nothing. */
    method RefreshProtection(id: nat, a: SyncAnswers) returns (problem: Option<nat>, statuses: map<nat, Records.Status>)
      ensures problem == FirstProblem(orders, id, a, |orders|)
      ensures problem.None? ==> forall j :: 0 <= j < |orders| && Protects(orders[j], id) ==>
        j in statuses && RefreshOne(j, orders[j], a) == Status(statuses[j])
    {
      hide RefreshOne;
      statuses := map[];
      for j := 0 to |orders|
        invariant FirstProblem(orders, id, a, j).None?
        invariant forall i :: 0 <= i < j && Protects(orders[i], id) ==>
          i in statuses && RefreshOne(i, orders[i], a) == Status(statuses[i])
      {
        if Protects(orders[j], id) {
          var answer := RefreshOne(j, orders[j], a);
          if !answer.Status? {
            ProblemStays(orders, id, a, j, |orders|);
            return Some(j), statuses;
          }
          statuses := statuses[j := answer.status];
        }
      }
      problem := None;
    }

    /** Phase two: write the statuses back and remember the first filled order. */
    method WriteStatuses(id: nat, statuses: map<nat, Records.Status>, ghost a: SyncAnswers) returns (hit: Option<nat>)
      requires forall j :: 0 <= j < |orders| && Protects(orders[j], id) ==>
        j in statuses && RefreshOne(j, orders[j], a) == Status(statuses[j])
      modifies `orders
      ensures orders == RefreshedRows(old(orders), id, a)
      ensures hit == TriggeredBy(old(orders), id, a, |old(orders)|)
    {
      hide RefreshOne;
      hit := None;
      for j := 0 to |orders|
        invariant |orders| == |old(orders)|
        invariant forall i :: 0 <= i < j ==> orders[i] == RefreshedRow(i, old(orders)[i], id, a)
        invariant forall i :: j <= i < |orders| ==> orders[i] == old(orders)[i]
        invariant hit == TriggeredBy(old(orders), id, a, j)
      {
        if Protects(orders[j], id) {
          orders := orders[j := orders[j].(status := statuses[j])];
          if statuses[j] == Filled && hit.None? {
            hit := Some(j);
          }
        }
      }
    }

    /** Phase three: cancel what is still live, naming every order that could not be cancelled. */
    method SettleSiblings(id: nat, c: CancelClient) returns (canceled: Option<string>)
      modifies `orders, `events
      ensures orders == SettledRows(old(orders), id, c)
      ensures events == old(events) + EventsFor(id, SiblingEvents(old(orders), id, c, |old(orders)|))
      ensures canceled == LastCanceled(old(orders), id, c, |old(orders)|)
    {
      hide EventsFor, Terminal;
      LogNothing(events, id);
      canceled := None;
      for j := 0 to |orders|
        invariant |orders| == |old(orders)|
        invariant forall i :: 0 <= i < j ==> orders[i] == SettledRow(old(orders)[i], id, c)
        invariant forall i :: j <= i < |orders| ==> orders[i] == old(orders)[i]
        invariant events == old(events) + EventsFor(id, SiblingEvents(old(orders), id, c, j))
        invariant canceled == LastCanceled(old(orders), id, c, j)
      {
        if LiveSibling(orders[j], id) {
          ghost var so := SiblingEvents(old(orders), id, c, j);
          LogJoined(old(events), id, so, SiblingEvent(orders[j], c));
          var external := orders[j].external;
          var ref := ResolveRef(external);
          if ref.Some? && !(if ref.value.IsAlgo() then c.hasCancelAlgo else c.hasCancel) {
            LogRiskEvent(id, SiblingCancelUnavailable(external));
          } else {
            var ok := CancelExchangeOrder(id, external, SiblingCancelFailed(external), c);
            if ok {
              orders := orders[j := orders[j].(status := Canceled)];
              canceled := Some(external);
            }
          }
        } else {
          assert SiblingEvents(old(orders), id, c, j + 1) == SiblingEvents(old(orders), id, c, j);
        }
      }
    }

    method SyncWithProtection(id: nat, k: nat, a: SyncAnswers) returns (outcome: SyncOutcome)
      requires id < |plans| && k < |positions|
      modifies this
      ensures (State(), outcome) == SyncProtected(old(State()), id, k, a)
    {
      hide FirstProblem, TriggeredBy, RefreshedRows, SettledRows, SiblingEvents, LastCanceled, EventsFor, Cancels,
        RefreshOne;
      if !a.hasGetOrder && !a.hasGetAlgo {
        return GetOrderUnavailable;
      }
      var problem, statuses := RefreshProtection(id, a);
      if problem.Some? {
        var failed := orders[problem.value];
        var answer := RefreshOne(problem.value, failed, a);
        if answer == NoReference {
          return UnresolvableReference;
        }
        if answer == NoQuery {
          return GetOrderUnavailable;
        }
        LogRiskEvent(id, ExitRefreshFailed(failed.external));
        return RefreshFailed;
      }
      var hit := WriteStatuses(id, statuses, a);
      if hit.None? {
        return NothingTriggered;
      }
      RefreshKeepsRows(old(orders), id, a);
      var kind := orders[hit.value].kind;
      positions := positions[k := positions[k].(isOpen := false)];
      SetStatus(id, TestnetClosed);
      LogRiskEvent(id, ExitOrderFilled(kind));
      ghost var refreshed := orders;
      var canceled := SettleSiblings(id, a.cancel);
      LogJoined(old(events), id, [ExitOrderFilled(kind)], SiblingEvents(refreshed, id, a.cancel, |refreshed|));
      outcome := ExitFilled(kind, canceled);
    }

    method SyncWithoutProtection(id: nat, k: nat, a: SyncAnswers) returns (outcome: SyncOutcome)
      requires id < |plans| && k < |positions|
      modifies this
      ensures (State(), outcome) == SyncUnprotected(old(State()), id, k, a)
    {
      hide EventsFor, DetectLocalExit, LocalLevels, Confirmed, ConfirmationFails, FillPrice, NormalizeStatus,
        LegacyExternalId, Tolerance;
      LogNothing(events, id);
      var plan, held := plans[id], positions[k];
      if !a.hasRisk {
        return NoProtectionOrders;
      }
      if a.risk.None? {
        LogRiskEvent(id, LocalMarkUnavailable);
        return MarkUnavailable;
      }
      var quoted := a.risk.value.ToFloat(held.mark);
      if quoted > 0.0 {
        positions := positions[k := held.(mark := quoted)];
      }
      var mark := positions[k].mark;
      assert positions == old(positions)[k := held.(mark := mark)];
      var levels := LocalLevels(plan, id, events);
      var trigger := DetectLocalExit(plan.side, mark, levels.0, levels.1);
      if trigger == NoTrigger {
        return NothingTriggered;
      }
      if !a.hasClose {
        return CloseUnavailable;
      }
      var kind := KindOf(trigger);
      if a.close.None? {
        LogRiskEvent(id, LocalExitFailed(kind));
        return CloseFailed;
      }
      ghost var doubt: seq<EventKind> := [];
      if ConfirmationFails(a.close.value, a.confirm) {
        LogRiskEvent(id, OrderRefreshFailed);
        doubt := [OrderRefreshFailed];
      }
      LogJoined(old(events), id, doubt, [LocalExitNotFilled(kind)]);
      LogJoined(old(events), id, doubt, [LocalExitTriggered(kind)]);
      var reply := Confirmed(a.close.value, a.confirm);
      var price, qty := FillPrice(reply, mark), reply.executedQty.ToFloat(0.0);
      var status := NormalizeStatus(reply.status, qty, held.quantity);
      if status != Filled && qty < Max(0.0, held.quantity - Tolerance(held.quantity)) {
        LogRiskEvent(id, LocalExitNotFilled(kind));
        return CloseNotFilled;
      }
      positions := positions[k := positions[k].(isOpen := false, mark := price, pnl := 0.0)];
      assert positions == old(positions)[k := held.(mark := price, pnl := 0.0, isOpen := false)];
      SetStatus(id, TestnetClosed);
      outcome := LocalExit(kind, |orders|);
      orders := orders + [Order(id, LegacyExternalId(reply, a.clientId), kind, status, price, held.quantity, qty)];
      LogRiskEvent(id, LocalExitTriggered(kind));
    }

    method SyncExitOrders(id: nat, enabled: bool, a: SyncAnswers) returns (outcome: SyncOutcome)
      modifies this
      ensures (State(), outcome) == SyncExit(old(State()), id, enabled, a)
    {
      hide SyncProtected, SyncUnprotected, ProtectionOf;
      if !enabled {
        return SyncDisabled;
      }
      if id >= |plans| {
        return SyncUnknownPlan;
      }
      if plans[id].status == TestnetClosed {
        return AlreadyClosed;
      }
      var held := OpenPositionOf(positions, id);
      if held.None? {
        return NoOpenPosition;
      }
      if ProtectionOf(orders, id) == [] {
        outcome := SyncWithoutProtection(id, held.value, a);
      } else {
        outcome := SyncWithProtection(id, held.value, a);
      }
    }

    /** The session closes: what was not committed is lost. */
    method RollBack(saved: Db)
      modifies this
      ensures State() == saved
    {
      plans, orders, positions, events := saved.plans, saved.orders, saved.positions, saved.events;
    }

    /** A sync in a session of its own. */
    method SyncInOwnSession(id: nat, enabled: bool, a: SyncAnswers) returns (outcome: SyncOutcome)
      modifies this
      ensures (State(), outcome) == SyncOne(old(State()), id, enabled, a)
    {
      hide SyncExit, Commits;
      var saved := Db(plans, orders, positions, events);
      outcome := SyncExitOrders(id, enabled, a);
      if !Commits(outcome) {
        RollBack(saved);
      }
    }

    /** The batch run: every plan with an open position, in turn, in one session; errors are passed over. */
    method SyncOpenExits(enabled: bool, answers: nat -> SyncAnswers) returns (report: BatchReport)
      modifies this
      ensures State() == Apply(old(State()), SyncOpen(enabled, answers))
      ensures report == ReportOf(old(State()), enabled, answers)
    {
      hide SyncExit, Commits, Checked, LeavesPosition, CountTriggered;
      var ids := OpenPlans(positions);
      var saved := Db(plans, orders, positions, events);
      var results: seq<(nat, SyncOutcome)> := [];
      var triggered := 0;
      NoneTriggered();
      for i := 0 to |ids|
        invariant Batch(saved, State(), results) == SyncAll(old(State()), ids[..i], enabled, answers)
        invariant triggered == CountTriggered(results)
      {
        assert ids[..i + 1][..i] == ids[..i];
        var outcome := SyncExitOrders(ids[i], enabled, answers(ids[i]));
        if Commits(outcome) {
          saved := Db(plans, orders, positions, events);
        }
        if Checked(outcome) {
          CountNext(results, (ids[i], outcome));
          results := results + [(ids[i], outcome)];
          triggered := triggered + if LeavesPosition(outcome) then 1 else 0;
        }
      }
      assert ids[..|ids|] == ids;
      RollBack(saved);
      report := BatchReport(|ids|, |results|, triggered, results);
    }
  }

  lemma {:induction false} NoneTriggered()
    ensures CountTriggered([]) == 0
  {
  }

  lemma {:induction false} LogNothing(es: seq<Event>, id: nat)
    ensures es + EventsFor(id, []) == es
  {
  }

  lemma {:induction false} LogJoined(es: seq<Event>, id: nat, first: seq<EventKind>, second: seq<EventKind>)
    ensures es + EventsFor(id, first) + EventsFor(id, second) == es + EventsFor(id, first + second)
  {
  }

  lemma {:induction false} ProblemStays(os: seq<Order>, id: nat, a: SyncAnswers, j: nat, n: nat)
    requires j < n <= |os| && FirstProblem(os, id, a, j).None?
    requires Protects(os[j], id) && !RefreshOne(j, os[j], a).Status?
    ensures FirstProblem(os, id, a, n) == Some(j)
  {
    if j + 1 < n {
      ProblemStays(os, id, a, j, n - 1);
    }
  }
}
