/** What the paper and testnet execution calls do to the tables, for whatever the exchange answers. */
module Execution {
  import opened Numeric
  import opened Options
  import opened OrderMath
  import opened Records

  // ----- Rows of one plan -----

  predicate IsProtection(o: Order) { o.kind != Market }

  predicate Protects(o: Order, id: nat) { o.planId == id && IsProtection(o) }

  function OrdersOf(os: seq<Order>, id: nat): seq<Order> {
    if os == [] then []
    else OrdersOf(os[..|os| - 1], id) + if os[|os| - 1].planId == id then [os[|os| - 1]] else []
  }

  function ProtectionOf(os: seq<Order>, id: nat): seq<Order> {
    if os == [] then []
    else ProtectionOf(os[..|os| - 1], id) + if Protects(os[|os| - 1], id) then [os[|os| - 1]] else []
  }

  function PositionsOf(ps: seq<Position>, id: nat): seq<Position> {
    if ps == [] then []
    else PositionsOf(ps[..|ps| - 1], id) + if ps[|ps| - 1].planId == id then [ps[|ps| - 1]] else []
  }

  /** The newest open position of a plan. */
  function OpenPositionOf(ps: seq<Position>, id: nat): (k: Option<nat>)
    ensures k.Some? ==> k.value < |ps| && ps[k.value].planId == id && ps[k.value].isOpen
  {
    if ps == [] then None
    else
      var n := |ps| - 1;
      if ps[n].planId == id && ps[n].isOpen then Some(n) else OpenPositionOf(ps[..n], id)
  }

  /** The oldest open position on a symbol and side, whichever plan it belongs to. */
  function OpenOn(ps: seq<Position>, symbol: string, side: string): (k: Option<nat>)
    ensures k.Some? ==> k.value < |ps| && ps[k.value].isOpen
    ensures k.None? <==> forall i :: 0 <= i < |ps| ==>
      !(ps[i].isOpen && ps[i].symbol == symbol && ps[i].side == side)
  {
    if ps == [] then None
    else
      var n := |ps| - 1;
      var earlier := OpenOn(ps[..n], symbol, side);
      assert forall i :: 0 <= i < n ==> ps[i] == ps[..n][i];
      if earlier.Some? then earlier
      else if ps[n].isOpen && ps[n].symbol == symbol && ps[n].side == side then Some(n) else None
  }

  function EventsFor(id: nat, kinds: seq<EventKind>): seq<Event> {
    seq(|kinds|, i requires 0 <= i < |kinds| => Event(id, kinds[i]))
  }

  function Log(db: Db, id: nat, kinds: seq<EventKind>): Db {
    db.(events := db.events + EventsFor(id, kinds))
  }

  function WithStatus(db: Db, id: nat, s: PlanStatus): Db
    requires id < |db.plans|
  {
    db.(plans := db.plans[id := db.plans[id].(status := s)])
  }

  // ----- Cancelling -----

  datatype CancelClient = CancelClient(hasCancel: bool, hasCancelAlgo: bool, succeeds: string -> bool)

  /** Whether asking for a cancellation works out; an unresolvable reference never does. */
  predicate Cancels(c: CancelClient, external: string) {
    match ResolveRef(external)
    case None => false
    case Some(ref) => (if ref.IsAlgo() then c.hasCancelAlgo else c.hasCancel) && c.succeeds(external)
  }

  // ----- Protection orders -----

  datatype ProtectAnswers = ProtectAnswers(tick: Option<real>, algo: bool,
                                           stopAlgo: Option<AlgoPayload>, profitAlgo: Option<AlgoPayload>,
                                           stopPlain: Option<Payload>, profitPlain: Option<Payload>,
                                           cancel: CancelClient, stopClient: string, profitClient: string)

  /** pair: the rows to store. accepted, canceled: what the exchange took on and gave up during the call. */
  datatype Protection = Protection(pair: Option<(Order, Order)>, events: seq<EventKind>,
                                   accepted: seq<string>, canceled: seq<string>)

  function Levels(plan: Plan, fill: real, mark: real, tick: Option<real>): (real, real) {
    ProtectionLevels(plan.side, plan.entry, plan.stopLoss, plan.takeProfit, fill, mark,
                     if tick.Some? then tick.value else 0.0)
  }

  function ProtectionRow(id: nat, external: string, kind: OrderKind, status: Status, price: real): Order {
    Order(id, external, kind, status, price, 0.0, 0.0)
  }

  function AlgoPair(id: nat, levels: (real, real), s: AlgoPayload, t: AlgoPayload, a: ProtectAnswers): (Order, Order) {
    (ProtectionRow(id, AlgoExternalId(s, a.stopClient), StopOrder, AlgoStatus(s), levels.0),
     ProtectionRow(id, AlgoExternalId(t, a.profitClient), TakeProfitOrder, AlgoStatus(t), levels.1))
  }

  function PlainPair(id: nat, levels: (real, real), s: Payload, t: Payload, a: ProtectAnswers): (Order, Order) {
    (ProtectionRow(id, LegacyExternalId(s, a.stopClient), StopOrder, PlainStatus(s, New), levels.0),
     ProtectionRow(id, LegacyExternalId(t, a.profitClient), TakeProfitOrder, PlainStatus(t, New), levels.1))
  }

  function Submitted(pair: (Order, Order)): EventKind {
    ProtectionSubmitted(pair.0.external, pair.1.external)
  }

  function CleanUp(c: CancelClient, ref: string): seq<EventKind> {
    if Cancels(c, ref) then [] else [CleanupFailed(ref)]
  }

  /** Algo orders first; when one of them fails, the accepted one is cancelled and plain orders are tried. */
  function Protect(id: nat, plan: Plan, fill: real, mark: real, a: ProtectAnswers): Protection {
    var levels := Levels(plan, fill, mark, a.tick);
    var failed := ProtectionFailed(levels.0, levels.1, fill, mark);
    if a.algo && a.stopAlgo.Some? && a.profitAlgo.Some? then
      var pair := AlgoPair(id, levels, a.stopAlgo.value, a.profitAlgo.value, a);
      Protection(Some(pair), [Submitted(pair)], [pair.0.external, pair.1.external], [])
    else
      var early := if a.algo && a.stopAlgo.Some? then [AlgoExternalId(a.stopAlgo.value, a.stopClient)] else [];
      var cleaned := if early == [] then [] else CleanUp(a.cancel, early[0]);
      var gone := if early != [] && Cancels(a.cancel, early[0]) then early else [];
      if a.stopPlain.None? then Protection(None, cleaned + [failed], early, gone)
      else
        var stopRef := LegacyExternalId(a.stopPlain.value, a.stopClient);
        if a.profitPlain.None? then
          if a.algo then
            Protection(None, cleaned + CleanUp(a.cancel, stopRef) + [failed], early + [stopRef],
                       gone + if Cancels(a.cancel, stopRef) then [stopRef] else [])
          else Protection(None, cleaned + [failed], early + [stopRef], gone)
        else
          var pair := PlainPair(id, levels, a.stopPlain.value, a.profitPlain.value, a);
          Protection(Some(pair), cleaned + [Submitted(pair)],
                     early + [pair.0.external, pair.1.external], gone)
  }

  // ----- Paper execution -----

  datatype PaperOutcome = PaperUnknownPlan | PaperNotApproved | PaperDone(order: nat, position: nat)

  function RawQuantity(plan: Plan): real {
    var distance := Abs(plan.entry - plan.stopLoss);
    if distance == 0.0 then 0.0 else plan.capital * (plan.riskPct / 100.0) / distance
  }

  function PaperExecute(db: Db, id: nat): (Db, PaperOutcome) {
    if id >= |db.plans| then (db, PaperUnknownPlan)
    else if db.plans[id].status != Approved then (Log(db, id, [PaperBlocked]), PaperNotApproved)
    else
      var plan := db.plans[id];
      var q := RoundTo(RawQuantity(plan), 1000000.0);
      var order := Order(id, "paper-" + Digits(id), Market, Filled, plan.entry, q, q);
      var position := Position(id, plan.symbol, plan.side, q, plan.entry, plan.entry, 0.0, 1, true);
      (WithStatus(db, id, PaperExecuted).(orders := db.orders + [order], positions := db.positions + [position]),
       PaperDone(|db.orders|, |db.positions|))
  }

  // ----- Testnet execution -----

  datatype PlaceAnswer = Placed(payload: Payload) | MissingCredentials | RuntimeFailure | OtherFailure

  datatype TradesAnswer = TradesNotCallable | TradesRaise | TradesReply(trades: seq<Trade>)

  datatype RiskAnswer = RiskNotCallable(leverage: Option<int>) | RiskRaises | RiskNotADict
                      | RiskReply(leverageField: Field, mark: Field)

  datatype ExecAnswers = ExecAnswers(step: Option<real>, place: PlaceAnswer, confirm: Confirmation,
                                     trades: TradesAnswer, risk: RiskAnswer, clientId: string,
                                     protect: ProtectAnswers)

  datatype ExecOutcome =
    | ExecUnknownPlan | TestnetDisabled | NotApproved | ExistingOpenPosition | StepSizeUnavailable
    | InvalidQuantity | InvalidSide | CredentialsMissing | ApiError
    | Executed(order: nat, position: nat, protectionFailed: bool)

  /** Why an execution stops before anything is sent, if it does. */
  function Refusal(db: Db, id: nat, enabled: bool, a: ExecAnswers): Option<(EventKind, ExecOutcome)>
    requires id < |db.plans|
  {
    var plan := db.plans[id];
    var existing := OpenOn(db.positions, plan.symbol, plan.side);
    if !enabled then Some((ExecutionDisabledEvent, TestnetDisabled))
    else if plan.status != Approved then Some((BlockedNotApproved, NotApproved))
    else if existing.Some? then Some((BlockedExistingPosition(existing.value), ExistingOpenPosition))
    else if a.step.None? then Some((StepSizeMissing, StepSizeUnavailable))
    else if RoundToStep(RawQuantity(plan), a.step.value) <= 0.0 then Some((QuantityInvalid, InvalidQuantity))
    else if plan.side !in ["long", "short"] then Some((SideInvalid, InvalidSide))
    else match a.place
      case MissingCredentials => Some((CredentialsMissingEvent, CredentialsMissing))
      case RuntimeFailure => Some((RuntimeErrorEvent, ApiError))
      case OtherFailure => Some((SendError, ApiError))
      case Placed(_) => None
  }

  /** The entry order and position that result from an accepted market order. */
  datatype Entry = Entry(order: Order, position: Position, events: seq<EventKind>)

  function Trunc(x: real): int { if x >= 0.0 then x.Floor else -((-x).Floor) }

  function LeverageOf(f: Field): int {
    var x := f.ToFloat(1.0);
    if x == 0.0 then 1 else Trunc(x)
  }

  function TradesOf(p: Payload, t: TradesAnswer): seq<Trade> {
    if t.TradesReply? && p.orderId.Numeric() then t.trades else []
  }

  function EntryEvents(sent: Payload, known: Payload, a: ExecAnswers): seq<EventKind> {
    (if ConfirmationFails(sent, a.confirm) then [OrderRefreshFailed] else []) +
    (if !a.trades.TradesNotCallable? && !known.orderId.NoId? && (a.trades.TradesRaise? || !known.orderId.Numeric())
     then [TradesLookupFailed] else []) +
    (if a.risk.RiskRaises? then [PositionRiskFailed]
     else if a.risk.RiskNotCallable? && a.risk.leverage.None? then [LeverageFallback] else [])
  }

  function EntryOf(id: nat, plan: Plan, quantity: real, sent: Payload, a: ExecAnswers): Entry {
    var known := Confirmed(sent, a.confirm);
    var trades := TradesOf(known, a.trades);
    var price := PriceOfTrades(trades, FillPrice(known, plan.entry));
    var raw := QuantityOfTrades(trades, known.executedQty.ToFloat(0.0));
    var status := NormalizeStatus(known.status, raw, quantity);
    var executed := if raw <= 0.0 && status in [Filled, PartiallyFilled, New] then quantity else raw;
    var leverage := match a.risk
      case RiskNotCallable(x) => if x.Some? then x.value else 1
      case RiskReply(f, _) => LeverageOf(f)
      case _ => 1;
    var mark := if a.risk.RiskReply? && a.risk.mark.ToFloat(0.0) > 0.0 then a.risk.mark.number else price;
    var pnl := if !a.risk.RiskReply? then 0.0
               else Pnl(mark, price, executed, plan.side);
    Entry(Order(id, LegacyExternalId(known, a.clientId), Market, status, price, quantity, executed),
          Position(id, plan.symbol, plan.side, executed, price, mark, pnl, leverage, true),
          EntryEvents(sent, known, a))
  }

  function Pnl(mark: real, price: real, executed: real, side: string): real {
    RoundTo(Times(Times(mark - price, executed), if side == "long" then 1.0 else -1.0), 100000000.0)
  }

  function PairRows(p: Option<(Order, Order)>): seq<Order> {
    if p.Some? then [p.value.0, p.value.1] else []
  }

  function TestnetExecute(db: Db, id: nat, enabled: bool, a: ExecAnswers): (Db, ExecOutcome) {
    if id >= |db.plans| then (db, ExecUnknownPlan)
    else
      var refusal := Refusal(db, id, enabled, a);
      if refusal.Some? then (Log(db, id, [refusal.value.0]), refusal.value.1)
      else
        var plan := db.plans[id];
        var q := RoundToStep(RawQuantity(plan), a.step.value);
        var e := EntryOf(id, plan, q, a.place.payload, a);
        var protection := Protect(id, plan, e.order.price, e.position.mark, a.protect);
        var rows := [e.order] + PairRows(protection.pair);
        (Log(WithStatus(db, id, TestnetExecuted), id, e.events + protection.events + [ExecutionSubmitted])
           .(orders := db.orders + rows, positions := db.positions + [e.position]),
         Executed(|db.orders|, |db.positions|, protection.pair.None?))
  }

  // ----- Exit synchronisation -----

  datatype SyncAnswers = SyncAnswers(hasRisk: bool, risk: Option<Field>, hasClose: bool, close: Option<Payload>,
                                     confirm: Confirmation, clientId: string,
                                     hasGetOrder: bool, hasGetAlgo: bool,
                                     algo: nat -> Option<AlgoPayload>, actual: nat -> Option<Payload>,
                                     plain: nat -> Option<Payload>, cancel: CancelClient)

  datatype SyncOutcome =
    | SyncDisabled | SyncUnknownPlan | AlreadyClosed | NoOpenPosition
    | NoProtectionOrders | MarkUnavailable | NothingTriggered | CloseUnavailable | CloseFailed | CloseNotFilled
    | LocalExit(trigger: OrderKind, closeOrder: nat)
    | GetOrderUnavailable | RefreshFailed | UnresolvableReference
    | ExitFilled(trigger: OrderKind, canceledSibling: Option<string>)

  datatype Refreshed = Status(status: Records.Status) | NoQuery | QueryFailed | NoReference

  /** What asking the exchange about protection order j brings. */
  function RefreshOne(j: nat, o: Order, a: SyncAnswers): Refreshed {
    match ResolveRef(o.external)
    case None => NoReference
    case Some(ref) =>
      if ref.IsAlgo() then
        if !a.hasGetAlgo then NoQuery
        else match a.algo(j)
          case None => QueryFailed
          case Some(p) =>
            if p.actualOrderId !in [NoId, Label(""), Label("0")] && a.hasGetOrder then
              if !p.actualOrderId.Numeric() || a.actual(j).None? then QueryFailed
              else Status(PlainStatus(a.actual(j).value, New))
            else Status(AlgoStatus(p))
      else if !a.hasGetOrder || a.plain(j).None? then QueryFailed
      else Status(PlainStatus(a.plain(j).value, o.status))
  }

  /** The first protection order among the first n rows whose refresh brings no status. */
  function FirstProblem(os: seq<Order>, id: nat, a: SyncAnswers, n: nat): (k: Option<nat>)
    requires n <= |os|
    ensures k.Some? ==> k.value < n && Protects(os[k.value], id) && !RefreshOne(k.value, os[k.value], a).Status?
    ensures k.None? ==> forall j :: 0 <= j < n && Protects(os[j], id) ==> RefreshOne(j, os[j], a).Status?
  {
    if n == 0 then None
    else
      var earlier := FirstProblem(os, id, a, n - 1);
      if earlier.Some? then earlier
      else if Protects(os[n - 1], id) && !RefreshOne(n - 1, os[n - 1], a).Status? then Some(n - 1)
      else None
  }

  predicate AllRefreshed(os: seq<Order>, id: nat, a: SyncAnswers) {
    forall j :: 0 <= j < |os| && Protects(os[j], id) ==> RefreshOne(j, os[j], a).Status?
  }

  predicate FilledAt(os: seq<Order>, id: nat, a: SyncAnswers, j: nat)
    requires j < |os|
  {
    Protects(os[j], id) && RefreshOne(j, os[j], a) == Status(Filled)
  }

  /** The first protection order among the first n rows that has been filled. */
  function TriggeredBy(os: seq<Order>, id: nat, a: SyncAnswers, n: nat): (k: Option<nat>)
    requires n <= |os|
    ensures k.Some? ==> k.value < n && FilledAt(os, id, a, k.value)
    ensures k.Some? ==> forall j :: 0 <= j < k.value ==> !FilledAt(os, id, a, j)
    ensures k.None? ==> forall j :: 0 <= j < n ==> !FilledAt(os, id, a, j)
  {
    if n == 0 then None
    else
      var earlier := TriggeredBy(os, id, a, n - 1);
      if earlier.Some? then earlier
      else if FilledAt(os, id, a, n - 1) then Some(n - 1)
      else None
  }

  predicate Terminal(s: Records.Status) { s in [Filled, Canceled, Expired, Rejected] }

  /** Row j once the refreshed statuses are written back. */
  function RefreshedRow(j: nat, o: Order, id: nat, a: SyncAnswers): Order {
    if Protects(o, id) && RefreshOne(j, o, a).Status? then o.(status := RefreshOne(j, o, a).status) else o
  }

  function RefreshedRows(os: seq<Order>, id: nat, a: SyncAnswers): seq<Order> {
    seq(|os|, j requires 0 <= j < |os| => RefreshedRow(j, os[j], id, a))
  }

  /** A sibling left live by the refresh, to be cancelled once another order has been filled. */
  predicate LiveSibling(o: Order, id: nat) { Protects(o, id) && !Terminal(o.status) }

  function SettledRow(o: Order, id: nat, c: CancelClient): Order {
    if LiveSibling(o, id) && Cancels(c, o.external) then o.(status := Canceled) else o
  }

  function SettledRows(os: seq<Order>, id: nat, c: CancelClient): seq<Order> {
    seq(|os|, j requires 0 <= j < |os| => SettledRow(os[j], id, c))
  }

  function SiblingEvent(o: Order, c: CancelClient): seq<EventKind> {
    if Cancels(c, o.external) then []
    else if ResolveRef(o.external).Some? &&
            !(if ResolveRef(o.external).value.IsAlgo() then c.hasCancelAlgo else c.hasCancel)
    then [SiblingCancelUnavailable(o.external)]
    else [SiblingCancelFailed(o.external)]
  }

  function SiblingEvents(os: seq<Order>, id: nat, c: CancelClient, n: nat): seq<EventKind>
    requires n <= |os|
  {
    if n == 0 then []
    else SiblingEvents(os, id, c, n - 1) + if LiveSibling(os[n - 1], id) then SiblingEvent(os[n - 1], c) else []
  }

  function LastCanceled(os: seq<Order>, id: nat, c: CancelClient, n: nat): Option<string>
    requires n <= |os|
  {
    if n == 0 then None
    else if LiveSibling(os[n - 1], id) && Cancels(c, os[n - 1].external) then Some(os[n - 1].external)
    else LastCanceled(os, id, c, n - 1)
  }

  function ClosePosition(db: Db, id: nat, k: nat): Db
    requires id < |db.plans| && k < |db.positions|
  {
    WithStatus(db, id, TestnetClosed).(positions := db.positions[k := db.positions[k].(isOpen := false)])
  }

  function SyncProtected(db: Db, id: nat, k: nat, a: SyncAnswers): (Db, SyncOutcome)
    requires id < |db.plans| && k < |db.positions|
  {
    if !a.hasGetOrder && !a.hasGetAlgo then (db, GetOrderUnavailable)
    else
      var problem := FirstProblem(db.orders, id, a, |db.orders|);
      if problem.Some? then
        var o := db.orders[problem.value];
        match RefreshOne(problem.value, o, a)
        case NoReference => (db, UnresolvableReference)
        case NoQuery => (db, GetOrderUnavailable)
        case _ => (Log(db, id, [ExitRefreshFailed(o.external)]), RefreshFailed)
      else
        var refreshed := RefreshedRows(db.orders, id, a);
        var hit := TriggeredBy(db.orders, id, a, |db.orders|);
        if hit.None? then (db.(orders := refreshed), NothingTriggered)
        else
          var kind := db.orders[hit.value].kind;
          (Log(ClosePosition(db, id, k).(orders := SettledRows(refreshed, id, a.cancel)), id,
               [ExitOrderFilled(kind)] + SiblingEvents(refreshed, id, a.cancel, |refreshed|)),
           ExitFilled(kind, LastCanceled(refreshed, id, a.cancel, |refreshed|)))
  }

  /** The levels a plan without protection orders is watched at: those of its last failed placement, if any. */
  function LocalLevels(plan: Plan, id: nat, es: seq<Event>): (real, real) {
    if es == [] then (plan.stopLoss, plan.takeProfit)
    else
      var e := es[|es| - 1];
      if e.planId == id && e.kind.ProtectionFailed? then (e.kind.stop, e.kind.profit)
      else LocalLevels(plan, id, es[..|es| - 1])
  }

  function KindOf(t: Trigger): OrderKind {
    if t == StopMarket then StopOrder else TakeProfitOrder
  }

  function SyncUnprotected(db: Db, id: nat, k: nat, a: SyncAnswers): (Db, SyncOutcome)
    requires id < |db.plans| && k < |db.positions|
  {
    var plan, held := db.plans[id], db.positions[k];
    if !a.hasRisk then (db, NoProtectionOrders)
    else if a.risk.None? then (Log(db, id, [LocalMarkUnavailable]), MarkUnavailable)
    else
      var quoted := a.risk.value.ToFloat(held.mark);
      var mark := if quoted > 0.0 then quoted else held.mark;
      var marked := db.(positions := db.positions[k := held.(mark := mark)]);
      var levels := LocalLevels(plan, id, db.events);
      var trigger := DetectLocalExit(plan.side, mark, levels.0, levels.1);
      if trigger == NoTrigger then (marked, NothingTriggered)
      else if !a.hasClose then (marked, CloseUnavailable)
      else if a.close.None? then (Log(marked, id, [LocalExitFailed(KindOf(trigger))]), CloseFailed)
      else
        var reply := Confirmed(a.close.value, a.confirm);
        var doubt := if ConfirmationFails(a.close.value, a.confirm) then [OrderRefreshFailed] else [];
        var price, qty := FillPrice(reply, mark), reply.executedQty.ToFloat(0.0);
        var status := NormalizeStatus(reply.status, qty, held.quantity);
        if status != Filled && qty < Max(0.0, held.quantity - Tolerance(held.quantity)) then
          (Log(marked, id, doubt + [LocalExitNotFilled(KindOf(trigger))]), CloseNotFilled)
        else
          var row := Order(id, LegacyExternalId(reply, a.clientId), KindOf(trigger), status, price,
                           held.quantity, qty);
          (Log(WithStatus(db, id, TestnetClosed)
                 .(orders := db.orders + [row],
                   positions := db.positions[k := held.(mark := price, pnl := 0.0, isOpen := false)]),
               id, doubt + [LocalExitTriggered(KindOf(trigger))]),
           LocalExit(KindOf(trigger), |db.orders|))
  }

  function SyncExit(db: Db, id: nat, enabled: bool, a: SyncAnswers): (Db, SyncOutcome) {
    if !enabled then (db, SyncDisabled)
    else if id >= |db.plans| then (db, SyncUnknownPlan)
    else if db.plans[id].status == TestnetClosed then (db, AlreadyClosed)
    else
      var k := OpenPositionOf(db.positions, id);
      if k.None? then (db, NoOpenPosition)
      else if ProtectionOf(db.orders, id) == [] then SyncUnprotected(db, id, k.value, a)
      else SyncProtected(db, id, k.value, a)
  }

  /** The plans with an open position, each once. */
  function OpenPlans(ps: seq<Position>): seq<nat> {
    if ps == [] then []
    else
      var earlier, p := OpenPlans(ps[..|ps| - 1]), ps[|ps| - 1];
      if p.isOpen && p.planId !in earlier then earlier + [p.planId] else earlier
  }

  /** Outcomes after which the tables are committed; all others leave what was changed to a later commit of the
      session. */
  predicate Commits(o: SyncOutcome) {
    || o in [MarkUnavailable, NothingTriggered, CloseFailed, CloseNotFilled, RefreshFailed]
    || o.LocalExit? || o.ExitFilled?
  }

  /** A sync as a session of its own: what is not committed is rolled back when the session closes. */
  function SyncOne(db: Db, id: nat, enabled: bool, a: SyncAnswers): (Db, SyncOutcome) {
    var (after, outcome) := SyncExit(db, id, enabled, a);
    (if Commits(outcome) then after else db, outcome)
  }

  /** Outcomes the batch reports; the others are errors it passes over. */
  predicate Checked(o: SyncOutcome) { o !in [SyncUnknownPlan, UnresolvableReference] }

  predicate LeavesPosition(o: SyncOutcome) { o.LocalExit? || o.ExitFilled? }

  /** A batch on its way: the tables as last committed, as the session sees them, and the results so far. */
  datatype Batch = Batch(saved: Db, working: Db, results: seq<(nat, SyncOutcome)>)

  function SyncAll(db: Db, ids: seq<nat>, enabled: bool, a: nat -> SyncAnswers): Batch {
    if ids == [] then Batch(db, db, [])
    else
      var n := |ids| - 1;
      var b := SyncAll(db, ids[..n], enabled, a);
      var (after, outcome) := SyncExit(b.working, ids[n], enabled, a(ids[n]));
      Batch(if Commits(outcome) then after else b.saved, after,
            b.results + if Checked(outcome) then [(ids[n], outcome)] else [])
  }

  function CountTriggered(results: seq<(nat, SyncOutcome)>): nat {
    if results == [] then 0
    else CountTriggered(results[..|results| - 1]) + if LeavesPosition(results[|results| - 1].1) then 1 else 0
  }

  datatype BatchReport = BatchReport(open: nat, checked: nat, triggered: nat, results: seq<(nat, SyncOutcome)>)

  /** What the batch answers: how many plans it found open, which it could check, how many of those left their
      position. */
  function ReportOf(db: Db, enabled: bool, a: nat -> SyncAnswers): BatchReport {
    var ids := OpenPlans(db.positions);
    var results := SyncAll(db, ids, enabled, a).results;
    BatchReport(|ids|, |results|, CountTriggered(results), results)
  }
}
