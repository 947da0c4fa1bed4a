/** Invariants of every run of create, paper-execute, testnet-execute and exit-sync calls. */
module ExecutionRuns {
  import opened OrderMath
  import opened Records
  import opened Execution

  // ----- One plan and the rows that belong to it -----

  predicate IsFailure(e: Event, id: nat) { e.planId == id && e.kind.ProtectionFailed? }

  predicate HasFailure(es: seq<Event>, id: nat) {
    exists i :: 0 <= i < |es| && IsFailure(es[i], id)
  }

  datatype View = View(plan: Plan, orders: seq<Order>, protection: seq<Order>, positions: seq<Position>, failed: bool)

  function ViewOf(db: Db, id: nat): View
    requires id < |db.plans|
  {
    View(db.plans[id], OrdersOf(db.orders, id), ProtectionOf(db.orders, id), PositionsOf(db.positions, id),
         HasFailure(db.events, id))
  }

  predicate OpenFor(v: View) {
    |v.positions| == 1 && v.positions[0].isOpen && v.positions[0].symbol == v.plan.symbol
    && v.positions[0].side == v.plan.side
  }

  /** A stop and a take-profit order, in that order. */
  predicate IsPair(os: seq<Order>) {
    |os| == 2 && os[0].kind == StopOrder && os[1].kind == TakeProfitOrder
  }

  /** What each plan status promises about the plan's rows. */
  predicate Consistent(v: View) {
    match v.plan.status
    case Approved | Blocked => v.positions == [] && v.orders == [] && v.protection == [] && !v.failed
    case PaperExecuted => OpenFor(v) && v.protection == [] && !v.failed
      && |v.orders| == 1 && v.orders[0].kind == Market && v.orders[0].status == Filled
    case TestnetExecuted => OpenFor(v) && |v.orders| >= 1 && v.orders[0].kind == Market
      && (if v.failed then v.protection == [] else IsPair(v.protection))
    case TestnetClosed => |v.positions| == 1 && !v.positions[0].isOpen
  }

  predicate RowsBelong(db: Db) {
    && (forall i :: 0 <= i < |db.orders| ==> db.orders[i].planId < |db.plans|)
    && (forall i :: 0 <= i < |db.positions| ==> db.positions[i].planId < |db.plans|)
    && (forall i :: 0 <= i < |db.events| ==> db.events[i].planId < |db.plans|)
  }

  predicate Invariant(db: Db) {
    && RowsBelong(db)
    && forall id :: 0 <= id < |db.plans| ==> Consistent(ViewOf(db, id))
  }

  // ----- Filters under growth and update -----

  lemma {:induction false} OrdersOfConcat(a: seq<Order>, b: seq<Order>, id: nat)
    ensures OrdersOf(a + b, id) == OrdersOf(a, id) + OrdersOf(b, id)
  {
    if b == [] {
      assert a + b == a;
    } else {
      OrdersOfConcat(a, b[..|b| - 1], id);
      assert (a + b)[..|a + b| - 1] == a + b[..|b| - 1];
    }
  }

  lemma {:induction false} ProtectionOfConcat(a: seq<Order>, b: seq<Order>, id: nat)
    ensures ProtectionOf(a + b, id) == ProtectionOf(a, id) + ProtectionOf(b, id)
  {
    hide Protects;
    if b == [] {
      assert a + b == a;
    } else {
      ProtectionOfConcat(a, b[..|b| - 1], id);
      assert (a + b)[..|a + b| - 1] == a + b[..|b| - 1];
    }
  }

  lemma {:induction false} OrdersConcat(a: seq<Order>, b: seq<Order>, id: nat)
    ensures OrdersOf(a + b, id) == OrdersOf(a, id) + OrdersOf(b, id)
    ensures ProtectionOf(a + b, id) == ProtectionOf(a, id) + ProtectionOf(b, id)
  {
    OrdersOfConcat(a, b, id);
    ProtectionOfConcat(a, b, id);
  }

  lemma {:induction false} PositionsConcat(a: seq<Position>, b: seq<Position>, id: nat)
    ensures PositionsOf(a + b, id) == PositionsOf(a, id) + PositionsOf(b, id)
  {
    if b == [] {
      assert a + b == a;
    } else {
      PositionsConcat(a, b[..|b| - 1], id);
      assert (a + b)[..|a + b| - 1] == a + b[..|b| - 1];
    }
  }

  lemma {:induction false} ForeignOrders(os: seq<Order>, id: nat)
    requires forall i :: 0 <= i < |os| ==> os[i].planId != id
    ensures OrdersOf(os, id) == [] && ProtectionOf(os, id) == []
  {
    if os != [] {
      ForeignOrders(os[..|os| - 1], id);
    }
  }

  lemma {:induction false} ForeignPositions(ps: seq<Position>, id: nat)
    requires forall i :: 0 <= i < |ps| ==> ps[i].planId != id
    ensures PositionsOf(ps, id) == []
  {
    if ps != [] {
      ForeignPositions(ps[..|ps| - 1], id);
    }
  }

  /** The two tables hold the same rows, except that rows of plan `owner` may differ in status. */
  predicate SameButStatus(a: seq<Order>, b: seq<Order>, owner: nat) {
    && |a| == |b|
    && forall j :: 0 <= j < |a| ==>
         b[j].planId == a[j].planId && b[j].kind == a[j].kind && (a[j].planId != owner ==> b[j] == a[j])
  }

  lemma {:induction false} StatusUpdate(a: seq<Order>, b: seq<Order>, owner: nat, id: nat)
    requires SameButStatus(a, b, owner)
    ensures |OrdersOf(b, id)| == |OrdersOf(a, id)| && |ProtectionOf(b, id)| == |ProtectionOf(a, id)|
    ensures forall j :: 0 <= j < |OrdersOf(a, id)| ==> OrdersOf(b, id)[j].kind == OrdersOf(a, id)[j].kind
    ensures forall j :: 0 <= j < |ProtectionOf(a, id)| ==> ProtectionOf(b, id)[j].kind == ProtectionOf(a, id)[j].kind
    ensures id != owner ==> OrdersOf(b, id) == OrdersOf(a, id) && ProtectionOf(b, id) == ProtectionOf(a, id)
  {
    if a != [] {
      StatusUpdate(a[..|a| - 1], b[..|b| - 1], owner, id);
    }
  }

  lemma {:induction false} PositionUpdate(ps: seq<Position>, k: nat, p: Position, id: nat)
    requires k < |ps| && p.planId == ps[k].planId
    ensures id != p.planId ==> PositionsOf(ps[k := p], id) == PositionsOf(ps, id)
    ensures id == p.planId && |PositionsOf(ps, id)| == 1 ==>
      PositionsOf(ps, id) == [ps[k]] && PositionsOf(ps[k := p], id) == [p]
    ensures id == p.planId ==> PositionsOf(ps, id) != []
  {
    var n := |ps| - 1;
    var qs := ps[k := p];
    if k < n {
      assert qs[..n] == ps[..n][k := p];
      PositionUpdate(ps[..n], k, p, id);
    } else {
      assert qs[..n] == ps[..n];
    }
  }

  lemma {:induction false} FailureConcat(a: seq<Event>, b: seq<Event>, id: nat)
    ensures HasFailure(a + b, id) <==> HasFailure(a, id) || HasFailure(b, id)
  {
    if HasFailure(a, id) {
      var i :| 0 <= i < |a| && IsFailure(a[i], id);
      assert (a + b)[i] == a[i];
    }
    if HasFailure(b, id) {
      var i :| 0 <= i < |b| && IsFailure(b[i], id);
      assert (a + b)[|a| + i] == b[i];
    }
  }

  predicate NoFailureIn(kinds: seq<EventKind>) {
    forall i :: 0 <= i < |kinds| ==> !kinds[i].ProtectionFailed?
  }

  lemma {:induction false} LogFailures(id: nat, kinds: seq<EventKind>, other: nat)
    ensures HasFailure(EventsFor(id, kinds), other) <==> other == id && !NoFailureIn(kinds)
  {
    var es := EventsFor(id, kinds);
    if other == id && !NoFailureIn(kinds) {
      var i :| 0 <= i < |kinds| && kinds[i].ProtectionFailed?;
      assert IsFailure(es[i], id);
    }
  }

  // ----- What a call may do: it works on the rows of one plan only -----

  /** The tables before and after a call about plan `owner`: new rows are the owner's, old rows of others stay. */
  predicate Touches(db: Db, after: Db, owner: nat) {
    && |after.plans| == |db.plans| && owner < |db.plans|
    && (forall i :: 0 <= i < |db.plans| && i != owner ==> after.plans[i] == db.plans[i])
    && |db.orders| <= |after.orders| && SameButStatus(db.orders, after.orders[..|db.orders|], owner)
    && (forall i :: |db.orders| <= i < |after.orders| ==> after.orders[i].planId == owner)
    && |db.positions| <= |after.positions|
    && (forall i :: 0 <= i < |db.positions| ==>
          && after.positions[i].planId == db.positions[i].planId
          && (db.positions[i].planId != owner ==> after.positions[i] == db.positions[i]))
    && (forall i :: |db.positions| <= i < |after.positions| ==> after.positions[i].planId == owner)
    && db.events <= after.events
    && (forall i :: |db.events| <= i < |after.events| ==> after.events[i].planId == owner)
  }

  lemma {:induction false} OtherPositions(a: seq<Position>, b: seq<Position>, owner: nat, id: nat)
    requires |a| == |b| && id != owner
    requires forall i :: 0 <= i < |a| ==> b[i].planId == a[i].planId && (a[i].planId != owner ==> b[i] == a[i])
    ensures PositionsOf(b, id) == PositionsOf(a, id)
  {
    if a != [] {
      OtherPositions(a[..|a| - 1], b[..|b| - 1], owner, id);
    }
  }

  lemma {:induction false} OthersUntouched(db: Db, after: Db, owner: nat, id: nat)
    requires Touches(db, after, owner) && id < |db.plans| && id != owner
    ensures ViewOf(after, id) == ViewOf(db, id)
  {
    var n, m, e := |db.orders|, |db.positions|, |db.events|;
    hide OrdersOf, ProtectionOf, PositionsOf, HasFailure;
    assert after.orders == after.orders[..n] + after.orders[n..];
    OrdersConcat(after.orders[..n], after.orders[n..], id);
    ForeignOrders(after.orders[n..], id);
    StatusUpdate(db.orders, after.orders[..n], owner, id);
    assert after.positions == after.positions[..m] + after.positions[m..];
    PositionsConcat(after.positions[..m], after.positions[m..], id);
    ForeignPositions(after.positions[m..], id);
    OtherPositions(db.positions, after.positions[..m], owner, id);
    assert after.events == db.events + after.events[e..];
    FailureConcat(db.events, after.events[e..], id);
    ForeignEvents(after.events[e..], id);
  }

  lemma {:induction false} ForeignEvents(es: seq<Event>, id: nat)
    requires forall i :: 0 <= i < |es| ==> es[i].planId != id
    ensures !HasFailure(es, id)
  {
  }

  /** It is enough to look at the plan a call is about. */
  lemma {:induction false} InvariantByOwner(db: Db, after: Db, owner: nat)
    requires Invariant(db) && Touches(db, after, owner) && Consistent(ViewOf(after, owner))
    ensures Invariant(after)
  {
    hide ViewOf, Consistent, SameButStatus;
    forall id | 0 <= id < |after.plans| ensures Consistent(ViewOf(after, id)) {
      if id != owner {
        OthersUntouched(db, after, owner, id);
      }
    }
    BelongAfter(db, after, owner);
  }

  lemma {:induction false} BelongAfter(db: Db, after: Db, owner: nat)
    requires RowsBelong(db) && Touches(db, after, owner)
    ensures RowsBelong(after)
  {
    var n := |db.orders|;
    assert forall i :: 0 <= i < n ==> after.orders[..n][i] == after.orders[i];
  }

  // ----- Each call keeps the invariant -----

  lemma {:induction false} LogKeeps(db: Db, id: nat, kinds: seq<EventKind>)
    requires Invariant(db) && id < |db.plans| && NoFailureIn(kinds)
    ensures Invariant(Log(db, id, kinds))
  {
    var after := Log(db, id, kinds);
    FailureConcat(db.events, EventsFor(id, kinds), id);
    LogFailures(id, kinds, id);
    assert after.orders[..|db.orders|] == db.orders;
    assert Consistent(ViewOf(db, id)) && ViewOf(after, id) == ViewOf(db, id);
    hide Consistent, OrdersOf, ProtectionOf, PositionsOf, HasFailure, ViewOf;
    InvariantByOwner(db, after, id);
  }

  /** The view of the owner once rows have been appended and events logged. */
  lemma {:induction false} GrownView(db: Db, after: Db, id: nat, rows: seq<Order>, held: seq<Position>,
                                     kinds: seq<EventKind>)
    requires id < |db.plans| && |after.plans| == |db.plans|
    requires after.orders == db.orders + rows && after.positions == db.positions + held
    requires after.events == db.events + EventsFor(id, kinds)
    ensures ViewOf(after, id) ==
      View(after.plans[id], OrdersOf(db.orders, id) + OrdersOf(rows, id),
           ProtectionOf(db.orders, id) + ProtectionOf(rows, id),
           PositionsOf(db.positions, id) + PositionsOf(held, id),
           HasFailure(db.events, id) || !NoFailureIn(kinds))
  {
    OrdersConcat(db.orders, rows, id);
    PositionsConcat(db.positions, held, id);
    FailureConcat(db.events, EventsFor(id, kinds), id);
    LogFailures(id, kinds, id);
  }

  lemma {:induction false} GrowthTouches(db: Db, after: Db, id: nat, rows: seq<Order>, held: seq<Position>,
                                         kinds: seq<EventKind>)
    requires id < |db.plans| && |after.plans| == |db.plans|
    requires forall i :: 0 <= i < |db.plans| && i != id ==> after.plans[i] == db.plans[i]
    requires after.orders == db.orders + rows && after.positions == db.positions + held
    requires after.events == db.events + EventsFor(id, kinds)
    requires forall i :: 0 <= i < |rows| ==> rows[i].planId == id
    requires forall i :: 0 <= i < |held| ==> held[i].planId == id
    ensures Touches(db, after, id)
  {
    assert after.orders[..|db.orders|] == db.orders;
  }

  lemma {:induction false} OnePosition(p: Position)
    ensures PositionsOf([p], p.planId) == [p]
  {
    assert [p][..0] == [];
    assert PositionsOf([p][..0], p.planId) == [];
  }

  lemma {:induction false} OneOrder(o: Order)
    ensures OrdersOf([o], o.planId) == [o]
    ensures ProtectionOf([o], o.planId) == if IsProtection(o) then [o] else []
  {
    assert [o][..0] == [];
    assert OrdersOf([o][..0], o.planId) == [] == ProtectionOf([o][..0], o.planId);
  }

  /** An approved plan is executed: its first rows appear, and its new status must suit them. */
  lemma {:induction false} OpeningKeeps(db: Db, after: Db, id: nat, rows: seq<Order>, p: Position,
                                        kinds: seq<EventKind>)
    requires Invariant(db) && id < |db.plans| && |after.plans| == |db.plans|
    requires db.plans[id].status == Approved && p.planId == id
    requires forall i :: 0 <= i < |db.plans| && i != id ==> after.plans[i] == db.plans[i]
    requires after.orders == db.orders + rows && after.positions == db.positions + [p]
    requires after.events == db.events + EventsFor(id, kinds)
    requires forall i :: 0 <= i < |rows| ==> rows[i].planId == id
    requires Consistent(View(after.plans[id], OrdersOf(rows, id), ProtectionOf(rows, id), [p], !NoFailureIn(kinds)))
    ensures Invariant(after)
  {
    assert Consistent(ViewOf(db, id));
    OnePosition(p);
    GrownView(db, after, id, rows, [p], kinds);
    GrowthTouches(db, after, id, rows, [p], kinds);
    assert ViewOf(after, id) ==
      View(after.plans[id], OrdersOf(rows, id), ProtectionOf(rows, id), [p], !NoFailureIn(kinds));
    hide *;
    InvariantByOwner(db, after, id);
  }

  lemma {:induction false} PaperKeeps(db: Db, id: nat)
    requires Invariant(db)
    ensures Invariant(PaperExecute(db, id).0)
  {
    hide RawQuantity, OrdersOf, ProtectionOf, PositionsOf, HasFailure, Invariant, Digits;
    if id < |db.plans| {
      if db.plans[id].status != Approved {
        LogKeeps(db, id, [PaperBlocked]);
      } else {
        var after := PaperExecute(db, id).0;
        var order, held := after.orders[|db.orders|], after.positions[|db.positions|];
        assert after.events == db.events + EventsFor(id, []);
        OneOrder(order);
        OpeningKeeps(db, after, id, [order], held, []);
      }
    }
  }

  // ----- Protection placement -----

  /** The entry half of an execution: quiet events, a market order and an open position for this plan. */
  predicate SoundEntry(id: nat, plan: Plan, e: Entry) {
    && NoFailureIn(e.events) && e.order.planId == id && e.order.kind == Market
    && e.position.planId == id && e.position.isOpen && e.position.entry == e.order.price
    && e.position.symbol == plan.symbol && e.position.side == plan.side
  }

  /** Either a stop and a take-profit row come back, or nothing does and the failure is logged last. */
  predicate SoundProtection(id: nat, p: Protection) {
    if p.pair.Some? then
      && IsPair([p.pair.value.0, p.pair.value.1])
      && p.pair.value.0.planId == id && p.pair.value.1.planId == id && NoFailureIn(p.events)
    else |p.events| > 0 && p.events[|p.events| - 1].ProtectionFailed?
  }

  lemma {:induction false} ProtectShape(id: nat, plan: Plan, fill: real, mark: real, a: ProtectAnswers)
    ensures var p := Protect(id, plan, fill, mark, a);
      var levels := Levels(plan, fill, mark, a.tick);
      && SoundProtection(id, p)
      && (p.pair.None? ==> p.events[|p.events| - 1] == ProtectionFailed(levels.0, levels.1, fill, mark))
  {
    hide Levels, Cancels;
  }

  lemma {:induction false} PairProtection(order: Order, s: Order, t: Order)
    requires order.kind == Market && IsPair([s, t]) && order.planId == s.planId == t.planId
    ensures ProtectionOf([order, s, t], s.planId) == [s, t]
    ensures OrdersOf([order, s, t], s.planId) == [order, s, t]
  {
    hide OrdersOf, ProtectionOf;
    OrdersConcat([order], [s, t], s.planId);
    OrdersConcat([s], [t], s.planId);
    OneOrder(order);
    OneOrder(s);
    OneOrder(t);
    assert [s] + [t] == [s, t] && [order] + [s, t] == [order, s, t];
  }

  lemma {:induction false} EntryIsQuiet(id: nat, plan: Plan, q: real, sent: Payload, a: ExecAnswers)
    ensures SoundEntry(id, plan, EntryOf(id, plan, q, sent, a))
  {
    hide Confirmed, PriceOfTrades, QuantityOfTrades, TradesOf, FillPrice, NormalizeStatus, LeverageOf, Pnl,
      ConfirmationFails, LegacyExternalId;
  }

  lemma {:induction false} JoinedFailures(a: seq<EventKind>, b: seq<EventKind>)
    ensures NoFailureIn(a + b) <==> NoFailureIn(a) && NoFailureIn(b)
  {
    if NoFailureIn(a + b) {
      forall i | 0 <= i < |a| ensures !a[i].ProtectionFailed? { assert (a + b)[i] == a[i]; }
      forall i | 0 <= i < |b| ensures !b[i].ProtectionFailed? { assert (a + b)[|a| + i] == b[i]; }
    }
  }

  lemma {:induction false} ExecutedView(id: nat, plan: Plan, e: Entry, p: Protection)
    requires SoundEntry(id, plan, e) && SoundProtection(id, p) && plan.status == TestnetExecuted
    ensures var rows, kinds := [e.order] + PairRows(p.pair), e.events + p.events + [ExecutionSubmitted];
      && (forall i :: 0 <= i < |rows| ==> rows[i].planId == id)
      && Consistent(View(plan, OrdersOf(rows, id), ProtectionOf(rows, id), [e.position], !NoFailureIn(kinds)))
  {
    hide OrdersOf, ProtectionOf, NoFailureIn;
    JoinedFailures(e.events + p.events, [ExecutionSubmitted]);
    JoinedFailures(e.events, p.events);
    FailuresInEvents(p.events);
    if p.pair.Some? {
      PairProtection(e.order, p.pair.value.0, p.pair.value.1);
      assert [e.order] + PairRows(p.pair) == [e.order, p.pair.value.0, p.pair.value.1];
    } else {
      OneOrder(e.order);
      assert [e.order] + PairRows(p.pair) == [e.order];
    }
  }

  lemma {:induction false} ExecutionKeeps(db: Db, id: nat, a: ExecAnswers)
    requires Invariant(db) && id < |db.plans| && Refusal(db, id, true, a).None?
    ensures Invariant(TestnetExecute(db, id, true, a).0)
  {
    var plan := db.plans[id];
    assert plan.status == Approved;
    hide OrdersOf, ProtectionOf, PositionsOf, HasFailure, EntryOf, Protect, RawQuantity, RoundToStep, Refusal,
      Invariant, NoFailureIn, EventsFor, Levels, ViewOf, Consistent;
    var after := TestnetExecute(db, id, true, a).0;
    var q := RoundToStep(RawQuantity(plan), a.step.value);
    var e := EntryOf(id, plan, q, a.place.payload, a);
    var p := Protect(id, plan, e.order.price, e.position.mark, a.protect);
    EntryIsQuiet(id, plan, q, a.place.payload, a);
    ProtectShape(id, plan, e.order.price, e.position.mark, a.protect);
    ExecutedView(id, plan.(status := TestnetExecuted), e, p);
    OpeningKeeps(db, after, id, [e.order] + PairRows(p.pair), e.position,
                 e.events + p.events + [ExecutionSubmitted]);
  }

  lemma {:induction false} FailuresInEvents(kinds: seq<EventKind>)
    ensures |kinds| > 0 && kinds[|kinds| - 1].ProtectionFailed? ==> !NoFailureIn(kinds)
    ensures NoFailureIn([ExecutionSubmitted])
  {
  }

  lemma {:induction false} TestnetKeeps(db: Db, id: nat, enabled: bool, a: ExecAnswers)
    requires Invariant(db)
    ensures Invariant(TestnetExecute(db, id, enabled, a).0)
  {
    hide Invariant, Consistent, EntryOf, Protect, RawQuantity, RoundToStep;
    if id < |db.plans| {
      var refusal := Refusal(db, id, enabled, a);
      if refusal.Some? {
        LogKeeps(db, id, [refusal.value.0]);
      } else {
        assert enabled;
        ExecutionKeeps(db, id, a);
      }
    }
  }

  // ----- Exit synchronisation -----

  lemma {:induction false} RefreshKeepsRows(os: seq<Order>, id: nat, a: SyncAnswers)
    ensures SameButStatus(os, RefreshedRows(os, id, a), id)
    ensures SameButStatus(os, SettledRows(RefreshedRows(os, id, a), id, a.cancel), id)
  {
    hide RefreshOne, Cancels, Terminal;
  }

  /** The rows after a sync: the position rewritten in place, order statuses refreshed, at most one order added. */
  predicate Synced(db: Db, after: Db, id: nat, k: nat, kinds: seq<EventKind>) {
    && id < |db.plans| && k < |db.positions| && db.positions[k].planId == id
    && |after.positions| == |db.positions| && after.positions == db.positions[k := after.positions[k]]
    && after.positions[k].planId == id
    && after.events == db.events + EventsFor(id, kinds) && NoFailureIn(kinds)
    && |after.orders| >= |db.orders| && SameButStatus(db.orders, after.orders[..|db.orders|], id)
    && (forall i :: |db.orders| <= i < |after.orders| ==> after.orders[i].planId == id)
    && (if after.positions[k].isOpen
        then && after.plans == db.plans && |after.orders| == |db.orders|
             && after.positions[k].symbol == db.positions[k].symbol
             && after.positions[k].side == db.positions[k].side
             && (after.orders == db.orders || db.plans[id].status == TestnetExecuted)
        else after.plans == db.plans[id := db.plans[id].(status := TestnetClosed)])
  }

  lemma {:induction false} OpenMeansExecuted(db: Db, id: nat, k: nat)
    requires Invariant(db) && id < |db.plans| && k < |db.positions|
    requires db.positions[k].planId == id && db.positions[k].isOpen
    ensures db.plans[id].status in [PaperExecuted, TestnetExecuted]
    ensures PositionsOf(db.positions, id) == [db.positions[k]]
  {
    assert Consistent(ViewOf(db, id));
    PositionUpdate(db.positions, k, db.positions[k], id);
  }

  lemma {:induction false} SyncedTouches(db: Db, after: Db, id: nat, k: nat, kinds: seq<EventKind>)
    requires Synced(db, after, id, k, kinds)
    ensures Touches(db, after, id)
  {
    hide SameButStatus, NoFailureIn;
  }

  lemma {:induction false} SyncedKeeps(db: Db, after: Db, id: nat, k: nat, kinds: seq<EventKind>)
    requires Invariant(db) && Synced(db, after, id, k, kinds) && db.positions[k].isOpen
    ensures Invariant(after)
  {
    OpenMeansExecuted(db, id, k);
    SyncedTouches(db, after, id, k, kinds);
    assert Consistent(ViewOf(db, id));
    PositionUpdate(db.positions, k, after.positions[k], id);
    FailureConcat(db.events, EventsFor(id, kinds), id);
    LogFailures(id, kinds, id);
    if |after.orders| == |db.orders| {
      assert after.orders[..|db.orders|] == after.orders;
      StatusUpdate(db.orders, after.orders, id, id);
    }
    hide OrdersOf, ProtectionOf, PositionsOf, HasFailure, Invariant, SameButStatus, NoFailureIn;
    assert Consistent(ViewOf(after, id));
    InvariantByOwner(db, after, id);
  }

  lemma {:induction false} QuietSiblings(os: seq<Order>, id: nat, c: CancelClient, n: nat)
    requires n <= |os|
    ensures NoFailureIn(SiblingEvents(os, id, c, n))
  {
    hide Cancels, LiveSibling;
    if n > 0 {
      QuietSiblings(os, id, c, n - 1);
    }
  }

  lemma {:induction false} ProtectedSyncKeeps(db: Db, id: nat, k: nat, a: SyncAnswers)
    requires Invariant(db) && id < |db.plans| && k < |db.positions|
    requires db.positions[k].planId == id && db.positions[k].isOpen && ProtectionOf(db.orders, id) != []
    ensures Invariant(SyncProtected(db, id, k, a).0)
  {
    OpenMeansExecuted(db, id, k);
    assert Consistent(ViewOf(db, id));
    var after := SyncProtected(db, id, k, a).0;
    hide OrdersOf, ProtectionOf, PositionsOf, HasFailure, Invariant, Consistent, RefreshOne, SameButStatus,
      FirstProblem, TriggeredBy, RefreshedRows, SettledRows, SiblingEvents;
    if a.hasGetOrder || a.hasGetAlgo {
      var refreshed := RefreshedRows(db.orders, id, a);
      RefreshKeepsRows(db.orders, id, a);
      var problem, hit := FirstProblem(db.orders, id, a, |db.orders|), TriggeredBy(db.orders, id, a, |db.orders|);
      if problem.Some? {
        LogKeeps(db, id, [ExitRefreshFailed(db.orders[problem.value].external)]);
      } else if hit.None? {
        RefreshOnlyKeeps(db, after, id, k, refreshed);
      } else {
        var siblings := SiblingEvents(refreshed, id, a.cancel, |refreshed|);
        QuietSiblings(refreshed, id, a.cancel, |refreshed|);
        var kinds := [ExitOrderFilled(db.orders[hit.value].kind)] + siblings;
        ExitFilledKeeps(db, after, id, k, SettledRows(refreshed, id, a.cancel), kinds);
      }
    }
  }

  lemma {:induction false} SameRowsLength(a: seq<Order>, b: seq<Order>, owner: nat)
    requires SameButStatus(a, b, owner)
    ensures |a| == |b|
  {
  }

  lemma {:induction false} RefreshOnlyKeeps(db: Db, after: Db, id: nat, k: nat, rows: seq<Order>)
    requires Invariant(db) && id < |db.plans| && k < |db.positions| && db.plans[id].status == TestnetExecuted
    requires db.positions[k].planId == id && db.positions[k].isOpen
    requires SameButStatus(db.orders, rows, id) && after == db.(orders := rows)
    ensures Invariant(after)
  {
    SameRowsLength(db.orders, rows, id);
    assert after.positions == db.positions[k := after.positions[k]];
    assert after.events == db.events + EventsFor(id, []);
    assert after.orders[..|db.orders|] == rows;
    hide Invariant, SameButStatus;
    SyncedKeeps(db, after, id, k, []);
  }

  lemma {:induction false} ExitFilledKeeps(db: Db, after: Db, id: nat, k: nat, rows: seq<Order>, kinds: seq<EventKind>)
    requires Invariant(db) && id < |db.plans| && k < |db.positions|
    requires db.positions[k].planId == id && db.positions[k].isOpen
    requires SameButStatus(db.orders, rows, id) && NoFailureIn(kinds)
    requires after == Log(ClosePosition(db, id, k).(orders := rows), id, kinds)
    ensures Invariant(after)
  {
    SameRowsLength(db.orders, rows, id);
    assert after.orders[..|db.orders|] == rows;
    hide Invariant, SameButStatus, NoFailureIn;
    SyncedKeeps(db, after, id, k, kinds);
  }

  lemma {:induction false} SameRows(os: seq<Order>, id: nat)
    ensures SameButStatus(os, os, id)
  {
  }

  lemma {:induction false} MarkedKeeps(db: Db, id: nat, k: nat, mark: real, kinds: seq<EventKind>)
    requires Invariant(db) && id < |db.plans| && k < |db.positions| && NoFailureIn(kinds)
    requires db.positions[k].planId == id && db.positions[k].isOpen
    ensures Invariant(Log(db.(positions := db.positions[k := db.positions[k].(mark := mark)]), id, kinds))
  {
    var after := Log(db.(positions := db.positions[k := db.positions[k].(mark := mark)]), id, kinds);
    SameRows(db.orders, id);
    assert after.orders[..|db.orders|] == db.orders;
    hide Invariant, SameButStatus, NoFailureIn, EventsFor;
    SyncedKeeps(db, after, id, k, kinds);
  }

  lemma {:induction false} LocalCloseKeeps(db: Db, id: nat, k: nat, p: Position, row: Order, kinds: seq<EventKind>)
    requires Invariant(db) && id < |db.plans| && k < |db.positions| && NoFailureIn(kinds)
    requires db.positions[k].planId == id && db.positions[k].isOpen
    requires p.planId == id && !p.isOpen && row.planId == id
    ensures Invariant(Log(WithStatus(db, id, TestnetClosed)
                            .(orders := db.orders + [row], positions := db.positions[k := p]), id, kinds))
  {
    var after := Log(WithStatus(db, id, TestnetClosed)
                       .(orders := db.orders + [row], positions := db.positions[k := p]), id, kinds);
    SameRows(db.orders, id);
    assert after.orders[..|db.orders|] == db.orders;
    hide Invariant, SameButStatus, NoFailureIn, EventsFor;
    SyncedKeeps(db, after, id, k, kinds);
  }

  lemma {:induction false} UnprotectedSyncKeeps(db: Db, id: nat, k: nat, a: SyncAnswers)
    requires Invariant(db) && id < |db.plans| && k < |db.positions|
    requires db.positions[k].planId == id && db.positions[k].isOpen
    ensures Invariant(SyncUnprotected(db, id, k, a).0)
  {
    hide Invariant, DetectLocalExit, LocalLevels, Confirmed, ConfirmationFails, FillPrice, NormalizeStatus,
      LegacyExternalId, Tolerance;
    if a.hasRisk {
      if a.risk.None? {
        LogKeeps(db, id, [LocalMarkUnavailable]);
      } else {
        LocalExitKeeps(db, id, k, a);
      }
    }
  }

  lemma {:induction false} LocalExitKeeps(db: Db, id: nat, k: nat, a: SyncAnswers)
    requires Invariant(db) && id < |db.plans| && k < |db.positions| && a.hasRisk && a.risk.Some?
    requires db.positions[k].planId == id && db.positions[k].isOpen
    ensures Invariant(SyncUnprotected(db, id, k, a).0)
  {
    hide Invariant, DetectLocalExit, LocalLevels, Confirmed, ConfirmationFails, FillPrice, NormalizeStatus,
      LegacyExternalId, Tolerance;
    var held := db.positions[k];
    var quoted := a.risk.value.ToFloat(held.mark);
    var mark := if quoted > 0.0 then quoted else held.mark;
    var levels := LocalLevels(db.plans[id], id, db.events);
    var trigger := DetectLocalExit(db.plans[id].side, mark, levels.0, levels.1);
    if trigger == NoTrigger || !a.hasClose {
      assert db.events + EventsFor(id, []) == db.events;
      MarkedKeeps(db, id, k, mark, []);
    } else if a.close.None? {
      MarkedKeeps(db, id, k, mark, [LocalExitFailed(KindOf(trigger))]);
    } else {
      var reply := Confirmed(a.close.value, a.confirm);
      var doubt := if ConfirmationFails(a.close.value, a.confirm) then [OrderRefreshFailed] else [];
      var price, qty := FillPrice(reply, mark), reply.executedQty.ToFloat(0.0);
      var status := NormalizeStatus(reply.status, qty, held.quantity);
      MarkedKeeps(db, id, k, mark, doubt + [LocalExitNotFilled(KindOf(trigger))]);
      LocalCloseKeeps(db, id, k, held.(mark := price, pnl := 0.0, isOpen := false),
                      Order(id, LegacyExternalId(reply, a.clientId), KindOf(trigger), status, price,
                            held.quantity, qty),
                      doubt + [LocalExitTriggered(KindOf(trigger))]);
    }
  }

  lemma {:induction false} SyncKeeps(db: Db, id: nat, enabled: bool, a: SyncAnswers)
    requires Invariant(db)
    ensures Invariant(SyncExit(db, id, enabled, a).0)
  {
    hide Invariant, SyncProtected, SyncUnprotected, ProtectionOf;
    if enabled && id < |db.plans| && db.plans[id].status != TestnetClosed {
      var k := OpenPositionOf(db.positions, id);
      if k.Some? {
        if ProtectionOf(db.orders, id) == [] {
          UnprotectedSyncKeeps(db, id, k.value, a);
        } else {
          ProtectedSyncKeeps(db, id, k.value, a);
        }
      }
    }
  }

  lemma {:induction false} SyncOneKeeps(db: Db, id: nat, enabled: bool, a: SyncAnswers)
    requires Invariant(db)
    ensures Invariant(SyncOne(db, id, enabled, a).0)
  {
    hide Invariant, SyncExit;
    SyncKeeps(db, id, enabled, a);
  }

  lemma {:induction false} SyncAllKeeps(db: Db, ids: seq<nat>, enabled: bool, a: nat -> SyncAnswers)
    requires Invariant(db)
    ensures Invariant(SyncAll(db, ids, enabled, a).saved) && Invariant(SyncAll(db, ids, enabled, a).working)
  {
    hide Invariant, SyncExit, Commits, Checked;
    if ids != [] {
      var n := |ids| - 1;
      SyncAllKeeps(db, ids[..n], enabled, a);
      SyncKeeps(SyncAll(db, ids[..n], enabled, a).working, ids[n], enabled, a(ids[n]));
    }
  }
}
