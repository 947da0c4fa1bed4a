/** The repository's own judge of a plan's rows. */
module Reconciler {
  import opened Records
  import opened Execution

  datatype Drift = MissingFilledOrder | MissingPosition | ClosedButExecuted | MissingExitProtection
                 | MultipleOpenPositions | RejectedOrders

  datatype Report = Report(healthy: bool, orderCount: nat, openCount: nat, filledCount: nat, drifts: seq<Drift>)

  predicate Counted(o: Order) {
    o.status in [Filled, PartiallyFilled] || (o.status != Rejected && o.executed > 0.0)
  }

  function OpenOnes(ps: seq<Position>): seq<Position> {
    if ps == [] then []
    else OpenOnes(ps[..|ps| - 1]) + if ps[|ps| - 1].isOpen then [ps[|ps| - 1]] else []
  }

  function FilledOnes(os: seq<Order>): seq<Order> {
    if os == [] then []
    else FilledOnes(os[..|os| - 1]) + if Counted(os[|os| - 1]) then [os[|os| - 1]] else []
  }

  /** The places of the orders that bought or sold something: filled, part-filled, or with a quantity executed and not
      rejected. */
  function Traded(os: seq<Order>): set<nat> {
    set i | 0 <= i < |os| &&
            (os[i].status == Filled || os[i].status == PartiallyFilled
             || (os[i].executed > 0.0 && os[i].status != Rejected))
  }

  lemma {:induction false} FilledAreTraded(os: seq<Order>)
    ensures |FilledOnes(os)| == |Traded(os)|
  {
    if os != [] {
      var n := |os| - 1;
      FilledAreTraded(os[..n]);
      assert Traded(os[..n]) == Traded(os) - {n};
      assert n in Traded(os) <==> Counted(os[n]);
    }
  }

  /** The places of the open positions. */
  function Open(ps: seq<Position>): set<nat> { set i | 0 <= i < |ps| && ps[i].isOpen }

  lemma {:induction false} OpenAreOpen(ps: seq<Position>)
    ensures |OpenOnes(ps)| == |Open(ps)|
  {
    if ps != [] {
      var n := |ps| - 1;
      OpenAreOpen(ps[..n]);
      assert Open(ps[..n]) == Open(ps) - {n};
      assert n in Open(ps) <==> ps[n].isOpen;
    }
  }

  function ProtectiveOnes(os: seq<Order>): seq<Order> {
    if os == [] then []
    else ProtectiveOnes(os[..|os| - 1]) + if IsProtection(os[|os| - 1]) then [os[|os| - 1]] else []
  }

  /** Two different rows are exit orders. */
  predicate TwoExits(os: seq<Order>) {
    exists i, j :: 0 <= i < j < |os| && os[i].kind != Market && os[j].kind != Market
  }

  lemma {:induction false} ProtectiveAreExits(os: seq<Order>)
    ensures |ProtectiveOnes(os)| > 0 <==> exists i :: 0 <= i < |os| && os[i].kind != Market
    ensures |ProtectiveOnes(os)| > 1 <==> TwoExits(os)
  {
    if os != [] {
      var n := |os| - 1;
      var init := os[..n];
      ProtectiveAreExits(init);
      assert forall i :: 0 <= i < n ==> init[i] == os[i];
      if TwoExits(init) {
        var i, j :| 0 <= i < j < n && init[i].kind != Market && init[j].kind != Market;
        assert os[i].kind != Market && os[j].kind != Market;
      }
      if os[n].kind != Market && |ProtectiveOnes(init)| > 0 {
        var i :| 0 <= i < n && init[i].kind != Market;
        assert os[i].kind != Market && i < n;
      }
      if TwoExits(os) {
        var i, j :| 0 <= i < j < |os| && os[i].kind != Market && os[j].kind != Market;
        assert init[i].kind != Market;
        assert j < n ==> init[j].kind != Market;
      }
    }
  }

  predicate ExecutedStatus(s: PlanStatus) { s in [TestnetExecuted, PaperExecuted] }

  /** What each complaint means. */
  predicate Drifts(d: Drift, s: PlanStatus, orders: seq<Order>, positions: seq<Position>) {
    match d
    case MissingFilledOrder => ExecutedStatus(s) && forall i :: 0 <= i < |orders| ==> !Counted(orders[i])
    case MissingPosition => ExecutedStatus(s) && positions == []
    case ClosedButExecuted =>
      ExecutedStatus(s) && positions != [] && forall i :: 0 <= i < |positions| ==> !positions[i].isOpen
    case MissingExitProtection =>
      ExecutedStatus(s) && |ProtectiveOnes(orders)| < 2 && exists i :: 0 <= i < |positions| && positions[i].isOpen
    case MultipleOpenPositions => |OpenOnes(positions)| > 1
    case RejectedOrders => ExecutedStatus(s) && exists i :: 0 <= i < |orders| && orders[i].status == Rejected
  }

  lemma {:induction false} OpenOnesEmpty(ps: seq<Position>)
    ensures OpenOnes(ps) == [] <==> forall i :: 0 <= i < |ps| ==> !ps[i].isOpen
  {
    if ps != [] {
      var init := ps[..|ps| - 1];
      OpenOnesEmpty(init);
      assert forall i :: 0 <= i < |init| ==> init[i] == ps[i];
    }
  }

  lemma {:induction false} FilledOnesEmpty(os: seq<Order>)
    ensures FilledOnes(os) == [] <==> forall i :: 0 <= i < |os| ==> !Counted(os[i])
  {
    hide Counted;
    if os != [] {
      var init := os[..|os| - 1];
      FilledOnesEmpty(init);
      assert forall i :: 0 <= i < |init| ==> init[i] == os[i];
    }
  }

  predicate AnyRejected(os: seq<Order>) { exists i :: 0 <= i < |os| && os[i].status == Rejected }

  lemma {:induction false} DriftsByCases(s: PlanStatus, orders: seq<Order>, positions: seq<Position>)
    ensures forall d :: Drifts(d, s, orders, positions) <==>
      match d
      case MissingFilledOrder => ExecutedStatus(s) && FilledOnes(orders) == []
      case MissingPosition => ExecutedStatus(s) && positions == []
      case ClosedButExecuted => ExecutedStatus(s) && positions != [] && OpenOnes(positions) == []
      case MissingExitProtection => ExecutedStatus(s) && |ProtectiveOnes(orders)| < 2 && OpenOnes(positions) != []
      case MultipleOpenPositions => |OpenOnes(positions)| > 1
      case RejectedOrders => ExecutedStatus(s) && AnyRejected(orders)
    ensures positions == [] ==> OpenOnes(positions) == []
  {
    OpenOnesEmpty(positions);
    FilledOnesEmpty(orders);
    hide Counted, OpenOnes, FilledOnes, ProtectiveOnes, ExecutedStatus;
  }

  method Reconcile(plan: Plan, orders: seq<Order>, positions: seq<Position>) returns (r: Report)
    ensures forall d :: d in r.drifts <==> Drifts(d, plan.status, orders, positions)
    ensures r.healthy <==> r.drifts == []
    ensures r.orderCount == |orders| && r.openCount == |Open(positions)| && r.filledCount == |Traded(orders)|
    ensures MissingFilledOrder in r.drifts <==> ExecutedStatus(plan.status) && r.filledCount == 0
    ensures MultipleOpenPositions in r.drifts <==> r.openCount > 1
    ensures MissingExitProtection in r.drifts <==>
      ExecutedStatus(plan.status) && r.openCount > 0 && !TwoExits(orders)
  {
    hide Counted, OpenOnes, FilledOnes, ProtectiveOnes, Traded, Open, TwoExits, ExecutedStatus, Drifts, AnyRejected;
    ProtectiveAreExits(orders);
    FilledAreTraded(orders);
    OpenAreOpen(positions);
    var open, filled, protective := OpenOnes(positions), FilledOnes(orders), ProtectiveOnes(orders);
    DriftsByCases(plan.status, orders, positions);
    var drifts: seq<Drift> := [];
    if ExecutedStatus(plan.status) {
      if filled == [] {
        drifts := drifts + [MissingFilledOrder];
      }
      if positions == [] {
        drifts := drifts + [MissingPosition];
      } else if open == [] {
        drifts := drifts + [ClosedButExecuted];
      } else if |protective| < 2 {
        drifts := drifts + [MissingExitProtection];
      }
    }
    if |open| > 1 {
      drifts := drifts + [MultipleOpenPositions];
    }
    if AnyRejected(orders) && ExecutedStatus(plan.status) {
      drifts := drifts + [RejectedOrders];
    }
    r := Report(drifts == [], |orders|, |open|, |filled|, drifts);
  }
}
