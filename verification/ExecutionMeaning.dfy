/** What replies of the exchange come to mean in the tables: which of them close a plan, what an execution stores. */
module ExecutionMeaning {
  import opened Numeric
  import opened Options
  import opened OrderMath
  import opened Records
  import opened Execution
  import opened ExecutionRuns
  import opened ExecutionTheorems

  // ----- Native protection orders: the words that close -----

  predicate IsAlgoRef(o: Order) { ResolveRef(o.external).Some? && ResolveRef(o.external).value.IsAlgo() }

  /** An algo order that names an actual order which can be asked about. */
  predicate NamesActual(p: AlgoPayload, a: SyncAnswers) {
    a.hasGetOrder && p.actualOrderId != NoId && p.actualOrderId != Label("") && p.actualOrderId != Label("0")
  }

  /** Asking about protection order j is answered. */
  predicate Answers(j: nat, o: Order, a: SyncAnswers) {
    && ResolveRef(o.external).Some?
    && if IsAlgoRef(o) then
         && a.hasGetAlgo && a.algo(j).Some?
         && (NamesActual(a.algo(j).value, a) ==> a.algo(j).value.actualOrderId.Numeric() && a.actual(j).Some?)
       else a.hasGetOrder && a.plain(j).Some?
  }

  /** The word of the answer itself: the actual order's where there is one, else the algo order's own, algoStatus before
      status; the plain order's, or the stored one when the reply has none. */
  function Word(j: nat, o: Order, a: SyncAnswers): Records.Status
    requires Answers(j, o, a)
  {
    if !IsAlgoRef(o) then
      if a.plain(j).value.status.Some? then a.plain(j).value.status.value else o.status
    else if NamesActual(a.algo(j).value, a) then
      if a.actual(j).value.status.Some? then a.actual(j).value.status.value else New
    else
      var p := a.algo(j).value;
      if p.algoStatus.Some? then p.algoStatus.value else if p.plainStatus.Some? then p.plainStatus.value else New
  }

  /** Only the word Filled says filled; of an algo order without an actual one, also the word Success. */
  predicate SaysFilled(j: nat, o: Order, a: SyncAnswers)
    requires Answers(j, o, a)
  {
    || Word(j, o, a) == Filled
    || (Word(j, o, a) == Success && IsAlgoRef(o) && !NamesActual(a.algo(j).value, a))
  }

  lemma {:induction false} RefreshReads(j: nat, o: Order, a: SyncAnswers)
    ensures RefreshOne(j, o, a).Status? <==> Answers(j, o, a)
    ensures Answers(j, o, a) ==> (RefreshOne(j, o, a) == Status(Filled) <==> SaysFilled(j, o, a))
    ensures Answers(j, o, a) && Word(j, o, a) !in [PendingNew, Success] ==> RefreshOne(j, o, a) == Status(Word(j, o, a))
  {
    hide ResolveRef, IsNumeral, Strip;
  }

  predicate AllAnswer(db: Db, id: nat, a: SyncAnswers) {
    forall j :: 0 <= j < |db.orders| && Protects(db.orders[j], id) ==> Answers(j, db.orders[j], a)
  }

  /** A protected plan closes exactly when every protection order is answered and the answer to one of them says
      filled. */
  lemma {:induction false} ClosesByWords(db: Db, id: nat, enabled: bool, a: SyncAnswers)
    requires ProtectedSync(db, id, enabled, a)
    ensures SyncExit(db, id, enabled, a).0.plans[id].status == TestnetClosed <==>
      && AllAnswer(db, id, a)
      && exists j :: 0 <= j < |db.orders| && Protects(db.orders[j], id) && Answers(j, db.orders[j], a)
                     && SaysFilled(j, db.orders[j], a)
  {
    ProtectedCloseExactly(db, id, enabled, a);
    hide SyncExit, RefreshOne, Answers, SaysFilled, ProtectedSync;
    forall j: nat | j < |db.orders|
      ensures RefreshOne(j, db.orders[j], a).Status? <==> Answers(j, db.orders[j], a)
      ensures Answers(j, db.orders[j], a) ==>
        (RefreshOne(j, db.orders[j], a) == Status(Filled) <==> SaysFilled(j, db.orders[j], a))
    {
      RefreshReads(j, db.orders[j], a);
    }
    assert AllRefreshed(db.orders, id, a) <==> AllAnswer(db, id, a);
    if j :| 0 <= j < |db.orders| && FilledAt(db.orders, id, a, j) {
      assert Protects(db.orders[j], id) && Answers(j, db.orders[j], a) && SaysFilled(j, db.orders[j], a);
    }
    if j :| 0 <= j < |db.orders| && Protects(db.orders[j], id) && Answers(j, db.orders[j], a)
            && SaysFilled(j, db.orders[j], a) {
      assert FilledAt(db.orders, id, a, j);
    }
  }

  /** Words of an order that is still out, or over without a fill. */
  predicate QuietWord(s: Records.Status) { s in [New, PartiallyFilled, Triggered, Canceled, Expired, Rejected] }

  /** Replies that say new, part-filled, triggered, cancelled, expired or rejected close nothing and log nothing; each
      protection order is stored with its word, and every other row stays. */
  lemma {:induction false} QuietWordsCloseNothing(db: Db, id: nat, enabled: bool, a: SyncAnswers)
    requires ProtectedSync(db, id, enabled, a) && AllAnswer(db, id, a)
    requires forall j :: 0 <= j < |db.orders| && Protects(db.orders[j], id) ==> QuietWord(Word(j, db.orders[j], a))
    ensures var (after, outcome) := SyncExit(db, id, enabled, a);
      && outcome == NothingTriggered && after == db.(orders := after.orders) && |after.orders| == |db.orders|
      && forall j :: 0 <= j < |db.orders| ==>
           after.orders[j] ==
             if Protects(db.orders[j], id) then db.orders[j].(status := Word(j, db.orders[j], a)) else db.orders[j]
  {
    var k := OpenPositionOf(db.positions, id).value;
    assert SyncExit(db, id, enabled, a) == SyncProtected(db, id, k, a) by {
      hide SyncProtected, SyncUnprotected;
    }
    hide SyncExit, RefreshOne, Answers, Word, ProtectedSync, ResolveRef;
    forall j | 0 <= j < |db.orders| && Protects(db.orders[j], id)
      ensures RefreshOne(j, db.orders[j], a) == Status(Word(j, db.orders[j], a))
      ensures RefreshOne(j, db.orders[j], a) != Status(Filled)
    {
      RefreshReads(j, db.orders[j], a);
    }
    QuietRefresh(db, id, k, a);
  }

  lemma {:induction false} QuietRefresh(db: Db, id: nat, k: nat, a: SyncAnswers)
    requires id < |db.plans| && k < |db.positions| && (a.hasGetOrder || a.hasGetAlgo)
    requires forall j :: 0 <= j < |db.orders| && Protects(db.orders[j], id) ==>
      RefreshOne(j, db.orders[j], a).Status? && RefreshOne(j, db.orders[j], a) != Status(Filled)
    ensures SyncProtected(db, id, k, a) == (db.(orders := RefreshedRows(db.orders, id, a)), NothingTriggered)
  {
    hide RefreshOne, SiblingEvents, SettledRows, LastCanceled;
  }

  /** Words of an order that is over. */
  predicate OverWord(s: Records.Status) { s in [Filled, Canceled, Expired, Rejected] }

  /** A protected close is put down to the first order, in the order of the rows, whose answer says filled; every other
      protection order is over afterwards, or a warning in the log names it. */
  lemma {:induction false} CloseIsPutDown(db: Db, id: nat, enabled: bool, a: SyncAnswers)
    requires ProtectedSync(db, id, enabled, a) && SyncExit(db, id, enabled, a).1.ExitFilled?
    ensures var (after, outcome) := SyncExit(db, id, enabled, a);
      && AllAnswer(db, id, a) && |after.orders| == |db.orders| && db.events <= after.events
      && (exists j :: 0 <= j < |db.orders| && FirstFilled(db, id, a, j) && outcome.trigger == db.orders[j].kind)
      && forall j :: 0 <= j < |db.orders| && Protects(db.orders[j], id) ==>
           || OverWord(after.orders[j].status)
           || Event(id, SiblingCancelFailed(db.orders[j].external)) in after.events[|db.events|..]
           || Event(id, SiblingCancelUnavailable(db.orders[j].external)) in after.events[|db.events|..]
  {
    ProtectedCloseExactly(db, id, enabled, a);
    FilledExitCleansUp(db, id, enabled, a);
    TriggerIsFirst(db, id, enabled, a);
    hide SyncExit, RefreshOne, Answers, SaysFilled, ProtectedSync, FirstFilled;
    forall j | 0 <= j < |db.orders| && Protects(db.orders[j], id)
      ensures Answers(j, db.orders[j], a)
    {
      RefreshReads(j, db.orders[j], a);
    }
  }

  /** Row j is the first protection order of the plan whose answer says filled. */
  predicate FirstFilled(db: Db, id: nat, a: SyncAnswers, j: nat)
    requires j < |db.orders|
  {
    && Protects(db.orders[j], id) && Answers(j, db.orders[j], a) && SaysFilled(j, db.orders[j], a)
    && forall i :: 0 <= i < j && Protects(db.orders[i], id) && Answers(i, db.orders[i], a) ==>
         !SaysFilled(i, db.orders[i], a)
  }

  lemma {:induction false} TriggerIsFirst(db: Db, id: nat, enabled: bool, a: SyncAnswers)
    requires ProtectedSync(db, id, enabled, a) && SyncExit(db, id, enabled, a).1.ExitFilled?
    ensures exists j :: 0 <= j < |db.orders| && FirstFilled(db, id, a, j) &&
                        SyncExit(db, id, enabled, a).1.trigger == db.orders[j].kind
  {
    var k := OpenPositionOf(db.positions, id).value;
    assert SyncExit(db, id, enabled, a) == SyncProtected(db, id, k, a) by {
      hide SyncProtected, SyncUnprotected;
    }
    hide SyncExit, RefreshOne, Answers, SaysFilled, ProtectedSync, RefreshedRows, SettledRows, SiblingEvents,
      LastCanceled, ClosePosition;
    var hit := TriggeredBy(db.orders, id, a, |db.orders|).value;
    assert SyncExit(db, id, enabled, a).1.trigger == db.orders[hit].kind;
    hide SyncProtected;
    forall j: nat | j < |db.orders|
      ensures RefreshOne(j, db.orders[j], a).Status? <==> Answers(j, db.orders[j], a)
      ensures Answers(j, db.orders[j], a) ==>
        (RefreshOne(j, db.orders[j], a) == Status(Filled) <==> SaysFilled(j, db.orders[j], a))
    {
      RefreshReads(j, db.orders[j], a);
    }
    forall i | 0 <= i < hit && Protects(db.orders[i], id) && Answers(i, db.orders[i], a)
      ensures !SaysFilled(i, db.orders[i], a)
    {
      assert !FilledAt(db.orders, id, a, i);
    }
    assert FirstFilled(db, id, a, hit);
  }

  // ----- What a session of its own loses -----

  /** A sync in a session of its own keeps everything it did, except where a local exit is due and the client cannot
      send it: then the freshly read mark is lost. */
  lemma {:induction false} OnlyTheMarkIsLost(db: Db, id: nat, enabled: bool, a: SyncAnswers)
    ensures var (after, outcome) := SyncExit(db, id, enabled, a);
      && SyncOne(db, id, enabled, a).1 == outcome
      && (outcome != CloseUnavailable ==> SyncOne(db, id, enabled, a).0 == after)
      && (outcome == CloseUnavailable ==>
            && SyncOne(db, id, enabled, a).0 == db
            && exists k, mark :: 0 <= k < |db.positions| && db.positions[k].isOpen && db.positions[k].planId == id
                                 && after == db.(positions := db.positions[k := db.positions[k].(mark := mark)]))
  {
    hide DetectLocalExit, FirstProblem, TriggeredBy, RefreshOne, RefreshedRows, SettledRows, SiblingEvents,
      LastCanceled, ProtectionOf, LocalLevels, Confirmed, ConfirmationFails, FillPrice, NormalizeStatus, ClosePosition,
      EventsFor, LegacyExternalId;
    var k := OpenPositionOf(db.positions, id);
    var (after, outcome) := SyncExit(db, id, enabled, a);
    if outcome == CloseUnavailable {
      hide OpenPositionOf;
      var mark := MarkSeen(db.positions[k.value], a);
      assert after == db.(positions := db.positions[k.value := db.positions[k.value].(mark := mark)]);
    }
  }

  // ----- When an execution goes through -----

  /** A testnet execution goes through exactly for an approved long or short plan whose market is free, if it is
      enabled, the step is known and leaves a quantity, and the exchange accepts the order; a paper one for any approved
      plan. */
  lemma {:induction false} ExecutesExactly(db: Db, id: nat, enabled: bool, a: ExecAnswers)
    ensures TestnetExecute(db, id, enabled, a).1.Executed? <==>
      && enabled && id < |db.plans| && db.plans[id].status == Approved
      && (db.plans[id].side == "long" || db.plans[id].side == "short")
      && (forall k :: 0 <= k < |db.positions| && db.positions[k].isOpen ==>
            db.positions[k].symbol != db.plans[id].symbol || db.positions[k].side != db.plans[id].side)
      && a.step.Some? && RoundToStep(RawQuantity(db.plans[id]), a.step.value) > 0.0 && a.place.Placed?
    ensures PaperExecute(db, id).1.PaperDone? <==> id < |db.plans| && db.plans[id].status == Approved
  {
    hide EntryOf, Protect, RawQuantity, RoundToStep, EventsFor;
  }

  // ----- The protection an execution stores -----

  /** The distances to fill and mark at which the stored stop guards and the stored target waits, each on its side of
      the market: at least as planned and, unless a thousandth of the mark is more, at most a tick further, up to what
      the second rounding moves. */
  predicate Guards(plan: Plan, fill: real, mark: real, tick: real, stop: real, target: real) {
    var low, high := Min(fill, ReferenceMark(fill, mark)), Max(fill, ReferenceMark(fill, mark));
    var risked, hoped := Abs(plan.stopLoss - plan.entry), Abs(plan.takeProfit - plan.entry);
    var least, more := Max(Abs(ReferenceMark(fill, mark)) * 0.001, 0.00000001), Max(tick, 0.0) + Shift(tick);
    if plan.side == "long" then
      && risked - Shift(tick) <= low - stop <= Max(risked, least) + more
      && hoped - Shift(tick) <= target - high <= Max(hoped, least) + more
      && (UsableTick(tick) ==> stop < low && high < target)
    else
      && risked - Shift(tick) <= stop - high <= Max(risked, least) + more
      && hoped - Shift(tick) <= low - target <= Max(hoped, least) + more
      && (UsableTick(tick) ==> target < low && high < stop)
  }

  lemma {:induction false} LevelsGuard(plan: Plan, fill: real, mark: real, tick: Option<real>)
    ensures var (stop, target) := Levels(plan, fill, mark, tick);
      Guards(plan, fill, mark, if tick.Some? then tick.value else 0.0, stop, target)
  {
    ProtectionBrackets(plan.side, plan.entry, plan.stopLoss, plan.takeProfit, fill, mark,
                       if tick.Some? then tick.value else 0.0);
    hide ProtectionLevels, Shift, UsableTick;
  }

  /** The words an accepted pair of protection orders is stored with: of the algo replies, or of the plain ones. */
  predicate WordsStored(a: ProtectAnswers, stop: Order, target: Order) {
    if a.algo && a.stopAlgo.Some? && a.profitAlgo.Some? then
      AlgoWordStored(a.stopAlgo.value, stop.status) && AlgoWordStored(a.profitAlgo.value, target.status)
    else
      && a.stopPlain.Some? && a.profitPlain.Some?
      && stop.status == (if a.stopPlain.value.status.Some? then a.stopPlain.value.status.value else New)
      && target.status == if a.profitPlain.value.status.Some? then a.profitPlain.value.status.value else New
  }

  predicate AlgoWordStored(p: AlgoPayload, s: Records.Status) {
    var word := if p.algoStatus.Some? then p.algoStatus.value
                else if p.plainStatus.Some? then p.plainStatus.value else New;
    s == if word == Success then Filled else if word == PendingNew then New else word
  }

  /** An execution that placed its protection stores, after the entry, a stop and then a take-profit: on opposite sides
      of fill and mark, and as the exchange described them. */
  lemma {:induction false} StoredPairGuards(db: Db, id: nat, a: ExecAnswers)
    requires id < |db.plans| && Refusal(db, id, true, a).None?
    requires !TestnetExecute(db, id, true, a).1.protectionFailed
    ensures var (after, n) := (TestnetExecute(db, id, true, a).0, |db.orders|);
      && |after.orders| == n + 3 && |after.positions| == |db.positions| + 1 && after.orders[..n] == db.orders
      && var (stop, target, held) := (after.orders[n + 1], after.orders[n + 2], after.positions[|db.positions|]);
         && stop.planId == target.planId == id && stop.kind == StopOrder && target.kind == TakeProfitOrder
         && Guards(db.plans[id], held.entry, held.mark, if a.protect.tick.Some? then a.protect.tick.value else 0.0,
                   stop.price, target.price)
         && WordsStored(a.protect, stop, target)
  {
    var plan := db.plans[id];
    var e := EntryOf(id, plan, RoundToStep(RawQuantity(plan), a.step.value), a.place.payload, a);
    assert e.order.price == e.position.entry;
    hide EntryOf, RawQuantity, RoundToStep;
    LevelsGuard(plan, e.order.price, e.position.mark, a.protect.tick);
    PairReads(id, plan, e.order.price, e.position.mark, a.protect);
    hide Protect, Guards, Levels, WordsStored, EventsFor, OpenOn;
  }

  lemma {:induction false} PairReads(id: nat, plan: Plan, fill: real, mark: real, a: ProtectAnswers)
    requires Protect(id, plan, fill, mark, a).pair.Some?
    ensures var (stop, target) := Protect(id, plan, fill, mark, a).pair.value;
      && stop.planId == target.planId == id && stop.kind == StopOrder && target.kind == TakeProfitOrder
      && (stop.price, target.price) == Levels(plan, fill, mark, a.tick) && WordsStored(a, stop, target)
  {
    hide Levels, Cancels, AlgoExternalId, LegacyExternalId;
  }

  // ----- Prices and statuses read off a reply -----

  /** The number in a field, zero if there is none. */
  function Number(f: Field): real { if f.Num? then f.number else 0.0 }

  /** A price read off a reply: its average price if it has one; else its price, if the word says filled or part-filled;
      else the quote over the quantity executed; the fallback exactly when none of these exists. */
  predicate PriceRead(reply: Payload, fallback: real, price: real) {
    var average, own, quantity, quote :=
      Number(reply.avgPrice), Number(reply.price), Number(reply.executedQty), Number(reply.cumQuote);
    if average > 0.0 then price == average
    else if own > 0.0 && (reply.status == Some(Filled) || reply.status == Some(PartiallyFilled)) then price == own
    else if quantity > 0.0 && quote > 0.0 then Times(price, quantity) == quote
    else price == fallback
  }

  /** A status read off a reply: its word, or New, if nothing was executed or the word speaks of fills; else filled or
      part-filled as what was executed reaches what was asked for, up to a billionth of it. */
  predicate StatusRead(word: Option<Records.Status>, executed: real, requested: real, status: Records.Status) {
    if executed <= 0.0 || word == Some(Filled) || word == Some(PartiallyFilled)
    then status == if word.Some? then word.value else New
    else status == if executed >= requested - Max(0.000000000001, requested * 0.000000001) then Filled
                   else PartiallyFilled
  }

  lemma {:induction false} PriceReads(reply: Payload, fallback: real)
    ensures PriceRead(reply, fallback, FillPrice(reply, fallback))
  {
    var quantity, quote := Number(reply.executedQty), Number(reply.cumQuote);
    if quantity > 0.0 {
      var q := quote / quantity;
      assert Times(q, quantity) == quote;
    }
  }

  lemma {:induction false} StatusReads(word: Option<Records.Status>, executed: real, requested: real)
    ensures StatusRead(word, executed, requested, NormalizeStatus(word, executed, requested))
  {
  }

  // ----- The synthetic local exit -----

  /** The side of a watched level the price has crossed, if any: what the stop guards against, or what the target waits
      for. */
  predicate StopCrossed(side: string, mark: real, stop: real) {
    mark > 0.0 && if side == "long" then mark <= stop else mark >= stop
  }

  predicate TargetCrossed(side: string, mark: real, target: real) {
    mark > 0.0 && if side == "long" then mark >= target else mark <= target
  }

  /** The mark price a sync goes by. */
  function MarkSeen(held: Position, a: SyncAnswers): real {
    if a.risk.Some? && a.risk.value.Num? && a.risk.value.number > 0.0 then a.risk.value.number else held.mark
  }

  /** The reply says filled, or has executed what was held up to a billionth of it. */
  predicate ClosedOut(reply: Payload, held: real) {
    var executed := if reply.executedQty.Num? then reply.executedQty.number else 0.0;
    reply.status == Some(Filled) || executed >= Max(0.0, held - Max(0.000000000001, held * 0.000000001))
  }

  /** The sync gets to a plan without protection orders. */
  predicate UnprotectedSync(db: Db, id: nat, enabled: bool) {
    && enabled && id < |db.plans| && db.plans[id].status != TestnetClosed
    && OpenPositionOf(db.positions, id).Some? && ProtectionOf(db.orders, id) == []
  }

  /** What makes such a sync close. */
  predicate LocalExitDue(plan: Plan, held: Position, levels: (real, real), a: SyncAnswers) {
    && a.hasRisk && a.risk.Some? && a.hasClose && a.close.Some?
    && (StopCrossed(plan.side, MarkSeen(held, a), levels.0) || TargetCrossed(plan.side, MarkSeen(held, a), levels.1))
    && ClosedOut(Confirmed(a.close.value, a.confirm), held.quantity)
  }

  lemma {:induction false} ClosingStatus(reply: Payload, held: real)
    ensures var executed := reply.executedQty.ToFloat(0.0);
      NormalizeStatus(reply.status, executed, held) == Filled || executed >= Max(0.0, held - Records.Tolerance(held))
      <==> ClosedOut(reply, held)
  {
  }

  lemma {:induction false} DetectionReads(side: string, mark: real, levels: (real, real))
    ensures var t := DetectLocalExit(side, mark, levels.0, levels.1);
      && (t == StopMarket <==> StopCrossed(side, mark, levels.0))
      && (t == TakeProfitMarket <==> !StopCrossed(side, mark, levels.0) && TargetCrossed(side, mark, levels.1))
  {
  }

  /** The levels a plan is watched at: its own as long as no placement of its protection failed on record, those of the
      last failure afterwards. */
  predicate Watched(plan: Plan, id: nat, es: seq<Event>, levels: (real, real)) {
    if Failures(id, es) == {} then levels == (plan.stopLoss, plan.takeProfit)
    else exists i :: i in Failures(id, es) && (forall j :: j in Failures(id, es) ==> j <= i)
                     && levels == (es[i].kind.stop, es[i].kind.profit)
  }

  /** The places in the log of the failed placements of a plan. */
  function Failures(id: nat, es: seq<Event>): set<nat> {
    set i | 0 <= i < |es| && es[i].planId == id && es[i].kind.ProtectionFailed?
  }

  lemma {:induction false} LevelsAreWatched(plan: Plan, id: nat, es: seq<Event>)
    ensures Watched(plan, id, es, LocalLevels(plan, id, es))
  {
    if es != [] {
      var n := |es| - 1;
      if n in Failures(id, es) {
        assert forall j :: j in Failures(id, es) ==> j <= n;
      } else {
        LevelsAreWatched(plan, id, es[..n]);
        assert Failures(id, es[..n]) == Failures(id, es);
      }
    }
  }

  /** A plan without protection orders closes exactly when the mark has crossed a watched level, a close was sent and
      answered, and the confirmed reply says filled or executed what was held. Then its position closes at the price of
      the reply, and one order is stored: a stop if the stop was crossed, else a take-profit, over the quantity held. */
  lemma {:induction false} LocalExitExactly(db: Db, id: nat, enabled: bool, a: SyncAnswers)
    requires UnprotectedSync(db, id, enabled)
    ensures var k := OpenPositionOf(db.positions, id).value;
      var plan, held, levels := db.plans[id], db.positions[k], LocalLevels(db.plans[id], id, db.events);
      var (after, outcome) := SyncExit(db, id, enabled, a);
      && Watched(plan, id, db.events, levels)
      && (after.plans[id].status == TestnetClosed <==> LocalExitDue(plan, held, levels, a))
      && (after.plans[id].status != TestnetClosed ==>
            after.plans == db.plans && after.orders == db.orders && after.positions[k].isOpen == held.isOpen)
      && (LocalExitDue(plan, held, levels, a) ==>
            && after.plans == db.plans[id := plan.(status := TestnetClosed)]
            && |after.orders| == |db.orders| + 1 && after.orders[..|db.orders|] == db.orders
            && var row := after.orders[|db.orders|];
               && row.planId == id && row.quantity == held.quantity
               && row.kind ==
                    (if StopCrossed(plan.side, MarkSeen(held, a), levels.0) then StopOrder else TakeProfitOrder)
               && row.executed == Number(Confirmed(a.close.value, a.confirm).executedQty)
               && PriceRead(Confirmed(a.close.value, a.confirm), MarkSeen(held, a), row.price)
               && StatusRead(Confirmed(a.close.value, a.confirm).status, row.executed, row.quantity, row.status)
               && after.positions == db.positions[k := held.(mark := row.price, pnl := 0.0, isOpen := false)])
  {
    var k := OpenPositionOf(db.positions, id).value;
    assert SyncExit(db, id, enabled, a) == SyncUnprotected(db, id, k, a) by {
      hide SyncProtected, SyncUnprotected;
    }
    hide SyncExit, ProtectionOf, OpenPositionOf;
    var plan, held, levels := db.plans[id], db.positions[k], LocalLevels(db.plans[id], id, db.events);
    DetectionReads(plan.side, MarkSeen(held, a), levels);
    LevelsAreWatched(plan, id, db.events);
    if a.close.Some? {
      var reply := Confirmed(a.close.value, a.confirm);
      ClosingStatus(reply, held.quantity);
      PriceReads(reply, MarkSeen(held, a));
      StatusReads(reply.status, Number(reply.executedQty), held.quantity);
    }
    hide LocalLevels, DetectLocalExit, Confirmed, ConfirmationFails, NormalizeStatus, Records.Tolerance, FillPrice,
      LegacyExternalId, StopCrossed, TargetCrossed, ClosedOut, EventsFor, PriceRead, StatusRead, Watched;
  }

  // ----- What an execution stores -----

  /** The trades of the order, if they could be looked up, hold no fill. */
  predicate NoFills(reply: Payload, t: TradesAnswer) {
    t.TradesReply? && reply.orderId.Numeric() ==> forall i :: 0 <= i < |t.trades| ==> Number(t.trades[i].qty) <= 0.0
  }

  lemma {:induction false} NothingTotal(ts: seq<Trade>)
    requires forall i :: 0 <= i < |ts| ==> Number(ts[i].qty) <= 0.0
    ensures TotalQty(ts) == 0.0 && SignedQty(ts) <= 0.0
  {
    if ts != [] {
      NothingTotal(ts[..|ts| - 1]);
    }
  }

  /** The leverage an exchange reports, cut to a whole number toward zero; one where it reports none or zero. */
  predicate LeverageRead(f: Field, leverage: int) {
    if f.Num? && f.number != 0.0
    then && (if f.number > 0.0 then leverage >= 0 else leverage <= 0)
         && Abs(f.number) - 1.0 < Abs(leverage as real) <= Abs(f.number)
    else leverage == 1
  }

  lemma {:induction false} LeverageReads(f: Field)
    ensures LeverageRead(f, LeverageOf(f))
  {
  }

  /** A long gains what the mark is above the entry, a short what it is below, on every unit, to eight decimals. */
  predicate GainRead(side: string, entry: real, mark: real, quantity: real, pnl: real) {
    Abs(pnl - Times(if side == "long" then mark - entry else entry - mark, quantity)) <= 0.000000005
  }

  lemma {:induction false} GainReads(side: string, entry: real, mark: real, quantity: real)
    ensures GainRead(side, entry, mark, quantity, Pnl(mark, entry, quantity, side))
  {
    var x := Times(Times(mark - entry, quantity), if side == "long" then 1.0 else -1.0);
    RoundToError(x, 100000000.0);
    TimesOpposite(mark - entry, quantity);
    assert -(mark - entry) == entry - mark;
    assert x == Times(if side == "long" then mark - entry else entry - mark, quantity);
    hide RoundTo, Times;
  }

  /** What is stored of the entry of an execution, read off the confirmed reply, the fills and the position risk. */
  predicate EntryRead(plan: Plan, reply: Payload, a: ExecAnswers, order: Order, held: Position) {
    && held.entry == order.price && held.quantity == order.executed
    && held.symbol == plan.symbol && held.side == plan.side && held.isOpen
    && (NoFills(reply, a.trades) ==>
          && PriceRead(reply, plan.entry, order.price)
          && StatusRead(reply.status, Number(reply.executedQty), order.quantity, order.status)
          && order.executed ==
               if Number(reply.executedQty) <= 0.0 && order.status in [Filled, PartiallyFilled, New]
               then order.quantity else Number(reply.executedQty))
    && (if a.risk.RiskReply? then
          && held.mark == (if Number(a.risk.mark) > 0.0 then Number(a.risk.mark) else order.price)
          && GainRead(plan.side, held.entry, held.mark, held.quantity, held.pnl)
          && LeverageRead(a.risk.leverageField, held.leverage)
        else held.mark == order.price && held.pnl == 0.0)
  }

  lemma {:induction false} EntryReads(id: nat, plan: Plan, q: real, sent: Payload, a: ExecAnswers)
    ensures var e := EntryOf(id, plan, q, sent, a);
      EntryRead(plan, Confirmed(sent, a.confirm), a, e.order, e.position) && e.order.quantity == q
  {
    var reply := Confirmed(sent, a.confirm);
    PriceReads(reply, plan.entry);
    StatusReads(reply.status, Number(reply.executedQty), q);
    if NoFills(reply, a.trades) {
      NothingTotal(TradesOf(reply, a.trades));
    }
    var e := EntryOf(id, plan, q, sent, a);
    GainReads(plan.side, e.order.price, e.position.mark, e.position.quantity);
    if a.risk.RiskReply? {
      LeverageReads(a.risk.leverageField);
    }
    hide Confirmed, FillPrice, NormalizeStatus, LeverageOf, LegacyExternalId, Pnl, EntryEvents, PriceRead, StatusRead,
      GainRead, LeverageRead, TotalQty, TotalQuote, SignedQty;
  }

  /** The order and the position that a testnet execution stores say what the exchange replied. */
  lemma {:induction false} ExecutionReadsReply(db: Db, id: nat, a: ExecAnswers)
    requires id < |db.plans| && Refusal(db, id, true, a).None?
    ensures var after := TestnetExecute(db, id, true, a).0;
      && |after.orders| > |db.orders| && |after.positions| == |db.positions| + 1
      && EntryRead(db.plans[id], Confirmed(a.place.payload, a.confirm), a,
                   after.orders[|db.orders|], after.positions[|db.positions|])
  {
    var plan := db.plans[id];
    EntryReads(id, plan, RoundToStep(RawQuantity(plan), a.step.value), a.place.payload, a);
    hide EntryOf, RawQuantity, RoundToStep, Protect, EntryRead, Confirmed, EventsFor, OpenOn;
  }

  /** The fills of the order, where they could be looked up. */
  function Fills(reply: Payload, t: TradesAnswer): seq<Trade> {
    if t.TradesReply? && reply.orderId.Numeric() then t.trades else []
  }

  /** A fill struck between two prices: by what was paid where the trade says so, else by its price. */
  predicate Struck(t: Trade, low: real, high: real) {
    Number(t.qty) > 0.0 ==>
      if Number(t.quoteQty) > 0.0 then
        Times(low, Number(t.qty)) <= Number(t.quoteQty) <= Times(high, Number(t.qty))
      else low <= Number(t.price) <= high
  }

  function Quantities(ts: seq<Trade>): real { if ts == [] then 0.0 else Number(ts[0].qty) + Quantities(ts[1..]) }

  lemma {:induction false} QuantitiesGrow(ts: seq<Trade>, t: Trade)
    ensures Quantities(ts + [t]) == Quantities(ts) + Number(t.qty)
  {
    if ts != [] {
      assert (ts + [t])[1..] == ts[1..] + [t];
      QuantitiesGrow(ts[1..], t);
    }
  }

  lemma {:induction false} SignedIsQuantities(ts: seq<Trade>)
    ensures SignedQty(ts) == Quantities(ts)
  {
    if ts != [] {
      var front, last := ts[..|ts| - 1], ts[|ts| - 1];
      SignedIsQuantities(front);
      QuantitiesGrow(front, last);
      assert ts == front + [last];
    }
  }

  lemma {:induction false} StruckCounts(t: Trade, low: real, high: real)
    requires Struck(t, low, high)
    ensures Times(low, CountedQty(t)) <= CountedQuote(t) <= Times(high, CountedQty(t))
  {
    var qty := Number(t.qty);
    if qty > 0.0 {
      if low <= Number(t.price) <= high {
        TimesOrder(low, Number(t.price), qty);
        TimesOrder(Number(t.price), high, qty);
      }
    }
    assert qty <= 0.0 ==> CountedQty(t) == 0.0 && CountedQuote(t) == 0.0;
    assert Times(low, 0.0) == 0.0 == Times(high, 0.0);
    hide Times;
  }

  lemma {:induction false} TotalGrows(ts: seq<Trade>)
    ensures TotalQty(ts) >= 0.0
    ensures (exists i :: 0 <= i < |ts| && Number(ts[i].qty) > 0.0) ==> TotalQty(ts) > 0.0
  {
    if ts != [] {
      var front := ts[..|ts| - 1];
      TotalGrows(front);
      if i :| 0 <= i < |ts| && Number(ts[i].qty) > 0.0 {
        assert i < |front| ==> front[i] == ts[i];
      }
    }
  }

  /** Where fills are known, they alone set the price, which lies between any two prices all of them were struck
      between, and their quantities add up to the executed one. */
  lemma {:induction false} ExecutionReadsFills(db: Db, id: nat, a: ExecAnswers, low: real, high: real)
    requires id < |db.plans| && Refusal(db, id, true, a).None? && low > 0.0
    requires var fills := Fills(Confirmed(a.place.payload, a.confirm), a.trades);
      && (exists i :: 0 <= i < |fills| && Number(fills[i].qty) > 0.0)
      && forall i :: 0 <= i < |fills| ==> Struck(fills[i], low, high)
    ensures var after := TestnetExecute(db, id, true, a).0;
      var fills := Fills(Confirmed(a.place.payload, a.confirm), a.trades);
      && |after.orders| > |db.orders| && |after.positions| == |db.positions| + 1
      && var (order, held) := (after.orders[|db.orders|], after.positions[|db.positions|]);
         && low <= order.price <= high && held.entry == order.price
         && (Quantities(fills) > 0.0 ==> order.executed == Quantities(fills) == held.quantity)
  {
    var plan, reply := db.plans[id], Confirmed(a.place.payload, a.confirm);
    var fills := Fills(reply, a.trades);
    assert fills == TradesOf(reply, a.trades);
    SignedIsQuantities(fills);
    FillsSetThePrice(fills, low, high, FillPrice(reply, plan.entry));
    var q := RoundToStep(RawQuantity(plan), a.step.value);
    EntryOfFills(id, plan, q, a.place.payload, a);
    hide EntryOf, RawQuantity, RoundToStep, Protect, Confirmed, EventsFor, OpenOn, Struck, Fills, TradesOf,
      PriceOfTrades, QuantityOfTrades, FillPrice, Quantities;
  }

  lemma {:induction false} EntryOfFills(id: nat, plan: Plan, q: real, sent: Payload, a: ExecAnswers)
    ensures var e, reply := EntryOf(id, plan, q, sent, a), Confirmed(sent, a.confirm);
      && e.order.price == PriceOfTrades(TradesOf(reply, a.trades), FillPrice(reply, plan.entry)) == e.position.entry
      && e.order.executed == e.position.quantity
      && (SignedQty(TradesOf(reply, a.trades)) > 0.0 ==> e.order.executed == SignedQty(TradesOf(reply, a.trades)))
  {
    hide Confirmed, PriceOfTrades, TradesOf, FillPrice, NormalizeStatus, LeverageOf, LegacyExternalId, Pnl, EntryEvents,
      SignedQty;
  }

  lemma {:induction false} FillsSetThePrice(ts: seq<Trade>, low: real, high: real, fallback: real)
    requires low > 0.0 && (exists i :: 0 <= i < |ts| && Number(ts[i].qty) > 0.0)
    requires forall i :: 0 <= i < |ts| ==> Struck(ts[i], low, high)
    ensures low <= PriceOfTrades(ts, fallback) <= high
  {
    forall i | 0 <= i < |ts|
      ensures Times(low, CountedQty(ts[i])) <= CountedQuote(ts[i]) <= Times(high, CountedQty(ts[i]))
    {
      StruckCounts(ts[i], low, high);
    }
    TotalGrows(ts);
    QuoteBetween(ts, low, high);
    assert Times(low, TotalQty(ts)) > 0.0 by { ProductPositive(low, TotalQty(ts)); }
    hide TotalQty, TotalQuote, PriceOfTrades, Struck, CountedQty, CountedQuote, Times;
    FillPriceIsAnAverage(ts, low, high, fallback);
  }

  // ----- When the confirmation counts -----

  /** A reply that knows price and quantity and is past waiting is believed as it is; one that lacks the average price
      takes it from the refreshed reply, unless the order died without a fill. */
  lemma {:induction false} ConfirmationCounts(sent: Payload, c: Confirmation)
    ensures (&& Number(sent.avgPrice) > 0.0 && Number(sent.executedQty) > 0.0
             && sent.status != Some(New) && sent.status != Some(PendingNew)) ==> Confirmed(sent, c) == sent
    ensures (&& c.Reply? && AskableId(sent.orderId) && !sent.avgPrice.Word? && Number(sent.avgPrice) <= 0.0
             && Number(c.payload.avgPrice) > 0.0
             && (Number(sent.executedQty) > 0.0 || sent.status !in [Some(Canceled), Some(Expired), Some(Rejected)])) ==>
      Number(Confirmed(sent, c).avgPrice) == Number(c.payload.avgPrice)
    ensures !c.Reply? ==> Confirmed(sent, c) == sent
  {
    hide PreferId, PreferStatus, AskableId;
  }

  // ----- Stored references -----

  lemma {:induction false} DigitsStrip(s: string)
    requires s != "" && Plain(s)
    ensures Strip(s) == s
  {
    assert '0' <= s[0] <= '9' && '0' <= s[|s| - 1] <= '9';
  }

  /** An order number is stored so that asking and cancelling later use that very number, algo numbers as such. */
  lemma {:induction false} NumbersResolve(p: Payload, q: AlgoPayload, n: nat, clientId: string)
    ensures n > 0 && p.orderId == Ident.Number(n) ==>
      ResolveRef(LegacyExternalId(p, clientId)) == Some(OrderId(Digits(n)))
    ensures q.algoId == Ident.Number(n) ==> ResolveRef(AlgoExternalId(q, clientId)) == Some(AlgoId(Digits(n)))
    ensures Natural(Digits(n)) == n
  {
    DigitsRead(n);
    var d := Digits(n);
    hide Digits, Natural;
    DigitsStrip(d);
    assert d[0] != 'a';
    assert !(ALGO <= d) by { assert ALGO[0] == 'a'; }
    assert !(ALGO_CLIENT <= d) by { assert ALGO_CLIENT[0] == 'a'; }
    AlgoStrips(d);
  }

  lemma {:induction false} AlgoStrips(d: string)
    requires d != "" && Plain(d)
    ensures Strip(ALGO + d) == ALGO + d && ALGO <= ALGO + d && (ALGO + d)[|ALGO|..] == d
  {
    var s := ALGO + d;
    assert s[0] == 'a' && s[|s| - 1] == d[|d| - 1];
    assert '0' <= d[|d| - 1] <= '9';
  }
}
