/** A filled exit leaves no protection order of its plan forgotten, to the end of every run. */
module ExitCleanup {
  import opened OrderMath
  import opened Records
  import opened Execution
  import opened ExecutionRuns
  import opened ExecutionTheorems

  predicate IsFilledExit(e: Event, id: nat) { e.planId == id && e.kind.ExitOrderFilled? }

  /** The log says that an exit order of the plan was filled. */
  predicate FilledExit(es: seq<Event>, id: nat) { exists i :: 0 <= i < |es| && IsFilledExit(es[i], id) }

  predicate Named(es: seq<Event>, id: nat, ref: string) {
    Event(id, SiblingCancelFailed(ref)) in es || Event(id, SiblingCancelUnavailable(ref)) in es
  }

  /** The plan is closed, and each of its protection orders is over or named by a warning on record. */
  predicate CleanedUp(db: Db, id: nat) {
    && id < |db.plans| && db.plans[id].status == TestnetClosed
    && forall j :: 0 <= j < |db.orders| && Protects(db.orders[j], id) ==>
         Terminal(db.orders[j].status) || Named(db.events, id, db.orders[j].external)
  }

  ghost predicate ExitsCleanedUp(db: Db) { forall id: nat :: FilledExit(db.events, id) ==> CleanedUp(db, id) }

  // ----- Growth of the log -----

  predicate NoExit(kinds: seq<EventKind>) { forall i :: 0 <= i < |kinds| ==> !kinds[i].ExitOrderFilled? }

  lemma {:induction false} LogExits(es: seq<Event>, owner: nat, kinds: seq<EventKind>, id: nat)
    ensures FilledExit(es + EventsFor(owner, kinds), id) ==> FilledExit(es, id) || (id == owner && !NoExit(kinds))
    ensures forall ref :: Named(es, id, ref) ==> Named(es + EventsFor(owner, kinds), id, ref)
  {
    var all := es + EventsFor(owner, kinds);
    if i :| 0 <= i < |all| && IsFilledExit(all[i], id) {
      if i < |es| {
        assert IsFilledExit(es[i], id);
      } else {
        assert kinds[i - |es|].ExitOrderFilled?;
      }
    }
  }

  /** What a call about one plan may do: log for it, rewrite or add rows of it, move it on. */
  predicate About(db: Db, after: Db, id: nat, kinds: seq<EventKind>) {
    && |after.plans| == |db.plans| && after.events == db.events + EventsFor(id, kinds)
    && (forall i :: 0 <= i < |db.plans| && i != id ==> after.plans[i] == db.plans[i])
    && |db.orders| <= |after.orders|
    && (forall j :: 0 <= j < |db.orders| ==>
          && after.orders[j].planId == db.orders[j].planId
          && (db.orders[j].planId != id ==> after.orders[j] == db.orders[j]))
    && (forall j :: |db.orders| <= j < |after.orders| ==> after.orders[j].planId == id)
  }

  lemma {:induction false} OtherPlansStayClean(db: Db, after: Db, owner: nat, kinds: seq<EventKind>, id: nat)
    requires About(db, after, owner, kinds) && id != owner && CleanedUp(db, id)
    ensures CleanedUp(after, id)
  {
    LogExits(db.events, owner, kinds, id);
    hide Terminal, Named, EventsFor;
  }

  /** A call about a plan whose exit was not filled before: what matters is how it leaves that plan. */
  lemma {:induction false} OwnerDecides(db: Db, after: Db, id: nat, kinds: seq<EventKind>)
    requires ExitsCleanedUp(db) && About(db, after, id, kinds)
    requires id < |db.plans| && db.plans[id].status != TestnetClosed
    requires NoExit(kinds) || CleanedUp(after, id)
    ensures ExitsCleanedUp(after)
  {
    hide About, CleanedUp, NoExit, FilledExit, EventsFor;
    assert !FilledExit(db.events, id) by { NotYetClosed(db, id); }
    forall other: nat | FilledExit(after.events, other) ensures CleanedUp(after, other) {
      LogOfAbout(db, after, id, kinds);
      LogExits(db.events, id, kinds, other);
      if other != id {
        OtherPlansStayClean(db, after, id, kinds, other);
      }
    }
  }

  lemma {:induction false} LogOfAbout(db: Db, after: Db, id: nat, kinds: seq<EventKind>)
    requires About(db, after, id, kinds)
    ensures after.events == db.events + EventsFor(id, kinds)
  {
  }

  lemma {:induction false} NotYetClosed(db: Db, id: nat)
    requires ExitsCleanedUp(db) && id < |db.plans| && db.plans[id].status != TestnetClosed
    ensures !FilledExit(db.events, id)
  {
    hide FilledExit;
  }

  /** Calls that only add to the log, and to the plans. */
  lemma {:induction false} LoggingKeeps(db: Db, after: Db, id: nat, kinds: seq<EventKind>)
    requires ExitsCleanedUp(db) && NoExit(kinds) && after.events == db.events + EventsFor(id, kinds)
    requires db.plans <= after.plans && after.orders == db.orders
    ensures ExitsCleanedUp(after)
  {
    hide FilledExit, NoExit, Terminal, Named, EventsFor;
    forall other: nat | FilledExit(after.events, other) ensures CleanedUp(after, other) {
      LogExits(db.events, id, kinds, other);
    }
  }

  // ----- The calls -----

  lemma {:induction false} CreateCleans(db: Db, p: Proposal)
    requires ExitsCleanedUp(db)
    ensures ExitsCleanedUp(CreatePlan(db, p))
  {
    assert NoExit(Findings(p));
    hide ExitsCleanedUp, Answered, Findings, NoExit, PlanFor, EventsFor;
    if Answered(p) {
      LoggingKeeps(db, CreatePlan(db, p), |db.plans|, Findings(p));
    }
  }

  lemma {:induction false} PaperCleans(db: Db, id: nat)
    requires ExitsCleanedUp(db)
    ensures ExitsCleanedUp(PaperExecute(db, id).0)
  {
    hide ExitsCleanedUp, RawQuantity, Digits;
    if id < |db.plans| {
      var after := PaperExecute(db, id).0;
      if db.plans[id].status != Approved {
        LoggingKeeps(db, after, id, [PaperBlocked]);
      } else {
        assert after.events == db.events + EventsFor(id, []);
        OwnerDecides(db, after, id, []);
      }
    }
  }

  lemma {:induction false} JoinedExits(a: seq<EventKind>, b: seq<EventKind>)
    requires NoExit(a) && NoExit(b)
    ensures NoExit(a + b)
  {
  }

  lemma {:induction false} EntryLogsNoExit(id: nat, plan: Plan, q: real, sent: Payload, a: ExecAnswers)
    ensures NoExit(EntryOf(id, plan, q, sent, a).events)
  {
    hide Confirmed, PriceOfTrades, QuantityOfTrades, TradesOf, FillPrice, NormalizeStatus, LeverageOf, Pnl,
      ConfirmationFails, LegacyExternalId;
  }

  lemma {:induction false} PlacementLogsNoExit(id: nat, plan: Plan, fill: real, mark: real, a: ProtectAnswers)
    ensures NoExit(Protect(id, plan, fill, mark, a).events)
  {
    hide Levels, Cancels;
  }

  lemma {:induction false} ExecutionCleans(db: Db, id: nat, a: ExecAnswers)
    requires ExitsCleanedUp(db) && id < |db.plans| && Refusal(db, id, true, a).None?
    ensures ExitsCleanedUp(TestnetExecute(db, id, true, a).0)
  {
    var plan, after := db.plans[id], TestnetExecute(db, id, true, a).0;
    assert plan.status == Approved;
    hide ExitsCleanedUp, EntryOf, Protect, RawQuantity, RoundToStep, Refusal, EventsFor;
    var q := RoundToStep(RawQuantity(plan), a.step.value);
    var e := EntryOf(id, plan, q, a.place.payload, a);
    var p := Protect(id, plan, e.order.price, e.position.mark, a.protect);
    EntryIsQuiet(id, plan, q, a.place.payload, a);
    ProtectShape(id, plan, e.order.price, e.position.mark, a.protect);
    EntryLogsNoExit(id, plan, q, a.place.payload, a);
    PlacementLogsNoExit(id, plan, e.order.price, e.position.mark, a.protect);
    JoinedExits(e.events, p.events);
    JoinedExits(e.events + p.events, [ExecutionSubmitted]);
    hide NoExit;
    OwnerDecides(db, after, id, e.events + p.events + [ExecutionSubmitted]);
  }

  lemma {:induction false} TestnetCleans(db: Db, id: nat, enabled: bool, a: ExecAnswers)
    requires ExitsCleanedUp(db)
    ensures ExitsCleanedUp(TestnetExecute(db, id, enabled, a).0)
  {
    hide ExitsCleanedUp, EntryOf, Protect, RawQuantity, RoundToStep;
    if id < |db.plans| {
      var refusal := Refusal(db, id, enabled, a);
      if refusal.Some? {
        LoggingKeeps(db, TestnetExecute(db, id, enabled, a).0, id, [refusal.value.0]);
      } else {
        assert enabled;
        ExecutionCleans(db, id, a);
      }
    }
  }

  lemma {:induction false} RefreshedAbout(os: seq<Order>, id: nat, a: SyncAnswers)
    ensures var rows := RefreshedRows(os, id, a);
      && |rows| == |os| && |SettledRows(rows, id, a.cancel)| == |os|
      && (forall j :: 0 <= j < |os| ==>
            && rows[j] == os[j].(status := rows[j].status)
            && SettledRows(rows, id, a.cancel)[j] == os[j].(status := SettledRows(rows, id, a.cancel)[j].status))
      && (forall j :: 0 <= j < |os| && os[j].planId != id ==> rows[j] == os[j] == SettledRows(rows, id, a.cancel)[j])
  {
    hide RefreshOne, Cancels, Terminal;
  }

  lemma {:induction false} FilledAbout(db: Db, id: nat, enabled: bool, a: SyncAnswers)
    requires SyncExit(db, id, enabled, a).1.ExitFilled?
    ensures var after := SyncExit(db, id, enabled, a).0;
      var refreshed := RefreshedRows(db.orders, id, a);
      && id < |db.plans| && db.plans[id].status != TestnetClosed
      && after.orders == SettledRows(refreshed, id, a.cancel)
      && exists kinds :: after.events == db.events + EventsFor(id, kinds)
  {
    hide RefreshedRows, SettledRows, SiblingEvents, LastCanceled, FirstProblem, TriggeredBy, RefreshOne, ProtectionOf,
      DetectLocalExit, LocalLevels, Confirmed, ConfirmationFails, FillPrice, NormalizeStatus, EventsFor;
  }

  lemma {:induction false} FilledCleans(db: Db, id: nat, enabled: bool, a: SyncAnswers)
    requires ExitsCleanedUp(db) && SyncExit(db, id, enabled, a).1.ExitFilled?
    ensures ExitsCleanedUp(SyncExit(db, id, enabled, a).0)
  {
    FilledExitCleansUp(db, id, enabled, a);
    FilledAbout(db, id, enabled, a);
    RefreshedAbout(db.orders, id, a);
    var after := SyncExit(db, id, enabled, a).0;
    hide SyncExit, ExitsCleanedUp, RefreshedRows, SettledRows, EventsFor, Terminal;
    var kinds :| after.events == db.events + EventsFor(id, kinds);
    assert after.events[|db.events|..] == EventsFor(id, kinds);
    forall j | 0 <= j < |after.orders| && Protects(after.orders[j], id)
      ensures Terminal(after.orders[j].status) || Named(after.events, id, after.orders[j].external)
    {
      assert Protects(db.orders[j], id) && SettledOrNamed(db, after, id, j);
    }
    OwnerDecides(db, after, id, kinds);
  }

  /** A sync that fills no exit: what it logs, and that it works on the rows of its own plan only. */
  lemma {:induction false} ProtectedAbout(db: Db, id: nat, k: nat, a: SyncAnswers)
    requires id < |db.plans| && k < |db.positions| && !SyncProtected(db, id, k, a).1.ExitFilled?
    ensures exists kinds :: NoExit(kinds) && About(db, SyncProtected(db, id, k, a).0, id, kinds)
  {
    RefreshedAbout(db.orders, id, a);
    hide RefreshedRows, SettledRows, SiblingEvents, LastCanceled, FirstProblem, TriggeredBy, RefreshOne, NoExit;
    var after := SyncProtected(db, id, k, a).0;
    assert NoExit([]) by { NoExits(); }
    assert db.events == db.events + EventsFor(id, []);
    var problem := FirstProblem(db.orders, id, a, |db.orders|);
    if problem.Some? && after.events != db.events {
      var kinds := [ExitRefreshFailed(db.orders[problem.value].external)];
      assert NoExit(kinds) by { OneNoExit(kinds[0]); }
      assert About(db, after, id, kinds);
    } else {
      assert About(db, after, id, []);
    }
  }

  lemma {:induction false} NoExits()
    ensures NoExit([])
  {
  }

  lemma {:induction false} OneNoExit(kind: EventKind)
    requires !kind.ExitOrderFilled?
    ensures NoExit([kind]) && NoExit([OrderRefreshFailed, kind])
  {
  }

  lemma {:induction false} UnprotectedAbout(db: Db, id: nat, k: nat, a: SyncAnswers)
    requires id < |db.plans| && k < |db.positions|
    ensures exists kinds :: NoExit(kinds) && About(db, SyncUnprotected(db, id, k, a).0, id, kinds)
  {
    hide DetectLocalExit, LocalLevels, Confirmed, ConfirmationFails, FillPrice, NormalizeStatus, LegacyExternalId,
      NoExit, Records.Tolerance;
    var after := SyncUnprotected(db, id, k, a).0;
    assert NoExit([]) by { NoExits(); }
    assert db.events == db.events + EventsFor(id, []);
    if !a.hasRisk {
      assert About(db, after, id, []);
    } else if a.risk.None? {
      OneNoExit(LocalMarkUnavailable);
      assert About(db, after, id, [LocalMarkUnavailable]);
    } else {
      LocalExitAbout(db, id, k, a);
    }
  }

  lemma {:induction false} LocalExitAbout(db: Db, id: nat, k: nat, a: SyncAnswers)
    requires id < |db.plans| && k < |db.positions| && a.hasRisk && a.risk.Some?
    ensures exists kinds :: NoExit(kinds) && About(db, SyncUnprotected(db, id, k, a).0, id, kinds)
  {
    hide DetectLocalExit, LocalLevels, Confirmed, ConfirmationFails, FillPrice, NormalizeStatus, LegacyExternalId,
      NoExit, Records.Tolerance;
    var after, held := SyncUnprotected(db, id, k, a).0, db.positions[k];
    var quoted := a.risk.value.ToFloat(held.mark);
    var mark := if quoted > 0.0 then quoted else held.mark;
    var levels := LocalLevels(db.plans[id], id, db.events);
    var trigger := DetectLocalExit(db.plans[id].side, mark, levels.0, levels.1);
    assert NoExit([]) by { NoExits(); }
    assert db.events == db.events + EventsFor(id, []);
    if trigger == NoTrigger || !a.hasClose {
      assert About(db, after, id, []);
    } else if a.close.None? {
      OneNoExit(LocalExitFailed(KindOf(trigger)));
      assert About(db, after, id, [LocalExitFailed(KindOf(trigger))]);
    } else {
      var doubt := if ConfirmationFails(a.close.value, a.confirm) then [OrderRefreshFailed] else [];
      var missed, done := LocalExitNotFilled(KindOf(trigger)), LocalExitTriggered(KindOf(trigger));
      OneNoExit(missed);
      OneNoExit(done);
      assert [] + [missed] == [missed] && [] + [done] == [done];
      assert [OrderRefreshFailed] + [missed] == [OrderRefreshFailed, missed];
      assert [OrderRefreshFailed] + [done] == [OrderRefreshFailed, done];
      assert NoExit(doubt + [missed]) && NoExit(doubt + [done]);
      assert About(db, after, id, doubt + [missed]) || About(db, after, id, doubt + [done]);
    }
  }

  lemma {:induction false} SyncCleans(db: Db, id: nat, enabled: bool, a: SyncAnswers)
    requires ExitsCleanedUp(db)
    ensures ExitsCleanedUp(SyncExit(db, id, enabled, a).0)
  {
    hide ExitsCleanedUp, SyncProtected, SyncUnprotected, ProtectionOf, About, NoExit;
    if SyncExit(db, id, enabled, a).1.ExitFilled? {
      FilledCleans(db, id, enabled, a);
    } else if enabled && id < |db.plans| && db.plans[id].status != TestnetClosed {
      var k := OpenPositionOf(db.positions, id);
      if k.Some? {
        if ProtectionOf(db.orders, id) == [] {
          UnprotectedAbout(db, id, k.value, a);
        } else {
          ProtectedAbout(db, id, k.value, a);
        }
        var kinds :| NoExit(kinds) && About(db, SyncExit(db, id, enabled, a).0, id, kinds);
        OwnerDecides(db, SyncExit(db, id, enabled, a).0, id, kinds);
      }
    }
  }

  lemma {:induction false} SyncAllCleans(db: Db, ids: seq<nat>, enabled: bool, a: nat -> SyncAnswers)
    requires ExitsCleanedUp(db)
    ensures ExitsCleanedUp(SyncAll(db, ids, enabled, a).saved) && ExitsCleanedUp(SyncAll(db, ids, enabled, a).working)
  {
    hide ExitsCleanedUp, SyncExit, Commits, Checked;
    if ids != [] {
      var n := |ids| - 1;
      SyncAllCleans(db, ids[..n], enabled, a);
      SyncCleans(SyncAll(db, ids[..n], enabled, a).working, ids[n], enabled, a(ids[n]));
    }
  }

  lemma {:induction false} SyncOneCleans(db: Db, id: nat, enabled: bool, a: SyncAnswers)
    requires ExitsCleanedUp(db)
    ensures ExitsCleanedUp(SyncOne(db, id, enabled, a).0)
  {
    hide ExitsCleanedUp, SyncExit, Commits;
    SyncCleans(db, id, enabled, a);
  }

  lemma {:induction false} ApplyCleans(db: Db, c: Call)
    requires ExitsCleanedUp(db)
    ensures ExitsCleanedUp(Apply(db, c))
  {
    hide ExitsCleanedUp, PaperExecute, TestnetExecute, SyncOne, SyncAll, CreatePlan;
    match c
    case Create(p) => CreateCleans(db, p);
    case Paper(id) => PaperCleans(db, id);
    case Testnet(id, enabled, a) => TestnetCleans(db, id, enabled, a);
    case Sync(id, enabled, a) => SyncOneCleans(db, id, enabled, a);
    case SyncOpen(enabled, answers) => SyncAllCleans(db, OpenPlans(db.positions), enabled, answers);
  }

  lemma {:induction false} NothingToClean()
    ensures ExitsCleanedUp(EMPTY)
  {
  }

  /** At every reachable state, a plan with a filled exit on record is closed, and each of its protection orders has
      ended or is named by a warning on record. */
  lemma {:induction false} FilledExitsStayCleanedUp(calls: seq<Call>)
    ensures ExitsCleanedUp(Run(calls))
  {
    hide ExitsCleanedUp, Apply;
    if calls == [] {
      NothingToClean();
    } else {
      FilledExitsStayCleanedUp(calls[..|calls| - 1]);
      ApplyCleans(Run(calls[..|calls| - 1]), calls[|calls| - 1]);
    }
  }
}
