/**
 * The throttle in front of the backtesting endpoint: a table of the last accepted request per
 * key, cleaned of stale keys on every request. Keys stand for the hashed header. Each request
 * reads the clock before it takes the lock, so requests are handled in the order of the lock,
 * not of their times.
 */
module RateLimiter {
  const MIN_INTERVAL := 5.0
  const TTL := MIN_INTERVAL * 2.0

  type Table = map<string, real>

  function Evicted(last: Table, now: real): Table {
    map key | key in last && now - last[key] < TTL :: last[key]
  }

  predicate TooSoon(last: Table, key: string, now: real) { key in last && now - last[key] < MIN_INTERVAL }

  /** One request without the cleaning. */
  function Recorded(last: Table, key: string, now: real): Table {
    if TooSoon(last, key, now) then last else last[key := now]
  }

  function Handled(last: Table, key: string, now: real): Table { Recorded(Evicted(last, now), key, now) }

  class Limiter {
    var last: Table

    constructor ()
      ensures last == map[]
    {
      last := map[];
    }

    method Evict(now: real)
      modifies this
      ensures last == Evicted(old(last), now)
    {
      var seen, expired := last.Keys, {};
      while seen != {}
        invariant expired <= last.Keys && seen <= last.Keys
        invariant forall key :: key in last && key !in seen ==> (key in expired <==> now - last[key] >= TTL)
        invariant forall key :: key in seen ==> key !in expired
        decreases |seen|
      {
        var key :| key in seen;
        if now - last[key] >= TTL {
          expired := expired + {key};
        }
        seen := seen - {key};
      }
      ghost var before := last;
      while expired != {}
        invariant expired <= last.Keys <= before.Keys
        invariant forall key :: key in last ==> last[key] == before[key]
        invariant forall key :: key in before ==> (key in last && key !in expired <==> now - before[key] < TTL)
        decreases |expired|
      {
        var key :| key in expired;
        last := last - {key};
        expired := expired - {key};
      }
    }

    /** False stands for the "too many requests" answer. */
    method Request(key: string, now: real) returns (accepted: bool)
      modifies this
      ensures accepted == !TooSoon(Evicted(old(last), now), key, now)
      ensures last == Handled(old(last), key, now)
    {
      Evict(now);
      if key in last && now - last[key] < MIN_INTERVAL {
        return false;
      }
      last := last[key := now];
      return true;
    }
  }

  // ---- Runs ----

  datatype Call = Call(key: string, at: real)

  /** Handled out of clock order by at most d seconds: no call waited longer for the lock than that after a later
      one. */
  predicate Skewed(calls: seq<Call>, d: real) {
    forall i, j :: 0 <= i <= j < |calls| ==> calls[i].at - d <= calls[j].at
  }

  /** The time a key outlives its interval in the table. */
  const GRACE := TTL - MIN_INTERVAL

  function TableAfter(calls: seq<Call>): Table {
    if calls == [] then map[]
    else
      var n := |calls| - 1;
      Handled(TableAfter(calls[..n]), calls[n].key, calls[n].at)
  }

  /** The verdict on call i. */
  predicate Accepted(calls: seq<Call>, i: nat)
    requires i < |calls|
  {
    !TooSoon(Evicted(TableAfter(calls[..i]), calls[i].at), calls[i].key, calls[i].at)
  }

  /** The same two for a limiter that never forgets a key. */
  function PlainAfter(calls: seq<Call>): Table {
    if calls == [] then map[]
    else
      var n := |calls| - 1;
      Recorded(PlainAfter(calls[..n]), calls[n].key, calls[n].at)
  }

  predicate PlainAccepted(calls: seq<Call>, i: nat)
    requires i < |calls|
  {
    !TooSoon(PlainAfter(calls[..i]), calls[i].key, calls[i].at)
  }

  /** The cleaned table is the full one without keys that were stale by the latest clock reading. */
  predicate Cleaned(table: Table, full: Table, latest: real) {
    && table.Keys <= full.Keys
    && (forall key :: key in table ==> table[key] == full[key])
    && (forall key :: key in full && key !in table ==> latest - full[key] >= TTL)
  }

  function Later(x: real, y: real): real { if x >= y then x else y }

  lemma {:induction false} CleanedStep(table: Table, full: Table, latest: real, key: string, now: real)
    requires Cleaned(table, full, latest) && latest - GRACE <= now
    ensures TooSoon(Evicted(table, now), key, now) <==> TooSoon(full, key, now)
    ensures Cleaned(Handled(table, key, now), Recorded(full, key, now), Later(latest, now))
  {
  }

  /** The latest reading among the calls, from the given one on. */
  function LatestTime(calls: seq<Call>, from: real): (latest: real)
    ensures latest >= from && forall i :: 0 <= i < |calls| ==> calls[i].at <= latest
    ensures latest == from || exists i :: 0 <= i < |calls| && calls[i].at == latest
  {
    if calls == [] then from
    else
      var n := |calls| - 1;
      assert forall i :: 0 <= i < n ==> calls[..n][i] == calls[i];
      Later(LatestTime(calls[..n], from), calls[n].at)
  }

  lemma {:induction false} TablesAgree(calls: seq<Call>, from: real)
    requires Skewed(calls, GRACE) && forall i :: 0 <= i < |calls| ==> from - GRACE <= calls[i].at
    ensures Cleaned(TableAfter(calls), PlainAfter(calls), LatestTime(calls, from))
  {
    if calls != [] {
      var n := |calls| - 1;
      var c := calls[n];
      TablesAgree(calls[..n], from);
      hide Cleaned, Handled, Recorded;
      CleanedStep(TableAfter(calls[..n]), PlainAfter(calls[..n]), LatestTime(calls[..n], from), c.key, c.at);
    }
  }

  /** As long as no call is handled more than five seconds out of clock order, forgetting stale keys changes no
      verdict. */
  lemma {:induction false} EvictionIsInvisible(calls: seq<Call>, i: nat)
    requires Skewed(calls, GRACE) && i < |calls|
    ensures Accepted(calls, i) <==> PlainAccepted(calls, i)
  {
    var c, front := calls[i], calls[..i];
    TablesAgree(front, calls[0].at);
    CleanedStep(TableAfter(front), PlainAfter(front), LatestTime(front, calls[0].at), c.key, c.at);
  }

  /** One key, another ten seconds later, and the first again: handled d seconds late, within five of its own call. */
  function LateCalls(d: real): seq<Call> {
    var late := if d < TTL then TTL - d else 0.0;
    [Call("a", 0.0), Call("b", TTL), Call("a", late)]
  }

  lemma {:induction false} LateCallSlipsThrough(d: real)
    requires d > GRACE
    ensures Skewed(LateCalls(d), d) && Accepted(LateCalls(d), 2) && !PlainAccepted(LateCalls(d), 2)
  {
    var calls := LateCalls(d);
    assert calls[..0] == [] && calls[..1] == [calls[0]] && calls[..2] == [calls[0], calls[1]];
    assert calls[..1][..0] == [] && calls[..2][..1] == calls[..1];
    assert PlainAfter(calls[..1]) == map["a" := 0.0] == TableAfter(calls[..1]);
    assert TableAfter(calls[..2]) == map["b" := TTL];
  }

  /** Forgetting is invisible for every run within a skew if and only if that skew is at most five seconds. */
  lemma {:induction false} EvictionInvisibleExactly(d: real)
    ensures (forall calls, i: nat :: Skewed(calls, d) && i < |calls| ==>
               (Accepted(calls, i) <==> PlainAccepted(calls, i)))
            <==> d <= GRACE
  {
    hide Accepted, PlainAccepted;
    if d <= GRACE {
      forall calls, i: nat | Skewed(calls, d) && i < |calls| ensures Accepted(calls, i) <==> PlainAccepted(calls, i) {
        EvictionIsInvisible(calls, i);
      }
    } else {
      LateCallSlipsThrough(d);
    }
  }

  /** The full table holds, for each key, the latest accepted call, and nothing else. */
  predicate Latest(calls: seq<Call>, full: Table) {
    && (forall i :: 0 <= i < |calls| && PlainAccepted(calls, i) ==>
          calls[i].key in full && calls[i].at <= full[calls[i].key])
    && (forall key :: key in full ==>
          exists i :: 0 <= i < |calls| && PlainAccepted(calls, i) && calls[i] == Call(key, full[key]))
  }

  lemma {:induction false} PlainOfPrefix(calls: seq<Call>, n: nat, i: nat)
    requires i < n <= |calls|
    ensures PlainAccepted(calls[..n], i) <==> PlainAccepted(calls, i)
  {
    assert calls[..n][..i] == calls[..i];
  }

  lemma {:induction false} PlainStep(calls: seq<Call>)
    requires calls != []
    ensures var n := |calls| - 1; var before := PlainAfter(calls[..n]);
            && PlainAfter(calls) == Recorded(before, calls[n].key, calls[n].at)
            && (PlainAccepted(calls, n) <==> !TooSoon(before, calls[n].key, calls[n].at))
            && (forall i :: 0 <= i < n ==> (PlainAccepted(calls[..n], i) <==> PlainAccepted(calls, i)))
  {
    var n := |calls| - 1;
    forall i | 0 <= i < n ensures PlainAccepted(calls[..n], i) <==> PlainAccepted(calls, i) {
      PlainOfPrefix(calls, n, i);
    }
    hide Recorded, TooSoon;
  }

  lemma {:induction false} LatestStep(calls: seq<Call>)
    requires calls != []
    requires Latest(calls[..|calls| - 1], PlainAfter(calls[..|calls| - 1]))
    ensures Latest(calls, PlainAfter(calls))
  {
    hide PlainAfter, PlainAccepted;
    PlainStep(calls);
    var n := |calls| - 1;
    var front, c := calls[..n], calls[n];
    var before, after := PlainAfter(front), PlainAfter(calls);
    forall i | 0 <= i < |calls| && PlainAccepted(calls, i)
      ensures calls[i].key in after && calls[i].at <= after[calls[i].key]
    {
      if i < n { assert front[i] == calls[i]; }
    }
    forall key | key in after
      ensures exists i :: 0 <= i < |calls| && PlainAccepted(calls, i) && calls[i] == Call(key, after[key])
    {
      if PlainAccepted(calls, n) && key == c.key {
        assert calls[n] == Call(key, after[key]);
      } else {
        var i :| 0 <= i < n && PlainAccepted(front, i) && front[i] == Call(key, before[key]);
        assert calls[i] == Call(key, after[key]);
      }
    }
  }

  lemma {:induction false} TableIsLatest(calls: seq<Call>)
    ensures Latest(calls, PlainAfter(calls))
  {
    if calls != [] {
      TableIsLatest(calls[..|calls| - 1]);
      LatestStep(calls);
    }
  }

  /** Some accepted call of the same key came less than the interval before call j. */
  predicate Crowded(calls: seq<Call>, j: nat)
    requires j < |calls|
  {
    exists i :: 0 <= i < j && Accepted(calls, i) && calls[i].key == calls[j].key
                && calls[j].at - calls[i].at < MIN_INTERVAL
  }

  /** What the full table says about a call, in terms of the calls before it. */
  lemma {:induction false} TooSoonExactly(calls: seq<Call>, full: Table, key: string, now: real)
    requires Latest(calls, full)
    ensures TooSoon(full, key, now) <==>
            exists i :: 0 <= i < |calls| && PlainAccepted(calls, i) && calls[i].key == key
                        && now - calls[i].at < MIN_INTERVAL
  {
    hide PlainAccepted;
    if TooSoon(full, key, now) {
      var i :| 0 <= i < |calls| && PlainAccepted(calls, i) && calls[i] == Call(key, full[key]);
      assert calls[i].key == key && now - calls[i].at < MIN_INTERVAL;
    }
  }

  /** A call is turned away exactly when an earlier handled call of its key was accepted less than five seconds
      before it on the clock (or after it). */
  lemma {:induction false} RejectedExactlyWhenCrowded(calls: seq<Call>, j: nat)
    requires Skewed(calls, GRACE) && j < |calls|
    ensures Accepted(calls, j) <==> !Crowded(calls, j)
  {
    var front, c := calls[..j], calls[j];
    TableIsLatest(front);
    TooSoonExactly(front, PlainAfter(front), c.key, c.at);
    EvictionIsInvisible(calls, j);
    assert PlainAccepted(calls, j) <==> !TooSoon(PlainAfter(front), c.key, c.at);
    hide PlainAfter, PlainAccepted, Accepted, Latest, TooSoon;
    forall i | 0 <= i < j ensures front[i] == calls[i] && (Accepted(calls, i) <==> PlainAccepted(front, i)) {
      EvictionIsInvisible(calls, i);
      PlainOfPrefix(calls, j, i);
    }
    hide Skewed;
    if Crowded(calls, j) {
      var i :| 0 <= i < j && Accepted(calls, i) && calls[i].key == c.key && c.at - calls[i].at < MIN_INTERVAL;
      assert PlainAccepted(front, i) && front[i].key == c.key && c.at - front[i].at < MIN_INTERVAL;
    }
  }

  /** Two accepted calls of one key are at least five seconds apart. */
  lemma {:induction false} AcceptedAreSpaced(calls: seq<Call>, i: nat, j: nat)
    requires Skewed(calls, GRACE) && i < j < |calls| && calls[i].key == calls[j].key
    requires Accepted(calls, i) && Accepted(calls, j)
    ensures calls[j].at - calls[i].at >= MIN_INTERVAL
  {
    RejectedExactlyWhenCrowded(calls, j);
    hide Accepted, Skewed;
  }

  /** How many of the first n calls were accepted for the key between two times. */
  function AcceptedBetween(calls: seq<Call>, key: string, from: real, to: real, n: nat): nat
    requires n <= |calls|
  {
    if n == 0 then 0
    else
      AcceptedBetween(calls, key, from, to, n - 1) +
      if Accepted(calls, n - 1) && calls[n - 1].key == key && from <= calls[n - 1].at <= to then 1 else 0
  }

  /** A call accepted for the key among the first n, no earlier than `since` and no later than `to`. */
  predicate AcceptedSince(calls: seq<Call>, key: string, since: real, to: real, n: nat)
    requires n <= |calls|
  {
    exists i :: 0 <= i < n && Accepted(calls, i) && calls[i].key == key && since <= calls[i].at <= to
  }

  lemma {:induction false} NextIsSpaced(calls: seq<Call>, key: string, since: real, to: real, n: nat)
    requires Skewed(calls, GRACE) && 0 < n <= |calls| && AcceptedSince(calls, key, since, to, n - 1)
    requires Accepted(calls, n - 1) && calls[n - 1].key == key && calls[n - 1].at <= to
    ensures AcceptedSince(calls, key, since + MIN_INTERVAL, to, n)
  {
    hide Accepted, Skewed;
    var i :| 0 <= i < n - 1 && Accepted(calls, i) && calls[i].key == key && since <= calls[i].at <= to;
    AcceptedAreSpaced(calls, i, n - 1);
  }

  lemma {:induction false} SpacedCount(calls: seq<Call>, key: string, from: real, to: real, n: nat)
    requires Skewed(calls, GRACE) && n <= |calls|
    ensures var count := AcceptedBetween(calls, key, from, to, n);
            count > 0 ==> AcceptedSince(calls, key, from + MIN_INTERVAL * (count - 1) as real, to, n)
  {
    hide Accepted;
    if n > 0 {
      SpacedCount(calls, key, from, to, n - 1);
      var before, count := AcceptedBetween(calls, key, from, to, n - 1), AcceptedBetween(calls, key, from, to, n);
      if before > 0 && count == before + 1 {
        NextIsSpaced(calls, key, from + MIN_INTERVAL * (before - 1) as real, to, n);
      }
    }
  }

  /** In any span of time a key is accepted at most once per five seconds, plus one. */
  lemma {:induction false} AcceptedRate(calls: seq<Call>, key: string, from: real, to: real)
    requires Skewed(calls, GRACE) && from <= to
    ensures AcceptedBetween(calls, key, from, to, |calls|) <= ((to - from) / MIN_INTERVAL).Floor + 1
  {
    SpacedCount(calls, key, from, to, |calls|);
    hide AcceptedBetween, Accepted, Skewed;
    StepsFit(AcceptedBetween(calls, key, from, to, |calls|), to - from);
  }

  lemma {:induction false} StepsFit(count: nat, span: real)
    requires span >= 0.0 && (count > 0 ==> MIN_INTERVAL * (count - 1) as real <= span)
    ensures count <= (span / MIN_INTERVAL).Floor + 1
  {
    if count > 0 {
      assert (count - 1) as real <= span / MIN_INTERVAL;
    }
  }

  /** Every time in the table is that of an accepted call of its key. */
  lemma {:induction false} TableHoldsAccepted(calls: seq<Call>, key: string)
    requires key in TableAfter(calls)
    ensures exists i :: 0 <= i < |calls| && Accepted(calls, i) && calls[i] == Call(key, TableAfter(calls)[key])
  {
    var n := |calls| - 1;
    var front, c := calls[..n], calls[n];
    if key == c.key && Accepted(calls, n) {
      assert calls[n] == Call(key, TableAfter(calls)[key]);
    } else {
      TableHoldsAccepted(front, key);
      var i :| 0 <= i < n && Accepted(front, i) && front[i] == Call(key, TableAfter(front)[key]);
      assert front[..i] == calls[..i];
      assert calls[i] == Call(key, TableAfter(calls)[key]);
    }
  }

  /** After every call, in whatever order, each key kept in the table was accepted less than ten seconds before it. */
  lemma {:induction false} OnlyFreshKeysStay(calls: seq<Call>, key: string)
    requires calls != [] && key in TableAfter(calls)
    ensures exists i :: 0 <= i < |calls| && Accepted(calls, i) && calls[i].key == key
                        && calls[|calls| - 1].at - calls[i].at < TTL
  {
    TableHoldsAccepted(calls, key);
    assert calls[|calls| - 1].at - TableAfter(calls)[key] < TTL;
    hide TableAfter, Accepted;
  }
}
