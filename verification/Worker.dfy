/**
 * The worker's per-candle deduplication. Tasks of one cycle interleave wherever they wait: after
 * the signals arrive a task checks and marks its candle in one go, and when the plan service
 * answers it either keeps the mark or puts the previous one back.
 */
module Worker {
  import opened Options

  datatype Key = Key(symbol: string, timeframe: string)

  type Candles = map<Key, int>

  function Get(processed: Candles, key: Key): Option<int> { if key in processed then Some(processed[key]) else None }

  /** The mark put back: the previous candle, or none at all. */
  function Restored(processed: Candles, key: Key, previous: Option<int>): Candles {
    match previous
    case None => processed - {key}
    case Some(candle) => processed[key := candle]
  }

  predicate Duplicate(processed: Candles, key: Key, candle: Option<int>) {
    candle.Some? && Get(processed, key) == candle
  }

  function Marked(processed: Candles, key: Key, candle: Option<int>): Candles {
    if candle.Some? then processed[key := candle.value] else processed
  }

  datatype Claim = Skipped | Claimed(previous: Option<int>)

  class Deduplicator {
    var processed: Candles

    constructor ()
      ensures processed == map[]
    {
      processed := map[];
    }

    /** From the arrival of the signals to the request for a plan. */
    method Begin(key: Key, candle: Option<int>) returns (claim: Claim)
      modifies this
      ensures Duplicate(old(processed), key, candle) ==> claim == Skipped && processed == old(processed)
      ensures !Duplicate(old(processed), key, candle) ==>
                && claim == Claimed(if candle.Some? then Get(old(processed), key) else None)
                && processed == Marked(old(processed), key, candle)
    {
      if candle.Some? {
        var lastProcessed := Get(processed, key);
        if lastProcessed == candle {
          return Skipped;
        }
      }
      var previous := None;
      if candle.Some? {
        previous := Get(processed, key);
        processed := processed[key := candle.value];
      }
      return Claimed(previous);
    }

    /** The plan service raised: a tracked candle is put back. */
    method RollBack(key: Key, candle: Option<int>, previous: Option<int>)
      modifies this
      ensures processed == if candle.Some? then Restored(old(processed), key, previous) else old(processed)
    {
      if candle.Some? {
        if previous.None? {
          processed := processed - {key};
        } else {
          processed := processed[key := previous.value];
        }
      }
    }
  }

  // ---- Interleaved runs ----

  /** A task is waiting for its signals, waiting for its plan, or past both. */
  datatype Phase = Waiting | Creating(candle: Option<int>, previous: Option<int>) | Over

  datatype Task = Task(key: Key, phase: Phase)

  datatype Creation = Creation(key: Key, candle: int)

  /** The marks, the tasks of the current cycle, and every plan created for a known candle so far. */
  datatype World = World(processed: Candles, tasks: seq<Task>, created: seq<Creation>)

  datatype Step =
    | NextCycle
    | Signals(task: nat, candle: Option<int>)
    | SignalsFailed(task: nat)
    | PlanCreated(task: nat)
    | PlanFailed(task: nat)

  function Moved(w: World, i: nat, phase: Phase): World
    requires i < |w.tasks|
  {
    w.(tasks := w.tasks[i := w.tasks[i].(phase := phase)])
  }

  /** One atomic step; a step that is not possible now changes nothing. */
  function Stepped(w: World, keys: seq<Key>, s: Step): World {
    match s
    case NextCycle =>
      if forall t :: t in w.tasks ==> t.phase.Over?
      then w.(tasks := seq(|keys|, i requires 0 <= i < |keys| => Task(keys[i], Waiting)))
      else w
    case Signals(i, candle) =>
      if i < |w.tasks| && w.tasks[i].phase.Waiting? then
        var key := w.tasks[i].key;
        if Duplicate(w.processed, key, candle) then Moved(w, i, Over)
        else
          var previous := if candle.Some? then Get(w.processed, key) else None;
          Moved(w, i, Creating(candle, previous)).(processed := Marked(w.processed, key, candle))
      else w
    case SignalsFailed(i) =>
      if i < |w.tasks| && w.tasks[i].phase.Waiting? then Moved(w, i, Over) else w
    case PlanCreated(i) =>
      if i < |w.tasks| && w.tasks[i].phase.Creating? then
        var candle := w.tasks[i].phase.candle;
        var logged := if candle.Some? then [Creation(w.tasks[i].key, candle.value)] else [];
        Moved(w, i, Over).(created := w.created + logged)
      else w
    case PlanFailed(i) =>
      if i < |w.tasks| && w.tasks[i].phase.Creating? then
        var t := w.tasks[i];
        Moved(w, i, Over).(processed :=
          if t.phase.candle.Some? then Restored(w.processed, t.key, t.phase.previous) else w.processed)
      else w
  }

  function Ran(keys: seq<Key>, steps: seq<Step>): World {
    if steps == [] then World(map[], [], [])
    else Stepped(Ran(keys, steps[..|steps| - 1]), keys, steps[|steps| - 1])
  }

  predicate Distinct(keys: seq<Key>) { forall i, j :: 0 <= i < j < |keys| ==> keys[i] != keys[j] }

  function LastCreated(created: seq<Creation>, key: Key): Option<int> {
    if created == [] then None
    else
      var last := created[|created| - 1];
      if last.key == key then Some(last.candle) else LastCreated(created[..|created| - 1], key)
  }

  /** No plan was created for the candle of the same key's creation just before it. */
  predicate NoRepeats(created: seq<Creation>) {
    created == [] ||
    (var last := created[|created| - 1];
     NoRepeats(created[..|created| - 1])
     && LastCreated(created[..|created| - 1], last.key) != Some(last.candle))
  }

  predicate InFlight(w: World, key: Key) {
    exists i :: 0 <= i < |w.tasks| && w.tasks[i].key == key && w.tasks[i].phase.Creating?
  }

  /** Whenever no plan of a key is awaited, its mark is the candle of the last plan created for it. */
  ghost predicate Faithful(w: World) {
    forall key :: !InFlight(w, key) ==> Get(w.processed, key) == LastCreated(w.created, key)
  }

  predicate DistinctTasks(w: World) { forall i, j :: 0 <= i < j < |w.tasks| ==> w.tasks[i].key != w.tasks[j].key }

  /** What a task awaiting its plan relies on: its own mark is in place and it remembers the one before. */
  predicate Held(w: World, t: Task) {
    t.phase.Creating? ==>
      if t.phase.candle.Some? then
        && Get(w.processed, t.key) == t.phase.candle
        && t.phase.previous == LastCreated(w.created, t.key)
        && t.phase.previous != t.phase.candle
      else Get(w.processed, t.key) == LastCreated(w.created, t.key)
  }

  ghost predicate Sound(w: World) {
    && DistinctTasks(w)
    && Faithful(w)
    && NoRepeats(w.created)
    && forall i :: 0 <= i < |w.tasks| ==> Held(w, w.tasks[i])
  }

  lemma {:induction false} CreatedNext(created: seq<Creation>, c: Creation, key: Key)
    ensures LastCreated(created + [c], key) == if c.key == key then Some(c.candle) else LastCreated(created, key)
    ensures NoRepeats(created + [c]) <==> NoRepeats(created) && LastCreated(created, c.key) != Some(c.candle)
  {
    assert (created + [c])[..|created|] == created;
  }

  /** Only task i and the mark and log of its key change. */
  ghost predicate OnlyTask(w: World, next: World, i: nat) {
    && |next.tasks| == |w.tasks| && i < |w.tasks|
    && next.tasks[i].key == w.tasks[i].key
    && (forall k :: 0 <= k < |w.tasks| && k != i ==> next.tasks[k] == w.tasks[k])
    && (forall key :: key != w.tasks[i].key ==>
          && Get(next.processed, key) == Get(w.processed, key)
          && LastCreated(next.created, key) == LastCreated(w.created, key))
  }

  lemma {:induction false} FlightKept(w: World, next: World, i: nat, key: Key)
    requires OnlyTask(w, next, i) && key != w.tasks[i].key
    ensures InFlight(w, key) ==> InFlight(next, key)
  {
    if InFlight(w, key) {
      var k :| 0 <= k < |w.tasks| && w.tasks[k].key == key && w.tasks[k].phase.Creating?;
      assert next.tasks[k] == w.tasks[k];
    }
  }

  lemma {:induction false} OneTaskKeepsSound(w: World, next: World, i: nat)
    requires Sound(w) && OnlyTask(w, next, i) && NoRepeats(next.created)
    requires Held(next, next.tasks[i])
    requires !next.tasks[i].phase.Creating? ==>
               Get(next.processed, w.tasks[i].key) == LastCreated(next.created, w.tasks[i].key)
    ensures Sound(next)
  {
    hide Get, LastCreated, NoRepeats;
    forall k | 0 <= k < |next.tasks| ensures Held(next, next.tasks[k]) {
      if k != i {
        assert Held(w, w.tasks[k]);
        assert w.tasks[k].key != w.tasks[i].key;
      }
    }
    forall key | !InFlight(next, key) ensures Get(next.processed, key) == LastCreated(next.created, key) {
      if key != w.tasks[i].key {
        FlightKept(w, next, i, key);
      }
    }
  }

  /** A task that is not awaiting a plan sees the mark of the last creation, its key being its own. */
  lemma {:induction false} IdleTaskSeesLast(w: World, i: nat)
    requires Sound(w) && i < |w.tasks| && !w.tasks[i].phase.Creating?
    ensures Get(w.processed, w.tasks[i].key) == LastCreated(w.created, w.tasks[i].key)
  {
    hide Get, LastCreated;
    var key := w.tasks[i].key;
    assert !InFlight(w, key);
  }

  lemma {:induction false} SignalsKeepSound(w: World, keys: seq<Key>, i: nat, candle: Option<int>)
    requires Sound(w)
    ensures Sound(Stepped(w, keys, Signals(i, candle)))
  {
    if i < |w.tasks| && w.tasks[i].phase.Waiting? {
      IdleTaskSeesLast(w, i);
      hide LastCreated, NoRepeats, Sound;
      SoundParts(w);
      OneTaskKeepsSound(w, Stepped(w, keys, Signals(i, candle)), i);
    }
  }

  lemma {:induction false} SoundParts(w: World)
    requires Sound(w)
    ensures NoRepeats(w.created) && forall i :: 0 <= i < |w.tasks| ==> Held(w, w.tasks[i])
  {
  }

  lemma {:induction false} FailedSignalsKeepSound(w: World, keys: seq<Key>, i: nat)
    requires Sound(w)
    ensures Sound(Stepped(w, keys, SignalsFailed(i)))
  {
    if i < |w.tasks| && w.tasks[i].phase.Waiting? {
      IdleTaskSeesLast(w, i);
      hide LastCreated, NoRepeats, Sound;
      SoundParts(w);
      OneTaskKeepsSound(w, Stepped(w, keys, SignalsFailed(i)), i);
    }
  }

  lemma {:induction false} CreatedKeepsSound(w: World, keys: seq<Key>, i: nat)
    requires Sound(w)
    ensures Sound(Stepped(w, keys, PlanCreated(i)))
  {
    if i < |w.tasks| && w.tasks[i].phase.Creating? {
      SoundParts(w);
      var t := w.tasks[i];
      assert Held(w, t);
      if t.phase.candle.Some? {
        var c := Creation(t.key, t.phase.candle.value);
        forall key ensures
          LastCreated(w.created + [c], key) == if c.key == key then Some(c.candle) else LastCreated(w.created, key) {
          CreatedNext(w.created, c, key);
        }
        CreatedNext(w.created, c, t.key);
      } else {
        assert w.created + [] == w.created;
      }
      hide LastCreated, NoRepeats, Sound;
      OneTaskKeepsSound(w, Stepped(w, keys, PlanCreated(i)), i);
    }
  }

  lemma {:induction false} FailedPlanKeepsSound(w: World, keys: seq<Key>, i: nat)
    requires Sound(w)
    ensures Sound(Stepped(w, keys, PlanFailed(i)))
  {
    if i < |w.tasks| && w.tasks[i].phase.Creating? {
      SoundParts(w);
      assert Held(w, w.tasks[i]);
      hide LastCreated, NoRepeats, Sound;
      OneTaskKeepsSound(w, Stepped(w, keys, PlanFailed(i)), i);
    }
  }

  lemma {:induction false} NextCycleKeepsSound(w: World, keys: seq<Key>)
    requires Sound(w) && Distinct(keys)
    ensures Sound(Stepped(w, keys, NextCycle))
  {
    hide LastCreated, NoRepeats, Get;
    if forall t :: t in w.tasks ==> t.phase.Over? {
      var next := Stepped(w, keys, NextCycle);
      forall key ensures Get(next.processed, key) == LastCreated(next.created, key) {
        assert !InFlight(w, key);
      }
    }
  }

  lemma {:induction false} StepKeepsSound(w: World, keys: seq<Key>, s: Step)
    requires Sound(w) && Distinct(keys)
    ensures Sound(Stepped(w, keys, s))
  {
    hide Stepped, Sound, Distinct;
    match s
    case NextCycle => NextCycleKeepsSound(w, keys);
    case Signals(i, candle) => SignalsKeepSound(w, keys, i, candle);
    case SignalsFailed(i) => FailedSignalsKeepSound(w, keys, i);
    case PlanCreated(i) => CreatedKeepsSound(w, keys, i);
    case PlanFailed(i) => FailedPlanKeepsSound(w, keys, i);
  }

  lemma {:induction false} RunIsSound(keys: seq<Key>, steps: seq<Step>)
    requires Distinct(keys)
    ensures Sound(Ran(keys, steps))
  {
    hide Stepped, Distinct;
    if steps != [] {
      var front := steps[..|steps| - 1];
      RunIsSound(keys, front);
      StepKeepsSound(Ran(keys, front), keys, steps[|steps| - 1]);
    }
  }

  // ---- Repeated keys ----

  /** The same key twice in a cycle, on two candles: the first task's rollback removes the second one's mark. */
  function Clash(i: nat, j: nat): seq<Step> {
    [NextCycle, Signals(i, Some(1)), Signals(j, Some(2)), PlanFailed(i), PlanCreated(j)]
  }

  lemma {:induction false} RanStep(keys: seq<Key>, steps: seq<Step>, n: nat)
    requires n < |steps|
    ensures Ran(keys, steps[..n + 1]) == Stepped(Ran(keys, steps[..n]), keys, steps[n])
  {
    assert steps[..n + 1][..n] == steps[..n];
    hide Stepped;
  }

  function ClashWorld(keys: seq<Key>, i: nat, j: nat): World {
    var w1 := Stepped(World(map[], [], []), keys, NextCycle);
    var w2 := Stepped(w1, keys, Signals(i, Some(1)));
    var w3 := Stepped(w2, keys, Signals(j, Some(2)));
    var w4 := Stepped(w3, keys, PlanFailed(i));
    Stepped(w4, keys, PlanCreated(j))
  }

  lemma {:induction false} ClashRuns(keys: seq<Key>, i: nat, j: nat)
    ensures Ran(keys, Clash(i, j)) == ClashWorld(keys, i, j)
  {
    hide Stepped;
    var steps := Clash(i, j);
    assert steps[..0] == [];
    RanStep(keys, steps, 0);
    RanStep(keys, steps, 1);
    RanStep(keys, steps, 2);
    RanStep(keys, steps, 3);
    RanStep(keys, steps, 4);
    assert steps[..5] == steps;
  }

  lemma {:induction false} ClashUnmarks(keys: seq<Key>, i: nat, j: nat)
    requires i < j < |keys| && keys[i] == keys[j]
    ensures var w := Ran(keys, Clash(i, j));
            && !InFlight(w, keys[j])
            && Get(w.processed, keys[j]) == None
            && LastCreated(w.created, keys[j]) == Some(2)
  {
    ClashRuns(keys, i, j);
    hide Ran;
    var w := ClashWorld(keys, i, j);
    assert w.created == [Creation(keys[j], 2)];
    assert w.processed == map[];
  }

  /** The marks can be trusted in every interleaving exactly when no target is listed twice. */
  lemma {:induction false} DedupeHoldsExactlyForDistinctKeys(keys: seq<Key>)
    ensures (forall steps :: Faithful(Ran(keys, steps))) <==> Distinct(keys)
    ensures Distinct(keys) ==> forall steps :: NoRepeats(Ran(keys, steps).created)
  {
    if Distinct(keys) {
      forall steps ensures Sound(Ran(keys, steps)) {
        RunIsSound(keys, steps);
      }
    } else {
      var i, j :| 0 <= i < j < |keys| && keys[i] == keys[j];
      ClashUnmarks(keys, i, j);
      assert !Faithful(Ran(keys, Clash(i, j)));
    }
  }

  /** Between cycles every mark is the candle of the last plan created, and is absent when there is none. */
  lemma {:induction false} MarksBetweenCycles(keys: seq<Key>, steps: seq<Step>, key: Key)
    requires Distinct(keys) && forall t :: t in Ran(keys, steps).tasks ==> !t.phase.Creating?
    ensures var w := Ran(keys, steps);
            && Get(w.processed, key) == LastCreated(w.created, key)
            && (key in w.processed <==> exists c :: c in w.created && c.key == key)
  {
    RunIsSound(keys, steps);
    var w := Ran(keys, steps);
    hide Ran;
    assert !InFlight(w, key);
    LastExists(w.created, key);
  }

  lemma {:induction false} LastExists(created: seq<Creation>, key: Key)
    ensures LastCreated(created, key).Some? <==> exists c :: c in created && c.key == key
  {
    if created != [] {
      var front := created[..|created| - 1];
      LastExists(front, key);
      assert created == front + [created[|created| - 1]];
    }
  }

  // ---- The cycle's tally ----

  datatype Result = Raised | Finished(success: bool, duplicate: bool)

  function Count(results: seq<Result>, wanted: Result -> bool): nat {
    if results == [] then 0
    else Count(results[..|results| - 1], wanted) + if wanted(results[|results| - 1]) then 1 else 0
  }

  /** The counters a cycle reports, and whether it ends in an error. */
  method Tally(results: seq<Result>, strict: bool) returns (successes: nat, failures: nat, duplicates: nat, error: bool)
    ensures successes == Count(results, (r: Result) => r.Finished? && r.success)
    ensures duplicates == Count(results, (r: Result) => r.Finished? && r.duplicate)
    ensures successes + failures == |results|
    ensures error <==> results != [] && (successes == 0 || (strict && successes < |results|))
  {
    successes, failures, duplicates := 0, 0, 0;
    for i := 0 to |results|
      invariant successes == Count(results[..i], (r: Result) => r.Finished? && r.success)
      invariant duplicates == Count(results[..i], (r: Result) => r.Finished? && r.duplicate)
      invariant successes + failures == i
    {
      assert results[..i + 1][..i] == results[..i];
      if results[i].Raised? {
        failures := failures + 1;
        continue;
      }
      if results[i].duplicate {
        duplicates := duplicates + 1;
      }
      if results[i].success {
        successes := successes + 1;
      } else {
        failures := failures + 1;
      }
    }
    assert results[..|results|] == results;
    error := results != [] && (successes == 0 || (strict && failures > 0));
  }
}
