/** Greedy nearest-in-time pairing of paper with testnet executions, as two services run it. */
module Pairing {
  import opened Numeric
  import opened Options

  datatype Venue = Paper | Testnet | Elsewhere

  /** created: microseconds since the epoch. */
  datatype Plan = Plan(id: nat, symbol: string, timeframe: string, side: string, venue: Venue, created: int,
                       entry: real, risk: real, notional: real)

  const MAX_DELTA := 86400000000

  function Delta(p: Plan, t: Plan): nat {
    if t.created >= p.created then t.created - p.created else p.created - t.created
  }

  predicate Compatible(p: Plan, t: Plan) {
    t.side == p.side && t.timeframe == p.timeframe && Delta(p, t) <= MAX_DELTA
  }

  /** k is the first of the nearest compatible plans. */
  predicate IsNearest(p: Plan, tests: seq<Plan>, k: nat) {
    && k < |tests| && Compatible(p, tests[k])
    && (forall j :: 0 <= j < k && Compatible(p, tests[j]) ==> Delta(p, tests[k]) < Delta(p, tests[j]))
    && (forall j :: k < j < |tests| && Compatible(p, tests[j]) ==> Delta(p, tests[k]) <= Delta(p, tests[j]))
  }

  predicate HasNone(p: Plan, tests: seq<Plan>) {
    forall j :: 0 <= j < |tests| ==> !Compatible(p, tests[j])
  }

  function Nearest(p: Plan, tests: seq<Plan>): (k: Option<nat>)
    ensures k.Some? ==> IsNearest(p, tests, k.value)
    ensures k.None? ==> HasNone(p, tests)
  {
    if tests == [] then None
    else
      var n := |tests| - 1;
      var init := tests[..n];
      var k := Nearest(p, init);
      assert forall j :: 0 <= j < n ==> init[j] == tests[j];
      if Compatible(p, tests[n]) && (k.None? || Delta(p, tests[n]) < Delta(p, tests[k.value])) then Some(n) else k
  }

  lemma {:induction false} NearestUnique(p: Plan, tests: seq<Plan>, j: nat, k: nat)
    requires IsNearest(p, tests, j) && IsNearest(p, tests, k)
    ensures j == k
  {
  }

  function Without(tests: seq<Plan>, k: nat): seq<Plan>
    requires k < |tests|
  {
    tests[..k] + tests[k + 1..]
  }

  datatype Matching = Matching(pairs: seq<(Plan, Plan)>, papers: seq<Plan>, tests: seq<Plan>)

  /** In order, each paper plan takes the nearest compatible testnet plan still free. */
  function Match(papers: seq<Plan>, tests: seq<Plan>): Matching {
    if papers == [] || tests == [] then Matching([], papers, tests)
    else match Nearest(papers[0], tests)
      case None =>
        var rest := Match(papers[1..], tests);
        rest.(papers := [papers[0]] + rest.papers)
      case Some(k) =>
        var rest := Match(papers[1..], Without(tests, k));
        rest.(pairs := [(papers[0], tests[k])] + rest.pairs)
  }

  lemma {:induction false} MatchStep(papers: seq<Plan>, tests: seq<Plan>)
    requires papers != [] && tests != []
    ensures var k := Nearest(papers[0], tests);
      var rest := Match(papers[1..], if k.Some? then Without(tests, k.value) else tests);
      Match(papers, tests) ==
        if k.Some? then rest.(pairs := [(papers[0], tests[k.value])] + rest.pairs)
        else rest.(papers := [papers[0]] + rest.papers)
  {
    hide Without, Nearest;
  }

  lemma {:induction false} MatchEnds(papers: seq<Plan>, tests: seq<Plan>)
    requires papers == [] || tests == []
    ensures Match(papers, tests) == Matching([], papers, tests)
  {
  }

  function At(plans: seq<Plan>, venue: Venue): seq<Plan> {
    if plans == [] then []
    else (if plans[0].venue == venue then [plans[0]] else []) + At(plans[1..], venue)
  }

  /** The matching both services compute for a list of plans. */
  function MatchPlans(plans: seq<Plan>): Matching { Match(At(plans, Paper), At(plans, Testnet)) }

  function PctDiff(a: real, b: real): real {
    if a == 0.0 && b == 0.0 then 0.0
    else if a == 0.0 || b == 0.0 then 100.0
    else RoundTo(Abs(a - b) / Abs(a) * 100.0, 10000.0)
  }

  function EntryDiffs(pairs: seq<(Plan, Plan)>): seq<real> {
    seq(|pairs|, i requires 0 <= i < |pairs| => PctDiff(pairs[i].0.entry, pairs[i].1.entry))
  }

  function RiskDiffs(pairs: seq<(Plan, Plan)>): seq<real> {
    seq(|pairs|, i requires 0 <= i < |pairs| => PctDiff(pairs[i].0.risk, pairs[i].1.risk))
  }

  function NotionalDiffs(pairs: seq<(Plan, Plan)>): seq<real> {
    seq(|pairs|, i requires 0 <= i < |pairs| => PctDiff(pairs[i].0.notional, pairs[i].1.notional))
  }

  lemma {:induction false} DiffsAppend(pairs: seq<(Plan, Plan)>, x: (Plan, Plan))
    ensures EntryDiffs(pairs + [x]) == EntryDiffs(pairs) + [PctDiff(x.0.entry, x.1.entry)]
    ensures RiskDiffs(pairs + [x]) == RiskDiffs(pairs) + [PctDiff(x.0.risk, x.1.risk)]
    ensures NotionalDiffs(pairs + [x]) == NotionalDiffs(pairs) + [PctDiff(x.0.notional, x.1.notional)]
  {
    hide PctDiff;
  }

  lemma {:induction false} NoDiffs()
    ensures EntryDiffs([]) == [] && RiskDiffs([]) == [] && NotionalDiffs([]) == []
  {
  }

  // ----- The loops -----

  /** Collects the compatible candidates, then takes the first with the least distance. */
  method FindMatch(p: Plan, tests: seq<Plan>) returns (k: Option<nat>)
    ensures k == Nearest(p, tests)
  {
    var candidates: seq<(nat, nat)> := [];
    for i := 0 to |tests|
      invariant forall c :: 0 <= c < |candidates| ==>
        && candidates[c].0 < i && Compatible(p, tests[candidates[c].0])
        && candidates[c].1 == Delta(p, tests[candidates[c].0])
      invariant forall c, d :: 0 <= c < d < |candidates| ==> candidates[c].0 < candidates[d].0
      invariant forall j :: 0 <= j < i && Compatible(p, tests[j]) ==> (j as nat, Delta(p, tests[j])) in candidates
    {
      if tests[i].side != p.side {
        continue;
      }
      if tests[i].timeframe != p.timeframe {
        continue;
      }
      var delta := Delta(p, tests[i]);
      if delta > MAX_DELTA {
        continue;
      }
      candidates := candidates + [(i, delta)];
    }
    if candidates == [] {
      assert HasNone(p, tests);
      return None;
    }
    var best := 0;
    for c := 1 to |candidates|
      invariant 0 <= best < c
      invariant forall d :: 0 <= d < best ==> candidates[best].1 < candidates[d].1
      invariant forall d :: best <= d < c ==> candidates[best].1 <= candidates[d].1
    {
      if candidates[c].1 < candidates[best].1 {
        best := c;
      }
    }
    NearestOfCandidates(p, tests, candidates, best);
    k := Some(candidates[best].0);
  }

  lemma {:induction false} NearestOfCandidates(p: Plan, tests: seq<Plan>, candidates: seq<(nat, nat)>, best: nat)
    requires best < |candidates|
    requires forall c :: 0 <= c < |candidates| ==>
      && candidates[c].0 < |tests| && Compatible(p, tests[candidates[c].0])
      && candidates[c].1 == Delta(p, tests[candidates[c].0])
    requires forall c, d :: 0 <= c < d < |candidates| ==> candidates[c].0 < candidates[d].0
    requires forall j :: 0 <= j < |tests| && Compatible(p, tests[j]) ==> (j as nat, Delta(p, tests[j])) in candidates
    requires forall d :: 0 <= d < best ==> candidates[best].1 < candidates[d].1
    requires forall d :: best <= d < |candidates| ==> candidates[best].1 <= candidates[d].1
    ensures Nearest(p, tests) == Some(candidates[best].0)
  {
    hide Compatible, Delta;
    var k := candidates[best].0;
    forall j | 0 <= j < |tests| && Compatible(p, tests[j])
      ensures j < k ==> Delta(p, tests[k]) < Delta(p, tests[j])
      ensures j > k ==> Delta(p, tests[k]) <= Delta(p, tests[j])
    {
      var c :| 0 <= c < |candidates| && candidates[c] == (j as nat, Delta(p, tests[j]));
    }
    assert IsNearest(p, tests, k);
    NearestUnique(p, tests, k, Nearest(p, tests).value);
  }

  datatype Paired = Paired(paperCount: nat, testnetCount: nat, compared: nat, unmatchedPaper: nat,
                           unmatchedTestnet: nat, entryDiffs: seq<real>, riskDiffs: seq<real>, notionalDiffs: seq<real>)

  /** The shadow-run service: counters and difference lists. */
  method PairPlans(plans: seq<Plan>) returns (r: Paired)
    ensures var m := MatchPlans(plans);
      && r.paperCount == |At(plans, Paper)| && r.testnetCount == |At(plans, Testnet)|
      && r.compared == |m.pairs| && r.unmatchedPaper == |m.papers| && r.unmatchedTestnet == |m.tests|
      && r.entryDiffs == EntryDiffs(m.pairs) && r.riskDiffs == RiskDiffs(m.pairs)
      && r.notionalDiffs == NotionalDiffs(m.pairs)
  {
    hide PctDiff, At, EntryDiffs, RiskDiffs, NotionalDiffs, Match, Nearest;
    var papers, tests := At(plans, Paper), At(plans, Testnet);
    var paperCount, testnetCount := |papers|, |tests|;
    var entryDiffs, riskDiffs, notionalDiffs := [], [], [];
    var compared, unmatched := 0, 0;
    ghost var whole := Match(papers, tests);
    ghost var done: seq<(Plan, Plan)> := [];
    NoDiffs();
    while papers != [] && tests != []
      invariant done + Match(papers, tests).pairs == whole.pairs
      invariant compared == |done| && Match(papers, tests).tests == whole.tests
      invariant unmatched + |Match(papers, tests).papers| == |whole.papers|
      invariant entryDiffs == EntryDiffs(done) && riskDiffs == RiskDiffs(done)
      invariant notionalDiffs == NotionalDiffs(done)
      decreases |papers|
    {
      MatchStep(papers, tests);
      var paper := papers[0];
      var k := FindMatch(paper, tests);
      ghost var rest := Match(papers[1..], if k.Some? then Without(tests, k.value) else tests);
      papers := papers[1..];
      if k.None? {
        unmatched := unmatched + 1;
        continue;
      }
      var testnet := tests[k.value];
      tests := tests[..k.value] + tests[k.value + 1..];
      compared := compared + 1;
      entryDiffs := entryDiffs + [PctDiff(paper.entry, testnet.entry)];
      riskDiffs := riskDiffs + [PctDiff(paper.risk, testnet.risk)];
      notionalDiffs := notionalDiffs + [PctDiff(paper.notional, testnet.notional)];
      DiffsAppend(done, (paper, testnet));
      assert done + ([(paper, testnet)] + rest.pairs) == (done + [(paper, testnet)]) + rest.pairs;
      done := done + [(paper, testnet)];
    }
    MatchEnds(papers, tests);
    assert done == whole.pairs;
    r := Paired(paperCount, testnetCount, compared, unmatched + |papers|, |tests|,
                entryDiffs, riskDiffs, notionalDiffs);
  }

  datatype PairDiff = PairDiff(paperId: nat, testnetId: nat, side: string, entry: real, risk: real, notional: real)

  function DiffOf(pair: (Plan, Plan)): PairDiff {
    PairDiff(pair.0.id, pair.1.id, pair.0.side, PctDiff(pair.0.entry, pair.1.entry),
             PctDiff(pair.0.risk, pair.1.risk), PctDiff(pair.0.notional, pair.1.notional))
  }

  datatype ParityReport = ParityReport(compared: nat, unmatchedPaper: nat, unmatchedTestnet: nat,
                                       averageEntry: Option<real>, averageRisk: Option<real>,
                                       averageNotional: Option<real>,
                                       pairs: seq<PairDiff>)

  /** The average the reports give for a list of differences, to four decimals. */
  function Average(diffs: seq<real>): Option<real> {
    if diffs == [] then None else Some(RoundTo(Sum(diffs) / |diffs| as real, 10000.0))
  }

  /** Adds up one column of the pairs. */
  method AverageOf(diffs: seq<real>) returns (average: Option<real>)
    ensures average == Average(diffs)
  {
    if diffs == [] {
      return None;
    }
    var total := 0.0;
    for i := 0 to |diffs|
      invariant total == Sum(diffs[..i])
    {
      assert diffs[..i + 1][..i] == diffs[..i];
      total := total + diffs[i];
    }
    assert diffs[..|diffs|] == diffs;
    average := Some(RoundTo(total / |diffs| as real, 10000.0));
  }

  function PairDiffs(pairs: seq<(Plan, Plan)>): seq<PairDiff> {
    seq(|pairs|, i requires 0 <= i < |pairs| => DiffOf(pairs[i]))
  }

  lemma {:induction false} PairDiffsAppend(pairs: seq<(Plan, Plan)>, x: (Plan, Plan))
    ensures PairDiffs(pairs + [x]) == PairDiffs(pairs) + [DiffOf(x)]
  {
    hide DiffOf;
  }

  /** The columns of the report are the difference lists of the pairs. */
  lemma {:induction false} Columns(pairs: seq<(Plan, Plan)>)
    ensures var rows := PairDiffs(pairs);
      && seq(|rows|, i requires 0 <= i < |rows| => rows[i].entry) == EntryDiffs(pairs)
      && seq(|rows|, i requires 0 <= i < |rows| => rows[i].risk) == RiskDiffs(pairs)
      && seq(|rows|, i requires 0 <= i < |rows| => rows[i].notional) == NotionalDiffs(pairs)
  {
    hide PctDiff;
  }

  lemma {:induction false} NoPairs()
    ensures PairDiffs([]) == []
  {
  }

  /** The parity service: the same walk, reporting the pairs themselves and the averages over them. */
  method BuildReport(plans: seq<Plan>) returns (r: ParityReport)
    ensures var m := MatchPlans(plans);
      && r.compared == |m.pairs| && r.unmatchedPaper == |m.papers| && r.unmatchedTestnet == |m.tests|
      && r.pairs == PairDiffs(m.pairs)
      && r.averageEntry == Average(EntryDiffs(m.pairs)) && r.averageRisk == Average(RiskDiffs(m.pairs))
      && r.averageNotional == Average(NotionalDiffs(m.pairs))
  {
    hide PctDiff, DiffOf, At, PairDiffs, EntryDiffs, RiskDiffs, NotionalDiffs, Average, Match, Nearest;
    var papers, tests := At(plans, Paper), At(plans, Testnet);
    var pairs: seq<PairDiff> := [];
    var unmatched := 0;
    ghost var whole := Match(papers, tests);
    ghost var done: seq<(Plan, Plan)> := [];
    NoPairs();
    while papers != [] && tests != []
      invariant done + Match(papers, tests).pairs == whole.pairs && Match(papers, tests).tests == whole.tests
      invariant unmatched + |Match(papers, tests).papers| == |whole.papers|
      invariant pairs == PairDiffs(done) && |pairs| == |done|
      decreases |papers|
    {
      MatchStep(papers, tests);
      var paper := papers[0];
      var k := FindMatch(paper, tests);
      ghost var rest := Match(papers[1..], if k.Some? then Without(tests, k.value) else tests);
      papers := papers[1..];
      if k.None? {
        unmatched := unmatched + 1;
        continue;
      }
      var testnet := tests[k.value];
      tests := tests[..k.value] + tests[k.value + 1..];
      pairs := pairs + [DiffOf((paper, testnet))];
      PairDiffsAppend(done, (paper, testnet));
      assert done + ([(paper, testnet)] + rest.pairs) == (done + [(paper, testnet)]) + rest.pairs;
      done := done + [(paper, testnet)];
    }
    MatchEnds(papers, tests);
    assert done == whole.pairs;
    Columns(done);
    var entry := AverageOf(seq(|pairs|, i requires 0 <= i < |pairs| => pairs[i].entry));
    var risk := AverageOf(seq(|pairs|, i requires 0 <= i < |pairs| => pairs[i].risk));
    var notional := AverageOf(seq(|pairs|, i requires 0 <= i < |pairs| => pairs[i].notional));
    r := ParityReport(|pairs|, unmatched + |papers|, |tests|, entry, risk, notional, pairs);
  }
}
