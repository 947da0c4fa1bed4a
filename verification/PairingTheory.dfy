/** What the greedy matching is worth, and how it splits by timeframe. */
module PairingTheory {
  import opened Numeric
  import opened Options
  import opened Pairing

  function Papers(pairs: seq<(Plan, Plan)>): seq<Plan> {
    seq(|pairs|, i requires 0 <= i < |pairs| => pairs[i].0)
  }

  function Tests(pairs: seq<(Plan, Plan)>): seq<Plan> {
    seq(|pairs|, i requires 0 <= i < |pairs| => pairs[i].1)
  }

  // ----- A valid, maximal matching -----

  lemma {:induction false} PairsSplit(p: Plan, t: Plan, pairs: seq<(Plan, Plan)>)
    ensures Papers([(p, t)] + pairs) == [p] + Papers(pairs)
    ensures Tests([(p, t)] + pairs) == [t] + Tests(pairs)
  {
  }

  lemma {:induction false} SplitMultiset(tests: seq<Plan>, k: nat)
    requires k < |tests|
    ensures multiset(tests) == multiset(Without(tests, k)) + multiset{tests[k]}
  {
    assert tests == tests[..k] + [tests[k]] + tests[k + 1..];
  }

  /** Every plan of either list is in exactly one pair or left over, as often as it was given. */
  lemma {:induction false} MatchConserves(papers: seq<Plan>, tests: seq<Plan>)
    ensures var m := Match(papers, tests);
      && multiset(Papers(m.pairs)) + multiset(m.papers) == multiset(papers)
      && multiset(Tests(m.pairs)) + multiset(m.tests) == multiset(tests)
  {
    if papers != [] && tests != [] {
      assert papers == [papers[0]] + papers[1..];
      match Nearest(papers[0], tests)
      case None =>
        MatchConserves(papers[1..], tests);
      case Some(k) =>
        hide Papers, Tests;
        var rest := Match(papers[1..], Without(tests, k));
        MatchConserves(papers[1..], Without(tests, k));
        PairsSplit(papers[0], tests[k], rest.pairs);
        SplitMultiset(tests, k);
    }
  }

  /** Counts: pairs and leftovers add up to the inputs. */
  lemma {:induction false} MatchCounts(papers: seq<Plan>, tests: seq<Plan>)
    ensures var m := Match(papers, tests);
      |m.pairs| + |m.papers| == |papers| && |m.pairs| + |m.tests| == |tests|
  {
    var m := Match(papers, tests);
    MatchConserves(papers, tests);
    assert |multiset(Papers(m.pairs)) + multiset(m.papers)| == |papers|;
    assert |multiset(Tests(m.pairs)) + multiset(m.tests)| == |tests|;
  }

  predicate FreeOf(p: Plan, tests: seq<Plan>) {
    forall t :: t in tests ==> !Compatible(p, t)
  }

  /** No free testnet plan is nearer to the paper plan than its partner. */
  predicate NoneNearer(pair: (Plan, Plan), tests: seq<Plan>) {
    forall u :: u in tests && Compatible(pair.0, u) ==> Delta(pair.0, pair.1) <= Delta(pair.0, u)
  }

  predicate Sound(m: Matching, tests: seq<Plan>) {
    && (forall i :: 0 <= i < |m.pairs| ==> Compatible(m.pairs[i].0, m.pairs[i].1) && NoneNearer(m.pairs[i], m.tests))
    && (forall p :: p in m.papers ==> FreeOf(p, m.tests))
    && (forall t :: t in m.tests ==> t in tests)
  }

  /** Pairs agree on side, timeframe and day; nobody left over could have been paired with anybody left over; and
      no paired paper plan would rather have had a testnet plan that stayed free. */
  lemma {:induction false} MatchIsSound(papers: seq<Plan>, tests: seq<Plan>)
    ensures Sound(Match(papers, tests), tests)
  {
    hide Compatible, Delta;
    if papers != [] && tests != [] {
      match Nearest(papers[0], tests)
      case None =>
        MatchIsSound(papers[1..], tests);
        var rest := Match(papers[1..], tests);
        assert FreeOf(papers[0], rest.tests);
      case Some(k) =>
        var rest := Match(papers[1..], Without(tests, k));
        MatchIsSound(papers[1..], Without(tests, k));
        assert NoneNearer((papers[0], tests[k]), rest.tests);
    }
  }

  // ----- Half of the best possible -----

  /** A set of disjoint compatible pairs. */
  predicate IsMatching(s: set<(Plan, Plan)>, papers: seq<Plan>, tests: seq<Plan>) {
    && (forall x :: x in s ==> x.0 in papers && x.1 in tests && Compatible(x.0, x.1))
    && Disjoint(s)
  }

  predicate Disjoint(s: set<(Plan, Plan)>) {
    forall x, y :: x in s && y in s && x != y ==> x.0 != y.0 && x.1 != y.1
  }

  lemma {:induction false} AtMostByPaper(s: set<(Plan, Plan)>, a: set<Plan>)
    requires Disjoint(s) && forall x :: x in s ==> x.0 in a
    ensures |s| <= |a|
    decreases |s|
  {
    if s != {} {
      var x :| x in s;
      AtMostByPaper(s - {x}, a - {x.0});
    }
  }

  lemma {:induction false} AtMostByTest(s: set<(Plan, Plan)>, b: set<Plan>)
    requires Disjoint(s) && forall x :: x in s ==> x.1 in b
    ensures |s| <= |b|
    decreases |s|
  {
    if s != {} {
      var x :| x in s;
      AtMostByTest(s - {x}, b - {x.1});
    }
  }

  function Elements(plans: seq<Plan>): set<Plan> { set p | p in plans }

  lemma {:induction false} FewElements(plans: seq<Plan>)
    ensures |Elements(plans)| <= |plans|
  {
    if plans != [] {
      var init := plans[..|plans| - 1];
      FewElements(init);
      assert plans == init + [plans[|plans| - 1]];
      assert Elements(plans) == Elements(init) + {plans[|plans| - 1]};
    }
  }

  /** Whatever set of disjoint compatible pairs one picks, it is at most twice as large as the greedy one. */
  lemma {:induction false} GreedyIsHalfOptimal(papers: seq<Plan>, tests: seq<Plan>, s: set<(Plan, Plan)>)
    requires IsMatching(s, papers, tests)
    ensures |s| <= 2 * |Match(papers, tests).pairs|
  {
    var m := Match(papers, tests);
    MatchConserves(papers, tests);
    MatchIsSound(papers, tests);
    hide Match, Compatible;
    var a, b := Papers(m.pairs), Tests(m.pairs);
    var byPaper := set x | x in s && x.0 in a;
    var byTest := set x | x in s && x.1 in b;
    forall x | x in s ensures x in byPaper + byTest {
      LeftOrTaken(a, m.papers, papers, x.0);
      LeftOrTaken(b, m.tests, tests, x.1);
    }
    assert s == byPaper + byTest;
    AtMostByPaper(byPaper, Elements(a));
    AtMostByTest(byTest, Elements(b));
    FewElements(a);
    FewElements(b);
    assert |byPaper + byTest| <= |byPaper| + |byTest|;
  }

  lemma {:induction false} LeftOrTaken(taken: seq<Plan>, left: seq<Plan>, all: seq<Plan>, p: Plan)
    requires multiset(taken) + multiset(left) == multiset(all) && p in all
    ensures p in taken || p in left
  {
    assert p in multiset(all);
  }

  /** The factor two is reached: one greedy pair where two were possible. */
  lemma {:induction false} HalfIsTight(p: Plan)
    requires p.created == 0 && p.venue == Paper
    ensures var q := p.(id := p.id + 1, created := 86000000000);
      var t, u := p.(venue := Testnet, created := 10), p.(venue := Testnet, created := -86000000000);
      |Match([p, q], [t, u]).pairs| == 1 && IsMatching({(p, u), (q, t)}, [p, q], [t, u])
  {
    var q := p.(id := p.id + 1, created := 86000000000);
    var t, u := p.(venue := Testnet, created := 10), p.(venue := Testnet, created := -86000000000);
    NearestUnique(p, [t, u], 0, Nearest(p, [t, u]).value);
    assert Without([t, u], 0) == [u];
    assert Nearest(q, [u]).None? by {
      assert forall j :: 0 <= j < |[u]| ==> [u][j] == u && !Compatible(q, u);
    }
    assert [p] + [q] == [p, q] && [q] == [q] + [];
    MatchTakes(p, [q], [t, u], 0);
    MatchSkips(q, [], [u]);
    assert Match([], [u]).pairs == [];
    hide Match;
  }

  // ----- Splitting by timeframe -----

  function Only(plans: seq<Plan>, timeframe: string): seq<Plan> {
    if plans == [] then []
    else (if plans[0].timeframe == timeframe then [plans[0]] else []) + Only(plans[1..], timeframe)
  }

  function OnlyPairs(pairs: seq<(Plan, Plan)>, timeframe: string): seq<(Plan, Plan)> {
    if pairs == [] then []
    else (if pairs[0].0.timeframe == timeframe then [pairs[0]] else []) + OnlyPairs(pairs[1..], timeframe)
  }

  lemma {:induction false} OnlyConcat(a: seq<Plan>, b: seq<Plan>, timeframe: string)
    ensures Only(a + b, timeframe) == Only(a, timeframe) + Only(b, timeframe)
  {
    if a == [] {
      assert a + b == b && Only(a, timeframe) == [];
    } else {
      hide Only;
      OnlyConcat(a[1..], b, timeframe);
      OnlyStep(a, b, timeframe);
    }
  }

  lemma {:induction false} OnlyStep(a: seq<Plan>, b: seq<Plan>, timeframe: string)
    requires a != [] && Only(a[1..] + b, timeframe) == Only(a[1..], timeframe) + Only(b, timeframe)
    ensures Only(a + b, timeframe) == Only(a, timeframe) + Only(b, timeframe)
  {
    hide Only;
    var head, rest := a[0], a[1..];
    assert a == [head] + rest && a + b == [head] + (rest + b);
    OnlyHead(head, rest, timeframe);
    OnlyHead(head, rest + b, timeframe);
    assert [head] + (Only(rest, timeframe) + Only(b, timeframe)) == [head] + Only(rest, timeframe) + Only(b, timeframe);
  }

  lemma {:induction false} OnlyMembers(a: seq<Plan>, timeframe: string)
    ensures forall p :: p in Only(a, timeframe) <==> p in a && p.timeframe == timeframe
  {
    if a != [] {
      OnlyMembers(a[1..], timeframe);
      assert a == [a[0]] + a[1..];
    }
  }

  lemma {:induction false} OnlyHead(p: Plan, rest: seq<Plan>, timeframe: string)
    ensures Only([p] + rest, timeframe) ==
      if p.timeframe == timeframe then [p] + Only(rest, timeframe) else Only(rest, timeframe)
  {
    assert ([p] + rest)[1..] == rest;
  }

  /** Taking one plan out commutes with the selection. */
  lemma {:induction false} OnlyWithout(tests: seq<Plan>, k: nat, timeframe: string)
    requires k < |tests|
    ensures tests[k].timeframe != timeframe ==> Only(Without(tests, k), timeframe) == Only(tests, timeframe)
    ensures tests[k].timeframe == timeframe ==>
      var i := |Only(tests[..k], timeframe)|;
      && i < |Only(tests, timeframe)| && Only(tests, timeframe)[i] == tests[k]
      && Only(Without(tests, k), timeframe) == Without(Only(tests, timeframe), i)
  {
    var a, b := tests[..k], tests[k + 1..];
    assert tests == a + ([tests[k]] + b) && Without(tests, k) == a + b;
    hide Only, Without;
    OnlyConcat(a, [tests[k]] + b, timeframe);
    OnlyHead(tests[k], b, timeframe);
    OnlyConcat(a, b, timeframe);
    if tests[k].timeframe == timeframe {
      WithoutMiddle(Only(a, timeframe), tests[k], Only(b, timeframe));
    }
  }

  lemma {:induction false} WithoutMiddle(x: seq<Plan>, p: Plan, y: seq<Plan>)
    ensures var all := x + ([p] + y);
      |x| < |all| && all[|x|] == p && Without(all, |x|) == x + y
  {
  }

  /** A plan sees the same nearest partner whether or not other timeframes are in the list. */
  lemma {:induction false} NearestWithin(p: Plan, tests: seq<Plan>)
    ensures var within := Only(tests, p.timeframe);
      match Nearest(p, tests)
      case None => Nearest(p, within).None?
      case Some(k) => Nearest(p, within) == Some(|Only(tests[..k], p.timeframe)|)
  {
    var f := p.timeframe;
    var within := Only(tests, f);
    OnlyMembers(tests, f);
    match Nearest(p, tests) {
      case None =>
        assert forall j :: 0 <= j < |within| ==> within[j] in tests;
      case Some(k) =>
        NearestInParts(p, tests, k);
        NearestUnique(p, within, |Only(tests[..k], f)|, Nearest(p, within).value);
    }
  }

  /** t beats everything compatible in x strictly and everything compatible in y weakly. */
  predicate Beats(p: Plan, t: Plan, x: seq<Plan>, y: seq<Plan>) {
    && (forall q :: q in x && Compatible(p, q) ==> Delta(p, t) < Delta(p, q))
    && (forall q :: q in y && Compatible(p, q) ==> Delta(p, t) <= Delta(p, q))
  }

  lemma {:induction false} NearestBeats(p: Plan, tests: seq<Plan>, k: nat)
    requires IsNearest(p, tests, k)
    ensures Beats(p, tests[k], tests[..k], tests[k + 1..])
  {
    hide Compatible, Delta;
    var t, a, b := tests[k], tests[..k], tests[k + 1..];
    forall q | q in a && Compatible(p, q) ensures Delta(p, t) < Delta(p, q) {
      var j :| 0 <= j < |a| && a[j] == q;
      assert tests[j] == q;
    }
    forall q | q in b && Compatible(p, q) ensures Delta(p, t) <= Delta(p, q) {
      var j :| 0 <= j < |b| && b[j] == q;
      assert tests[k + 1 + j] == q;
    }
  }

  lemma {:induction false} NearestInParts(p: Plan, tests: seq<Plan>, k: nat)
    requires IsNearest(p, tests, k)
    ensures IsNearest(p, Only(tests, p.timeframe), |Only(tests[..k], p.timeframe)|)
    ensures Nearest(p, Only(tests, p.timeframe)).Some?
  {
    var f, t := p.timeframe, tests[k];
    var a, b := tests[..k], tests[k + 1..];
    NearestBeats(p, tests, k);
    assert t.timeframe == f && Compatible(p, t);
    assert tests == a + ([t] + b);
    hide Only, IsNearest, Compatible, Delta, Nearest;
    OnlyConcat(a, [t] + b, f);
    OnlyHead(t, b, f);
    OnlyMembers(a, f);
    OnlyMembers(b, f);
    assert Beats(p, t, Only(a, f), Only(b, f));
    NearestOfParts(p, Only(a, f), t, Only(b, f));
  }

  lemma {:induction false} NearestOfParts(p: Plan, x: seq<Plan>, t: Plan, y: seq<Plan>)
    requires Compatible(p, t) && Beats(p, t, x, y)
    ensures IsNearest(p, x + ([t] + y), |x|) && Nearest(p, x + ([t] + y)).Some?
  {
    hide Compatible, Delta, Nearest;
    var all := x + ([t] + y);
    forall j | 0 <= j < |all| && Compatible(p, all[j])
      ensures j < |x| ==> Delta(p, t) < Delta(p, all[j])
      ensures j > |x| ==> Delta(p, t) <= Delta(p, all[j])
    {
      if j < |x| {
        assert all[j] == x[j];
      } else if j > |x| {
        assert all[j] == y[j - |x| - 1];
      }
    }
    assert all[|x|] == t;
  }

  predicate SplitsAs(whole: Matching, part: Matching, timeframe: string) {
    && OnlyPairs(whole.pairs, timeframe) == part.pairs
    && Only(whole.papers, timeframe) == part.papers
    && Only(whole.tests, timeframe) == part.tests
  }

  lemma {:induction false} MatchSkips(p: Plan, later: seq<Plan>, tests: seq<Plan>)
    requires Nearest(p, tests).None?
    ensures Match([p] + later, tests) == Match(later, tests).(papers := [p] + Match(later, tests).papers)
  {
    assert ([p] + later)[1..] == later;
  }

  lemma {:induction false} MatchTakes(p: Plan, later: seq<Plan>, tests: seq<Plan>, k: nat)
    requires Nearest(p, tests) == Some(k) && k < |tests|
    ensures var rest := Match(later, Without(tests, k));
      Match([p] + later, tests) == rest.(pairs := [(p, tests[k])] + rest.pairs)
  {
    assert ([p] + later)[1..] == later;
  }

  lemma {:induction false} OnlyPairsHead(x: (Plan, Plan), pairs: seq<(Plan, Plan)>, timeframe: string)
    ensures OnlyPairs([x] + pairs, timeframe) ==
      if x.0.timeframe == timeframe then [x] + OnlyPairs(pairs, timeframe) else OnlyPairs(pairs, timeframe)
  {
    assert ([x] + pairs)[1..] == pairs;
  }

  lemma {:induction false} EmptyOnly(papers: seq<Plan>, tests: seq<Plan>, timeframe: string)
    requires papers == [] || tests == []
    ensures SplitsAs(Match(papers, tests), Match(Only(papers, timeframe), Only(tests, timeframe)), timeframe)
  {
  }

  /** A mixed-timeframe matching is, timeframe by timeframe, the matching of that timeframe's own plans: the same
      pairs in the same order and the same leftovers. */
  lemma {:induction false} MatchDecomposes(papers: seq<Plan>, tests: seq<Plan>, timeframe: string)
    ensures SplitsAs(Match(papers, tests), Match(Only(papers, timeframe), Only(tests, timeframe)), timeframe)
  {
    if papers == [] || tests == [] {
      EmptyOnly(papers, tests, timeframe);
    } else {
      var p, later := papers[0], papers[1..];
      assert papers == [p] + later;
      OnlyHead(p, later, timeframe);
      match Nearest(p, tests)
      case None =>
        MatchDecomposes(later, tests, timeframe);
        UnpairedStep(p, later, tests, timeframe);
      case Some(k) =>
        MatchDecomposes(later, Without(tests, k), timeframe);
        PairedStep(p, later, tests, k, timeframe);
    }
  }

  lemma {:induction false} UnpairedStep(p: Plan, later: seq<Plan>, tests: seq<Plan>, timeframe: string)
    requires Nearest(p, tests).None?
    requires SplitsAs(Match(later, tests), Match(Only(later, timeframe), Only(tests, timeframe)), timeframe)
    ensures SplitsAs(Match([p] + later, tests), Match(Only([p] + later, timeframe), Only(tests, timeframe)), timeframe)
  {
    hide Match, Only, OnlyPairs, Nearest;
    MatchSkips(p, later, tests);
    OnlyHead(p, later, timeframe);
    OnlyHead(p, Match(later, tests).papers, timeframe);
    NearestWithin(p, tests);
    if p.timeframe == timeframe {
      MatchSkips(p, Only(later, timeframe), Only(tests, timeframe));
    }
  }

  lemma {:induction false} PairedStep(p: Plan, later: seq<Plan>, tests: seq<Plan>, k: nat, timeframe: string)
    requires k < |tests| && Nearest(p, tests) == Some(k)
    requires SplitsAs(Match(later, Without(tests, k)),
                      Match(Only(later, timeframe), Only(Without(tests, k), timeframe)), timeframe)
    ensures SplitsAs(Match([p] + later, tests), Match(Only([p] + later, timeframe), Only(tests, timeframe)), timeframe)
  {
    hide Match, Only, OnlyPairs, Nearest, Without;
    MatchTakes(p, later, tests, k);
    OnlyHead(p, later, timeframe);
    OnlyWithout(tests, k, timeframe);
    OnlyPairsHead((p, tests[k]), Match(later, Without(tests, k)).pairs, timeframe);
    NearestWithin(p, tests);
    if p.timeframe == timeframe {
      MatchTakes(p, Only(later, timeframe), Only(tests, timeframe), |Only(tests[..k], timeframe)|);
    } else {
      assert tests[k].timeframe != timeframe by { PartnerSharesTimeframe(p, tests, k); }
    }
  }

  lemma {:induction false} PartnerSharesTimeframe(p: Plan, tests: seq<Plan>, k: nat)
    requires k < |tests| && Nearest(p, tests) == Some(k)
    ensures tests[k].timeframe == p.timeframe
  {
  }

  // ----- Totals of the two services -----

  lemma {:induction false} AtCommutes(plans: seq<Plan>, venue: Venue, timeframe: string)
    ensures At(Only(plans, timeframe), venue) == Only(At(plans, venue), timeframe)
  {
    if plans != [] {
      var head, tail := plans[0], plans[1..];
      AtCommutes(tail, venue, timeframe);
      assert plans == [head] + tail;
      OnlyHead(head, tail, timeframe);
      AtHead(head, tail, venue);
      AtHead(head, Only(tail, timeframe), venue);
      OnlyHead(head, At(tail, venue), timeframe);
      hide At, Only;
    }
  }

  lemma {:induction false} AtHead(p: Plan, rest: seq<Plan>, venue: Venue)
    ensures At([p] + rest, venue) == if p.venue == venue then [p] + At(rest, venue) else At(rest, venue)
  {
    assert ([p] + rest)[1..] == rest;
  }

  /** The three counters both services report. */
  datatype Totals = Totals(compared: nat, paper: nat, testnet: nat)

  function TotalsOf(m: Matching): Totals { Totals(|m.pairs|, |m.papers|, |m.tests|) }

  function SumTotals(plans: seq<Plan>, timeframes: seq<string>): Totals {
    if timeframes == [] then Totals(0, 0, 0)
    else
      var a := TotalsOf(MatchPlans(Only(plans, timeframes[0])));
      var b := SumTotals(plans, timeframes[1..]);
      Totals(a.compared + b.compared, a.paper + b.paper, a.testnet + b.testnet)
  }

  predicate Distinct(names: seq<string>) {
    forall i, j :: 0 <= i < j < |names| ==> names[i] != names[j]
  }

  function CountIn(plans: seq<Plan>, timeframes: seq<string>): nat {
    if timeframes == [] then 0 else |Only(plans, timeframes[0])| + CountIn(plans, timeframes[1..])
  }

  function CountPairsIn(pairs: seq<(Plan, Plan)>, timeframes: seq<string>): nat {
    if timeframes == [] then 0 else |OnlyPairs(pairs, timeframes[0])| + CountPairsIn(pairs, timeframes[1..])
  }

  lemma {:induction false} CountInHead(p: Plan, plans: seq<Plan>, timeframes: seq<string>)
    requires Distinct(timeframes)
    ensures CountIn([p] + plans, timeframes) == CountIn(plans, timeframes) + if p.timeframe in timeframes then 1 else 0
  {
    hide Only;
    if timeframes != [] {
      var first, rest := timeframes[0], timeframes[1..];
      OnlyHead(p, plans, first);
      CountInHead(p, plans, rest);
      assert timeframes == [first] + rest && first !in rest;
    }
  }

  lemma {:induction false} CountInAll(plans: seq<Plan>, timeframes: seq<string>)
    requires Distinct(timeframes) && forall p :: p in plans ==> p.timeframe in timeframes
    ensures CountIn(plans, timeframes) == |plans|
  {
    if plans == [] {
      CountInNone(timeframes);
    } else {
      CountInAll(plans[1..], timeframes);
      assert plans == [plans[0]] + plans[1..];
      CountInHead(plans[0], plans[1..], timeframes);
    }
  }

  lemma {:induction false} CountInNone(timeframes: seq<string>)
    ensures CountIn([], timeframes) == 0 && CountPairsIn([], timeframes) == 0
  {
    if timeframes != [] {
      CountInNone(timeframes[1..]);
    }
  }

  lemma {:induction false} CountPairs(pairs: seq<(Plan, Plan)>, timeframes: seq<string>)
    ensures CountPairsIn(pairs, timeframes) == CountIn(Papers(pairs), timeframes)
  {
    if timeframes != [] {
      CountPairs(pairs, timeframes[1..]);
      PairsByPaper(pairs, timeframes[0]);
    }
  }

  lemma {:induction false} PairsByPaper(pairs: seq<(Plan, Plan)>, timeframe: string)
    ensures |OnlyPairs(pairs, timeframe)| == |Only(Papers(pairs), timeframe)|
  {
    if pairs != [] {
      PairsByPaper(pairs[1..], timeframe);
      assert Papers(pairs)[1..] == Papers(pairs[1..]);
    }
  }

  lemma {:induction false} SumOfParts(plans: seq<Plan>, timeframes: seq<string>)
    ensures var m := MatchPlans(plans);
      SumTotals(plans, timeframes) ==
        Totals(CountPairsIn(m.pairs, timeframes), CountIn(m.papers, timeframes), CountIn(m.tests, timeframes))
  {
    if timeframes != [] {
      var f := timeframes[0];
      SumOfParts(plans, timeframes[1..]);
      MatchDecomposes(At(plans, Paper), At(plans, Testnet), f);
      AtCommutes(plans, Paper, f);
      AtCommutes(plans, Testnet, f);
      hide Match, Only, OnlyPairs, At;
    }
  }

  /** Summing the pairing's counters over the timeframes of one list gives exactly the counters on the mixed list. */
  lemma {:induction false} TotalsDecompose(plans: seq<Plan>, timeframes: seq<string>)
    requires Distinct(timeframes) && forall p :: p in plans ==> p.timeframe in timeframes
    ensures SumTotals(plans, timeframes) == TotalsOf(MatchPlans(plans))
  {
    var papers, tests := At(plans, Paper), At(plans, Testnet);
    var m := MatchPlans(plans);
    SumOfParts(plans, timeframes);
    CountPairs(m.pairs, timeframes);
    MatchConserves(papers, tests);
    AtMembers(plans, Paper);
    AtMembers(plans, Testnet);
    hide Match, At, CountIn, CountPairsIn, SumTotals;
    FromParts(Papers(m.pairs), m.papers, papers);
    FromParts(Tests(m.pairs), m.tests, tests);
    CountInAll(Papers(m.pairs), timeframes);
    CountInAll(m.papers, timeframes);
    CountInAll(m.tests, timeframes);
  }

  /** Testnet plans whose log holds a failed protection or a local exit are left out of the shadow-run summary. */
  predicate Excluded(p: Plan, ids: set<nat>) { p.venue == Testnet && p.id in ids }

  function Kept(plans: seq<Plan>, ids: set<nat>): seq<Plan> {
    if plans == [] then []
    else (if Excluded(plans[0], ids) then [] else [plans[0]]) + Kept(plans[1..], ids)
  }

  lemma {:induction false} KeptHead(p: Plan, rest: seq<Plan>, ids: set<nat>)
    ensures Kept([p] + rest, ids) == if Excluded(p, ids) then Kept(rest, ids) else [p] + Kept(rest, ids)
  {
    assert ([p] + rest)[1..] == rest;
  }

  predicate AllKept(plans: seq<Plan>, ids: set<nat>) { forall p :: p in plans ==> !Excluded(p, ids) }

  lemma {:induction false} KeptCounts(plans: seq<Plan>, ids: set<nat>)
    ensures |At(Kept(plans, ids), Testnet)| <= |At(plans, Testnet)|
    ensures |At(Kept(plans, ids), Testnet)| == |At(plans, Testnet)| <==> AllKept(plans, ids)
    ensures AllKept(plans, ids) ==> Kept(plans, ids) == plans
    ensures forall p :: p in Kept(plans, ids) ==> p in plans
  {
    if plans != [] {
      var head, rest := plans[0], plans[1..];
      KeptCounts(rest, ids);
      assert plans == [head] + rest;
      KeptHead(head, rest, ids);
      AtHead(head, rest, Testnet);
      AtHead(head, Kept(rest, ids), Testnet);
      assert AllKept(plans, ids) <==> !Excluded(head, ids) && AllKept(rest, ids);
      assert Excluded(head, ids) ==> head.venue == Testnet;
      hide At, Kept, Excluded, AllKept;
    }
  }

  /** The two services report the same totals for one symbol, the shadow-run rows summed over its timeframes, if and
      only if no testnet plan of the list is left out of the summary. */
  lemma {:induction false} ServicesAgreeExactly(plans: seq<Plan>, timeframes: seq<string>, ids: set<nat>)
    requires Distinct(timeframes) && forall p :: p in plans ==> p.timeframe in timeframes
    ensures SumTotals(Kept(plans, ids), timeframes) == TotalsOf(MatchPlans(plans))
            <==> AllKept(plans, ids)
  {
    var kept := Kept(plans, ids);
    KeptCounts(plans, ids);
    TotalsDecompose(kept, timeframes);
    MatchCounts(At(plans, Paper), At(plans, Testnet));
    MatchCounts(At(kept, Paper), At(kept, Testnet));
    hide At, Match, SumTotals, Kept, Distinct, Excluded, AllKept;
  }

  lemma {:induction false} OnePair(p: Plan, t: Plan)
    requires Compatible(p, t)
    ensures Match([p], [t]) == Matching([(p, t)], [], [])
  {
    assert [p][1..] == [] && Without([t], 0) == [];
    hide Compatible;
    assert Nearest(p, [t]) == Some(0);
  }

  lemma {:induction false} OneAt(p: Plan, venue: Venue)
    ensures At([p], venue) == if p.venue == venue then [p] else []
  {
    assert [p] == [p] + [];
    AtHead(p, [], venue);
  }

  lemma {:induction false} PairAt(p: Plan, t: Plan)
    requires p.venue == Paper && t.venue == Testnet
    ensures At([p, t], Paper) == [p] && At([p, t], Testnet) == [t]
    ensures Kept([p, t], {t.id}) == [p]
  {
    assert [p, t] == [p] + [t] && [t] == [t] + [];
    OneAt(t, Paper);
    OneAt(t, Testnet);
    AtHead(p, [t], Paper);
    AtHead(p, [t], Testnet);
    KeptHead(p, [t], {t.id});
    KeptHead(t, [], {t.id});
    hide At;
  }

  /** They do disagree: one paper plan and one testnet plan a second later whose protection failed. */
  lemma {:induction false} ServicesDisagree(p: Plan)
    requires p.venue == Paper
    ensures var t := p.(id := p.id + 1, venue := Testnet, created := p.created + 1000000);
      && TotalsOf(MatchPlans([p, t])) == Totals(1, 0, 0)
      && SumTotals(Kept([p, t], {t.id}), [p.timeframe]) == Totals(0, 1, 0)
  {
    var t := p.(id := p.id + 1, venue := Testnet, created := p.created + 1000000);
    PairAt(p, t);
    OnePair(p, t);
    OneAt(p, Paper);
    OneAt(p, Testnet);
    TotalsDecompose([p], [p.timeframe]);
    assert Match([p], []) == Matching([], [p], []);
    hide At, Kept, SumTotals, Match;
  }

  lemma {:induction false} FromParts(a: seq<Plan>, b: seq<Plan>, all: seq<Plan>)
    requires multiset(a) + multiset(b) == multiset(all)
    ensures forall p :: p in a || p in b ==> p in all
  {
    forall p | p in a || p in b ensures p in all {
      assert p in multiset(a) + multiset(b);
    }
  }

  lemma {:induction false} AtMembers(plans: seq<Plan>, venue: Venue)
    ensures forall p :: p in At(plans, venue) ==> p in plans
  {
    if plans != [] {
      AtMembers(plans[1..], venue);
    }
  }

  // ----- Grouping -----

  function OfGroup(plans: seq<Plan>, symbol: string, timeframe: string): seq<Plan> {
    if plans == [] then []
    else
      var n := |plans| - 1;
      OfGroup(plans[..n], symbol, timeframe) +
      if plans[n].symbol == symbol && plans[n].timeframe == timeframe then [plans[n]] else []
  }

  predicate InGroup(p: Plan, symbol: string, timeframe: string) { p.symbol == symbol && p.timeframe == timeframe }

  lemma {:induction false} GroupNext(plans: seq<Plan>, i: nat, symbol: string, timeframe: string)
    requires i < |plans|
    ensures OfGroup(plans[..i + 1], symbol, timeframe) ==
            OfGroup(plans[..i], symbol, timeframe) + if InGroup(plans[i], symbol, timeframe) then [plans[i]] else []
  {
    assert plans[..i + 1][..i] == plans[..i];
  }

  /** The groups hold exactly what each symbol and timeframe selects. */
  ghost predicate Grouped(groups: map<(string, string), seq<Plan>>, plans: seq<Plan>) {
    forall s, f :: if (s, f) in groups then groups[(s, f)] == OfGroup(plans, s, f) != [] else OfGroup(plans, s, f) == []
  }

  lemma {:induction false} GroupedNext(groups: map<(string, string), seq<Plan>>, plans: seq<Plan>, i: nat)
    requires i < |plans| && Grouped(groups, plans[..i])
    ensures var key := (plans[i].symbol, plans[i].timeframe);
      Grouped(groups[key := (if key in groups then groups[key] else []) + [plans[i]]], plans[..i + 1])
  {
    forall s, f ensures OfGroup(plans[..i + 1], s, f) ==
      OfGroup(plans[..i], s, f) + if InGroup(plans[i], s, f) then [plans[i]] else []
    {
      GroupNext(plans, i, s, f);
    }
    hide OfGroup;
  }

  lemma {:induction false} NothingGrouped()
    ensures Grouped(map[], [])
  {
  }

  /** The (symbol, timeframe) groups the shadow-run summary is built from keep every plan, in order. */
  method GroupPlans(plans: seq<Plan>) returns (groups: map<(string, string), seq<Plan>>)
    ensures forall s, f :: (s, f) in groups <==> OfGroup(plans, s, f) != []
    ensures forall s, f :: (s, f) in groups ==> groups[(s, f)] == OfGroup(plans, s, f)
  {
    hide OfGroup;
    groups := map[];
    assert plans[..0] == [];
    NothingGrouped();
    for i := 0 to |plans|
      invariant Grouped(groups, plans[..i])
    {
      hide Grouped;
      GroupedNext(groups, plans, i);
      var key := (plans[i].symbol, plans[i].timeframe);
      var earlier := if key in groups then groups[key] else [];
      groups := groups[key := earlier + [plans[i]]];
    }
    assert plans[..|plans|] == plans;
  }

  /** On the list of one symbol, a group is what its timeframe selects. */
  lemma {:induction false} GroupIsOnly(plans: seq<Plan>, symbol: string, timeframe: string)
    requires forall i :: 0 <= i < |plans| ==> plans[i].symbol == symbol
    ensures OfGroup(plans, symbol, timeframe) == Only(plans, timeframe)
  {
    if plans != [] {
      var n := |plans| - 1;
      GroupIsOnly(plans[..n], symbol, timeframe);
      assert plans == plans[..n] + [plans[n]];
      OnlyConcat(plans[..n], [plans[n]], timeframe);
      OnlyHead(plans[n], [], timeframe);
      assert [plans[n]] + [] == [plans[n]];
    }
  }

  // ----- What the reported differences mean -----

  /** d is the difference of b from a in percent of a, to four decimals; nothing against something is a hundred. */
  predicate IsPctOf(d: real, a: real, b: real) {
    if a == 0.0 && b == 0.0 then d == 0.0
    else if a == 0.0 || b == 0.0 then d == 100.0
    else Abs(Times(d, Abs(a)) - 100.0 * Abs(a - b)) <= Times(0.00005, Abs(a))
  }

  lemma {:induction false} DiffIsPct(a: real, b: real)
    ensures IsPctOf(PctDiff(a, b), a, b)
  {
    if a != 0.0 && b != 0.0 {
      var q := Abs(a - b) / Abs(a);
      assert q * Abs(a) == Abs(a - b);
      assert Times(q * 100.0, Abs(a)) == 100.0 * Abs(a - b);
      RoundToError(q * 100.0, 10000.0);
      hide RoundTo, Times;
      TimesError(RoundTo(q * 100.0, 10000.0), q * 100.0, 0.00005, Abs(a));
    }
  }

  /** Every pair of a report gives the testnet plan's differences in percent of the paper plan's figures. */
  lemma {:induction false} ReportReadsPairs(plans: seq<Plan>, i: nat)
    requires i < |MatchPlans(plans).pairs|
    ensures var pair, row := MatchPlans(plans).pairs[i], PairDiffs(MatchPlans(plans).pairs)[i];
      && row.paperId == pair.0.id && row.testnetId == pair.1.id && row.side == pair.0.side
      && IsPctOf(row.entry, pair.0.entry, pair.1.entry) && IsPctOf(row.risk, pair.0.risk, pair.1.risk)
      && IsPctOf(row.notional, pair.0.notional, pair.1.notional)
  {
    hide MatchPlans, PctDiff, IsPctOf;
    var pair := MatchPlans(plans).pairs[i];
    DiffIsPct(pair.0.entry, pair.1.entry);
    DiffIsPct(pair.0.risk, pair.1.risk);
    DiffIsPct(pair.0.notional, pair.1.notional);
  }

  /** The reported average is the mean to four decimals, absent exactly without differences. */
  lemma {:induction false} AverageIsMean(diffs: seq<real>)
    ensures Average(diffs).Some? <==> diffs != []
    ensures diffs != [] ==>
      Abs(Times(Average(diffs).value, |diffs| as real) - Sum(diffs)) <= Times(0.00005, |diffs| as real)
  {
    if diffs != [] {
      var q, n := Sum(diffs) / |diffs| as real, |diffs| as real;
      assert Times(q, n) == Sum(diffs);
      RoundToError(q, 10000.0);
      hide RoundTo, Times, Sum;
      TimesError(RoundTo(q, 10000.0), q, 0.00005, n);
    }
  }
}
