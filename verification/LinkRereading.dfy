/** What the scanners read once a line or a document has been rewritten. */
module LinkRereading {
  import opened Options
  import opened MarkdownLinks
  import opened LinkScanners
  import opened LinkDocuments
  import opened LinkReplacement
  import opened LinkSwaps

  // ----- Links whose rewriting is plain -----

  function OldAddress(l: Link): string { SplitTarget(l.target).0 }

  /** Either the link is kept, or old and new address are written without any character of the link syntax. */
  predicate PlainlyReplaced(env: Env, l: Link) {
    Replaced(env, l) ==>
      l.target == Joined(OldAddress(l), Title(l)) && Plain(OldAddress(l)) && Plain(NewAddress(env, l))
  }

  /** The target a link has after the rewriting. */
  function NewTarget(env: Env, l: Link): string {
    if Replaced(env, l) then Joined(NewAddress(env, l), Title(l)) else l.target
  }

  /** The same links, the first n at their new addresses. */
  predicate Renewed(env: Env, n: nat, before: seq<Link>, after: seq<Link>) {
    && |after| == |before|
    && forall j :: 0 <= j < |before| ==>
         && after[j].image == before[j].image && after[j].caption == before[j].caption
         && after[j].target == if j < n then NewTarget(env, before[j]) else before[j].target
  }

  // ----- Spans stand where they were parsed -----

  /** Links in order, from c on, each parsed where it starts. */
  predicate Parsed(s: string, c: nat, spans: seq<Link>) {
    && (forall j :: 0 <= j < |spans| ==>
          c <= spans[j].start < |s| && spans[j].end <= |s| && ParseAt(s, spans[j].start) == Some(spans[j]))
    && forall i, j :: 0 <= i < j < |spans| ==> spans[i].end <= spans[j].start
  }

  lemma {:induction false} ParsedMore(s: string, c: nat, l: Link, spans: seq<Link>)
    requires c < |s| && ParseAt(s, c) == Some(l) && Parsed(s, l.end, spans)
    ensures Parsed(s, c, [l] + spans)
  {
    hide ParseAt;
  }

  lemma {:induction false} ParsedLater(s: string, c: nat, d: nat, spans: seq<Link>)
    requires c <= d && Parsed(s, d, spans)
    ensures Parsed(s, c, spans)
  {
    hide ParseAt;
  }

  lemma {:induction false} SpansAreParsed(checker: bool, s: string, c: nat)
    requires c <= |s|
    ensures Parsed(s, c, Spans(checker, s, c))
    decreases |s| - c
  {
    hide ParseAt, Spans, Goes, LinkAt, Parsed;
    if c == |s| {
      NoMoreSpans(checker, s);
      NothingParsed(s, c);
    } else {
      SpansByCases(checker, s, c);
      if LinkAt(s, c) {
        LinkIsParsed(s, c);
        var l := ParseAt(s, c).value;
        SpansAreParsed(checker, s, l.end);
        ParsedMore(s, c, l, Spans(checker, s, l.end));
      } else if Goes(checker, s, c).Some? {
        var n := Goes(checker, s, c).value;
        SpansAreParsed(checker, s, n);
        ParsedLater(s, c, n, Spans(checker, s, n));
      } else {
        NothingParsed(s, c);
      }
    }
  }

  lemma {:induction false} NothingParsed(s: string, c: nat)
    ensures Parsed(s, c, [])
  {
  }

  lemma {:induction false} LinkIsParsed(s: string, c: nat)
    requires c < |s| && LinkAt(s, c)
    ensures ParseAt(s, c).Some? && ParseAt(s, c).value.start == c < ParseAt(s, c).value.end <= |s|
  {
    hide ParseAt;
  }

  // ----- One link after the other, from the last to the first -----

  /** Where the first k links end. */
  function EndOf(spans: seq<Link>, k: nat): nat
    requires k <= |spans|
  {
    if k == 0 then 0 else spans[k - 1].end
  }

  /** Links as the rewriter finds them on a line. */
  predicate OnLine(s: string, spans: seq<Link>) { Parsed(s, 0, spans) }

  lemma {:induction false} RestInOrder(s: string, spans: seq<Link>, k: nat)
    requires OnLine(s, spans) && k <= |spans|
    ensures InOrder(s, EndOf(spans, k), spans[k..])
    decreases |spans| - k
  {
    hide ParseAt;
    if k < |spans| {
      RestInOrder(s, spans, k + 1);
      assert spans[k..][1..] == spans[k + 1..];
      assert k > 0 ==> spans[k - 1].end <= spans[k].start;
      EndBehindStart(s, spans[k].start);
    }
  }

  lemma {:induction false} EndBehindStart(s: string, c: nat)
    requires c < |s|
    ensures ParseAt(s, c).Some? ==> c < ParseAt(s, c).value.end
  {
    hide ParseAt;
  }

  /** The line with the first k links as they were and the others rewritten. */
  function From(s: string, spans: seq<Link>, k: nat, env: Env): string
    requires OnLine(s, spans) && k <= |spans|
  {
    RestInOrder(s, spans, k);
    EndInside(s, spans, k);
    s[..EndOf(spans, k)] + Rebuild(s, EndOf(spans, k), spans[k..], env)
  }

  lemma {:induction false} EndInside(s: string, spans: seq<Link>, k: nat)
    requires OnLine(s, spans) && k <= |spans|
    ensures EndOf(spans, k) <= |s|
  {
    hide ParseAt;
  }

  /** What follows the kth link once the links behind it are rewritten. */
  function Tail(s: string, spans: seq<Link>, k: nat, env: Env): string
    requires OnLine(s, spans) && k < |spans|
  {
    RestInOrder(s, spans, k + 1);
    Rebuild(s, spans[k].end, spans[k + 1..], env)
  }

  /** The two neighbouring stages differ in the kth link. */
  lemma {:induction false} Stages(s: string, spans: seq<Link>, k: nat, env: Env)
    requires OnLine(s, spans) && k < |spans|
    ensures spans[k].start <= spans[k].end <= |s|
    ensures var l, tail := spans[k], Tail(s, spans, k, env);
      && From(s, spans, k + 1, env) == s[..l.start] + s[l.start..l.end] + tail
      && From(s, spans, k, env) == s[..l.start] + Shown(s, l, env) + tail
  {
    hide ParseAt, Shown, RewriteTarget;
    RestInOrder(s, spans, k);
    RestInOrder(s, spans, k + 1);
    EndInside(s, spans, k);
    var l, e, tail := spans[k], EndOf(spans, k), Tail(s, spans, k, env);
    assert spans[k..][0] == l && spans[k..][1..] == spans[k + 1..];
    assert Rebuild(s, e, spans[k..], env) == s[e..l.start] + Shown(s, l, env) + tail;
    hide Rebuild, Tail, Parsed;
    Adjacent(s, 0, e, l.start);
    Adjacent(s, 0, l.start, l.end);
    assert s[..e] == s[0..e] && s[..l.start] == s[0..l.start] && s[..l.end] == s[0..l.end];
    FourParts(s[..e], s[e..l.start], Shown(s, l, env), tail);
  }

  lemma {:induction false} FourParts(a: string, b: string, c: string, d: string)
    ensures a + (b + c + d) == a + b + c + d
  {
  }

  lemma {:induction false} LastStage(s: string, spans: seq<Link>, env: Env)
    requires OnLine(s, spans)
    ensures From(s, spans, |spans|, env) == s
  {
    EndInside(s, spans, |spans|);
    RestInOrder(s, spans, |spans|);
    assert spans[|spans|..] == [];
    hide Parsed;
    var e := EndOf(spans, |spans|);
    assert s[..e] + s[e..] == s;
  }

  lemma {:induction false} FirstStage(s: string, env: Env)
    ensures OnLine(s, RewriterSpans(s, 0)) && From(s, RewriterSpans(s, 0), 0, env) == Rewritten(s, 0, env)
  {
    SpansAreParsed(false, s, 0);
    assert Spans(false, s, 0) == RewriterSpans(s, 0);
    var spans := RewriterSpans(s, 0);
    hide Parsed, RewriterSpans;
    assert spans[0..] == spans && s[..0] == "";
    SpansInOrder(s, 0);
  }

  // ----- One link rewritten is one address exchanged -----

  lemma {:induction false} MakeSwap(u: string, h: string, a: string, v: string)
    requires u != "" && u[|u| - 1] == '(' && Plain(h) && Plain(a) && v != "" && v[0] in " )"
    ensures Swap(u + h + v, u + a + v, |u|, |u| + |h|, |u| + |a|).Fine()
  {
    var s, t := u + h + v, u + a + v;
    hide Quiet;
    assert s[..|u|] == u == t[..|u|] && s[|u| + |h|..] == v == t[|u| + |a|..];
    assert forall k :: |u| <= k < |u| + |h| ==> s[k] == h[k - |u|];
    assert forall k :: |u| <= k < |u| + |a| ==> t[k] == a[k - |u|];
  }

  function Before(head: string, l: Link): string { head + Prefix(l.image) + "[" + l.caption + "](" }

  function Behind(title: string, tail: string): string { (if title == "" then "" else " " + title) + ")" + tail }

  lemma {:induction false} PrintedAround(head: string, l: Link, address: string, title: string, tail: string)
    ensures head + Print(l.image, l.caption, Joined(address, title)) + tail ==
      Before(head, l) + address + Behind(title, tail)
  {
    var p, t := Prefix(l.image), if title == "" then "" else " " + title;
    assert head + (p + "[" + l.caption + "](" + (address + t) + ")") + tail ==
      (head + p + "[" + l.caption + "](") + address + (t + ")" + tail);
  }

  /** The exchange that takes one stage of a line to the next. */
  function StageSwap(head: string, l: Link, h: string, a: string, title: string, tail: string): Swap {
    var from := |Before(head, l)|;
    Swap(Before(head, l) + h + Behind(title, tail), Before(head, l) + a + Behind(title, tail),
         from, from + |h|, from + |a|)
  }

  lemma {:induction false} StageSwapIsFine(head: string, l: Link, h: string, a: string, title: string, tail: string)
    requires Plain(h) && Plain(a)
    ensures var w := StageSwap(head, l, h, a, title, tail);
      && w.Fine() && |head| <= w.from && w.before <= |head| + |Print(l.image, l.caption, Joined(h, title))|
      && w.s == head + Print(l.image, l.caption, Joined(h, title)) + tail
      && w.t == head + Print(l.image, l.caption, Joined(a, title)) + tail
  {
    PrintedAround(head, l, h, title, tail);
    PrintedAround(head, l, a, title, tail);
    MakeSwap(Before(head, l), h, a, Behind(title, tail));
    hide Swap.Fine, Plain;
  }

  // ----- A target stays balanced -----

  lemma {:induction false} StatePasses(h: string, rest: string, m: Inside)
    requires Quoted(m) && AllQuiet(h, 0, |h|)
    ensures TargetState(h + rest, m) == TargetState(rest, m)
  {
    if h == "" {
      assert h + rest == rest;
    } else {
      assert Quiet(h[0]);
      QuietChangesNothing(m, h[0]);
      assert (h + rest)[1..] == h[1..] + rest;
      assert AllQuiet(h[1..], 0, |h| - 1);
      StatePasses(h[1..], rest, m);
    }
  }

  lemma {:induction false} StaysBalanced(h: string, a: string, title: string)
    requires Plain(h) && Plain(a)
    ensures GoodTarget(Joined(h, title)) <==> GoodTarget(Joined(a, title))
  {
    var rest := if title == "" then "" else " " + title;
    StatePasses(h, rest, OUTERMOST);
    StatePasses(a, rest, OUTERMOST);
  }

  /** A plain address always splits off again. */
  lemma {:induction false} PlainIsSeparable(a: string, title: string)
    requires Plain(a)
    ensures Separable(a, title)
  {
    assert Quiet(a[0]) && Quiet(a[|a| - 1]);
    PlainIsOneWord(a, 0);
  }

  lemma {:induction false} PlainIsOneWord(a: string, i: nat)
    requires Plain(a) && i <= |a|
    ensures OneWord(a, i) && WordEnd(a, i) == |a|
    decreases |a| - i
  {
    if i < |a| {
      assert Quiet(a[i]);
      PlainIsOneWord(a, i + 1);
    }
  }

  // ----- From one stage to the next -----

  /** The jth link of a stage in which the first k links of n are as they were. */
  predicate AtStage(env: Env, n: nat, k: nat, j: nat, before: Link, now: Link) {
    && (j < k ==> now == before)
    && now.image == before.image && now.caption == before.caption
    && now.target == if k <= j < n then NewTarget(env, before) else before.target
  }

  predicate AllAtStage(env: Env, n: nat, k: nat, before: seq<Link>, now: seq<Link>) {
    |now| == |before| && forall j :: 0 <= j < |before| ==> AtStage(env, n, k, j, before[j], now[j])
  }

  /** A kept link makes no difference. */
  lemma {:induction false} KeptStage(env: Env, n: nat, k: nat, before: seq<Link>, now: seq<Link>)
    requires k < |before| && !Replaced(env, before[k]) && AllAtStage(env, n, k + 1, before, now)
    ensures AllAtStage(env, n, k, before, now)
  {
    hide Replaced, NewAddress, Joined, Title;
    forall j | 0 <= j < |before| ensures AtStage(env, n, k, j, before[j], now[j]) {
      assert AtStage(env, n, k + 1, j, before[j], now[j]);
    }
  }

  /** The link whose address was exchanged is parsed with its new target. */
  lemma {:induction false} ExchangedLink(head: string, l: Link, h: string, a: string, title: string, tail: string)
    requires Plain(h) && Plain(a) && GoodLabel(l.caption) && GoodTarget(Joined(h, title)) && |head| == l.start
    ensures var t := head + Print(l.image, l.caption, Joined(a, title)) + tail;
      l.start < |t| && ParseAt(t, l.start) ==
        Some(Link(l.start, l.start + |Print(l.image, l.caption, Joined(a, title))|, l.image, l.caption,
                  Joined(a, title)))
  {
    hide Plain, GoodLabel, GoodTarget, Joined, ParseAt, Print;
    StaysBalanced(h, a, title);
    PrintedIsParsed(head, l.image, l.caption, Joined(a, title), tail);
  }

  lemma {:induction false} PrintedIsParsed(head: string, image: bool, caption: string, target: string, tail: string)
    requires GoodLabel(caption) && GoodTarget(target)
    ensures var text := Print(image, caption, target);
      var t := head + text + tail;
      |head| < |t| && ParseAt(t, |head|) == Some(Link(|head|, |head| + |text|, image, caption, target))
  {
    hide GoodLabel, GoodTarget, ParseAt;
    var text := Print(image, caption, target);
    PrintParts(image, caption, target);
    hide Print;
    var t := head + text + tail;
    assert t[|head|..|head| + |text|] == text;
    PrintedParses(t, |head|, Link(|head|, |head| + |text|, image, caption, target));
  }

  /** A replaced link takes all links of a stage to the next. */
  lemma {:induction false} ExchangedStage(checker: bool, env: Env, n: nat, k: nat, before: seq<Link>, head: string,
                                          tail: string, s: string)
    requires Parsed(s, 0, before) && k < |before| && k < n && |head| == before[k].start
    requires Replaced(env, before[k]) && PlainlyReplaced(env, before[k])
    requires var l := before[k]; GoodLabel(l.caption) && GoodTarget(l.target)
    requires var l := before[k]; l.end == l.start + |Print(l.image, l.caption, l.target)|
    requires AllAtStage(env, n, k + 1, before,
                        Spans(checker, head + Print(before[k].image, before[k].caption, before[k].target) + tail, 0))
    ensures var now := Print(before[k].image, before[k].caption, NewTarget(env, before[k]));
      AllAtStage(env, n, k, before, Spans(checker, head + now + tail, 0))
  {
    var l := before[k];
    var h, a, title := OldAddress(l), NewAddress(env, l), Title(l);
    var w := StageSwap(head, l, h, a, title, tail);
    assert l.target == Joined(h, title) && NewTarget(env, l) == Joined(a, title);
    StageSwapIsFine(head, l, h, a, title, tail);
    ExchangedLink(head, l, h, a, title, tail);
    hide PlainlyReplaced, Replaced, OldAddress, NewAddress, Title, Joined, Print, StageSwap, GoodLabel, GoodTarget;
    SameSpans(checker, w, 0);
    SpansAreParsed(checker, w.s, 0);
    SpansAreParsed(checker, w.t, 0);
    var o, m := Spans(checker, w.s, 0), Spans(checker, w.t, 0);
    hide Spans;
    forall j | 0 <= j < |before| ensures AtStage(env, n, k, j, before[j], m[j]) {
      assert AtStage(env, n, k + 1, j, before[j], o[j]) && Like(w, o[j], m[j]);
      assert AtStage(env, n, k + 1, k, before[k], o[k]) && Like(w, o[k], m[k]);
      ExchangedOne(env, n, k, j, before, o, m, w, s);
    }
  }

  lemma {:induction false} ExchangedOne(env: Env, n: nat, k: nat, j: nat, before: seq<Link>, o: seq<Link>, m: seq<Link>,
                                        w: Swap, s: string)
    requires Parsed(s, 0, before) && w.Fine() && Parsed(w.s, 0, o) && Parsed(w.t, 0, m) && |m| == |o| == |before|
    requires j < |before| && k < |before| && k < n && before[k].start <= w.from && w.before <= before[k].end
    requires AtStage(env, n, k + 1, j, before[j], o[j]) && Like(w, o[j], m[j])
    requires AtStage(env, n, k + 1, k, before[k], o[k]) && Like(w, o[k], m[k])
    requires before[k].start < |w.t| && ParseAt(w.t, before[k].start).Some?
    requires var l := ParseAt(w.t, before[k].start).value;
      l.image == before[k].image && l.caption == before[k].caption && l.target == NewTarget(env, before[k])
    ensures AtStage(env, n, k, j, before[j], m[j])
  {
    hide ParseAt, NewTarget, Swap.Fine;
    assert w.from < w.before by { BehindIsOutside(w); }
    if j < k {
      assert before[j].end <= before[k].start;
    } else if j > k {
      assert o[k].end <= o[j].start;
    }
  }

  // ----- A whole line -----

  predicate PlainLine(env: Env, s: string) { forall l :: l in RewriterSpans(s, 0) ==> PlainlyReplaced(env, l) }

  lemma {:induction false} StartOfSpans(checker: bool, s: string)
    ensures RewriterSpans(s, 0) <= Spans(checker, s, 0)
    ensures OnLine(s, RewriterSpans(s, 0)) && OnLine(s, Spans(checker, s, 0))
  {
    SpansAreParsed(checker, s, 0);
    SpansAreParsed(false, s, 0);
    assert Spans(false, s, 0) == RewriterSpans(s, 0);
    RewriterIsPrefix(s);
    hide Parsed, RewriterSpans, CheckerSpans;
  }

  lemma {:induction false} LinkText(s: string, c: nat, l: Link)
    requires c < |s| && ParseAt(s, c) == Some(l)
    ensures c == l.start <= l.end <= |s| && s[l.start..l.end] == Print(l.image, l.caption, l.target)
    ensures GoodLabel(l.caption) && GoodTarget(l.target) && l.end == l.start + |Print(l.image, l.caption, l.target)|
  {
    ParsedPrints(s, c, l);
    hide ParseAt, Print, GoodLabel, GoodTarget;
  }

  lemma {:induction false} StageTexts(s: string, k: nat, env: Env)
    requires k < |RewriterSpans(s, 0)| && OnLine(s, RewriterSpans(s, 0))
    ensures var spans := RewriterSpans(s, 0);
      var l, tail := spans[k], Tail(s, spans, k, env);
      && l.start < |s| && ParseAt(s, l.start) == Some(l)
      && From(s, spans, k + 1, env) == s[..l.start] + Print(l.image, l.caption, l.target) + tail
      && From(s, spans, k, env) == s[..l.start] + Print(l.image, l.caption, NewTarget(env, l)) + tail
  {
    var spans := RewriterSpans(s, 0);
    Stages(s, spans, k, env);
    var l := spans[k];
    assert ParseAt(s, l.start) == Some(l);
    LinkText(s, l.start, l);
    if Replaced(env, l) {
      ReplacementIsPrinted(env, l);
    }
    hide RewriterSpans, Parsed, From, Tail, Print, ParseAt, RewriteTarget, NewAddress, Joined, Title;
  }

  /** The links of stage k, as one of the scanners reads it. */
  predicate StageReads(checker: bool, s: string, env: Env, k: nat)
    requires OnLine(s, RewriterSpans(s, 0)) && k <= |RewriterSpans(s, 0)|
  {
    AllAtStage(env, |RewriterSpans(s, 0)|, k, Spans(checker, s, 0),
               Spans(checker, From(s, RewriterSpans(s, 0), k, env), 0))
  }

  lemma {:induction false} PlainHere(env: Env, s: string, k: nat)
    requires PlainLine(env, s) && k < |RewriterSpans(s, 0)|
    ensures PlainlyReplaced(env, RewriterSpans(s, 0)[k])
  {
    hide RewriterSpans, PlainlyReplaced;
    assert RewriterSpans(s, 0)[k] in RewriterSpans(s, 0);
  }

  lemma {:induction false} StageStep(checker: bool, s: string, env: Env, k: nat)
    requires PlainLine(env, s) && OnLine(s, RewriterSpans(s, 0)) && k < |RewriterSpans(s, 0)|
    requires StageReads(checker, s, env, k + 1)
    ensures StageReads(checker, s, env, k)
  {
    hide OnLine, From, RewriterSpans, Spans, PlainlyReplaced, PlainLine, Tail, AllAtStage, Print, NewTarget, Replaced,
      ParseAt, GoodLabel, GoodTarget;
    var spans, before := RewriterSpans(s, 0), Spans(checker, s, 0);
    StartOfSpans(checker, s);
    StageTexts(s, k, env);
    PlainHere(env, s, k);
    var l := spans[k];
    assert before[k] == l;
    LinkText(s, l.start, l);
    if Replaced(env, l) {
      HeadLength(s, l.start);
      LineIsParsed(s, before);
      ExchangedStage(checker, env, |spans|, k, before, s[..l.start], Tail(s, spans, k, env), s);
    } else {
      StaysAsItIs(env, l);
      KeptStage(env, |spans|, k, before, Spans(checker, From(s, spans, k + 1, env), 0));
    }
  }

  lemma {:induction false} LineIsParsed(s: string, spans: seq<Link>)
    requires OnLine(s, spans)
    ensures Parsed(s, 0, spans)
  {
  }

  lemma {:induction false} Staged(checker: bool, s: string, env: Env, k: nat)
    requires PlainLine(env, s) && OnLine(s, RewriterSpans(s, 0)) && k <= |RewriterSpans(s, 0)|
    ensures StageReads(checker, s, env, k)
    decreases |RewriterSpans(s, 0)| - k
  {
    hide OnLine, From, RewriterSpans, Spans, PlainLine, AllAtStage;
    if k == |RewriterSpans(s, 0)| {
      LastStage(s, RewriterSpans(s, 0), env);
      FirstOfStages(env, k, Spans(checker, s, 0));
    } else {
      hide StageReads;
      Staged(checker, s, env, k + 1);
      StageStep(checker, s, env, k);
    }
  }

  lemma {:induction false} HeadLength(s: string, n: nat)
    requires n <= |s|
    ensures |s[..n]| == n
  {
  }

  lemma {:induction false} FirstOfStages(env: Env, n: nat, before: seq<Link>)
    ensures AllAtStage(env, n, n, before, before)
  {
    hide NewTarget;
  }

  /** On a line whose replaced links have plain addresses, old and new, both scanners read the rewritten line as the
      same links, at the new addresses. */
  lemma {:induction false} LineReadsBack(env: Env, s: string)
    requires PlainLine(env, s)
    ensures var n, t := |RewriterSpans(s, 0)|, Rewritten(s, 0, env);
      && Renewed(env, n, RewriterSpans(s, 0), RewriterSpans(t, 0))
      && Renewed(env, n, CheckerSpans(s, 0), CheckerSpans(t, 0))
  {
    FirstStage(s, env);
    hide PlainLine, From, RewriterSpans, CheckerSpans, Rewritten, OnLine;
    Staged(false, s, env, 0);
    Staged(true, s, env, 0);
    hide NewTarget, PlainLine;
  }

  // ----- Rewriting twice -----

  /** No new address leads back into the repository. */
  predicate LeadsAway(env: Env, l: Link) {
    Replaced(env, l) ==>
      var path := Resolve(env, NewAddress(env, l)); path.None? || path.value == ""
  }

  lemma {:induction false} NoPathNoRewriting(env: Env, m: Link, href: string, title: string)
    requires SplitTarget(m.target) == (href, title)
    requires Resolve(env, href).None? || Resolve(env, href).value == ""
    ensures !Replaced(env, m)
  {
    hide SplitTarget, Resolve, Address, Print, Find;
  }

  lemma {:induction false} SplitsAgain(env: Env, l: Link)
    requires Replaced(env, l) && Plain(NewAddress(env, l))
    ensures SplitTarget(NewTarget(env, l)) == (NewAddress(env, l), Title(l))
  {
    hide Replaced, Plain, Separable, NewAddress, Title, Joined, SplitTarget, Bare;
    TitleIsBare(l);
    PlainIsSeparable(NewAddress(env, l), Title(l));
    PlainIsSome(NewAddress(env, l));
    SplitsExactly(NewAddress(env, l), Title(l));
  }

  lemma {:induction false} PlainIsSome(a: string)
    requires Plain(a)
    ensures a != ""
  {
  }

  lemma {:induction false} AwayIsKept(env: Env, l: Link, m: Link)
    requires Replaced(env, l) && Plain(NewAddress(env, l)) && LeadsAway(env, l)
    requires m.target == NewTarget(env, l)
    ensures !Replaced(env, m)
  {
    hide Replaced, Plain, NewAddress, NewTarget, Title, SplitTarget, Resolve;
    SplitsAgain(env, l);
    NoPathNoRewriting(env, m, NewAddress(env, l), Title(l));
  }

  lemma {:induction false} KeptIsKept(env: Env, l: Link, m: Link)
    requires !Replaced(env, l) && m.target == l.target && m.image == l.image
    ensures !Replaced(env, m)
  {
    hide SplitTarget, Resolve, Print, Find;
  }

  /** Then the rewriter finds nothing more to do on such a line. */
  lemma {:induction false} LineIsDone(env: Env, s: string)
    requires PlainLine(env, s) && forall l :: l in RewriterSpans(s, 0) ==> LeadsAway(env, l)
    ensures forall m :: m in RewriterSpans(Rewritten(s, 0, env), 0) ==> !Replaced(env, m)
    ensures Rewritten(Rewritten(s, 0, env), 0, env) == Rewritten(s, 0, env)
  {
    LineReadsBack(env, s);
    var t := Rewritten(s, 0, env);
    var before, after := RewriterSpans(s, 0), RewriterSpans(t, 0);
    SpansInOrder(t, 0);
    assert Rewritten(t, 0, env) == Rebuild(t, 0, after, env);
    hide RewriterSpans, CheckerSpans, Rewritten, Replaced, NewTarget, LeadsAway, Rebuild, Plain;
    forall m | m in after ensures !Replaced(env, m) {
      var j :| 0 <= j < |after| && after[j] == m;
      var l := before[j];
      assert l in before;
      if Replaced(env, l) {
        AwayIsKept(env, l, m);
      } else {
        StaysAsItIs(env, l);
        KeptIsKept(env, l, m);
      }
    }
    NoneReplaced(env, t, after);
  }

  lemma {:induction false} StaysAsItIs(env: Env, l: Link)
    requires !Replaced(env, l)
    ensures NewTarget(env, l) == l.target
  {
  }

  lemma {:induction false} NoneReplaced(env: Env, t: string, spans: seq<Link>)
    requires InOrder(t, 0, spans) && forall m :: m in spans ==> !Replaced(env, m)
    ensures Rebuild(t, 0, spans, env) == t
  {
    RebuildVerbatim(t, 0, spans, env);
    assert t[0..] == t;
  }

  // ----- Where a rewritten link leads -----

  lemma {:induction false} PathAndAnchor(path: string, anchor: string)
    requires path != "" && (anchor == "" || anchor[0] == '#') && forall i :: 0 <= i < |path| ==> path[i] != '#'
    ensures Find(path + anchor, '#') == |path|
    ensures (path + anchor)[..|path|] == path && (path + anchor)[|path|..] == anchor
  {
    var href := path + anchor;
    assert forall i :: 0 <= i < |path| ==> href[i] == path[i];
    FindIs(href, '#', |path|);
  }

  /** A plainly written link to a file of the repository leads to the file's published address; to the web view of the
      file if it is not published, or to the raw file for an image; and is kept if there is no base for that. The anchor
      stays. */
  lemma {:induction false} LeadsToPublished(env: Env, l: Link, path: string, anchor: string, file: string)
    requires l.target == path + anchor && Plain(path + anchor) && path != "" && (anchor == "" || anchor[0] == '#')
    requires (forall i :: 0 <= i < |path| ==> path[i] != '#') && env.resolve(path) == Some(file) && file != ""
    ensures var published := if file in env.urls then env.urls[file] else "";
      && (Replaced(env, l) <==> published != "" || env.webBase != "")
      && (published != "" ==> NewAddress(env, l) == published + anchor)
      && (published == "" && env.webBase != "" ==>
            NewAddress(env, l) == (if l.image then env.rawBase else env.webBase) + "/" + file + anchor)
  {
    PlainIsSeparable(l.target, "");
    SplitsExactly(l.target, "");
    assert Joined(l.target, "") == l.target + "" == l.target;
    PathAndAnchor(path, anchor);
    hide SplitTarget, Separable, Find, Plain, Print, Joined;
    assert Resolve(env, l.target) == Some(file);
    hide Resolve;
  }
}
