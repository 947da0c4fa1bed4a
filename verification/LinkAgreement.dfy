/** Every link the rewriter touches is one the checker has looked at. */
module LinkAgreement {
  import opened Options
  import opened MarkdownLinks
  import opened LinkScanners
  import opened LinkDocuments

  // ----- A line with and without its terminator -----

  lemma {:induction false} SpacesAreInert(c: char)
    requires IsSpace(c)
    ensures c != '`' && c != '[' && c != '!' && c != ')' && c != '\\' && c != '~'
  {
  }

  /** t holds none of the characters the scanners react to. */
  predicate Inert(t: string) {
    forall i :: 0 <= i < |t| ==> t[i] !in "`[!)\\~"
  }

  lemma {:induction false} BlankIsInert(t: string)
    requires Blank(t)
    ensures Inert(t)
  {
    hide IsSpace;
    forall i | 0 <= i < |t| ensures t[i] !in "`[!)\\~" {
      SpacesAreInert(t[i]);
    }
  }

  lemma {:induction false} SameBackslashes(s: string, t: string, c: nat)
    requires c <= |s|
    ensures Backslashes(s + t, c) == Backslashes(s, c)
  {
    if c > 0 && s[c - 1] == '\\' {
      SameBackslashes(s, t, c - 1);
    }
  }

  lemma {:induction false} SameParse(s: string, t: string, c: nat)
    requires c < |s| && Inert(t)
    ensures ParseAt(s + t, c) == ParseAt(s, c)
  {
    hide ParseAt, GoodLabel, GoodTarget;
    if ParseAt(s + t, c).Some? {
      var l := ParseAt(s + t, c).value;
      ParseExactly(s + t, c, l);
      PrintStaysInside(s, t, c, l);
      ParseExactly(s, c, l);
    }
    if ParseAt(s, c).Some? {
      var l := ParseAt(s, c).value;
      ParseExactly(s, c, l);
      Extends(s, t, c, Print(l.image, l.caption, l.target));
      ParseExactly(s + t, c, l);
    }
  }

  lemma {:induction false} Extends(s: string, t: string, c: nat, w: string)
    requires HasAt(s, c, w)
    ensures HasAt(s + t, c, w)
  {
    assert (s + t)[c..c + |w|] == s[c..c + |w|];
  }

  lemma {:induction false} PrintStaysInside(s: string, t: string, c: nat, l: Link)
    requires c < |s| && Inert(t) && HasAt(s + t, c, Print(l.image, l.caption, l.target))
    ensures HasAt(s, c, Print(l.image, l.caption, l.target))
  {
    var w := Print(l.image, l.caption, l.target);
    PrintParts(l.image, l.caption, l.target);
    assert w[|w| - 1] == ')';
    hide Print;
    WordAt(s + t, c, w, 0, |w|);
    var last := c + |w| - 1;
    assert last < |s|;
    assert (s + t)[c..c + |w|] == s[c..c + |w|];
  }

  lemma {:induction false} SameSpecial(s: string, t: string, i: nat)
    requires i < |s + t| && Inert(t)
    ensures Special(s + t, i) <==> i < |s| && Special(s, i)
    ensures i < |s| ==> (ImageAt(s + t, i) <==> ImageAt(s, i))
  {
    var u := s + t;
    if i >= |s| {
      assert u[i] == t[i - |s|];
    } else if i + 1 == |s| && t != "" {
      assert u[i + 1] == t[0];
    }
  }

  lemma {:induction false} SameNext(s: string, t: string, c: nat)
    requires c <= |s| && Inert(t)
    ensures NextSpecial(s + t, c) == if NextSpecial(s, c) < |s| then NextSpecial(s, c) else |s + t|
  {
    hide Special;
    var n := NextSpecial(s, c);
    forall i | c <= i < |s + t| ensures Special(s + t, i) <==> i < |s| && Special(s, i) {
      SameSpecial(s, t, i);
    }
    var m := NextSpecial(s + t, c);
    if m < |s + t| {
      assert Special(s, m);
    }
  }

  lemma {:induction false} SameRun(s: string, t: string, c: nat)
    requires c <= |s| && Inert(t)
    ensures RunEnd(s + t, c) == RunEnd(s, c)
    decreases |s| - c
  {
    if c < |s| {
      if s[c] == '`' {
        SameRun(s, t, c + 1);
      }
    } else if t != "" {
      assert (s + t)[c] == t[0];
    }
  }

  lemma {:induction false} NoCloserIn(s: string, t: string, c: nat, n: nat)
    requires |s| <= c <= |s + t| && Inert(t)
    ensures CloserEnd(s + t, c, n) == None
    decreases |s + t| - c
  {
    if c < |s + t| {
      assert (s + t)[c] == t[c - |s|];
      NoCloserIn(s, t, c + 1, n);
    }
  }

  lemma {:induction false} SameCloser(s: string, t: string, c: nat, n: nat)
    requires c <= |s| && Inert(t)
    ensures CloserEnd(s + t, c, n) == CloserEnd(s, c, n)
    decreases |s| - c
  {
    hide Inert;
    if c == |s| {
      NoCloserIn(s, t, c, n);
    } else {
      assert (s + t)[c] == s[c];
      SameRun(s, t, c);
      if s[c] != '`' {
        SameCloser(s, t, c + 1, n);
      } else {
        SameCloser(s, t, RunEnd(s, c), n);
      }
    }
  }

  lemma {:induction false} NothingInTerminator(s: string, t: string)
    requires Inert(t)
    ensures CheckerSpans(s + t, |s|) == []
  {
    SkipPlain(s + t, |s|);
    SameNext(s, t, |s|);
  }

  /** Where the checker goes from c, and the link it takes there, if any. */
  function CheckerStep(s: string, c: nat): (r: (Option<Link>, nat))
    requires c < |s|
    ensures c < r.1 <= |s|
  {
    if Escaped(s, c) && ImageAt(s, c) then (None, c + 2)
    else if Escaped(s, c) && s[c] == '[' then (None, c + 1)
    else match ParseAt(s, c)
      case Some(l) => (Some(l), l.end)
      case None =>
        if s[c] == '`' then (None, if SpanEnd(s, c).Some? then SpanEnd(s, c).value else RunEnd(s, c))
        else (None, NextSpecial(s, c + 1))
  }

  lemma {:induction false} SpansByStep(s: string, c: nat)
    requires c < |s|
    ensures CheckerSpans(s, c) ==
      (if CheckerStep(s, c).0.Some? then [CheckerStep(s, c).0.value] else []) + CheckerSpans(s, CheckerStep(s, c).1)
  {
    hide ParseAt, Escaped, NextSpecial, SpanEnd;
  }

  lemma {:induction false} SameStep(s: string, t: string, c: nat)
    requires c < |s| && Inert(t)
    ensures CheckerStep(s + t, c).0 == CheckerStep(s, c).0
    ensures CheckerStep(s + t, c).1 ==
      if CheckerStep(s, c).1 < |s| then CheckerStep(s, c).1 else CheckerStep(s + t, c).1
    ensures CheckerStep(s, c).1 == |s| ==> CheckerStep(s + t, c).1 in [|s|, |s + t|]
  {
    assert (s + t)[c] == s[c];
    SameBackslashes(s, t, c);
    SameSpecial(s, t, c);
    SameParse(s, t, c);
    SameNext(s, t, c + 1);
    SameRun(s, t, c);
    SameCloser(s, t, RunEnd(s, c), RunEnd(s, c) - c);
    hide Backslashes, ParseAt, NextSpecial, RunEnd, CloserEnd, Inert, ImageAt;
  }

  /** The checker, which sees lines without terminators, recognises what it would recognise with them. */
  lemma {:induction false} TerminatorAddsNothing(s: string, t: string, c: nat)
    requires c <= |s| && Inert(t)
    ensures CheckerSpans(s + t, c) == CheckerSpans(s, c)
    decreases |s| - c
  {
    hide CheckerSpans, CheckerStep, Inert;
    NothingInTerminator(s, t);
    assert CheckerSpans(s, |s|) == [] == CheckerSpans(s + t, |s + t|) by { NoSpansAtEnd(s); NoSpansAtEnd(s + t); }
    if c < |s| {
      SpansByStep(s, c);
      SpansByStep(s + t, c);
      SameStep(s, t, c);
      TerminatorAddsNothing(s, t, CheckerStep(s, c).1);
    }
  }

  lemma {:induction false} NoSpansAtEnd(s: string)
    ensures CheckerSpans(s, |s|) == []
  {
  }

  // ----- Fences are seen alike -----

  lemma {:induction false} SameFenceRun(s: string, t: string)
    requires Inert(t)
    ensures FenceRun(s + t) == FenceRun(s)
    ensures FenceRun(s) > 0 ==> (s + t)[0] == s[0]
  {
    if s == "" {
      assert s + t == t;
    } else {
      assert (s + t)[1..] == s[1..] + t;
      if IsFenceChar(s[0]) {
        SameFenceRun(s[1..], t);
      }
    }
  }

  lemma {:induction false} LStripBlank(t: string)
    requires Blank(t)
    ensures LStrip(t) == ""
  {
    if t != "" {
      LStripBlank(t[1..]);
    }
  }

  lemma {:induction false} LStripAppend(s: string, t: string)
    requires Blank(t)
    ensures LStrip(s + t) == if LStrip(s) == "" then "" else LStrip(s) + t
  {
    hide IsSpace;
    if s == "" {
      assert s + t == t;
      LStripBlank(t);
    } else if IsSpace(s[0]) {
      assert (s + t)[1..] == s[1..] + t;
      LStripAppend(s[1..], t);
    }
  }

  lemma {:induction false} SameFence(f: Fence, l: Line)
    requires Blank(l.terminator)
    ensures StepFence(f, Full(l)) == StepFence(f, l.content)
    ensures Skipped(f, Full(l)) == Skipped(f, l.content)
  {
    LStripAppend(l.content, l.terminator);
    BlankIsInert(l.terminator);
    SameFenceRun(LStrip(l.content), l.terminator);
    hide LStrip, IsSpace, Inert, Blank;
  }

  // ----- Whole documents -----

  /** The fence state in front of line n, when it is f in front of the first. */
  function FenceFrom(f: Fence, lines: seq<Line>, n: nat): Fence
    requires n <= |lines|
  {
    if n == 0 then f else StepFence(FenceFrom(f, lines, n - 1), Full(lines[n - 1]))
  }

  /** Line i is outside every fence. */
  predicate Visible(text: string, i: nat)
    requires i < |SplitLines(text)|
  {
    !Skipped(FenceFrom(OUTSIDE, SplitLines(text), i), Full(SplitLines(text)[i]))
  }

  /** On every line of every text, what the rewriter recognises is a prefix of what the checker recognises. */
  lemma {:induction false} RewriterSeesNoMore(text: string, i: nat)
    requires i < |SplitLines(text)|
    ensures var l := SplitLines(text)[i];
      RewriterSpans(Full(l), 0) <= CheckerSpans(l.content, 0)
  {
    hide SplitLines, RewriterSpans, CheckerSpans;
    TerminatorsAreBlank(text);
    var l := SplitLines(text)[i];
    BlankIsInert(l.terminator);
    RewriterIsPrefix(Full(l));
    TerminatorAddsNothing(l.content, l.terminator, 0);
  }

  lemma {:induction false} CollectedAt(lines: seq<Line>, f: Fence, number: nat, i: nat, o: Occurrence)
    requires i < |lines| && forall l :: l in lines ==> Blank(l.terminator)
    requires !Skipped(FenceFrom(f, lines, i), Full(lines[i]))
    requires o in Hrefs(CheckerSpans(lines[i].content, 0), number + i)
    ensures o in CollectLines(lines, f, number)
    decreases i
  {
    hide Hrefs, CheckerSpans, Skipped, StepFence, Blank;
    SameFence(f, lines[0]);
    if i > 0 {
      FenceFromTail(f, lines, i);
      CollectedAt(lines[1..], StepFence(f, Full(lines[0])), number + 1, i - 1, o);
    }
  }

  lemma {:induction false} FenceFromTail(f: Fence, lines: seq<Line>, n: nat)
    requires 0 < n <= |lines|
    ensures FenceFrom(f, lines, n) == FenceFrom(StepFence(f, Full(lines[0])), lines[1..], n - 1)
  {
    hide StepFence;
    if n > 1 {
      FenceFromTail(f, lines, n - 1);
    }
  }

  lemma {:induction false} HrefIsListed(spans: seq<Link>, l: Link, line: nat)
    requires l in spans && Collectable(SplitTarget(l.target).0)
    ensures Occurrence(SplitTarget(l.target).0, line) in Hrefs(spans, line)
  {
    hide SplitTarget;
    if l != spans[0] {
      assert l in spans[1..];
      HrefIsListed(spans[1..], l, line);
    }
  }

  lemma {:induction false} RewrittenIsCollectable(env: Env, l: Link)
    requires RewriteTarget(env, l).Some?
    ensures Collectable(SplitTarget(l.target).0)
  {
    hide SplitTarget;
  }

  /** Every link that is rewritten anywhere in a text is among the links the checker collects for that very line. */
  lemma {:induction false} RewrittenLinksWereChecked(text: string, env: Env, i: nat, l: Link)
    requires i < |SplitLines(text)| && Visible(text, i)
    requires l in RewriterSpans(Full(SplitLines(text)[i]), 0) && RewriteTarget(env, l).Some?
    ensures Occurrence(SplitTarget(l.target).0, i + 1) in CollectText(text)
  {
    RewriterSeesNoMore(text, i);
    RewrittenIsCollectable(env, l);
    TerminatorsAreBlank(text);
    hide SplitLines, RewriterSpans, CheckerSpans, SplitTarget, RewriteTarget, Skipped, Hrefs, CollectLines, Blank;
    var lines := SplitLines(text);
    HrefIsListed(CheckerSpans(lines[i].content, 0), l, i + 1);
    CollectedAt(lines, OUTSIDE, 1, i, Occurrence(SplitTarget(l.target).0, i + 1));
  }

  // ----- Where fences begin and end -----

  /** A line that begins, after white space, with three or more of the marks. */
  predicate FenceMark(line: string) {
    var s := LStrip(line);
    |s| >= 3 && forall i :: 0 <= i < 3 ==> s[i] == '`' || s[i] == '~'
  }

  /** A fence line closes a fence whose opening line begins with the same mark and has no more of them. */
  predicate Closes(opener: string, line: string) {
    var o, s := LStrip(opener), LStrip(line);
    FenceMark(opener) && FenceMark(line) && s[0] == o[0] && FenceRun(s) >= FenceRun(o)
  }

  predicate Inside(lines: seq<Line>, k: nat)
    requires k <= |lines|
  {
    FenceFrom(OUTSIDE, lines, k).inside
  }

  lemma {:induction false} RunOfThree(s: string)
    ensures FenceRun(s) >= 3 <==> |s| >= 3 && forall i :: 0 <= i < 3 ==> IsFenceChar(s[i])
  {
    if s != "" && IsFenceChar(s[0]) {
      var t := s[1..];
      if t != "" && IsFenceChar(t[0]) {
        var u := t[1..];
        assert t[0] == s[1] && FenceRun(s) == 2 + FenceRun(u);
        assert u != "" ==> u[0] == s[2];
        assert FenceRun(u) >= 1 <==> u != "" && IsFenceChar(u[0]);
      } else {
        assert FenceRun(s) == 1;
        assert |s| >= 3 ==> !IsFenceChar(s[1]);
      }
    }
  }

  lemma {:induction false} FenceMarksAreLines(line: string)
    ensures FenceMark(line) <==> IsFenceLine(line)
  {
    RunOfThree(LStrip(line));
    hide LStrip, FenceRun;
  }

  lemma {:induction false} FenceStays(lines: seq<Line>, i: nat, k: nat)
    requires i < k <= |lines| && !Inside(lines, i) && FenceMark(Full(lines[i]))
    requires forall m :: i < m < k ==> !Closes(Full(lines[i]), Full(lines[m]))
    ensures var opener := LStrip(Full(lines[i]));
      FenceFrom(OUTSIDE, lines, k) == Fence(true, opener[0], FenceRun(opener))
    decreases k
  {
    hide LStrip, FenceRun, Full, StepFence, FenceMark, Closes;
    if k > i + 1 {
      FenceStays(lines, i, k - 1);
      StepStays(Full(lines[i]), Full(lines[k - 1]));
    } else {
      StepOpens(FenceFrom(OUTSIDE, lines, i), Full(lines[i]));
    }
  }

  lemma {:induction false} StepOpens(f: Fence, line: string)
    requires !f.inside
    ensures FenceMark(line) ==> StepFence(f, line) == Fence(true, LStrip(line)[0], FenceRun(LStrip(line)))
    ensures !FenceMark(line) ==> StepFence(f, line) == f
  {
    FenceMarksAreLines(line);
    FenceByCases(f, line);
    hide LStrip, FenceRun, StepFence, FenceMark;
  }

  lemma {:induction false} StepStays(opener: string, line: string)
    requires FenceMark(opener)
    ensures var f := Fence(true, LStrip(opener)[0], FenceRun(LStrip(opener)));
      StepFence(f, line) == if Closes(opener, line) then OUTSIDE else f
  {
    FenceMarksAreLines(line);
    FenceByCases(Fence(true, LStrip(opener)[0], FenceRun(LStrip(opener))), line);
    hide LStrip, FenceRun, StepFence, FenceMark;
  }

  /** Outside a fence only a line of marks leads into one, and then everything up to the first line that closes it is
      inside, and what follows that line is outside again. */
  lemma {:induction false} FencesOpenAndClose(lines: seq<Line>, i: nat, k: nat)
    requires i < k <= |lines| && !Inside(lines, i)
    ensures !FenceMark(Full(lines[i])) ==> !Inside(lines, i + 1)
    ensures FenceMark(Full(lines[i])) && (forall m :: i < m < k ==> !Closes(Full(lines[i]), Full(lines[m]))) ==>
      Inside(lines, k) && (k < |lines| && Closes(Full(lines[i]), Full(lines[k])) ==> !Inside(lines, k + 1))
  {
    hide LStrip, FenceRun, Full, StepFence, FenceMark, Closes;
    StepOpens(FenceFrom(OUTSIDE, lines, i), Full(lines[i]));
    if FenceMark(Full(lines[i])) && forall m :: i < m < k ==> !Closes(Full(lines[i]), Full(lines[m])) {
      FenceStays(lines, i, k);
      if k < |lines| {
        StepStays(Full(lines[i]), Full(lines[k]));
      }
    }
  }

  /** What becomes of line k: inside a fence, and on its first and last line, it stays; elsewhere its links are shown at
      their new addresses. */
  function Outcome(lines: seq<Line>, k: nat, env: Env): string
    requires k < |lines|
  {
    if Inside(lines, k) || FenceMark(Full(lines[k])) then Full(lines[k]) else Rewritten(Full(lines[k]), 0, env)
  }

  function Outcomes(lines: seq<Line>, k: nat, env: Env): string
    requires k <= |lines|
    decreases |lines| - k
  {
    if k == |lines| then "" else Outcome(lines, k, env) + Outcomes(lines, k + 1, env)
  }

  /** The rewritten text is its lines' outcomes, one after the other. */
  lemma {:induction false} RewrittenLineByLine(text: string, env: Env)
    ensures RewriteText(text, env) == Outcomes(SplitLines(text), 0, env)
  {
    hide SplitLines, Outcomes, RewriteLines;
    var lines := SplitLines(text);
    assert lines[0..] == lines;
    TextIsOutcomes(lines, 0, env);
  }

  lemma {:induction false} TextIsOutcomes(lines: seq<Line>, k: nat, env: Env)
    requires k <= |lines|
    ensures RewriteLines(lines[k..], FenceFrom(OUTSIDE, lines, k), env) == Outcomes(lines, k, env)
    decreases |lines| - k
  {
    hide RewriteLines, Full, Rewritten, StepFence, Outcome, Inside, Skipped, FenceMark, FenceFrom, Outcomes;
    OutcomesByCases(lines, k, env);
    if k < |lines| {
      RewriteStep(lines, k, FenceFrom(OUTSIDE, lines, k), env);
      FenceAfterLine(lines, k);
      OutcomeBySkip(lines, k, env);
      TextIsOutcomes(lines, k + 1, env);
    } else {
      assert lines[k..] == [];
      NoLines(FenceFrom(OUTSIDE, lines, k), env);
    }
  }

  lemma {:induction false} NoLines(f: Fence, env: Env)
    ensures RewriteLines([], f, env) == ""
  {
  }

  lemma {:induction false} FenceAfterLine(lines: seq<Line>, k: nat)
    requires k < |lines|
    ensures FenceFrom(OUTSIDE, lines, k + 1) == StepFence(FenceFrom(OUTSIDE, lines, k), Full(lines[k]))
  {
    hide StepFence, Full;
  }

  lemma {:induction false} OutcomesByCases(lines: seq<Line>, k: nat, env: Env)
    requires k <= |lines|
    ensures Outcomes(lines, k, env) ==
      if k == |lines| then "" else Outcome(lines, k, env) + Outcomes(lines, k + 1, env)
  {
    hide Outcome;
  }

  lemma {:induction false} OutcomeBySkip(lines: seq<Line>, k: nat, env: Env)
    requires k < |lines|
    ensures Outcome(lines, k, env) ==
      if Skipped(FenceFrom(OUTSIDE, lines, k), Full(lines[k])) then Full(lines[k])
      else Rewritten(Full(lines[k]), 0, env)
  {
    FenceMarksAreLines(Full(lines[k]));
    hide FenceMark, IsFenceLine, Full, Rewritten, FenceFrom;
  }
}
