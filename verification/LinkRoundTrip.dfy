/** Whole documents, rewritten and read again. */
module LinkRoundTrip {
  import opened Options
  import opened MarkdownLinks
  import opened LinkScanners
  import opened LinkDocuments
  import opened LinkAgreement
  import opened LinkReplacement
  import opened LinkSwaps
  import opened LinkRereading

  // ----- The frame of a line: how it begins and how it ends -----

  /** Both lines begin with the same character, have the same fence mark, if any, and the same terminator. */
  predicate SameFrame(x: string, y: string) {
    && x != "" && y != "" && x[0] == y[0] && x[BreakAt(x)..] == y[BreakAt(y)..]
    && FenceRun(LStrip(x)) == FenceRun(LStrip(y))
    && (FenceRun(LStrip(x)) > 0 ==> LStrip(x)[0] == LStrip(y)[0])
  }

  lemma {:induction false} FrameDecides(x: string, y: string, f: Fence)
    requires SameFrame(x, y)
    ensures Skipped(f, x) == Skipped(f, y) && StepFence(f, x) == StepFence(f, y)
  {
    hide LStrip, BreakAt;
  }

  lemma {:induction false} FrameTransitive(x: string, y: string, z: string)
    requires SameFrame(x, y) && SameFrame(y, z)
    ensures SameFrame(x, z)
  {
    hide LStrip, BreakAt, FenceRun;
  }

  lemma {:induction false} FrameReflexive(x: string)
    requires x != ""
    ensures SameFrame(x, x)
  {
    hide LStrip, BreakAt, FenceRun;
  }

  lemma {:induction false} SameRunOfMarks(x: string, y: string, n: nat)
    requires 0 < n <= |x| && n <= |y| && x[..n] == y[..n] && !IsFenceChar(x[n - 1])
    ensures FenceRun(x) == FenceRun(y)
  {
    assert x[0] == x[..n][0] == y[0];
    if n > 1 {
      assert x[1..][..n - 1] == x[..n][1..] && y[1..][..n - 1] == y[..n][1..];
      SameRunOfMarks(x[1..], y[1..], n - 1);
    }
  }

  lemma {:induction false} SameLead(x: string, y: string, n: nat)
    requires 0 < n <= |x| && n <= |y| && x[..n] == y[..n] && !IsFenceChar(x[n - 1]) && !IsSpace(x[n - 1])
    ensures FenceRun(LStrip(x)) == FenceRun(LStrip(y))
    ensures FenceRun(LStrip(x)) > 0 ==> LStrip(x)[0] == LStrip(y)[0]
  {
    hide IsSpace, FenceRun;
    assert x[0] == x[..n][0] == y[0];
    if IsSpace(x[0]) {
      assert x[1..][..n - 1] == x[..n][1..] && y[1..][..n - 1] == y[..n][1..];
      SameLead(x[1..], y[1..], n - 1);
    } else {
      SameRunOfMarks(x, y, n);
    }
  }

  // ----- Line breaks -----

  lemma {:induction false} NoBreakBefore(x: string)
    ensures forall i :: 0 <= i < BreakAt(x) ==> !IsBreak(x[i])
  {
    hide IsBreak;
    if x != "" && !IsBreak(x[0]) {
      NoBreakBefore(x[1..]);
      forall i | 0 <= i < BreakAt(x) ensures !IsBreak(x[i]) {
        if i > 0 {
          assert x[i] == x[1..][i - 1];
        }
      }
    }
  }

  lemma {:induction false} BreakIs(x: string, k: nat)
    requires k <= |x| && (k < |x| ==> IsBreak(x[k])) && forall i :: 0 <= i < k ==> !IsBreak(x[i])
    ensures BreakAt(x) == k
  {
    hide IsBreak;
    if k > 0 {
      BreakIs(x[1..], k - 1);
    }
  }

  lemma {:induction false} QuietIsNoBreak(c: char)
    requires Quiet(c)
    ensures !IsBreak(c)
  {
    hide IsSpace, IsBreak;
    if IsBreak(c) {
      BreaksAreSpace(c);
    }
  }

  /** Exchanging an address keeps the frame of the line. */
  lemma {:induction false} SwapKeepsFrame(w: Swap)
    requires w.Fine() && w.before <= BreakAt(w.s)
    ensures SameFrame(w.s, w.t)
  {
    hide IsBreak, Quiet;
    SameLength(w);
    CharAt(w, 0);
    CharAt(w, w.from - 1);
    ParenthesisIsPlain();
    SameLead(w.s, w.t, w.from);
    NoBreakBefore(w.s);
    var k := BreakAt(w.s);
    forall i | 0 <= i < w.At(k) ensures !IsBreak(w.t[i]) {
      if i < w.from {
        CharAt(w, i);
      } else if i < w.after {
        QuietIsNoBreak(w.t[i]);
      } else {
        CharAt(w, i - w.after + w.before);
      }
    }
    if k < |w.s| {
      CharAt(w, k);
    }
    BreakIs(w.t, w.At(k));
    SameSlice(w, k, |w.s|);
    hide LStrip, FenceRun;
    assert w.s[k..] == w.s[k..|w.s|] && w.t[w.At(k)..] == w.t[w.At(k)..|w.t|];
  }

  lemma {:induction false} ParenthesisIsPlain()
    ensures !IsSpace('(') && !IsFenceChar('(') && !IsBreak(')')
  {
  }

  // ----- A rewritten line keeps its frame -----

  /** A line with its terminator: from the first line break on, line breaks only. */
  predicate WithTerminator(x: string) { x != "" && forall i :: BreakAt(x) <= i < |x| ==> IsBreak(x[i]) }

  lemma {:induction false} BreakIsLater(x: string, n: nat)
    requires n <= |x| && forall i :: 0 <= i < n ==> !IsBreak(x[i])
    ensures n <= BreakAt(x)
  {
    hide IsBreak;
    if n > 0 {
      BreakIsLater(x[1..], n - 1);
    }
  }

  lemma {:induction false} LinkBeforeBreak(s: string, l: Link)
    requires WithTerminator(s) && 0 < l.end <= |s| && s[l.end - 1] == ')'
    ensures l.end <= BreakAt(s)
  {
    ParenthesisIsPlain();
    hide IsBreak;
  }

  lemma {:induction false} EndsInParenthesis(s: string, c: nat, l: Link)
    requires c < |s| && ParseAt(s, c) == Some(l)
    ensures l.start == c < l.end <= |s| && s[l.end - 1] == ')'
  {
    hide LabelEnd, TargetEnd;
  }

  lemma {:induction false} HeadHasNoBreak(s: string, l: Link, tail: string)
    requires l.start <= l.end <= BreakAt(s) && s[l.start..l.end] == Print(l.image, l.caption, l.target)
    ensures l.end <= BreakAt(s[..l.start] + Print(l.image, l.caption, l.target) + tail)
  {
    hide Print, IsBreak;
    NoBreakBefore(s);
    var text := Print(l.image, l.caption, l.target);
    var x := s[..l.start] + text + tail;
    assert s[..l.end] == s[..l.start] + text;
    assert x[..l.end] == s[..l.end];
    forall i | 0 <= i < l.end ensures !IsBreak(x[i]) {
      assert x[i] == x[..l.end][i] == s[..l.end][i] == s[i];
    }
    BreakIsLater(x, l.end);
  }

  /** The frame of stage k of a line. */
  lemma {:induction false} StageKeepsFrame(env: Env, s: string, k: nat)
    requires PlainLine(env, s) && OnLine(s, RewriterSpans(s, 0)) && k < |RewriterSpans(s, 0)| && WithTerminator(s)
    requires SameFrame(s, From(s, RewriterSpans(s, 0), k + 1, env))
    ensures SameFrame(s, From(s, RewriterSpans(s, 0), k, env))
  {
    hide OnLine, From, RewriterSpans, PlainlyReplaced, PlainLine, Tail, Print, NewTarget, Replaced, ParseAt, GoodLabel,
      GoodTarget, SameFrame, WithTerminator;
    var spans := RewriterSpans(s, 0);
    StageTexts(s, k, env);
    PlainHere(env, s, k);
    var l, tail := spans[k], Tail(s, spans, k, env);
    LinkText(s, l.start, l);
    if Replaced(env, l) {
      EndsInParenthesis(s, l.start, l);
      LinkBeforeBreak(s, l);
      HeadHasNoBreak(s, l, tail);
      HeadLength(s, l.start);
      ExchangeKeepsFrame(env, s[..l.start], l, tail);
      FrameTransitive(s, From(s, spans, k + 1, env), From(s, spans, k, env));
    } else {
      StaysAsItIs(env, l);
    }
  }

  lemma {:induction false} ExchangeKeepsFrame(env: Env, head: string, l: Link, tail: string)
    requires Replaced(env, l) && PlainlyReplaced(env, l)
    requires var text := Print(l.image, l.caption, l.target); |head| + |text| <= BreakAt(head + text + tail)
    ensures SameFrame(head + Print(l.image, l.caption, l.target) + tail,
                      head + Print(l.image, l.caption, NewTarget(env, l)) + tail)
  {
    var h, a, title := OldAddress(l), NewAddress(env, l), Title(l);
    assert l.target == Joined(h, title) && NewTarget(env, l) == Joined(a, title);
    StageSwapIsFine(head, l, h, a, title, tail);
    hide OldAddress, NewAddress, Title, Joined, Print, StageSwap, NewTarget, Replaced, PlainlyReplaced, SameFrame;
    SwapKeepsFrame(StageSwap(head, l, h, a, title, tail));
  }

  lemma {:induction false} StagesKeepFrame(env: Env, s: string, k: nat)
    requires PlainLine(env, s) && OnLine(s, RewriterSpans(s, 0)) && k <= |RewriterSpans(s, 0)| && WithTerminator(s)
    ensures SameFrame(s, From(s, RewriterSpans(s, 0), k, env))
    decreases |RewriterSpans(s, 0)| - k
  {
    hide OnLine, From, RewriterSpans, PlainLine, SameFrame, BreakAt, IsBreak;
    if k == |RewriterSpans(s, 0)| {
      LastStage(s, RewriterSpans(s, 0), env);
      FrameReflexive(s);
    } else {
      StagesKeepFrame(env, s, k + 1);
      StageKeepsFrame(env, s, k);
    }
  }

  lemma {:induction false} LineKeepsFrame(env: Env, s: string)
    requires PlainLine(env, s) && WithTerminator(s)
    ensures SameFrame(s, Rewritten(s, 0, env))
  {
    FirstStage(s, env);
    hide OnLine, From, RewriterSpans, PlainLine, SameFrame, Rewritten, WithTerminator;
    StagesKeepFrame(env, s, 0);
  }

  // ----- Documents -----

  /** A line of text as the splitter cuts it. */
  function CutLine(x: string): Line { Line(x[..BreakAt(x)], x[BreakAt(x)..]) }

  /** Where the first line of a text ends, with its terminator. */
  function LineEnd(text: string): (e: nat)
    requires text != ""
    ensures 0 < e <= |text|
  {
    if BreakAt(text) == |text| then |text| else TerminatorEnd(text, BreakAt(text))
  }

  lemma {:induction false} BreakInHead(x: string, rest: string)
    requires BreakAt(x) < |x| || rest == ""
    ensures BreakAt(x + rest) == BreakAt(x)
  {
    hide IsBreak;
    NoBreakBefore(x);
    if rest == "" {
      assert x + rest == x;
    } else {
      BreakIs(x + rest, BreakAt(x));
    }
  }

  lemma {:induction false} FirstLineFrame(text: string)
    requires text != ""
    ensures var x := text[..LineEnd(text)];
      BreakAt(x) == BreakAt(text) && WithTerminator(x) && (BreakAt(x) == |x| ==> LineEnd(text) == |text|)
  {
    hide IsBreak, TerminatorEnd, BreakAt;
    var e, k := LineEnd(text), BreakAt(text);
    var x := text[..e];
    NoBreakBefore(text);
    TerminatorBreaks(text, k);
    forall i | 0 <= i < k ensures !IsBreak(x[i]) {
      assert x[i] == text[i];
    }
    BreakIs(x, k);
  }

  lemma {:induction false} FirstLine(text: string)
    requires text != ""
    ensures var x := text[..LineEnd(text)];
      && SplitLines(text) == [CutLine(x)] + SplitLines(text[LineEnd(text)..])
      && BreakAt(x) == BreakAt(text) && WithTerminator(x) && (BreakAt(x) == |x| ==> LineEnd(text) == |text|)
      && Full(CutLine(x)) == x
  {
    hide IsBreak, SplitLines, TerminatorEnd, BreakAt, WithTerminator;
    FirstLineFrame(text);
    FullCut(text[..LineEnd(text)]);
    FirstLineCut(text);
  }

  lemma {:induction false} FirstLineCut(text: string)
    requires text != "" && BreakAt(text[..LineEnd(text)]) == BreakAt(text)
    ensures SplitLines(text) == [CutLine(text[..LineEnd(text)])] + SplitLines(text[LineEnd(text)..])
  {
    hide IsBreak, SplitLines, TerminatorEnd, BreakAt;
    var e, k := LineEnd(text), BreakAt(text);
    var x := text[..e];
    SplitStep(text);
    if k == |text| {
      NothingToSplit();
      assert text[e..] == "" && x == text && text[..k] == text && x[k..] == "";
      assert [CutLine(x)] + [] == [CutLine(x)];
    } else {
      assert x[..k] == text[..k] && x[k..] == text[k..e];
    }
  }

  lemma {:induction false} NothingToSplit()
    ensures SplitLines("") == []
  {
  }

  lemma {:induction false} TerminatorBreaks(text: string, k: nat)
    requires k <= |text| && (k < |text| ==> IsBreak(text[k]))
    ensures k < |text| ==> forall i :: k <= i < TerminatorEnd(text, k) ==> IsBreak(text[i])
  {
    LineFeedBreaks();
    hide IsBreak;
  }

  /** A line put in front of a text is its first line again, when its terminator ends there. */
  lemma {:induction false} LineInFront(x: string, rest: string)
    requires x != "" && (BreakAt(x) == |x| ==> rest == "")
    requires BreakAt(x) < |x| ==> TerminatorEnd(x + rest, BreakAt(x)) == |x|
    ensures SplitLines(x + rest) == [CutLine(x)] + SplitLines(rest)
  {
    var text, k := x + rest, BreakAt(x);
    BreakInHead(x, rest);
    SplitStep(text);
    hide IsBreak, SplitLines, TerminatorEnd, BreakAt;
    if k == |x| {
      NothingToSplit();
      assert text == x && x[..k] == x && x[k..] == "" && [CutLine(x)] + [] == [CutLine(x)];
    } else {
      assert text[..k] == x[..k] && text[k..|x|] == x[k..] && text[|x|..] == rest;
    }
  }

  /** Lines whose visible links are plain. */
  predicate PlainLines(lines: seq<Line>, f: Fence, env: Env) {
    lines == [] ||
    (var line := Full(lines[0]);
     (Skipped(f, line) || PlainLine(env, line)) && PlainLines(lines[1..], StepFence(f, line), env))
  }

  function NewLine(f: Fence, line: Line, env: Env): Line {
    if Skipped(f, Full(line)) then line else CutLine(Rewritten(Full(line), 0, env))
  }

  function NewLines(lines: seq<Line>, f: Fence, env: Env): seq<Line> {
    if lines == [] then []
    else [NewLine(f, lines[0], env)] + NewLines(lines[1..], StepFence(f, Full(lines[0])), env)
  }

  function NewText(f: Fence, x: string, env: Env): string { if Skipped(f, x) then x else Rewritten(x, 0, env) }

  /** The rewritten form of a text with the same beginning goes on after the terminator as the text did. */
  lemma {:induction false} SameTerminatorEnd(x: string, rest: string, y: string, tail: string)
    requires BreakAt(x) < |x| && BreakAt(y) < |y| && x[BreakAt(x)..] == y[BreakAt(y)..]
    requires (rest == "" <==> tail == "") && (rest != "" ==> rest[0] == tail[0])
    requires TerminatorEnd(x + rest, BreakAt(x)) == |x|
    ensures TerminatorEnd(y + tail, BreakAt(y)) == |y|
  {
    var j, k := BreakAt(x), BreakAt(y);
    var s, t := x[j..] + rest, y[k..] + tail;
    hide BreakAt;
    assert |x| - j == |y| - k;
    assert forall i :: 0 <= i < |s| ==> (x + rest)[j + i] == s[i];
    assert forall i :: 0 <= i < |t| ==> (y + tail)[k + i] == t[i];
    assert s[0] == t[0];
    assert 1 < |s| <==> 1 < |t|;
    assert 1 < |s| ==> s[1] == t[1];
  }

  /** A line rewritten and put in front of the rewritten rest is split off again. */
  lemma {:induction false} NewLineInFront(f: Fence, x: string, rest: string, tail: string, env: Env)
    requires WithTerminator(x) && (Skipped(f, x) || PlainLine(env, x)) && (BreakAt(x) == |x| ==> rest == "")
    requires BreakAt(x) < |x| ==> TerminatorEnd(x + rest, BreakAt(x)) == |x|
    requires (rest == "" <==> tail == "") && (rest != "" ==> rest[0] == tail[0])
    ensures var y := NewText(f, x, env);
      && SplitLines(y + tail) == [CutLine(y)] + SplitLines(tail) && y != "" && y[0] == x[0]
  {
    var y := NewText(f, x, env);
    hide BreakAt, IsBreak, PlainLine, Skipped, Rewritten, TerminatorEnd, SplitLines, LStrip, FenceRun;
    if Skipped(f, x) {
      FrameReflexive(x);
    } else {
      LineKeepsFrame(env, x);
    }
    assert SameFrame(x, y);
    if BreakAt(x) < |x| {
      SameTerminatorEnd(x, rest, y, tail);
    }
    LineInFront(y, tail);
  }

  lemma {:induction false} TerminatorThere(text: string)
    requires text != ""
    ensures var e := LineEnd(text);
      var x := text[..e];
      && x + text[e..] == text && (BreakAt(x) == |x| ==> text[e..] == "")
      && (BreakAt(x) < |x| ==> TerminatorEnd(x + text[e..], BreakAt(x)) == |x|)
  {
    hide SplitLines, IsBreak, BreakAt;
    FirstLine(text);
    var e := LineEnd(text);
    assert text[..e] + text[e..] == text;
  }

  lemma {:induction false} NewLineIs(f: Fence, x: string, env: Env)
    requires Full(CutLine(x)) == x
    ensures NewLine(f, CutLine(x), env) == CutLine(NewText(f, x, env))
  {
    hide Skipped, Rewritten, BreakAt;
  }

  lemma {:induction false} RewriteFirst(lines: seq<Line>, x: string, later: seq<Line>, f: Fence, env: Env)
    requires lines == [CutLine(x)] + later && Full(CutLine(x)) == x
    ensures RewriteLines(lines, f, env) == NewText(f, x, env) + RewriteLines(later, StepFence(f, x), env)
    ensures NewLines(lines, f, env) == [NewLine(f, CutLine(x), env)] + NewLines(later, StepFence(f, x), env)
    ensures PlainLines(lines, f, env) ==>
      (Skipped(f, x) || PlainLine(env, x)) && PlainLines(later, StepFence(f, x), env)
  {
    hide Skipped, Rewritten, CutLine, Full, StepFence, PlainLine, NewLine;
    assert lines[0] == CutLine(x) && lines[1..] == later;
  }

  /** The rewritten text splits into the rewritten lines, and begins as the text did. */
  lemma {:induction false} SplitsAfterRewriting(text: string, f: Fence, env: Env)
    requires PlainLines(SplitLines(text), f, env)
    ensures var out := RewriteLines(SplitLines(text), f, env);
      && SplitLines(out) == NewLines(SplitLines(text), f, env)
      && (text == "" <==> out == "") && (text != "" ==> out[0] == text[0])
    decreases |text|
  {
    if text == "" {
      NothingToSplit();
    } else {
      hide BreakAt, SplitLines, IsBreak, PlainLine, PlainLines, Skipped, StepFence, Rewritten, TerminatorEnd, LineEnd,
        RewriteLines, NewLines, NewLine, NewText, CutLine, WithTerminator;
      var e := LineEnd(text);
      var x, rest := text[..e], text[e..];
      FirstLine(text);
      TerminatorThere(text);
      RewriteFirst(SplitLines(text), x, SplitLines(rest), f, env);
      SplitsAfterRewriting(rest, StepFence(f, x), env);
      NewLineInFront(f, x, rest, RewriteLines(SplitLines(rest), StepFence(f, x), env), env);
      NewLineIs(f, x, env);
    }
  }

  // ----- Line by line -----

  predicate PlainDocument(text: string, env: Env) { PlainLines(SplitLines(text), OUTSIDE, env) }

  /** Every line of a text has a terminator of line breaks, and is what the splitter cuts it to. */
  lemma {:induction false} LinesAreCut(text: string)
    ensures forall l :: l in SplitLines(text) ==> WithTerminator(Full(l)) && CutLine(Full(l)) == l
    decreases |text|
  {
    if text == "" {
      NothingToSplit();
    } else {
      hide BreakAt, SplitLines, WithTerminator, LineEnd, CutLine;
      FirstLine(text);
      LinesAreCut(text[LineEnd(text)..]);
    }
  }

  /** The ith line after the rewriting, and the fence state in front of it. */
  lemma {:induction false} NewLineAt(lines: seq<Line>, f: Fence, env: Env, i: nat)
    requires PlainLines(lines, f, env) && i < |lines|
    requires forall l :: l in lines ==> WithTerminator(Full(l)) && CutLine(Full(l)) == l
    ensures |NewLines(lines, f, env)| == |lines|
    ensures NewLines(lines, f, env)[i] == NewLine(FenceFrom(f, lines, i), lines[i], env)
    ensures Skipped(FenceFrom(f, lines, i), Full(lines[i])) || PlainLine(env, Full(lines[i]))
    ensures FenceFrom(f, NewLines(lines, f, env), i) == FenceFrom(f, lines, i)
    decreases i
  {
    hide WithTerminator, CutLine, Skipped, StepFence, PlainLine, NewLine, Full;
    var line := lines[0];
    NewLinesLength(lines, f, env);
    if i > 0 {
      var next := StepFence(f, Full(line));
      var after := NewLines(lines, f, env);
      assert after[0] == NewLine(f, line, env) && after[1..] == NewLines(lines[1..], next, env);
      NewLineAt(lines[1..], next, env, i - 1);
      FenceFromTail(f, lines, i);
      FenceFromTail(f, after, i);
      NewLineSteps(f, line, env);
    }
  }

  lemma {:induction false} NewLinesLength(lines: seq<Line>, f: Fence, env: Env)
    ensures |NewLines(lines, f, env)| == |lines|
  {
    hide NewLine;
    if lines != [] {
      NewLinesLength(lines[1..], StepFence(f, Full(lines[0])), env);
    }
  }

  lemma {:induction false} FullCut(x: string)
    ensures Full(CutLine(x)) == x
  {
    assert x[..BreakAt(x)] + x[BreakAt(x)..] == x;
    hide BreakAt;
  }

  /** A rewritten line takes the fence state where the line took it, is skipped alike and has the same terminator. */
  lemma {:induction false} NewLineSteps(f: Fence, line: Line, env: Env)
    requires WithTerminator(Full(line)) && CutLine(Full(line)) == line
    requires Skipped(f, Full(line)) || PlainLine(env, Full(line))
    ensures var after := NewLine(f, line, env);
      && StepFence(f, Full(after)) == StepFence(f, Full(line)) && Skipped(f, Full(after)) == Skipped(f, Full(line))
      && after.terminator == line.terminator
      && (if Skipped(f, Full(line)) then after == line else Full(after) == Rewritten(Full(line), 0, env))
  {
    hide WithTerminator, Skipped, StepFence, PlainLine, Rewritten, BreakAt, LStrip, FenceRun;
    var x := Full(line);
    if !Skipped(f, x) {
      LineKeepsFrame(env, x);
      FullCut(Rewritten(x, 0, env));
      FrameDecides(x, Rewritten(x, 0, env), f);
    }
  }

  lemma {:induction false} ContentReadsAlike(l: Line)
    requires Blank(l.terminator)
    ensures CheckerSpans(l.content, 0) == CheckerSpans(Full(l), 0)
  {
    hide CheckerSpans, Blank, Inert;
    BlankIsInert(l.terminator);
    TerminatorAddsNothing(l.content, l.terminator, 0);
  }

  /** What a line says before and after the rewriting. */
  predicate LineRenewed(env: Env, before: Line, after: Line) {
    var n := |RewriterSpans(Full(before), 0)|;
    && Renewed(env, n, RewriterSpans(Full(before), 0), RewriterSpans(Full(after), 0))
    && Renewed(env, n, CheckerSpans(before.content, 0), CheckerSpans(after.content, 0))
  }

  lemma {:induction false} LineIsRenewed(env: Env, before: Line, after: Line)
    requires PlainLine(env, Full(before)) && Full(after) == Rewritten(Full(before), 0, env)
    requires Blank(before.terminator) && after.terminator == before.terminator
    ensures LineRenewed(env, before, after)
  {
    hide PlainLine, Rewritten, RewriterSpans, CheckerSpans, Renewed, Blank, Full;
    LineReadsBack(env, Full(before));
    ContentReadsAlike(before);
    ContentReadsAlike(after);
  }

  /** A document whose replaced links have plain addresses, old and new: after the rewriting every line is where it was,
      fenced lines as they were, and on the others both scanners read the same links, at the new addresses. */
  lemma {:induction false} DocumentReadsBack(text: string, env: Env, i: nat)
    requires PlainDocument(text, env) && i < |SplitLines(text)|
    ensures var out := RewriteText(text, env);
      && |SplitLines(out)| == |SplitLines(text)| && Visible(out, i) == Visible(text, i)
      && SplitLines(out)[i].terminator == SplitLines(text)[i].terminator
      && if Visible(text, i) then LineRenewed(env, SplitLines(text)[i], SplitLines(out)[i])
         else SplitLines(out)[i] == SplitLines(text)[i]
  {
    hide SplitLines, WithTerminator, CutLine, Skipped, StepFence, PlainLine, NewLine, Full, Rewritten, LineRenewed,
      Blank;
    SplitsAfterRewriting(text, OUTSIDE, env);
    LinesAreCut(text);
    TerminatorsAreBlank(text);
    var lines := SplitLines(text);
    NewLineAt(lines, OUTSIDE, env, i);
    var f := FenceFrom(OUTSIDE, lines, i);
    assert lines[i] in lines;
    NewLineSteps(f, lines[i], env);
    if !Skipped(f, Full(lines[i])) {
      LineIsRenewed(env, lines[i], NewLine(f, lines[i], env));
    }
  }

  // ----- Rewriting twice -----

  /** No visible link gets an address that leads back into the repository. */
  predicate AwayLines(lines: seq<Line>, f: Fence, env: Env) {
    lines == [] ||
    (var line := Full(lines[0]);
     && (Skipped(f, line) || forall l :: l in RewriterSpans(line, 0) ==> LeadsAway(env, l))
     && AwayLines(lines[1..], StepFence(f, line), env))
  }

  lemma {:induction false} NothingLeftToDo(lines: seq<Line>, f: Fence, env: Env)
    requires PlainLines(lines, f, env) && AwayLines(lines, f, env)
    requires forall l :: l in lines ==> WithTerminator(Full(l)) && CutLine(Full(l)) == l
    ensures NothingDue(NewLines(lines, f, env), f, env)
  {
    hide WithTerminator, CutLine, Skipped, StepFence, PlainLine, NewLine, Full, Rewritten, RewriterSpans, LeadsAway;
    if lines != [] {
      var line := lines[0];
      var after := NewLines(lines, f, env);
      assert after[0] == NewLine(f, line, env);
      assert after[1..] == NewLines(lines[1..], StepFence(f, Full(line)), env);
      NewLineSteps(f, line, env);
      NothingLeftToDo(lines[1..], StepFence(f, Full(line)), env);
      if !Skipped(f, Full(line)) {
        LineIsDone(env, Full(line));
        KeptMeansNone(env, RewriterSpans(Full(after[0]), 0));
      }
    }
  }

  lemma {:induction false} KeptMeansNone(env: Env, spans: seq<Link>)
    requires forall m :: m in spans ==> !Replaced(env, m)
    ensures forall m :: m in spans ==> RewriteTarget(env, m).None?
  {
    hide RewriteTarget;
  }

  /** When the new addresses lead away, rewriting a second time changes nothing. */
  lemma {:induction false} RewritingTwice(text: string, env: Env)
    requires PlainDocument(text, env) && AwayLines(SplitLines(text), OUTSIDE, env)
    ensures RewriteText(RewriteText(text, env), env) == RewriteText(text, env)
  {
    hide SplitLines, WithTerminator, CutLine, PlainLines, AwayLines, NewLines, NothingDue, RewriteLines;
    SplitsAfterRewriting(text, OUTSIDE, env);
    LinesAreCut(text);
    NothingLeftToDo(SplitLines(text), OUTSIDE, env);
    NothingToRewrite(RewriteText(text, env), env);
  }

  // ----- Plain new addresses alone are not enough -----

  /** One file, named like the end of a label, is published. */
  const BRACKETED := Env(s => Some(s), map["a]" := "u"], "", "")

  const MIXED := "[q [b](a]) c](z)"

  const INNER := Link(3, 10, false, "b", "a]")

  lemma {:induction false} FewLabels()
    ensures LabelDepth("q [b](a", 1) == Some(1) && GoodLabel("b") && GoodLabel("q [b](u) c")
  {
    assert LabelDepth("q [b](a", 1) == Some(1);
    assert GoodLabel("b");
    LongLabel();
    hide LabelDepth, GoodLabel;
  }

  lemma {:induction false} LongLabel()
    ensures GoodLabel("q [b](u) c")
  {
  }

  lemma {:induction false} FewTargets()
    ensures GoodTarget("a]") && GoodTarget("z")
  {
  }

  lemma {:induction false} FewPrints()
    ensures MIXED[3..10] == Print(false, "b", "a]") && "[q [b](u) c](z)" == Print(false, "q [b](u) c", "z")
    ensures MIXED[1..8] == "q [b](a" && |MIXED| == 16 && MIXED[0] == '[' && MIXED[8] == ']' && MIXED[9] == ')'
  {
    assert MIXED[3..10] == "[b](a])";
    assert "" + "[" + "b" + "](" + "a]" + ")" == "[b](a])";
    assert "" + "[" + "q [b](u) c" + "](" + "z" + ")" == "[q [b](u) c](z)";
    assert Print(false, "b", "a]") == "" + "[" + "b" + "](" + "a]" + ")";
    assert Print(false, "q [b](u) c", "z") == "" + "[" + "q [b](u) c" + "](" + "z" + ")";
    hide Print;
  }

  lemma {:induction false} MixedBefore()
    ensures ParseAt(MIXED, 0).None? && ParseAt(MIXED, 3) == Some(INNER)
  {
    hide LabelDepth, GoodLabel, GoodTarget, LabelEnd, TargetEnd, Print;
    FewLabels();
    FewTargets();
    FewPrints();
    LabelEndIs(MIXED, 1, 1, 8);
    hide ParseAt;
    NoLink(MIXED, 0);
    PrintedParses(MIXED, 3, INNER);
  }

  lemma {:induction false} MixedSpans()
    ensures RewriterSpans(MIXED, 0) == [INNER]
  {
    MixedBefore();
    hide ParseAt;
    NextPasses(MIXED, 1, 3);
    NextPasses(MIXED, 11, 16);
    assert Special(MIXED, 3);
    assert NextSpecial(MIXED, 3) == 3 && NextSpecial(MIXED, 16) == 16;
    assert !Escaped(MIXED, 0) && !Escaped(MIXED, 3) && !Escaped(MIXED, 10);
    NoLinkAtSpace(MIXED, 10);
    hide NextSpecial, Escaped;
    assert RewriterSpans(MIXED, 16) == [];
    assert RewriterSpans(MIXED, 10) == [];
    assert RewriterSpans(MIXED, 3) == [INNER] + [];
  }

  lemma {:induction false} NoLinkAtSpace(s: string, c: nat)
    requires c < |s| && s[c] == ' '
    ensures ParseAt(s, c).None?
  {
  }

  lemma {:induction false} BracketedPath()
    ensures SplitTarget("a]") == ("a]", "")
    ensures Find("a]", '#') == 2 && Resolve(BRACKETED, "a]") == Some("a]")
  {
    assert !IsSpace('a') && !IsSpace(']');
    hide IsSpace;
    PlainSplit("a]");
    assert WordEnd("a]", 2) == 2;
    assert WordEnd("a]", 1) == 2;
    assert WordEnd("a]", 0) == 2;
    FindIs("a]", '#', 2);
    assert "a]"[..2] == "a]";
    hide SplitTarget, Find, WordEnd;
  }

  lemma {:induction false} MixedTarget()
    ensures RewriteTarget(BRACKETED, INNER) == Some("[b](u)") && NewTarget(BRACKETED, INNER) == "u"
  {
    hide SplitTarget, Find, Resolve;
    BracketedPath();
    assert "a]"[2..] == "";
    assert Address(BRACKETED, INNER, "a]") == "u";
    hide Address;
    assert "u" + "" + "" == "u" && "u" + "" == "u";
    PrintedBAndU();
  }

  lemma {:induction false} PrintedBAndU()
    ensures Print(false, "b", "u") == "[b](u)"
  {
  }

  lemma {:induction false} MixedRewritten()
    ensures Rewritten(MIXED, 0, BRACKETED) == "[q [b](u) c](z)"
  {
    hide RewriterSpans, RewriteTarget, NewTarget, ParseAt;
    MixedSpans();
    MixedTarget();
    SpansInOrder(MIXED, 0);
    assert [INNER][1..] == [];
    assert Rebuild(MIXED, 10, [], BRACKETED) == MIXED[10..];
    assert Rebuild(MIXED, 0, [INNER], BRACKETED) == MIXED[0..3] + "[b](u)" + MIXED[10..];
    MixedParts();
  }

  lemma {:induction false} MixedParts()
    ensures MIXED[0..3] + "[b](u)" + MIXED[10..] == "[q [b](u) c](z)"
  {
  }

  lemma {:induction false} MixedAfter()
    ensures ParseAt("[q [b](u) c](z)", 0) == Some(Link(0, 15, false, "q [b](u) c", "z"))
  {
    hide GoodLabel, GoodTarget, ParseAt, Print;
    FewLabels();
    FewTargets();
    FewPrints();
    assert "[q [b](u) c](z)"[0..15] == "[q [b](u) c](z)";
    PrintedParses("[q [b](u) c](z)", 0, Link(0, 15, false, "q [b](u) c", "z"));
  }

  /** Here the new address is plain and the old is not: before, the label that opens first ends inside the old
      address and makes no link; afterwards it runs on and swallows the rewritten one. */
  lemma {:induction false} BracketsComeLoose()
    ensures RewriterSpans(MIXED, 0) == [INNER] && NewTarget(BRACKETED, INNER) == "u" && Plain("u")
    ensures var after := Rewritten(MIXED, 0, BRACKETED);
      after == "[q [b](u) c](z)" && ParseAt(after, 0) == Some(Link(0, 15, false, "q [b](u) c", "z"))
  {
    assert Plain("u");
    hide RewriterSpans, RewriteTarget, NewTarget, ParseAt, Rewritten, Plain;
    MixedSpans();
    MixedTarget();
    MixedRewritten();
    MixedAfter();
  }
}
