/** Whole documents: fenced blocks, the rewriter's output and the checker's findings. */
module LinkDocuments {
  import opened Options
  import opened MarkdownLinks
  import opened LinkScanners

  // ----- Rewriting one link -----

  /** What rewriting depends on: path resolution, published addresses, and the repository's web bases. */
  datatype Env = Env(resolve: string -> Option<string>, urls: map<string, string>, webBase: string, rawBase: string)

  function LStrip(s: string): string {
    if s != "" && IsSpace(s[0]) then LStrip(s[1..]) else s
  }

  function RStrip(s: string): string {
    if s != "" && IsSpace(s[|s| - 1]) then RStrip(s[..|s| - 1]) else s
  }

  function Find(s: string, c: char): (k: nat)
    ensures k <= |s|
  {
    if s == "" || s[0] == c then 0 else 1 + Find(s[1..], c)
  }

  /** Index of the first unescaped white space. */
  function WordEnd(s: string, i: nat): (e: nat)
    requires i <= |s|
    ensures i <= e <= |s|
    decreases |s| - i
  {
    if i == |s| || IsSpace(s[i]) then i
    else if s[i] == '\\' && i + 1 < |s| then WordEnd(s, i + 2)
    else WordEnd(s, i + 1)
  }

  /** Address and title of a raw target. */
  function SplitTarget(raw: string): (string, string) {
    var value := RStrip(LStrip(raw));
    if value == "" then ("", "")
    else if value[0] == '<' then
      var end := Find(value, '>');
      if end == |value| then ("", "") else (value[1..end], RStrip(LStrip(value[end + 1..])))
    else (value[..WordEnd(value, 0)], RStrip(LStrip(value[WordEnd(value, 0)..])))
  }

  /** The repository path an address points to, if it stays inside; a bare anchor never does. */
  function Resolve(env: Env, href: string): Option<string> {
    var path := href[..Find(href, '#')];
    if path == "" then None else env.resolve(path)
  }

  function Address(env: Env, l: Link, path: string): string {
    if path in env.urls && env.urls[path] != "" then env.urls[path]
    else if env.webBase == "" then ""
    else (if l.image then env.rawBase else env.webBase) + "/" + path
  }

  /** The replacement for a link, when it is to be replaced. */
  function RewriteTarget(env: Env, l: Link): Option<string> {
    var (href, title) := SplitTarget(l.target);
    if href == "" then None
    else
      var path := Resolve(env, href);
      if path.None? || path.value == "" || Address(env, l, path.value) == "" then None
      else
        var suffix := if title == "" then "" else " " + title;
        Some(Print(l.image, l.caption, Address(env, l, path.value) + href[Find(href, '#')..] + suffix))
  }

  // ----- Rewriting one line -----

  predicate InOrder(s: string, from: nat, spans: seq<Link>)
    decreases |spans|
  {
    if spans == [] then from <= |s|
    else from <= spans[0].start < spans[0].end <= |s| && InOrder(s, spans[0].end, spans[1..])
  }

  function Shown(s: string, l: Link, env: Env): string
    requires l.start <= l.end <= |s|
  {
    if RewriteTarget(env, l).Some? then RewriteTarget(env, l).value else s[l.start..l.end]
  }

  /** The line from `from` on: text between the links verbatim, every link shown. */
  function Rebuild(s: string, from: nat, spans: seq<Link>, env: Env): string
    requires InOrder(s, from, spans)
    decreases |spans|
  {
    if spans == [] then s[from..]
    else s[from..spans[0].start] + Shown(s, spans[0], env) + Rebuild(s, spans[0].end, spans[1..], env)
  }

  lemma {:induction false} SpansInOrder(s: string, c: nat)
    requires c <= |s|
    ensures InOrder(s, c, RewriterSpans(s, c))
    decreases |s| - c
  {
    hide ParseAt, Escaped, NextSpecial, SpanEnd;
    if c < |s| {
      if Escaped(s, c) && (ImageAt(s, c) || s[c] == '[') {
        SpansInOrder(s, if ImageAt(s, c) then c + 2 else c + 1);
      } else if ParseAt(s, c).Some? {
        SpansInOrder(s, ParseAt(s, c).value.end);
      } else if Onward(s, c).Some? {
        SpansInOrder(s, Onward(s, c).value);
      }
    }
  }

  lemma {:induction false} Associates(a: string, b: string, c: string, d: string)
    ensures a + b + c + d == a + (b + c + d)
  {
  }

  lemma {:induction false} Adjacent(s: string, c: nat, d: nat, e: nat)
    requires c <= d <= e <= |s|
    ensures s[c..e] == s[c..d] + s[d..e]
  {
  }

  lemma {:induction false} RebuildShift(s: string, c: nat, d: nat, spans: seq<Link>, env: Env)
    requires c <= d <= |s| && InOrder(s, d, spans)
    ensures InOrder(s, c, spans)
    ensures Rebuild(s, c, spans, env) == s[c..d] + Rebuild(s, d, spans, env)
  {
    if spans == [] {
      Adjacent(s, c, d, |s|);
      assert s[c..] == s[c..|s|] && s[d..] == s[d..|s|];
    } else {
      hide Shown;
      var e := spans[0].start;
      Adjacent(s, c, d, e);
      Associates(s[c..d], s[d..e], Shown(s, spans[0], env), Rebuild(s, spans[0].end, spans[1..], env));
    }
  }

  function Rewritten(s: string, c: nat, env: Env): string
    requires c <= |s|
  {
    SpansInOrder(s, c);
    Rebuild(s, c, RewriterSpans(s, c), env)
  }

  lemma {:induction false} RewrittenOnward(s: string, c: nat, d: nat, env: Env)
    requires c <= d <= |s| && RewriterSpans(s, c) == RewriterSpans(s, d)
    ensures Rewritten(s, c, env) == s[c..d] + Rewritten(s, d, env)
  {
    SpansInOrder(s, d);
    RebuildShift(s, c, d, RewriterSpans(s, d), env);
  }

  lemma {:induction false} RewrittenLink(s: string, c: nat, env: Env)
    requires c < |s| && ParseAt(s, c).Some? && !Escaped(s, c)
    ensures var l := ParseAt(s, c).value;
      Rewritten(s, c, env) == Shown(s, l, env) + Rewritten(s, l.end, env)
  {
    hide ParseAt, Escaped, Shown;
    var l := ParseAt(s, c).value;
    SpansInOrder(s, c);
    var rest := RewriterSpans(s, l.end);
    assert RewriterSpans(s, c) == [l] + rest;
    assert ([l] + rest)[1..] == rest;
  }

  function Flat(parts: seq<string>): string {
    if parts == [] then "" else Flat(parts[..|parts| - 1]) + parts[|parts| - 1]
  }

  lemma {:induction false} FlatAppend(parts: seq<string>, part: string)
    ensures Flat(parts + [part]) == Flat(parts) + part
  {
    assert (parts + [part])[..|parts|] == parts;
  }

  lemma {:induction false} FlatNone()
    ensures Flat([]) == ""
  {
  }

  /** The first position at or after c with the given mark, or the end. */
  method NextStop(s: string, c: nat) returns (stop: nat)
    requires c < |s|
    ensures stop == NextSpecial(s, c + 1)
  {
    stop := c + 1;
    while stop < |s| && !Special(s, stop)
      invariant c + 1 <= stop <= |s| && NextSpecial(s, c + 1) == NextSpecial(s, stop)
    {
      stop := stop + 1;
    }
  }

  method ReplaceSegment(s: string, env: Env) returns (text: string)
    ensures text == Rewritten(s, 0, env)
  {
    hide ParseAt, Escaped, NextSpecial, SpanEnd, Rewritten, Shown, Flat, RewriteTarget;
    FlatNone();
    var out: seq<string> := [];
    var cursor := 0;
    while cursor < |s|
      invariant cursor <= |s|
      invariant Flat(out) + Rewritten(s, cursor, env) == Rewritten(s, 0, env)
      decreases |s| - cursor
    {
      var next := |s|;
      var escaped := IsMarkdownEscaped(s, cursor);
      if escaped && (ImageAt(s, cursor) || s[cursor] == '[') {
        next := if ImageAt(s, cursor) then cursor + 2 else cursor + 1;
      } else {
        var l := ParseLinkAt(s, cursor);
        if l.Some? {
          PlainIfParsed(s, cursor);
          RewrittenLink(s, cursor, env);
          FlatAppend(out, Shown(s, l.value, env));
          out := out + [Shown(s, l.value, env)];
          cursor := l.value.end;
          continue;
        }
        if ImageAt(s, cursor) {
          next := cursor + 2;
        } else if s[cursor] == '`' {
          var closed := SpanEnd(s, cursor);
          if closed.None? {
            VerbatimRest(s, cursor, env);
            FlatAppend(out, s[cursor..]);
            out := out + [s[cursor..]];
            return Flat(out);
          }
          next := closed.value;
        } else {
          next := NextStop(s, cursor);
        }
      }
      RewrittenOnward(s, cursor, next, env);
      FlatAppend(out, s[cursor..next]);
      out := out + [s[cursor..next]];
      cursor := next;
    }
    NothingLeft(s, env);
    text := Flat(out);
  }

  lemma {:induction false} VerbatimRest(s: string, c: nat, env: Env)
    requires c <= |s| && RewriterSpans(s, c) == []
    ensures Rewritten(s, c, env) == s[c..]
  {
  }

  lemma {:induction false} NothingLeft(s: string, env: Env)
    ensures Rewritten(s, |s|, env) == ""
  {
  }

  /** With no link to rewrite, a line comes back as it was. */
  lemma {:induction false} RebuildVerbatim(s: string, from: nat, spans: seq<Link>, env: Env)
    requires InOrder(s, from, spans) && forall l :: l in spans ==> RewriteTarget(env, l).None?
    ensures Rebuild(s, from, spans, env) == s[from..]
    decreases |spans|
  {
    if spans != [] {
      var l := spans[0];
      assert l in spans;
      hide RewriteTarget;
      RebuildVerbatim(s, l.end, spans[1..], env);
      Adjacent(s, from, l.start, l.end);
      Adjacent(s, from, l.end, |s|);
      assert s[from..] == s[from..|s|] && s[l.end..] == s[l.end..|s|];
    }
  }

  // ----- Collecting the links of one line -----

  datatype Occurrence = Occurrence(href: string, line: nat)

  predicate Collectable(href: string) { href != "" && href[0] != '#' }

  function Hrefs(spans: seq<Link>, line: nat): seq<Occurrence> {
    if spans == [] then []
    else
      var href := SplitTarget(spans[0].target).0;
      (if Collectable(href) then [Occurrence(href, line)] else []) + Hrefs(spans[1..], line)
  }

  method CollectLinksFromLine(s: string, line: nat) returns (links: seq<Occurrence>)
    ensures links == Hrefs(CheckerSpans(s, 0), line)
  {
    hide ParseAt, Escaped, NextSpecial, SpanEnd, SplitTarget, Collectable, RunEnd;
    links := [];
    var cursor := 0;
    while cursor < |s|
      invariant cursor <= |s|
      invariant links + Hrefs(CheckerSpans(s, cursor), line) == Hrefs(CheckerSpans(s, 0), line)
      decreases |s| - cursor
    {
      var escaped := IsMarkdownEscaped(s, cursor);
      if escaped && ImageAt(s, cursor) {
        cursor := cursor + 2;
        continue;
      }
      if escaped && s[cursor] == '[' {
        cursor := cursor + 1;
        continue;
      }
      var l := ParseLinkAt(s, cursor);
      if l.Some? {
        var href := SplitTarget(l.value.target).0;
        HrefsHead(l.value, CheckerSpans(s, l.value.end), line);
        if Collectable(href) {
          links := links + [Occurrence(href, line)];
        }
        cursor := l.value.end;
        continue;
      }
      if s[cursor] == '`' {
        var closed := SpanEnd(s, cursor);
        cursor := if closed.Some? then closed.value else RunEnd(s, cursor);
        continue;
      }
      cursor := NextStop(s, cursor);
    }
  }

  lemma {:induction false} HrefsHead(l: Link, spans: seq<Link>, line: nat)
    ensures var href := SplitTarget(l.target).0;
      Hrefs([l] + spans, line) ==
        if Collectable(href) then [Occurrence(href, line)] + Hrefs(spans, line) else Hrefs(spans, line)
  {
    assert ([l] + spans)[1..] == spans;
  }

  // ----- Fenced blocks -----

  /** Inside a fence, the mark and length that opened it. */
  datatype Fence = Fence(inside: bool, mark: char, length: nat)

  const OUTSIDE := Fence(false, ' ', 0)

  predicate IsFenceChar(c: char) { c == '`' || c == '~' }

  function FenceRun(s: string): (n: nat)
    ensures n <= |s|
  {
    if s != "" && IsFenceChar(s[0]) then 1 + FenceRun(s[1..]) else 0
  }

  predicate IsFenceLine(line: string) { FenceRun(LStrip(line)) >= 3 }

  function StepFence(f: Fence, line: string): Fence {
    var stripped := LStrip(line);
    if FenceRun(stripped) < 3 then f
    else if !f.inside then Fence(true, stripped[0], FenceRun(stripped))
    else if stripped[0] == f.mark && FenceRun(stripped) >= f.length then OUTSIDE
    else f
  }

  /** Fence lines and fenced lines are left alone. */
  predicate Skipped(f: Fence, line: string) { IsFenceLine(line) || f.inside }

  lemma {:induction false} FenceByCases(f: Fence, line: string)
    ensures var stripped, run := LStrip(line), FenceRun(LStrip(line));
      && Skipped(f, line) == (run >= 3 || f.inside)
      && StepFence(f, line) ==
        if run < 3 then f
        else if !f.inside then Fence(true, stripped[0], run)
        else if stripped[0] == f.mark && run >= f.length then OUTSIDE
        else f
  {
    hide LStrip;
  }

  // ----- Lines -----

  datatype Line = Line(content: string, terminator: string)

  predicate IsBreak(c: char) {
    c in "\n\r\U{000B}\U{000C}\U{001C}\U{001D}\U{001E}\U{0085}\U{2028}\U{2029}"
  }

  function BreakAt(text: string): (k: nat)
    ensures k <= |text| && (k < |text| ==> IsBreak(text[k]))
  {
    if text == "" || IsBreak(text[0]) then 0 else 1 + BreakAt(text[1..])
  }

  /** A carriage return and the line feed behind it count as one terminator. */
  function TerminatorEnd(text: string, k: nat): (e: nat)
    requires k < |text|
    ensures k < e <= |text|
  {
    if text[k] == '\r' && k + 1 < |text| && text[k + 1] == '\n' then k + 2 else k + 1
  }

  /** `splitlines`, keeping each terminator beside its line. */
  function SplitLines(text: string): seq<Line>
    decreases |text|
  {
    if text == "" then []
    else
      var k := BreakAt(text);
      if k == |text| then [Line(text, "")]
      else [Line(text[..k], text[k..TerminatorEnd(text, k)])] + SplitLines(text[TerminatorEnd(text, k)..])
  }

  function Full(l: Line): string { l.content + l.terminator }

  function Join(lines: seq<Line>): string {
    if lines == [] then "" else Full(lines[0]) + Join(lines[1..])
  }

  lemma {:induction false} JoinHead(l: Line, rest: seq<Line>)
    ensures Join([l] + rest) == Full(l) + Join(rest)
  {
    assert ([l] + rest)[1..] == rest;
  }

  lemma {:induction false} SplitStep(text: string)
    requires text != ""
    ensures var k := BreakAt(text);
      SplitLines(text) ==
        if k == |text| then [Line(text, "")]
        else [Line(text[..k], text[k..TerminatorEnd(text, k)])] + SplitLines(text[TerminatorEnd(text, k)..])
  {
    hide BreakAt, TerminatorEnd;
  }

  lemma {:induction false} JoinOne(l: Line)
    ensures Join([l]) == Full(l)
  {
    assert [l] == [l] + [];
    JoinHead(l, []);
    assert Full(l) + "" == Full(l);
  }

  lemma {:induction false} ThreeParts(text: string, k: nat, e: nat)
    requires k <= e <= |text|
    ensures text[..k] + text[k..e] + text[e..] == text
  {
  }

  lemma {:induction false} SplitJoins(text: string)
    ensures Join(SplitLines(text)) == text
    decreases |text|
  {
    if text != "" {
      hide BreakAt, TerminatorEnd, SplitLines, Join;
      SplitStep(text);
      var k := BreakAt(text);
      if k == |text| {
        JoinOne(Line(text, ""));
      } else {
        var e := TerminatorEnd(text, k);
        SplitJoins(text[e..]);
        JoinHead(Line(text[..k], text[k..e]), SplitLines(text[e..]));
        ThreeParts(text, k, e);
      }
    }
  }

  /** White space only. */
  predicate Blank(s: string) { forall i :: 0 <= i < |s| ==> IsSpace(s[i]) }

  lemma {:induction false} BreaksAreSpace(c: char)
    requires IsBreak(c)
    ensures IsSpace(c)
  {
  }

  lemma {:induction false} TerminatorsAreBlank(text: string)
    ensures forall l :: l in SplitLines(text) ==> Blank(l.terminator)
    decreases |text|
  {
    if text != "" {
      hide BreakAt, TerminatorEnd, SplitLines, Blank, IsBreak, IsSpace;
      SplitStep(text);
      NoTerminatorIsBlank();
      var k := BreakAt(text);
      if k < |text| {
        TerminatorsAreBlank(text[TerminatorEnd(text, k)..]);
        BreakIsBlank(text, k);
      }
    }
  }

  lemma {:induction false} NoTerminatorIsBlank()
    ensures Blank("")
  {
  }

  lemma {:induction false} BreakIsBlank(text: string, k: nat)
    requires k < |text| && IsBreak(text[k])
    ensures Blank(text[k..TerminatorEnd(text, k)])
  {
    hide IsBreak, IsSpace;
    BreaksAreSpace(text[k]);
    LineFeedBreaks();
    BreaksAreSpace('\n');
  }

  lemma {:induction false} LineFeedBreaks()
    ensures IsBreak('\n')
  {
  }

  // ----- The rewriter on a whole text -----

  function RewriteLines(lines: seq<Line>, f: Fence, env: Env): string {
    if lines == [] then ""
    else
      var line := Full(lines[0]);
      (if Skipped(f, line) then line else Rewritten(line, 0, env)) + RewriteLines(lines[1..], StepFence(f, line), env)
  }

  function RewriteText(text: string, env: Env): string { RewriteLines(SplitLines(text), OUTSIDE, env) }

  lemma {:induction false} RewriteStep(lines: seq<Line>, i: nat, f: Fence, env: Env)
    requires i < |lines|
    ensures RewriteLines(lines[i..], f, env) ==
      (if Skipped(f, Full(lines[i])) then Full(lines[i]) else Rewritten(Full(lines[i]), 0, env)) +
      RewriteLines(lines[i + 1..], StepFence(f, Full(lines[i])), env)
  {
    hide Skipped, StepFence, Rewritten, Full;
    assert lines[i..][0] == lines[i] && lines[i..][1..] == lines[i + 1..];
  }

  lemma {:induction false} RewriteNone(f: Fence, env: Env)
    ensures RewriteLines([], f, env) == ""
  {
  }

  method RewriteLocalLinks(text: string, env: Env) returns (rewritten: string)
    ensures rewritten == RewriteText(text, env)
  {
    hide LStrip, FenceRun, Rewritten, RewriteLines, SplitLines, Skipped, StepFence, Full;
    var lines := SplitLines(text);
    var inside, mark, length := false, ' ', 0;
    rewritten := "";
    for i := 0 to |lines|
      invariant rewritten + RewriteLines(lines[i..], Fence(inside, mark, length), env) == RewriteText(text, env)
    {
      var line := Full(lines[i]);
      ghost var before := Fence(inside, mark, length);
      RewriteStep(lines, i, before, env);
      FenceByCases(before, line);
      var stripped := LStrip(line);
      var run := FenceRun(stripped);
      var added := line;
      if run >= 3 {
        if !inside {
          inside, mark, length := true, stripped[0], run;
        } else if stripped[0] == mark && run >= length {
          inside, mark, length := false, ' ', 0;
        }
      } else if !inside {
        added := ReplaceSegment(line, env);
      }
      assert added == if Skipped(before, line) then line else Rewritten(line, 0, env);
      ghost var rest := RewriteLines(lines[i + 1..], Fence(inside, mark, length), env);
      assert rewritten + (added + rest) == rewritten + added + rest;
      rewritten := rewritten + added;
    }
    assert lines[|lines|..] == [] && rewritten + "" == rewritten;
    RewriteNone(Fence(inside, mark, length), env);
  }

  /** No link recognised on a line outside the fences is to be rewritten. */
  predicate NothingDue(lines: seq<Line>, f: Fence, env: Env) {
    lines == [] ||
    (var line := Full(lines[0]);
     && (!Skipped(f, line) ==> forall l :: l in RewriterSpans(line, 0) ==> RewriteTarget(env, l).None?)
     && NothingDue(lines[1..], StepFence(f, line), env))
  }

  /** Whatever the text, when none of the links in it is to be rewritten it comes back unchanged. */
  lemma {:induction false} NothingToRewrite(text: string, env: Env)
    requires NothingDue(SplitLines(text), OUTSIDE, env)
    ensures RewriteText(text, env) == text
  {
    hide RewriteTarget;
    SplitJoins(text);
    LinesVerbatim(SplitLines(text), OUTSIDE, env);
  }

  lemma {:induction false} LinesVerbatim(lines: seq<Line>, f: Fence, env: Env)
    requires NothingDue(lines, f, env)
    ensures RewriteLines(lines, f, env) == Join(lines)
  {
    hide RewriteTarget, StepFence, Skipped, RewriterSpans;
    if lines != [] {
      var line := Full(lines[0]);
      if !Skipped(f, line) {
        SpansInOrder(line, 0);
        RebuildVerbatim(line, 0, RewriterSpans(line, 0), env);
      }
      LinesVerbatim(lines[1..], StepFence(f, line), env);
    }
  }

  // ----- The checker on a whole text -----

  function CollectLines(lines: seq<Line>, f: Fence, number: nat): seq<Occurrence> {
    if lines == [] then []
    else
      var line := lines[0].content;
      (if Skipped(f, line) then [] else Hrefs(CheckerSpans(line, 0), number)) +
      CollectLines(lines[1..], StepFence(f, line), number + 1)
  }

  function CollectText(text: string): seq<Occurrence> { CollectLines(SplitLines(text), OUTSIDE, 1) }

  lemma {:induction false} CollectStep(lines: seq<Line>, i: nat, f: Fence, number: nat)
    requires i < |lines|
    ensures CollectLines(lines[i..], f, number) ==
      (if Skipped(f, lines[i].content) then [] else Hrefs(CheckerSpans(lines[i].content, 0), number)) +
      CollectLines(lines[i + 1..], StepFence(f, lines[i].content), number + 1)
  {
    hide Skipped, StepFence, Hrefs, CheckerSpans;
    assert lines[i..][0] == lines[i] && lines[i..][1..] == lines[i + 1..];
  }

  lemma {:induction false} CollectNone(f: Fence, number: nat)
    ensures CollectLines([], f, number) == []
  {
  }

  method CollectLinksFromText(text: string) returns (links: seq<Occurrence>)
    ensures links == CollectText(text)
  {
    hide LStrip, FenceRun, CheckerSpans, Hrefs, CollectLines, SplitLines, Skipped, StepFence;
    var lines := SplitLines(text);
    var inside, mark, length := false, ' ', 0;
    links := [];
    for i := 0 to |lines|
      invariant links + CollectLines(lines[i..], Fence(inside, mark, length), i + 1) == CollectText(text)
    {
      var line := lines[i].content;
      ghost var before := Fence(inside, mark, length);
      CollectStep(lines, i, before, i + 1);
      FenceByCases(before, line);
      var stripped := LStrip(line);
      var run := FenceRun(stripped);
      var found: seq<Occurrence> := [];
      if run >= 3 {
        if !inside {
          inside, mark, length := true, stripped[0], run;
        } else if stripped[0] == mark && run >= length {
          inside, mark, length := false, ' ', 0;
        }
      } else if !inside {
        found := CollectLinksFromLine(line, i + 1);
      }
      assert found == if Skipped(before, line) then [] else Hrefs(CheckerSpans(line, 0), i + 1);
      ghost var rest := CollectLines(lines[i + 1..], Fence(inside, mark, length), i + 2);
      assert links + (found + rest) == links + found + rest;
      links := links + found;
    }
    assert lines[|lines|..] == [] && links + [] == links;
    CollectNone(Fence(inside, mark, length), |lines| + 1);
  }
}
