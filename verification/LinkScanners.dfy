/** The two line scanners built on the parser: the rewriter and the checker. */
module LinkScanners {
  import opened Options
  import opened MarkdownLinks

  // ----- Where a scanner may stop -----

  /** The three marks that can start something: a backtick, a bracket, an image bang. */
  predicate Special(s: string, i: nat)
    requires i < |s|
  {
    s[i] == '`' || s[i] == '[' || ImageAt(s, i)
  }

  function NextSpecial(s: string, c: nat): (n: nat)
    requires c <= |s|
    ensures c <= n <= |s| && (n < |s| ==> Special(s, n))
    ensures forall i :: c <= i < n ==> !Special(s, i)
    decreases |s| - c
  {
    if c == |s| || Special(s, c) then c else NextSpecial(s, c + 1)
  }

  /** End of the run of backticks that starts at c. */
  function RunEnd(s: string, c: nat): (e: nat)
    requires c <= |s|
    ensures c <= e <= |s| && (c < |s| && s[c] == '`' ==> c < e)
    ensures forall i :: c <= i < e ==> s[i] == '`'
    ensures e < |s| ==> s[e] != '`'
    decreases |s| - c
  {
    if c < |s| && s[c] == '`' then RunEnd(s, c + 1) else c
  }

  /** End of the first later run of exactly n backticks. */
  function CloserEnd(s: string, c: nat, n: nat): (e: Option<nat>)
    requires c <= |s|
    ensures e.Some? ==> c <= e.value <= |s|
    decreases |s| - c
  {
    if c == |s| then None
    else if s[c] != '`' then CloserEnd(s, c + 1, n)
    else if RunEnd(s, c) - c == n then Some(RunEnd(s, c))
    else CloserEnd(s, RunEnd(s, c), n)
  }

  /** Where the code span opened at c ends, if it is closed. */
  function SpanEnd(s: string, c: nat): (e: Option<nat>)
    requires c < |s| && s[c] == '`'
    ensures e.Some? ==> c < e.value <= |s|
  {
    CloserEnd(s, RunEnd(s, c), RunEnd(s, c) - c)
  }

  // ----- What each scanner recognises -----

  function RewriterSpans(s: string, c: nat): seq<Link>
    requires c <= |s|
    decreases |s| - c
  {
    if c == |s| then []
    else if Escaped(s, c) && ImageAt(s, c) then RewriterSpans(s, c + 2)
    else if Escaped(s, c) && s[c] == '[' then RewriterSpans(s, c + 1)
    else match ParseAt(s, c)
      case Some(l) => [l] + RewriterSpans(s, l.end)
      case None =>
        if ImageAt(s, c) then RewriterSpans(s, c + 2)
        else if s[c] == '`' then
          (if SpanEnd(s, c).Some? then RewriterSpans(s, SpanEnd(s, c).value) else [])
        else RewriterSpans(s, NextSpecial(s, c + 1))
  }

  function CheckerSpans(s: string, c: nat): seq<Link>
    requires c <= |s|
    decreases |s| - c
  {
    if c == |s| then []
    else if Escaped(s, c) && ImageAt(s, c) then CheckerSpans(s, c + 2)
    else if Escaped(s, c) && s[c] == '[' then CheckerSpans(s, c + 1)
    else match ParseAt(s, c)
      case Some(l) => [l] + CheckerSpans(s, l.end)
      case None =>
        if s[c] == '`' then
          CheckerSpans(s, if SpanEnd(s, c).Some? then SpanEnd(s, c).value else RunEnd(s, c))
        else CheckerSpans(s, NextSpecial(s, c + 1))
  }

  /** The unclosed backtick run at which the rewriter gives up on the line, if it meets one. */
  function GivesUpAt(s: string, c: nat): (q: Option<nat>)
    requires c <= |s|
    ensures q.Some? ==> q.value < |s| && s[q.value] == '`' && SpanEnd(s, q.value).None?
    decreases |s| - c
  {
    if c == |s| then None
    else if Escaped(s, c) && ImageAt(s, c) then GivesUpAt(s, c + 2)
    else if Escaped(s, c) && s[c] == '[' then GivesUpAt(s, c + 1)
    else match ParseAt(s, c)
      case Some(l) => GivesUpAt(s, l.end)
      case None =>
        if ImageAt(s, c) then GivesUpAt(s, c + 2)
        else if s[c] == '`' then
          (if SpanEnd(s, c).Some? then GivesUpAt(s, SpanEnd(s, c).value) else Some(c))
        else GivesUpAt(s, NextSpecial(s, c + 1))
  }

  // ----- Agreement -----

  lemma {:induction false} PlainStep(s: string, c: nat)
    requires c < |s| && !Special(s, c)
    ensures CheckerSpans(s, c) == CheckerSpans(s, NextSpecial(s, c + 1)) && NextSpecial(s, c) == NextSpecial(s, c + 1)
  {
  }

  lemma {:induction false} SkipPlain(s: string, c: nat)
    requires c <= |s|
    ensures CheckerSpans(s, c) == CheckerSpans(s, NextSpecial(s, c))
  {
    if c < |s| && !Special(s, c) {
      PlainStep(s, c);
    }
  }

  /** An image whose bracket does not parse is no link at the bracket either, so both scanners go on behind it. */
  lemma {:induction false} FailedImage(s: string, c: nat)
    requires c < |s| && ImageAt(s, c) && ParseAt(s, c).None? && !Escaped(s, c)
    ensures CheckerSpans(s, c) == CheckerSpans(s, c + 2)
  {
    assert Special(s, c + 1) && NextSpecial(s, c + 1) == c + 1;
    assert CheckerSpans(s, c) == CheckerSpans(s, c + 1);
    assert Backslashes(s, c + 1) == 0;
    assert ParseAt(s, c + 1).None?;
    assert CheckerSpans(s, c + 1) == CheckerSpans(s, NextSpecial(s, c + 2));
    SkipPlain(s, c + 2);
  }

  /** What the checker still finds behind the run at which the rewriter gave up. */
  function Unrewritten(s: string, q: Option<nat>): seq<Link>
    requires q.Some? ==> q.value <= |s|
  {
    if q.Some? then CheckerSpans(s, RunEnd(s, q.value)) else []
  }

  predicate Agrees(s: string, c: nat)
    requires c <= |s|
  {
    CheckerSpans(s, c) == RewriterSpans(s, c) + Unrewritten(s, GivesUpAt(s, c))
  }

  lemma {:induction false} AgreeOnEscape(s: string, c: nat)
    requires c < |s| && Escaped(s, c) && (ImageAt(s, c) || s[c] == '[')
    ensures Agrees(s, c) <==> Agrees(s, if ImageAt(s, c) then c + 2 else c + 1)
  {
    hide ParseAt, Escaped, NextSpecial, SpanEnd;
  }

  lemma {:induction false} AgreeOnLink(s: string, c: nat)
    requires c < |s| && ParseAt(s, c).Some? && !Escaped(s, c)
    requires Agrees(s, ParseAt(s, c).value.end)
    ensures Agrees(s, c)
  {
    hide ParseAt, Escaped, NextSpecial, SpanEnd, Unrewritten;
  }

  /** Where the scan goes on when nothing starts at c, if it goes on. */
  function Onward(s: string, c: nat): (n: Option<nat>)
    requires c < |s|
    ensures n.Some? ==> c < n.value <= |s|
  {
    if ImageAt(s, c) then Some(c + 2)
    else if s[c] == '`' then SpanEnd(s, c)
    else Some(NextSpecial(s, c + 1))
  }

  lemma {:induction false} AgreeOnText(s: string, c: nat)
    requires c < |s| && ParseAt(s, c).None? && !(Escaped(s, c) && (ImageAt(s, c) || s[c] == '['))
    requires Onward(s, c).Some? ==> Agrees(s, Onward(s, c).value)
    ensures Agrees(s, c)
  {
    hide ParseAt, Escaped, NextSpecial, SpanEnd, Unrewritten;
    if ImageAt(s, c) {
      FailedImage(s, c);
    } else if s[c] == '`' && SpanEnd(s, c).None? {
      assert Unrewritten(s, Some(c)) == CheckerSpans(s, RunEnd(s, c)) by { UnrewrittenBehind(s, c); }
    }
  }

  lemma {:induction false} UnrewrittenBehind(s: string, c: nat)
    requires c <= |s|
    ensures Unrewritten(s, Some(c)) == CheckerSpans(s, RunEnd(s, c))
  {
  }

  /** On every line the checker recognises the rewriter's links first, in the same order, and then exactly what lies
      behind the first unclosed backtick run. */
  lemma {:induction false} ScannersAgree(s: string, c: nat)
    requires c <= |s|
    ensures CheckerSpans(s, c) == RewriterSpans(s, c) + Unrewritten(s, GivesUpAt(s, c))
    decreases |s| - c
  {
    if c < |s| {
      hide RewriterSpans, CheckerSpans, GivesUpAt, ParseAt, Escaped, NextSpecial, SpanEnd, Unrewritten;
      if Escaped(s, c) && (ImageAt(s, c) || s[c] == '[') {
        ScannersAgree(s, if ImageAt(s, c) then c + 2 else c + 1);
        AgreeOnEscape(s, c);
      } else if ParseAt(s, c).Some? {
        ScannersAgree(s, ParseAt(s, c).value.end);
        PlainIfParsed(s, c);
        AgreeOnLink(s, c);
      } else {
        if Onward(s, c).Some? {
          ScannersAgree(s, Onward(s, c).value);
        }
        AgreeOnText(s, c);
      }
    }
  }

  lemma {:induction false} PlainIfParsed(s: string, c: nat)
    requires c < |s| && ParseAt(s, c).Some?
    ensures ImageAt(s, c) || s[c] == '['
  {
  }

  /** The rewriter's spans are a prefix of the checker's; equal exactly when nothing lies behind an unclosed run. */
  lemma {:induction false} RewriterIsPrefix(s: string)
    ensures RewriterSpans(s, 0) <= CheckerSpans(s, 0)
    ensures RewriterSpans(s, 0) == CheckerSpans(s, 0) <==>
      GivesUpAt(s, 0).None? || CheckerSpans(s, RunEnd(s, GivesUpAt(s, 0).value)) == []
  {
    ScannersAgree(s, 0);
  }
}
