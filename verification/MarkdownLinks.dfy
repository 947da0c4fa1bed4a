/** The repository's inline-link parser: a cursor with nesting, escapes, quotes and angle brackets. */
module MarkdownLinks {
  import opened Options

  /** `prefix[label](target)` recognised in a segment, occupying `start..end`. */
  datatype Link = Link(start: nat, end: nat, image: bool, caption: string, target: string)

  function Prefix(image: bool): string { if image then "!" else "" }

  function Print(image: bool, caption: string, target: string): string {
    Prefix(image) + "[" + caption + "](" + target + ")"
  }

  predicate ImageAt(s: string, c: nat) { c + 1 < |s| && s[c] == '!' && s[c + 1] == '[' }

  // ----- Escapes -----

  function Backslashes(s: string, c: nat): nat
    requires c <= |s|
  {
    if c > 0 && s[c - 1] == '\\' then 1 + Backslashes(s, c - 1) else 0
  }

  predicate Escaped(s: string, c: nat)
    requires c <= |s|
  {
    Backslashes(s, c) % 2 == 1
  }

  method IsMarkdownEscaped(s: string, c: nat) returns (escaped: bool)
    requires c <= |s|
    ensures escaped <==> Escaped(s, c)
  {
    var count, pos := 0, c as int - 1;
    while pos >= 0 && s[pos] == '\\'
      invariant -1 <= pos < c
      invariant count + Backslashes(s, pos + 1) == Backslashes(s, c)
    {
      count := count + 1;
      pos := pos - 1;
    }
    escaped := count % 2 == 1;
  }

  // ----- The parser's two scans -----

  /** Index of the bracket that closes the label, scanning from i at the given depth. */
  function LabelEnd(s: string, i: nat, depth: nat): (e: Option<nat>)
    requires depth >= 1
    ensures e.Some? ==> i <= e.value < |s| && s[e.value] == ']'
    decreases |s| - i
  {
    if i >= |s| then None
    else if s[i] == '\\' && i + 1 < |s| then LabelEnd(s, i + 2, depth)
    else if s[i] == '[' then LabelEnd(s, i + 1, depth + 1)
    else if s[i] == ']' then (if depth == 1 then Some(i) else LabelEnd(s, i + 1, depth - 1))
    else LabelEnd(s, i + 1, depth)
  }

  /** Scanner state inside a target. */
  datatype Inside = Inside(depth: nat, angle: bool, quote: Option<char>)

  const OUTERMOST := Inside(1, false, None)

  /** The state after an unescaped character. */
  function After(m: Inside, c: char): Inside {
    if m.quote.Some? then (if c == m.quote.value then m.(quote := None) else m)
    else if c in "\"'" then m.(quote := Some(c))
    else if c == '<' then m.(angle := true)
    else if c == '>' && m.angle then m.(angle := false)
    else if c == '(' && !m.angle then m.(depth := m.depth + 1)
    else if c == ')' && !m.angle then m.(depth := if m.depth > 0 then m.depth - 1 else 0)
    else m
  }

  /** Index of the parenthesis that closes the target. */
  function TargetEnd(s: string, j: nat, m: Inside): (e: Option<nat>)
    requires m.depth >= 1
    ensures e.Some? ==> j <= e.value < |s| && s[e.value] == ')'
    decreases |s| - j
  {
    if j >= |s| then None
    else if s[j] == '\\' && j + 1 < |s| then TargetEnd(s, j + 2, m)
    else if After(m, s[j]).depth == 0 then Some(j)
    else TargetEnd(s, j + 1, After(m, s[j]))
  }

  /** What the parser recognises at a position. */
  function ParseAt(s: string, start: nat): (l: Option<Link>)
    requires start < |s|
    ensures l.Some? ==> l.value.start == start < l.value.end <= |s|
  {
    if !ImageAt(s, start) && s[start] != '[' then None
    else
      var labelStart := start + if ImageAt(s, start) then 2 else 1;
      var i := LabelEnd(s, labelStart, 1);
      if i.None? || i.value + 1 >= |s| || s[i.value + 1] != '(' then None
      else
        var j := TargetEnd(s, i.value + 2, OUTERMOST);
        if j.None? then None
        else Some(Link(start, j.value + 1, ImageAt(s, start), s[labelStart..i.value], s[i.value + 2..j.value]))
  }

  method ParseLinkAt(s: string, start: nat) returns (l: Option<Link>)
    requires start < |s|
    ensures l == ParseAt(s, start)
  {
    var image := ImageAt(s, start);
    if !image && s[start] != '[' {
      return None;
    }
    var labelStart := start + if image then 2 else 1;
    var i, depth := labelStart, 1;
    while i < |s|
      invariant labelStart <= i && depth >= 1
      invariant LabelEnd(s, i, depth) == LabelEnd(s, labelStart, 1)
      decreases |s| - i
    {
      if s[i] == '\\' && i + 1 < |s| {
        i := i + 2;
        continue;
      }
      if s[i] == '[' {
        depth := depth + 1;
      } else if s[i] == ']' {
        depth := depth - 1;
        if depth == 0 {
          break;
        }
      }
      i := i + 1;
    }
    if depth != 0 || i + 1 >= |s| || s[i + 1] != '(' {
      return None;
    }
    var j, m := i + 2, OUTERMOST;
    while j < |s|
      invariant i + 2 <= j && m.depth >= 1
      invariant TargetEnd(s, j, m) == TargetEnd(s, i + 2, OUTERMOST)
      decreases |s| - j
    {
      if s[j] == '\\' && j + 1 < |s| {
        j := j + 2;
        continue;
      }
      m := After(m, s[j]);
      if m.depth == 0 {
        break;
      }
      j := j + 1;
    }
    if m.depth != 0 {
      return None;
    }
    l := Some(Link(start, j + 1, image, s[labelStart..i], s[i + 2..j]));
  }

  // ----- The grammar, by itself -----

  /** Depth after reading a whole label, unless it closes itself or ends in a lone backslash. */
  function LabelDepth(caption: string, depth: nat): Option<nat>
    requires depth >= 1
    decreases |caption|
  {
    if caption == "" then Some(depth)
    else if caption[0] == '\\' then (if |caption| == 1 then None else LabelDepth(caption[2..], depth))
    else if caption[0] == '[' then LabelDepth(caption[1..], depth + 1)
    else if caption[0] == ']' then (if depth == 1 then None else LabelDepth(caption[1..], depth - 1))
    else LabelDepth(caption[1..], depth)
  }

  /** Balanced in its unescaped brackets. */
  predicate GoodLabel(caption: string) { LabelDepth(caption, 1) == Some(1) }

  function TargetState(target: string, m: Inside): Option<Inside>
    requires m.depth >= 1
    decreases |target|
  {
    if target == "" then Some(m)
    else if target[0] == '\\' then (if |target| == 1 then None else TargetState(target[2..], m))
    else if After(m, target[0]).depth == 0 then None
    else TargetState(target[1..], After(m, target[0]))
  }

  /** Balanced in its parentheses outside quotes and angles, with no quote or angle left open. */
  predicate GoodTarget(target: string) { TargetState(target, OUTERMOST) == Some(OUTERMOST) }

  lemma {:induction false} LabelEndIs(s: string, i: nat, depth: nat, e: nat)
    requires depth >= 1 && i <= e < |s|
    ensures LabelEnd(s, i, depth) == Some(e) <==> s[e] == ']' && LabelDepth(s[i..e], depth) == Some(1)
    decreases |s| - i
  {
    var l := s[i..e];
    if e > i {
      if s[i] == '\\' {
        if e > i + 1 {
          LabelEndIs(s, i + 2, depth, e);
          assert l[2..] == s[i + 2..e];
        }
      } else {
        assert l[1..] == s[i + 1..e];
        if s[i] == '[' {
          LabelEndIs(s, i + 1, depth + 1, e);
        } else if s[i] == ']' {
          if depth > 1 {
            LabelEndIs(s, i + 1, depth - 1, e);
          }
        } else {
          LabelEndIs(s, i + 1, depth, e);
        }
      }
    }
  }

  /** A parenthesis closes the target exactly in the outermost state. */
  lemma {:induction false} ClosesOnlyOutermost(m: Inside, c: char)
    requires m.depth >= 1
    ensures After(m, c).depth == 0 <==> c == ')' && m == OUTERMOST
  {
  }

  lemma {:induction false} TargetEndIs(s: string, j: nat, m: Inside, e: nat)
    requires m.depth >= 1 && j <= e < |s|
    ensures TargetEnd(s, j, m) == Some(e) <==> s[e] == ')' && TargetState(s[j..e], m) == Some(OUTERMOST)
    decreases |s| - j
  {
    ClosesOnlyOutermost(m, s[j]);
    hide After;
    var t := s[j..e];
    if e > j {
      if s[j] == '\\' {
        if e > j + 1 {
          TargetEndIs(s, j + 2, m, e);
          assert t[2..] == s[j + 2..e];
        }
      } else if After(m, s[j]).depth > 0 {
        assert t[1..] == s[j + 1..e];
        TargetEndIs(s, j + 1, After(m, s[j]), e);
      }
    } else {
      assert s[e] == '\\' ==> TargetEnd(s, j, m) != Some(e);
    }
  }

  /** s has the text w at position c. */
  predicate HasAt(s: string, c: nat, w: string) { c + |w| <= |s| && s[c..c + |w|] == w }

  /** The parser accepts a link exactly where its printed form stands in the segment with a balanced label and
      target; so printing undoes parsing and parsing undoes printing, in every context. */
  lemma {:induction false} ParseExactly(s: string, start: nat, l: Link)
    requires start < |s|
    ensures ParseAt(s, start) == Some(l) <==>
      && l.start == start && l.end == start + |Print(l.image, l.caption, l.target)|
      && HasAt(s, start, Print(l.image, l.caption, l.target))
      && GoodLabel(l.caption) && GoodTarget(l.target)
  {
    if ParseAt(s, start) == Some(l) {
      ParsedPrints(s, start, l);
    }
    if && l.start == start && l.end == start + |Print(l.image, l.caption, l.target)|
       && HasAt(s, start, Print(l.image, l.caption, l.target))
       && GoodLabel(l.caption) && GoodTarget(l.target) {
      PrintedParses(s, start, l);
    }
  }

  lemma {:induction false} ParsedPrints(s: string, start: nat, l: Link)
    requires start < |s| && ParseAt(s, start) == Some(l)
    ensures l.start == start && l.end == start + |Print(l.image, l.caption, l.target)|
    ensures HasAt(s, start, Print(l.image, l.caption, l.target))
    ensures GoodLabel(l.caption) && GoodTarget(l.target)
  {
    hide LabelEnd, TargetEnd, LabelDepth, TargetState;
    var labelStart := start + if l.image then 2 else 1;
    var i := LabelEnd(s, labelStart, 1).value;
    LabelEndIs(s, labelStart, 1, i);
    TargetEndIs(s, i + 2, OUTERMOST, TargetEnd(s, i + 2, OUTERMOST).value);
    PrintedSlices(s, start, labelStart, i, TargetEnd(s, i + 2, OUTERMOST).value, l.image);
  }

  lemma {:induction false} PrintedSlices(s: string, start: nat, labelStart: nat, i: nat, j: nat, image: bool)
    requires start < labelStart <= i && i + 1 < j < |s| && labelStart == start + |Prefix(image)| + 1
    requires s[start..labelStart] == Prefix(image) + "[" && s[i] == ']' && s[i + 1] == '(' && s[j] == ')'
    ensures s[start..j + 1] == Print(image, s[labelStart..i], s[i + 2..j])
  {
    assert s[start..j + 1] == s[start..labelStart] + s[labelStart..i] + s[i..i + 2] + s[i + 2..j] + s[j..j + 1];
    assert s[i..i + 2] == "](" && s[j..j + 1] == ")";
  }

  lemma {:induction false} PrintParts(image: bool, caption: string, target: string)
    ensures var w := Print(image, caption, target);
      var a := if image then 2 else 1;
      var i := a + |caption|;
      var j := i + 2 + |target|;
      && |w| == j + 1 && w[a..i] == caption && w[i] == ']' && w[i + 1] == '(' && w[i + 2..j] == target && w[j] == ')'
      && w[a - 1] == '[' && (image ==> w[0] == '!')
  {
  }

  lemma {:induction false} PlacedParts(s: string, start: nat, image: bool, caption: string, target: string)
    requires HasAt(s, start, Print(image, caption, target))
    ensures var a := start + if image then 2 else 1;
      var i := a + |caption|;
      var j := i + 2 + |target|;
      && j == start + |Print(image, caption, target)| - 1 && j < |s|
      && s[a..i] == caption && s[i] == ']' && s[i + 1] == '(' && s[i + 2..j] == target && s[j] == ')'
      && ImageAt(s, start) == image && (!image ==> s[start] == '[')
  {
    PrintParts(image, caption, target);
    hide Print;
    var w := Print(image, caption, target);
    var a := if image then 2 else 1;
    var i := a + |caption|;
    var j := i + 2 + |target|;
    WordAt(s, start, w, a, i);
    WordAt(s, start, w, i + 2, j);
    assert s[start + a - 1] == w[a - 1];
  }

  lemma {:induction false} WordAt(s: string, start: nat, w: string, lo: nat, hi: nat)
    requires HasAt(s, start, w) && lo <= hi <= |w|
    ensures s[start + lo..start + hi] == w[lo..hi]
    ensures forall k :: 0 <= k < |w| ==> s[start + k] == w[k]
  {
    var v := s[start..start + |w|];
    assert v == w && forall k :: 0 <= k < |w| ==> v[k] == s[start + k];
  }

  lemma {:induction false} PrintedParses(s: string, start: nat, l: Link)
    requires start < |s| && l.start == start && l.end == start + |Print(l.image, l.caption, l.target)|
    requires HasAt(s, start, Print(l.image, l.caption, l.target))
    requires GoodLabel(l.caption) && GoodTarget(l.target)
    ensures ParseAt(s, start) == Some(l)
  {
    hide LabelEnd, TargetEnd, LabelDepth, TargetState, Print, HasAt, ImageAt;
    PlacedParts(s, start, l.image, l.caption, l.target);
    var labelStart := start + if l.image then 2 else 1;
    var i := labelStart + |l.caption|;
    LabelEndIs(s, labelStart, 1, i);
    TargetEndIs(s, i + 2, OUTERMOST, i + 2 + |l.target|);
  }

  // ----- Splitting a target into address and title -----

  /** What `str.isspace` accepts. */
  predicate IsSpace(c: char) {
    c in ("\t\n\r \U{000B}\U{000C}\U{001C}\U{001D}\U{001E}\U{001F}\U{0085}\U{00A0}\U{1680}\U{2000}" +
       "\U{2001}\U{2002}\U{2003}\U{2004}\U{2005}\U{2006}\U{2007}\U{2008}\U{2009}\U{200A}\U{2028}" +
       "\U{2029}\U{202F}\U{205F}\U{3000}")
  }
}
