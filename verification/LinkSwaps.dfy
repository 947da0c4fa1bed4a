/** What the scanners make of a text in which one address has been exchanged for another. */
module LinkSwaps {
  import opened Options
  import opened MarkdownLinks
  import opened LinkScanners

  /** A character that no scan reacts to. */
  predicate Quiet(c: char) { c !in "\\[]()<>\"'`" && !IsSpace(c) }

  predicate AllQuiet(s: string, i: nat, j: nat)
    requires i <= j <= |s|
  {
    forall k :: i <= k < j ==> Quiet(s[k])
  }

  /** An address written without any character of the link syntax. */
  predicate Plain(w: string) { w != "" && AllQuiet(w, 0, |w|) }

  /** Two texts that differ in one address: s holds it from `from` to `before`, t from `from` to `after`. */
  datatype Swap = Swap(s: string, t: string, from: nat, before: nat, after: nat) {
    predicate Fine() {
      && 0 < from < before < |s| && from < after < |t|
      && s[..from] == t[..from] && s[before..] == t[after..]
      && s[from - 1] == '(' && AllQuiet(s, from, before) && AllQuiet(t, from, after) && s[before] in " )"
    }

    /** A position that is not inside the old address. */
    predicate Outside(p: nat) { p <= from || before <= p <= |s| }

    /** Where such a position ends up. */
    function At(p: nat): nat
      requires Fine() && Outside(p)
    {
      if p <= from then p else p - before + after
    }
  }

  lemma {:induction false} CharAt(w: Swap, p: nat)
    requires w.Fine() && p < |w.s| && (p < w.from || w.before <= p)
    ensures |w.t| - w.after == |w.s| - w.before && w.At(p) < |w.t| && w.t[w.At(p)] == w.s[p]
    ensures w.s[w.from - 1] == '(' == w.t[w.from - 1]
  {
    hide Quiet, AllQuiet;
    assert |w.s[w.before..]| == |w.t[w.after..]|;
    assert w.s[..w.from][w.from - 1] == w.t[..w.from][w.from - 1];
    if p < w.from {
      assert w.s[..w.from][p] == w.t[..w.from][p];
    } else {
      assert w.s[w.before..][p - w.before] == w.t[w.after..][p - w.before];
    }
  }

  // ----- Scans pass over quiet text -----

  lemma {:induction false} LabelPasses(s: string, i: nat, j: nat, depth: nat)
    requires depth >= 1 && i <= j <= |s| && AllQuiet(s, i, j)
    ensures LabelEnd(s, i, depth) == LabelEnd(s, j, depth)
    decreases j - i
  {
    if i < j {
      assert Quiet(s[i]);
      LabelPasses(s, i + 1, j, depth);
    }
  }

  /** Quotes are opened by quotation marks only. */
  predicate Quoted(m: Inside) { m.depth >= 1 && (m.quote.Some? ==> m.quote.value in "\"'") }

  lemma {:induction false} QuietChangesNothing(m: Inside, c: char)
    requires Quoted(m) && Quiet(c)
    ensures After(m, c) == m
  {
  }

  lemma {:induction false} AfterIsQuoted(m: Inside, c: char)
    requires Quoted(m) && After(m, c).depth > 0
    ensures Quoted(After(m, c))
  {
  }

  lemma {:induction false} TargetPasses(s: string, i: nat, j: nat, m: Inside)
    requires Quoted(m) && i <= j <= |s| && AllQuiet(s, i, j)
    ensures TargetEnd(s, i, m) == TargetEnd(s, j, m)
    decreases j - i
  {
    if i < j {
      assert Quiet(s[i]);
      QuietChangesNothing(m, s[i]);
      TargetPasses(s, i + 1, j, m);
    }
  }

  lemma {:induction false} NothingSpecial(s: string, i: nat, j: nat)
    requires i <= j < |s| && AllQuiet(s, i, j) && s[j] in " )"
    ensures forall k :: i <= k < j ==> !Special(s, k)
    ensures !Special(s, j)
  {
    forall k | i <= k < j ensures !Special(s, k) {
      assert Quiet(s[k]);
      assert k + 1 < j ==> Quiet(s[k + 1]);
    }
  }

  lemma {:induction false} NextPasses(s: string, i: nat, j: nat)
    requires i <= j <= |s| && forall k :: i <= k < j ==> !Special(s, k)
    ensures NextSpecial(s, i) == NextSpecial(s, j)
    decreases j - i
  {
    hide Special;
    if i < j {
      NextPasses(s, i + 1, j);
    }
  }

  lemma {:induction false} CloserPasses(s: string, i: nat, j: nat, n: nat)
    requires i <= j <= |s| && AllQuiet(s, i, j)
    ensures CloserEnd(s, i, n) == CloserEnd(s, j, n)
    decreases j - i
  {
    if i < j {
      assert Quiet(s[i]);
      CloserPasses(s, i + 1, j, n);
    }
  }

  // ----- Both texts alike, from any position outside the address -----

  lemma {:induction false} SameBackslashes(w: Swap, p: nat)
    requires w.Fine() && w.Outside(p)
    ensures w.At(p) <= |w.t| && Backslashes(w.t, w.At(p)) == Backslashes(w.s, p)
    decreases p
  {
    SameLength(w);
    if p > 0 && (p <= w.from || p > w.before) {
      CharAt(w, p - 1);
      SameBackslashes(w, p - 1);
    } else if p > 0 {
      assert Quiet(w.s[p - 1]) && Quiet(w.t[w.At(p) - 1]);
    }
  }

  lemma {:induction false} SameLength(w: Swap)
    requires w.Fine()
    ensures |w.t| - w.after == |w.s| - w.before
    ensures w.s[w.before] == w.t[w.after] && w.t[w.from - 1] == '('
  {
    CharAt(w, w.before);
  }

  lemma {:induction false} SameImage(w: Swap, p: nat)
    requires w.Fine() && w.Outside(p) && p != w.from
    ensures ImageAt(w.t, w.At(p)) == ImageAt(w.s, p)
    ensures p < |w.s| ==> w.At(p) < |w.t| && w.t[w.At(p)] == w.s[p]
    ensures p < |w.s| ==> Special(w.t, w.At(p)) == Special(w.s, p)
  {
    hide Quiet;
    SameLength(w);
    if p < |w.s| {
      CharAt(w, p);
      if p + 1 < |w.s| && p + 1 != w.from {
        CharAt(w, p + 1);
      }
    }
  }

  /** The position in the new text, if any. */
  function Moved(w: Swap, p: Option<nat>): Option<nat>
    requires w.Fine() && (p.Some? ==> w.Outside(p.value))
  {
    if p.Some? then Some(w.At(p.value)) else None
  }

  /** One step of a scan: same character, and the next positions are outside the address as well. */
  lemma {:induction false} SameChar(w: Swap, i: nat)
    requires w.Fine() && w.Outside(i) && i != w.from && i < |w.s|
    ensures w.At(i) < |w.t| && w.t[w.At(i)] == w.s[i] && (i + 1 < |w.s| <==> w.At(i) + 1 < |w.t|)
    ensures w.Outside(i + 1) && w.At(i + 1) == w.At(i) + 1
    ensures w.s[i] == '\\' && i + 1 < |w.s| ==> w.Outside(i + 2) && w.At(i + 2) == w.At(i) + 2
  {
    hide Quiet, AllQuiet;
    CharAt(w, i);
  }

  lemma {:induction false} LabelByCases(s: string, i: nat, depth: nat)
    requires depth >= 1 && i < |s|
    ensures LabelEnd(s, i, depth) ==
      if s[i] == '\\' && i + 1 < |s| then LabelEnd(s, i + 2, depth)
      else if s[i] == '[' then LabelEnd(s, i + 1, depth + 1)
      else if s[i] != ']' then LabelEnd(s, i + 1, depth)
      else if depth == 1 then Some(i) else LabelEnd(s, i + 1, depth - 1)
  {
  }

  lemma {:induction false} LabelAtEnd(s: string, i: nat, depth: nat)
    requires depth >= 1 && i >= |s|
    ensures LabelEnd(s, i, depth) == None
  {
  }

  /** The end of a label stays the end, at its new position. */
  predicate LabelMoves(w: Swap, i: nat, depth: nat)
    requires w.Fine() && w.Outside(i) && depth >= 1
  {
    var e := LabelEnd(w.s, i, depth);
    && (e.Some? ==> w.Outside(e.value) && e.value != w.from) && LabelEnd(w.t, w.At(i), depth) == Moved(w, e)
  }

  lemma {:induction false} LabelOverAddress(w: Swap, depth: nat)
    requires w.Fine() && depth >= 1 && LabelMoves(w, w.before, depth)
    ensures LabelMoves(w, w.from, depth)
  {
    LabelPasses(w.s, w.from, w.before, depth);
    LabelPasses(w.t, w.from, w.after, depth);
    hide LabelEnd;
  }

  lemma {:induction false} LabelFollows(w: Swap, i: nat, depth: nat, i1: nat, depth1: nat)
    requires w.Fine() && w.Outside(i) && w.Outside(i1) && depth >= 1 && depth1 >= 1 && LabelMoves(w, i1, depth1)
    requires LabelEnd(w.s, i, depth) == LabelEnd(w.s, i1, depth1)
    requires LabelEnd(w.t, w.At(i), depth) == LabelEnd(w.t, w.At(i1), depth1)
    ensures LabelMoves(w, i, depth)
  {
    hide LabelEnd, Swap.Fine;
  }

  lemma {:induction false} LabelCloses(w: Swap, i: nat)
    requires w.Fine() && w.Outside(i) && i < |w.s| && i != w.from && w.s[i] == ']'
    ensures LabelMoves(w, i, 1)
  {
    SameChar(w, i);
  }

  lemma {:induction false} LabelRunsOut(w: Swap, i: nat, depth: nat)
    requires w.Fine() && w.Outside(i) && depth >= 1 && i >= |w.s|
    ensures LabelMoves(w, i, depth)
  {
    SameLength(w);
  }

  lemma {:induction false} BehindIsOutside(w: Swap)
    requires w.Fine()
    ensures w.Outside(w.before) && w.Outside(w.from) && w.from < w.before <= |w.s|
  {
    hide AllQuiet;
  }

  lemma {:induction false} SameLabelEnd(w: Swap, i: nat, depth: nat)
    requires w.Fine() && w.Outside(i) && depth >= 1
    ensures LabelMoves(w, i, depth)
    decreases |w.s| - i
  {
    hide LabelEnd, LabelMoves, Swap.Fine, Swap.Outside, Swap.At, AllQuiet, Quiet;
    if i == w.from {
      BehindIsOutside(w);
      SameLabelEnd(w, w.before, depth);
      LabelOverAddress(w, depth);
    } else if i >= |w.s| {
      LabelRunsOut(w, i, depth);
    } else {
      SameChar(w, i);
      LabelByCases(w.s, i, depth);
      LabelByCases(w.t, w.At(i), depth);
      if w.s[i] == '\\' && i + 1 < |w.s| {
        SameLabelEnd(w, i + 2, depth);
        LabelFollows(w, i, depth, i + 2, depth);
      } else if w.s[i] == ']' && depth == 1 {
        LabelCloses(w, i);
      } else {
        var next := if w.s[i] == '[' then depth + 1 else if w.s[i] == ']' then depth - 1 else depth;
        SameLabelEnd(w, i + 1, next);
        LabelFollows(w, i, depth, i + 1, next);
      }
    }
  }

  lemma {:induction false} TargetByCases(s: string, i: nat, m: Inside)
    requires m.depth >= 1 && i < |s|
    ensures TargetEnd(s, i, m) ==
      if s[i] == '\\' && i + 1 < |s| then TargetEnd(s, i + 2, m)
      else if After(m, s[i]).depth == 0 then Some(i)
      else TargetEnd(s, i + 1, After(m, s[i]))
  {
    hide After;
  }

  lemma {:induction false} TargetAtEnd(s: string, i: nat, m: Inside)
    requires m.depth >= 1 && i >= |s|
    ensures TargetEnd(s, i, m) == None
  {
  }

  predicate TargetMoves(w: Swap, i: nat, m: Inside)
    requires w.Fine() && w.Outside(i) && m.depth >= 1
  {
    var e := TargetEnd(w.s, i, m);
    && (e.Some? ==> w.Outside(e.value) && e.value != w.from) && TargetEnd(w.t, w.At(i), m) == Moved(w, e)
  }

  lemma {:induction false} TargetOverAddress(w: Swap, m: Inside)
    requires w.Fine() && Quoted(m) && TargetMoves(w, w.before, m)
    ensures TargetMoves(w, w.from, m)
  {
    TargetPasses(w.s, w.from, w.before, m);
    TargetPasses(w.t, w.from, w.after, m);
    hide TargetEnd, After;
  }

  lemma {:induction false} TargetFollows(w: Swap, i: nat, m: Inside, i1: nat, m1: Inside)
    requires w.Fine() && w.Outside(i) && w.Outside(i1) && m.depth >= 1 && m1.depth >= 1 && TargetMoves(w, i1, m1)
    requires TargetEnd(w.s, i, m) == TargetEnd(w.s, i1, m1)
    requires TargetEnd(w.t, w.At(i), m) == TargetEnd(w.t, w.At(i1), m1)
    ensures TargetMoves(w, i, m)
  {
    hide TargetEnd, Swap.Fine;
  }

  lemma {:induction false} TargetCloses(w: Swap, i: nat, m: Inside)
    requires w.Fine() && w.Outside(i) && i < |w.s| && i != w.from && m.depth >= 1
    requires TargetEnd(w.s, i, m) == Some(i) && TargetEnd(w.t, w.At(i), m) == Some(w.At(i))
    ensures TargetMoves(w, i, m)
  {
    hide TargetEnd, Swap.Fine;
  }

  lemma {:induction false} TargetRunsOut(w: Swap, i: nat, m: Inside)
    requires w.Fine() && w.Outside(i) && m.depth >= 1 && i >= |w.s|
    ensures TargetMoves(w, i, m)
  {
    SameLength(w);
  }

  lemma {:induction false} SameTargetEnd(w: Swap, i: nat, m: Inside)
    requires w.Fine() && w.Outside(i) && Quoted(m)
    ensures TargetMoves(w, i, m)
    decreases |w.s| - i
  {
    hide TargetEnd, TargetMoves, Swap.Fine, Swap.Outside, Swap.At, AllQuiet, Quiet, After;
    if i == w.from {
      BehindIsOutside(w);
      SameTargetEnd(w, w.before, m);
      TargetOverAddress(w, m);
    } else if i >= |w.s| {
      TargetRunsOut(w, i, m);
    } else {
      SameChar(w, i);
      TargetByCases(w.s, i, m);
      TargetByCases(w.t, w.At(i), m);
      if w.s[i] == '\\' && i + 1 < |w.s| {
        SameTargetEnd(w, i + 2, m);
        TargetFollows(w, i, m, i + 2, m);
      } else if After(m, w.s[i]).depth > 0 {
        AfterIsQuoted(m, w.s[i]);
        SameTargetEnd(w, i + 1, After(m, w.s[i]));
        TargetFollows(w, i, m, i + 1, After(m, w.s[i]));
      } else {
        TargetCloses(w, i, m);
      }
    }
  }

  /** The slice between two positions on the same side of the address is the same in both texts. */
  lemma {:induction false} SameSlice(w: Swap, i: nat, j: nat)
    requires w.Fine() && i <= j <= |w.s| && (j <= w.from || w.before <= i)
    ensures w.At(i) <= w.At(j) <= |w.t| && w.t[w.At(i)..w.At(j)] == w.s[i..j]
  {
    hide Quiet, AllQuiet;
    SameLength(w);
    if j <= w.from {
      SliceOfHead(w.s, w.from, i, j);
      SliceOfHead(w.t, w.from, i, j);
    } else {
      SliceOfRest(w.s, w.before, i, j);
      SliceOfRest(w.t, w.after, w.At(i), w.At(j));
    }
  }

  lemma {:induction false} SliceOfHead(s: string, n: nat, i: nat, j: nat)
    requires i <= j <= n <= |s|
    ensures s[..n][i..j] == s[i..j]
  {
  }

  lemma {:induction false} SliceOfRest(s: string, n: nat, i: nat, j: nat)
    requires n <= i <= j <= |s|
    ensures s[n..][i - n..j - n] == s[i..j]
  {
  }

  /** The same link in both texts: equal if it ends before the address, and saying the same if it starts behind. */
  predicate Like(w: Swap, l: Link, m: Link)
    requires w.Fine()
  {
    && w.Outside(l.start) && w.Outside(l.end) && m.start == w.At(l.start) && m.end == w.At(l.end)
    && m.image == l.image
    && (l.end <= w.from ==> m == l)
    && (l.start >= w.before ==> m.caption == l.caption && m.target == l.target)
  }

  // ----- Parsing -----

  predicate ParsesMove(w: Swap, c: nat)
    requires w.Fine() && w.Outside(c) && c < |w.s| && w.At(c) < |w.t|
  {
    var l, m := ParseAt(w.s, c), ParseAt(w.t, w.At(c));
    (l.Some? <==> m.Some?) && (l.Some? ==> Like(w, l.value, m.value) && l.value.end != w.from)
  }

  /** A parse at any position outside the address comes out alike. */
  lemma {:induction false} SameParse(w: Swap, c: nat)
    requires w.Fine() && w.Outside(c) && c != w.from && c < |w.s|
    ensures w.At(c) < |w.t| && ParsesMove(w, c)
  {
    hide LabelEnd, TargetEnd, Quiet, AllQuiet, ImageAt, Special, Swap.Fine, Swap.Outside, Swap.At, ParseAt, ParsesMove;
    SameImage(w, c);
    if !ImageAt(w.s, c) && w.s[c] != '[' {
      NothingThere(w, c);
    } else {
      var from := c + if ImageAt(w.s, c) then 2 else 1;
      LabelStart(w, c);
      SameLabelEnd(w, from, 1);
      LabelMoved(w, from);
      var i := LabelEnd(w.s, from, 1);
      if i.Some? && i.value + 1 < |w.s| && w.s[i.value + 1] == '(' {
        AfterLabel(w, i.value);
        SameTarget(w, c, from, i.value);
      } else {
        if i.Some? {
          NoTarget(w, i.value);
        }
        NoLink(w.s, c);
        NoLink(w.t, w.At(c));
        NeitherParses(w, c);
      }
    }
  }

  lemma {:induction false} NothingThere(w: Swap, c: nat)
    requires w.Fine() && w.Outside(c) && c < |w.s| && w.At(c) < |w.t|
    requires !ImageAt(w.s, c) && w.s[c] != '[' && !ImageAt(w.t, w.At(c)) && w.t[w.At(c)] != '['
    ensures ParsesMove(w, c)
  {
    hide Swap.Fine, ImageAt;
  }

  lemma {:induction false} NeitherParses(w: Swap, c: nat)
    requires w.Fine() && w.Outside(c) && c < |w.s| && w.At(c) < |w.t|
    requires ParseAt(w.s, c).None? && ParseAt(w.t, w.At(c)).None?
    ensures ParsesMove(w, c)
  {
    hide Swap.Fine, ParseAt;
  }

  lemma {:induction false} LabelMoved(w: Swap, i: nat)
    requires w.Fine() && w.Outside(i) && LabelMoves(w, i, 1)
    ensures var e := LabelEnd(w.s, i, 1);
      && (e.Some? ==> w.Outside(e.value) && e.value != w.from) && LabelEnd(w.t, w.At(i), 1) == Moved(w, e)
  {
  }

  lemma {:induction false} NoLink(s: string, c: nat)
    requires c < |s|
    requires var i := LabelEnd(s, c + if ImageAt(s, c) then 2 else 1, 1);
      i.None? || i.value + 1 >= |s| || s[i.value + 1] != '('
    ensures ParseAt(s, c).None?
  {
    hide LabelEnd, TargetEnd, ImageAt;
  }

  lemma {:induction false} NoTarget(w: Swap, i: nat)
    requires w.Fine() && w.Outside(i) && i != w.from && i < |w.s| && w.s[i] == ']'
    requires i + 1 >= |w.s| || w.s[i + 1] != '('
    ensures w.At(i) + 1 >= |w.t| || w.t[w.At(i) + 1] != '('
  {
    hide Quiet, AllQuiet;
    SameLength(w);
    if i + 1 < |w.s| {
      CharAt(w, i + 1);
    }
  }

  /** What the parser makes of a label that ends at i, before an opening parenthesis. */
  lemma {:induction false} ParsedThere(s: string, c: nat, i: nat)
    requires c < |s| && (ImageAt(s, c) || s[c] == '[') && i + 1 < |s| && s[i + 1] == '('
    requires LabelEnd(s, c + if ImageAt(s, c) then 2 else 1, 1) == Some(i)
    ensures var from, j := c + (if ImageAt(s, c) then 2 else 1), TargetEnd(s, i + 2, OUTERMOST);
      ParseAt(s, c) ==
        if j.None? then None
        else Some(Link(c, j.value + 1, ImageAt(s, c), s[from..i], s[i + 2..j.value]))
  {
    hide LabelEnd, TargetEnd, ImageAt;
  }

  lemma {:induction false} SameTarget(w: Swap, c: nat, from: nat, i: nat)
    requires w.Fine() && w.Outside(c) && c != w.from && c < from <= i && i + 1 < |w.s| && w.At(c) < |w.t|
    requires w.Outside(from) && w.Outside(i) && w.Outside(i + 2) && i != w.from && w.At(i + 2) == w.At(i) + 2
    requires w.At(i) + 1 < |w.t| && w.t[w.At(i) + 1] == '(' == w.s[i + 1]
    requires ImageAt(w.t, w.At(c)) == ImageAt(w.s, c) && w.t[w.At(c)] == w.s[c] && (ImageAt(w.s, c) || w.s[c] == '[')
    requires from == c + (if ImageAt(w.s, c) then 2 else 1) && w.At(from) - w.At(c) == from - c
    requires LabelEnd(w.s, from, 1) == Some(i) && LabelEnd(w.t, w.At(from), 1) == Some(w.At(i))
    ensures ParsesMove(w, c)
  {
    hide LabelEnd, TargetEnd, Quiet, AllQuiet, ImageAt, ParseAt, Swap.Fine;
    SameTargetEnd(w, i + 2, OUTERMOST);
    ParsedThere(w.s, c, i);
    ParsedThere(w.t, w.At(c), w.At(i));
    var j := TargetEnd(w.s, i + 2, OUTERMOST);
    if j.Some? {
      SameParts(w, c, from, i, j.value);
    }
  }

  lemma {:induction false} LabelStart(w: Swap, c: nat)
    requires w.Fine() && w.Outside(c) && c != w.from && c < |w.s| && (ImageAt(w.s, c) || w.s[c] == '[')
    ensures var from := c + if ImageAt(w.s, c) then 2 else 1;
      w.Outside(from) && w.At(from) == w.At(c) + if ImageAt(w.s, c) then 2 else 1
  {
    hide Quiet, AllQuiet;
  }

  lemma {:induction false} AfterLabel(w: Swap, i: nat)
    requires w.Fine() && w.Outside(i) && i != w.from && i + 1 < |w.s| && w.s[i] == ']' && w.s[i + 1] == '('
    ensures w.Outside(i + 2) && w.At(i + 2) == w.At(i) + 2 && w.At(i) + 1 < |w.t| && w.t[w.At(i) + 1] == '('
  {
    hide Quiet, AllQuiet;
    SameLength(w);
    CharAt(w, i);
    CharAt(w, i + 1);
  }

  lemma {:induction false} SameParts(w: Swap, c: nat, from: nat, i: nat, j: nat)
    requires w.Fine() && c < from <= i < i + 2 <= j < |w.s|
    requires w.Outside(c) && w.Outside(from) && w.Outside(i) && w.Outside(i + 2) && w.Outside(j) && j != w.from
    requires w.s[j] == ')' && i != w.from && w.At(i + 2) == w.At(i) + 2
    ensures w.Outside(j + 1) && w.At(j + 1) == w.At(j) + 1 && j + 1 != w.from
    ensures w.At(from) <= w.At(i) && w.At(i + 2) <= w.At(j) < |w.t|
    ensures j + 1 <= w.from || w.before <= c ==>
      w.t[w.At(from)..w.At(i)] == w.s[from..i] && w.t[w.At(i + 2)..w.At(j)] == w.s[i + 2..j]
  {
    if j + 1 <= w.from || w.before <= c {
      SameSlice(w, from, i);
      SameSlice(w, i + 2, j);
    }
    hide Quiet;
  }

  // ----- Code spans and the next mark -----

  lemma {:induction false} NothingSpecialThere(w: Swap)
    requires w.Fine()
    ensures forall k :: w.from <= k < w.before ==> !Special(w.s, k)
    ensures |w.t| - w.after == |w.s| - w.before && forall k :: w.from <= k < w.after ==> !Special(w.t, k)
  {
    SameLength(w);
    NothingSpecial(w.s, w.from, w.before);
    NothingSpecial(w.t, w.from, w.after);
    hide Special, Quiet, AllQuiet;
  }

  /** The end of a run of backticks, and the next mark, are where they were. */
  lemma {:induction false} SameNext(w: Swap, c: nat)
    requires w.Fine() && w.Outside(c)
    ensures var n := NextSpecial(w.s, c);
      w.Outside(n) && n != w.from && w.At(c) <= |w.t| && NextSpecial(w.t, w.At(c)) == w.At(n)
    decreases |w.s| - c
  {
    hide Special, Quiet, AllQuiet;
    SameLength(w);
    if c == w.from {
      NothingSpecialThere(w);
      NextPasses(w.s, w.from, w.before);
      NextPasses(w.t, w.from, w.after);
      hide NextSpecial;
      SameNext(w, w.before);
    } else if c < |w.s| {
      SameImage(w, c);
      SameChar(w, c);
      if !Special(w.s, c) {
        SameNext(w, c + 1);
      }
    }
  }

  lemma {:induction false} SameRun(w: Swap, c: nat)
    requires w.Fine() && w.Outside(c) && c != w.from
    ensures var n := RunEnd(w.s, c);
      && w.Outside(n) && n != w.from && w.At(c) <= |w.t| && RunEnd(w.t, w.At(c)) == w.At(n)
      && w.At(n) - w.At(c) == n - c
    decreases |w.s| - c
  {
    hide Quiet, AllQuiet;
    SameLength(w);
    if c < |w.s| {
      SameChar(w, c);
      if w.s[c] == '`' {
        BacktickBefore(w, c);
        SameRun(w, c + 1);
      }
    }
  }

  lemma {:induction false} BacktickBefore(w: Swap, c: nat)
    requires w.Fine() && c < |w.s| && w.s[c] == '`'
    ensures c + 1 != w.from
  {
    hide AllQuiet;
  }

  predicate CloserMoves(w: Swap, c: nat, n: nat)
    requires w.Fine() && w.Outside(c) && w.At(c) <= |w.t| && c <= |w.s|
  {
    var e := CloserEnd(w.s, c, n);
    && (e.Some? ==> w.Outside(e.value) && e.value != w.from) && CloserEnd(w.t, w.At(c), n) == Moved(w, e)
  }

  lemma {:induction false} CloserOverAddress(w: Swap, n: nat)
    requires w.Fine() && w.At(w.before) <= |w.t| && CloserMoves(w, w.before, n)
    ensures CloserMoves(w, w.from, n)
  {
    CloserPasses(w.s, w.from, w.before, n);
    CloserPasses(w.t, w.from, w.after, n);
    hide CloserEnd;
  }

  lemma {:induction false} CloserByCases(s: string, c: nat, n: nat)
    requires c < |s|
    ensures CloserEnd(s, c, n) ==
      if s[c] != '`' then CloserEnd(s, c + 1, n)
      else if RunEnd(s, c) - c == n then Some(RunEnd(s, c))
      else CloserEnd(s, RunEnd(s, c), n)
  {
    hide RunEnd;
  }

  lemma {:induction false} CloserFollows(w: Swap, c: nat, d: nat, n: nat)
    requires w.Fine() && w.Outside(c) && w.Outside(d)
    requires w.At(c) <= |w.t| && w.At(d) <= |w.t| && c <= |w.s| && d <= |w.s|
    requires CloserEnd(w.s, c, n) == CloserEnd(w.s, d, n) && CloserEnd(w.t, w.At(c), n) == CloserEnd(w.t, w.At(d), n)
    requires CloserMoves(w, d, n)
    ensures CloserMoves(w, c, n)
  {
    hide CloserEnd, Swap.Fine;
  }

  lemma {:induction false} CloserFound(w: Swap, c: nat, e: nat, n: nat)
    requires w.Fine() && w.Outside(c) && w.At(c) <= |w.t| && c <= |w.s| && w.Outside(e) && e != w.from
    requires CloserEnd(w.s, c, n) == Some(e) && CloserEnd(w.t, w.At(c), n) == Some(w.At(e))
    ensures CloserMoves(w, c, n)
  {
    hide CloserEnd, Swap.Fine;
  }

  lemma {:induction false} InBounds(w: Swap, c: nat)
    requires w.Fine() && w.Outside(c)
    ensures c <= |w.s| && w.At(c) <= |w.t| && (c == |w.s| <==> w.At(c) == |w.t|)
  {
    SameLength(w);
  }

  lemma {:induction false} SameCloser(w: Swap, c: nat, n: nat)
    requires w.Fine() && w.Outside(c)
    ensures c <= |w.s| && w.At(c) <= |w.t| && CloserMoves(w, c, n)
    decreases |w.s| - c
  {
    hide CloserEnd, CloserMoves, RunEnd, Swap.Fine, Swap.Outside, Swap.At, AllQuiet, Quiet;
    InBounds(w, c);
    if c == w.from {
      BehindIsOutside(w);
      SameCloser(w, w.before, n);
      CloserOverAddress(w, n);
    } else if c == |w.s| {
      CloserRunsOut(w, n);
    } else {
      SameChar(w, c);
      CloserByCases(w.s, c, n);
      CloserByCases(w.t, w.At(c), n);
      if w.s[c] != '`' {
        SameCloser(w, c + 1, n);
        CloserFollows(w, c, c + 1, n);
      } else {
        SameRun(w, c);
        var e := RunEnd(w.s, c);
        if e - c == n {
          CloserFound(w, c, e, n);
        } else {
          SameCloser(w, e, n);
          CloserFollows(w, c, e, n);
        }
      }
    }
  }

  lemma {:induction false} CloserRunsOut(w: Swap, n: nat)
    requires w.Fine() && w.Outside(|w.s|) && w.At(|w.s|) == |w.t|
    ensures CloserMoves(w, |w.s|, n)
  {
    hide AllQuiet;
  }

  lemma {:induction false} SameSpan(w: Swap, c: nat)
    requires w.Fine() && w.Outside(c) && c != w.from && c < |w.s| && w.s[c] == '`'
    requires w.At(c) < |w.t| && w.t[w.At(c)] == '`'
    ensures var e := SpanEnd(w.s, c);
      && (e.Some? ==> w.Outside(e.value) && e.value != w.from) && SpanEnd(w.t, w.At(c)) == Moved(w, e)
  {
    hide CloserEnd, RunEnd, Swap.Fine, Swap.Outside, Swap.At, AllQuiet;
    SameRun(w, c);
    SameCloser(w, RunEnd(w.s, c), RunEnd(w.s, c) - c);
  }

  // ----- The scanners -----

  predicate AllLike(w: Swap, ls: seq<Link>, ms: seq<Link>)
    requires w.Fine()
  {
    |ms| == |ls| && forall j :: 0 <= j < |ls| ==> Like(w, ls[j], ms[j])
  }

  lemma {:induction false} LikeMore(w: Swap, l: Link, m: Link, ls: seq<Link>, ms: seq<Link>)
    requires w.Fine() && Like(w, l, m) && AllLike(w, ls, ms)
    ensures AllLike(w, [l] + ls, [m] + ms)
  {
    hide Swap.Fine, Like;
  }

  lemma {:induction false} NothingLike(w: Swap)
    requires w.Fine()
    ensures AllLike(w, [], [])
  {
  }

  /** Where a scan goes on when no link starts at c: for the rewriter it may end there. */
  function Goes(checker: bool, s: string, c: nat): (n: Option<nat>)
    requires c < |s|
    ensures n.Some? ==> c < n.value <= |s|
  {
    if Escaped(s, c) && ImageAt(s, c) then Some(c + 2)
    else if Escaped(s, c) && s[c] == '[' then Some(c + 1)
    else if !checker && ImageAt(s, c) then Some(c + 2)
    else if s[c] == '`' then (if checker && SpanEnd(s, c).None? then Some(RunEnd(s, c)) else SpanEnd(s, c))
    else Some(NextSpecial(s, c + 1))
  }

  /** What either scanner recognises from c on. */
  function Spans(checker: bool, s: string, c: nat): seq<Link>
    requires c <= |s|
  {
    if checker then CheckerSpans(s, c) else RewriterSpans(s, c)
  }

  predicate LinkAt(s: string, c: nat)
    requires c < |s|
  {
    ParseAt(s, c).Some? && !(Escaped(s, c) && (ImageAt(s, c) || s[c] == '['))
  }

  lemma {:induction false} SpansByCases(checker: bool, s: string, c: nat)
    requires c < |s|
    ensures Spans(checker, s, c) ==
      if LinkAt(s, c) then [ParseAt(s, c).value] + Spans(checker, s, ParseAt(s, c).value.end)
      else if Goes(checker, s, c).None? then []
      else Spans(checker, s, Goes(checker, s, c).value)
  {
    hide ParseAt, Escaped, ImageAt, NextSpecial, SpanEnd, RunEnd;
  }

  lemma {:induction false} SameLinks(w: Swap, c: nat)
    requires w.Fine() && w.Outside(c) && c != w.from && c < |w.s| && w.At(c) < |w.t|
    ensures Escaped(w.t, w.At(c)) == Escaped(w.s, c) && ImageAt(w.t, w.At(c)) == ImageAt(w.s, c)
    ensures w.t[w.At(c)] == w.s[c] && (ParseAt(w.t, w.At(c)).Some? <==> ParseAt(w.s, c).Some?)
    ensures w.Outside(c + 1) && w.At(c + 1) == w.At(c) + 1
  {
    hide ParseAt, Backslashes, Special, ImageAt, Like, Swap.Fine, Swap.Outside, Swap.At;
    SameBackslashes(w, c);
    SameImage(w, c);
    SameChar(w, c);
    SameParse(w, c);
  }

  lemma {:induction false} SameGoing(checker: bool, w: Swap, c: nat)
    requires w.Fine() && w.Outside(c) && c != w.from && c < |w.s| && w.At(c) < |w.t|
    ensures LinkAt(w.t, w.At(c)) <==> LinkAt(w.s, c)
    ensures !LinkAt(w.s, c) ==>
      var n := Goes(checker, w.s, c);
      && (n.Some? ==> w.Outside(n.value) && n.value != w.from) && Goes(checker, w.t, w.At(c)) == Moved(w, n)
  {
    hide ParseAt, Escaped, ImageAt, NextSpecial, SpanEnd, RunEnd, Swap.Fine, Swap.Outside, Swap.At;
    SameLinks(w, c);
    if w.s[c] == '`' {
      SameSpan(w, c);
      SameRun(w, c);
    }
    SameNext(w, c + 1);
    BracketBefore(w, c);
  }

  lemma {:induction false} BracketBefore(w: Swap, c: nat)
    requires w.Fine() && c < |w.s|
    ensures w.s[c] == '[' ==> c + 1 != w.from
    ensures w.Outside(c) && c != w.from && ImageAt(w.s, c) ==>
      w.Outside(c + 2) && c + 2 != w.from && w.At(c + 2) == w.At(c) + 2
  {
    hide AllQuiet;
  }

  /** Exchanging one plainly written address for another leaves all links of a line what they are, apart from the one
      it belongs to. */
  lemma {:induction false} SameSpans(checker: bool, w: Swap, c: nat)
    requires w.Fine() && w.Outside(c) && c != w.from
    ensures c <= |w.s| && w.At(c) <= |w.t|
    ensures AllLike(w, Spans(checker, w.s, c), Spans(checker, w.t, w.At(c)))
    decreases |w.s| - c
  {
    hide Swap.Fine, Swap.Outside, Swap.At, AllQuiet, Quiet, ParseAt, Like, AllLike, Spans, Goes, LinkAt;
    InBounds(w, c);
    if c == |w.s| {
      NoMoreSpans(checker, w.s);
      NoMoreSpans(checker, w.t);
      NothingLike(w);
    } else {
      SpansByCases(checker, w.s, c);
      SpansByCases(checker, w.t, w.At(c));
      SameGoing(checker, w, c);
      if LinkAt(w.s, c) {
        LinkLike(w, c);
        var l, m := ParseAt(w.s, c).value, ParseAt(w.t, w.At(c)).value;
        SameSpans(checker, w, l.end);
        LikeMore(w, l, m, Spans(checker, w.s, l.end), Spans(checker, w.t, m.end));
      } else if Goes(checker, w.s, c).Some? {
        SameSpans(checker, w, Goes(checker, w.s, c).value);
      } else {
        NothingLike(w);
      }
    }
  }

  lemma {:induction false} LinkLike(w: Swap, c: nat)
    requires w.Fine() && w.Outside(c) && c != w.from && c < |w.s| && w.At(c) < |w.t| && LinkAt(w.s, c)
    ensures ParseAt(w.s, c).Some? && ParseAt(w.t, w.At(c)).Some?
    ensures var l, m := ParseAt(w.s, c).value, ParseAt(w.t, w.At(c)).value;
      Like(w, l, m) && w.Outside(l.end) && l.end != w.from && m.end == w.At(l.end) && c < l.end
  {
    hide ParseAt, Swap.Fine;
    SameParse(w, c);
  }

  lemma {:induction false} NoMoreSpans(checker: bool, s: string)
    ensures Spans(checker, s, |s|) == []
  {
  }
}
