/** Whether a replaced link reads back as the address and title it was given. */
module LinkReplacement {
  import opened Options
  import opened MarkdownLinks
  import opened LinkDocuments

  // ----- What a replacement says -----

  /** A link that is replaced. */
  predicate Replaced(env: Env, l: Link) { RewriteTarget(env, l).Some? }

  /** The address it gets: the published one with the anchor of the old. */
  function NewAddress(env: Env, l: Link): string
    requires Replaced(env, l)
  {
    var href := SplitTarget(l.target).0;
    Address(env, l, Resolve(env, href).value) + href[Find(href, '#')..]
  }

  function Title(l: Link): string { SplitTarget(l.target).1 }

  function Joined(address: string, title: string): string {
    address + if title == "" then "" else " " + title
  }

  lemma {:induction false} ReplacementIsPrinted(env: Env, l: Link)
    requires Replaced(env, l)
    ensures RewriteTarget(env, l).value == Print(l.image, l.caption, Joined(NewAddress(env, l), Title(l)))
    ensures NewAddress(env, l) != ""
  {
    hide SplitTarget, Resolve, Address, Find, Print;
    var href := SplitTarget(l.target).0;
    assert Address(env, l, Resolve(env, href).value) != "";
  }

  // ----- Stripped text -----

  predicate Bare(s: string) { s != "" ==> !IsSpace(s[0]) && !IsSpace(s[|s| - 1]) }

  lemma {:induction false} LStripped(s: string)
    ensures |LStrip(s)| <= |s| && s[|s| - |LStrip(s)|..] == LStrip(s)
    ensures LStrip(s) != "" ==> !IsSpace(LStrip(s)[0])
    ensures LStrip(s) == s <==> s == "" || !IsSpace(s[0])
  {
    hide IsSpace;
    if s != "" && IsSpace(s[0]) {
      LStripped(s[1..]);
    }
  }

  lemma {:induction false} RStripped(s: string)
    ensures |RStrip(s)| <= |s| && s[..|RStrip(s)|] == RStrip(s)
    ensures RStrip(s) != "" ==> !IsSpace(RStrip(s)[|RStrip(s)| - 1])
    ensures RStrip(s) == s <==> s == "" || !IsSpace(s[|s| - 1])
  {
    hide IsSpace;
    if s != "" && IsSpace(s[|s| - 1]) {
      RStripped(s[..|s| - 1]);
    }
  }

  lemma {:induction false} StripBares(s: string)
    ensures |RStrip(LStrip(s))| <= |s| && Bare(RStrip(LStrip(s)))
    ensures RStrip(LStrip(s)) == s <==> Bare(s)
  {
    LStripped(s);
    RStripped(LStrip(s));
    hide IsSpace, LStrip, RStrip;
  }

  lemma {:induction false} TitleIsBare(l: Link)
    ensures Bare(Title(l))
  {
    var value := RStrip(LStrip(l.target));
    if value != "" {
      if value[0] == '<' {
        if Find(value, '>') < |value| {
          StripBares(value[Find(value, '>') + 1..]);
        }
      } else {
        StripBares(value[WordEnd(value, 0)..]);
      }
    }
    hide LStrip, RStrip, IsSpace, WordEnd;
  }

  // ----- Splitting what was joined -----

  /** No white space that is not escaped, and no escape left open at the end. */
  predicate OneWord(s: string, i: nat)
    requires i <= |s|
    decreases |s| - i
  {
    i == |s| ||
    (!IsSpace(s[i]) && if s[i] == '\\' then i + 1 < |s| && OneWord(s, i + 2) else OneWord(s, i + 1))
  }

  lemma {:induction false} WordEndsThere(a: string, title: string, i: nat)
    requires i <= |a|
    ensures WordEnd(a + " " + title, i) == |a| <==> OneWord(a, i)
    decreases |a| - i
  {
    hide IsSpace;
    assert IsSpace(' ') by { SpaceIsSpace(); }
    var s := a + " " + title;
    assert s[|a|] == ' ' && forall k :: 0 <= k < |a| ==> s[k] == a[k];
    if i < |a| && !IsSpace(a[i]) {
      if a[i] == '\\' {
        if i + 1 < |a| {
          WordEndsThere(a, title, i + 2);
        } else {
          assert WordEnd(s, i) >= i + 2;
        }
      } else {
        WordEndsThere(a, title, i + 1);
      }
    }
  }

  lemma {:induction false} SpaceIsSpace()
    ensures IsSpace(' ')
  {
  }

  /** An address that splits off again in front of this title. */
  predicate Separable(a: string, title: string) {
    && a != "" && a[0] != '<' && !IsSpace(a[0])
    && if title == "" then !IsSpace(a[|a| - 1]) && WordEnd(a, 0) == |a| else OneWord(a, 0)
  }

  lemma {:induction false} AngledParts(raw: string)
    requires var value := RStrip(LStrip(raw)); value != "" && value[0] == '<'
    ensures var value := RStrip(LStrip(raw));
      var end := Find(value, '>');
      SplitTarget(raw) ==
        if end == |value| then ("", "") else (value[1..end], RStrip(LStrip(value[end + 1..])))
  {
    hide LStrip, RStrip, IsSpace, WordEnd, Find;
  }

  lemma {:induction false} AngledIsShorter(raw: string)
    requires var value := RStrip(LStrip(raw)); value != "" && value[0] == '<'
    ensures var (href, title) := SplitTarget(raw); |href| + |title| < |raw| - 1 || (href, title) == ("", "")
  {
    AngledParts(raw);
    StripBares(raw);
    hide SplitTarget, LStrip, RStrip, Bare, Find;
    var value := RStrip(LStrip(raw));
    var end := Find(value, '>');
    if end < |value| {
      StripBares(value[end + 1..]);
      assert end >= 1 by { FindSkips(value, '>'); }
    }
  }

  lemma {:induction false} FindSkips(s: string, c: char)
    requires s != "" && s[0] != c
    ensures Find(s, c) >= 1
  {
  }

  lemma {:induction false} FirstIsBare(raw: string)
    ensures var href := SplitTarget(raw).0;
      href != "" && RStrip(LStrip(raw))[0] != '<' ==> !IsSpace(href[0]) && href[0] == RStrip(LStrip(raw))[0]
  {
    StripBares(raw);
    hide LStrip, RStrip, IsSpace;
  }

  /** Joining and splitting: an address comes apart from its title again exactly when it is separable. */
  lemma {:induction false} SplitsExactly(a: string, title: string)
    requires a != "" && Bare(title)
    ensures SplitTarget(Joined(a, title)) == (a, title) <==> Separable(a, title)
  {
    var raw := Joined(a, title);
    var value := RStrip(LStrip(raw));
    StripBares(raw);
    if IsSpace(a[0]) || a[0] == '<' {
      NeverSplits(a, title);
    } else if title == "" {
      assert raw == a;
      PlainSplit(a);
    } else {
      assert raw == a + " " + title && raw[|raw| - 1] == title[|title| - 1] && raw[0] == a[0];
      assert value == raw;
      TitledSplit(a, title);
    }
  }

  lemma {:induction false} NeverSplits(a: string, title: string)
    requires a != "" && (IsSpace(a[0]) || a[0] == '<')
    ensures SplitTarget(Joined(a, title)) != (a, title)
  {
    var raw := Joined(a, title);
    var value := RStrip(LStrip(raw));
    assert raw[0] == a[0];
    if value != "" && value[0] == '<' {
      AngledIsShorter(raw);
    } else if SplitTarget(raw) == (a, title) {
      StripBares(raw);
      FirstIsBare(raw);
      if a[0] == '<' {
        LStripped(raw);
        RStripped(LStrip(raw));
        AngleIsNoSpace();
      }
    }
  }

  lemma {:induction false} AngleIsNoSpace()
    ensures !IsSpace('<')
  {
  }

  lemma {:induction false} PlainSplit(a: string)
    requires a != "" && !IsSpace(a[0]) && a[0] != '<'
    ensures SplitTarget(a) == (a, "") <==> !IsSpace(a[|a| - 1]) && WordEnd(a, 0) == |a|
  {
    var value := RStrip(LStrip(a));
    StripBares(a);
    if !IsSpace(a[|a| - 1]) {
      assert value == a;
      var end := WordEnd(a, 0);
      assert a[|a|..] == "" && a[..|a|] == a;
      assert RStrip(LStrip("")) == "";
      hide LStrip, RStrip, IsSpace;
    } else {
      assert value != a;
      hide LStrip, RStrip, IsSpace;
      assert |value| < |a| by { if |value| == |a| { StrippedWhole(a); } }
    }
  }

  lemma {:induction false} StrippedWhole(a: string)
    requires |RStrip(LStrip(a))| == |a|
    ensures RStrip(LStrip(a)) == a
  {
    LStripped(a);
    RStripped(LStrip(a));
    hide LStrip, RStrip;
  }

  lemma {:induction false} TitledSplit(a: string, title: string)
    requires a != "" && !IsSpace(a[0]) && a[0] != '<' && title != "" && Bare(title)
    requires var raw := a + " " + title; RStrip(LStrip(raw)) == raw
    ensures SplitTarget(a + " " + title) == (a, title) <==> OneWord(a, 0)
  {
    var raw := a + " " + title;
    WordEndsThere(a, title, 0);
    assert raw[0] == a[0] && raw[..|a|] == a && raw[|a|..] == " " + title;
    SpacedTitle(title);
    hide LStrip, RStrip, IsSpace, OneWord, Bare;
    var end := WordEnd(raw, 0);
    hide WordEnd;
    assert |raw[..end]| == end;
  }

  lemma {:induction false} SpacedTitle(title: string)
    requires Bare(title)
    ensures RStrip(LStrip(" " + title)) == title
  {
    SpaceIsSpace();
    assert (" " + title)[1..] == title;
    StripBares(title);
    hide IsSpace, RStrip, Bare;
  }

  // ----- The whole replacement -----

  lemma {:induction false} SamePrint(image: bool, caption: string, t: string, u: string)
    requires Print(image, caption, t) == Print(image, caption, u)
    ensures t == u
  {
    PrintParts(image, caption, t);
    PrintParts(image, caption, u);
    hide Print;
  }

  /** The link at a position says the same as l, at a new address. */
  predicate ReadsAs(s: string, start: nat, end: nat, l: Link, address: string)
    requires start < |s|
  {
    var m := ParseAt(s, start);
    && m.Some? && m.value.end == end && m.value.image == l.image && m.value.caption == l.caption
    && SplitTarget(m.value.target) == (address, Title(l))
  }

  /** Wherever the replacement of a parsed link is put, the parser reads it back with the new address and the old title
      exactly when the new target is balanced and its address separable. */
  lemma {:induction false} ReplacementReadsBack(from: string, c: nat, env: Env, l: Link, s: string, start: nat)
    requires c < |from| && ParseAt(from, c) == Some(l) && Replaced(env, l)
    requires start < |s| && HasAt(s, start, RewriteTarget(env, l).value)
    ensures var text, address := RewriteTarget(env, l).value, NewAddress(env, l);
      ReadsAs(s, start, start + |text|, l, address) <==>
        GoodTarget(Joined(address, Title(l))) && Separable(address, Title(l))
  {
    ReplacementIsPrinted(env, l);
    TitleIsBare(l);
    ParseExactly(from, c, l);
    hide *;
    PrintedReadsBack(s, start, l, NewAddress(env, l));
  }

  lemma {:induction false} PrintedReadsBack(s: string, start: nat, l: Link, address: string)
    requires start < |s| && HasAt(s, start, Print(l.image, l.caption, Joined(address, Title(l))))
    requires GoodLabel(l.caption) && address != "" && Bare(Title(l))
    ensures ReadsAs(s, start, start + |Print(l.image, l.caption, Joined(address, Title(l)))|, l, address) <==>
      GoodTarget(Joined(address, Title(l))) && Separable(address, Title(l))
  {
    hide Title, ParseAt, SplitTarget, Separable, GoodTarget, GoodLabel, Joined, Print, Bare;
    SplitsExactly(address, Title(l));
    var target := Joined(address, Title(l));
    var end := start + |Print(l.image, l.caption, target)|;
    ParseExactly(s, start, Link(start, end, l.image, l.caption, target));
    if ReadsAs(s, start, end, l, address) {
      var m := ParseAt(s, start).value;
      ParsedPrints(s, start, m);
      assert Print(l.image, l.caption, m.target) == Print(l.image, l.caption, target);
      SamePrint(l.image, l.caption, m.target, target);
    }
  }

  // ----- It does happen -----

  /** Paths are files as they stand; none is published, so addresses are made from the repository's base. */
  const PLAIN := Env(s => Some(s), map[], "w", "r")

  lemma {:induction false} AngledSplit(path: string)
    requires path != "" && forall i :: 0 <= i < |path| ==> path[i] != '>'
    ensures SplitTarget("<" + path + ">") == (path, "")
  {
    var raw := "<" + path + ">";
    AngleIsNoSpace();
    CloserIsNoSpace();
    StripBares(raw);
    FindIs(raw, '>', |path| + 1);
    assert raw[1..|path| + 1] == path && raw[|path| + 2..] == "";
    assert RStrip(LStrip("")) == "";
    hide IsSpace, LStrip, RStrip, Find;
  }

  lemma {:induction false} CloserIsNoSpace()
    ensures !IsSpace('>')
  {
  }

  lemma {:induction false} FindIs(s: string, c: char, k: nat)
    requires k <= |s| && (k < |s| ==> s[k] == c) && forall i :: 0 <= i < k ==> s[i] != c
    ensures Find(s, c) == k
  {
    if k > 0 {
      FindIs(s[1..], c, k - 1);
    }
  }

  lemma {:induction false} PlainResolves(path: string)
    requires path != "" && forall i :: 0 <= i < |path| ==> path[i] != '#'
    ensures Find(path, '#') == |path| && Resolve(PLAIN, path) == Some(path)
  {
    FindIs(path, '#', |path|);
    assert path[..|path|] == path;
    hide Find;
  }

  lemma {:induction false} PlainBase(l: Link, path: string)
    requires !l.image
    ensures Address(PLAIN, l, path) == "w/" + path
  {
    assert "w" + "/" + path == "w/" + path;
  }

  lemma {:induction false} PlainAddress(l: Link, path: string)
    requires !l.image && path != "" && SplitTarget(l.target) == (path, "")
    requires forall i :: 0 <= i < |path| ==> path[i] != '#'
    ensures Replaced(PLAIN, l) && NewAddress(PLAIN, l) == "w/" + path && Title(l) == ""
  {
    hide SplitTarget, Find, Resolve, Address, Print;
    PlainResolves(path);
    PlainBase(l, path);
    assert path[|path|..] == "" && "w/" + path + "" == "w/" + path;
  }

  /** Angle brackets let an address hold white space; the replacement drops them, and the address breaks at the
      first. */
  lemma {:induction false} AnglesAreLost(l: Link, path: string)
    requires !l.image && path != "" && l.target == "<" + path + ">"
    requires forall i :: 0 <= i < |path| ==> path[i] != '>' && path[i] != '#' && path[i] != '\\'
    requires exists i :: 0 <= i < |path| && IsSpace(path[i])
    ensures Replaced(PLAIN, l) && NewAddress(PLAIN, l) == "w/" + path && !Separable("w/" + path, Title(l))
  {
    hide SplitTarget, IsSpace, Replaced, NewAddress, Title;
    AngledSplit(path);
    PlainAddress(l, path);
    var address := "w/" + path;
    var i :| 0 <= i < |path| && IsSpace(path[i]);
    assert address[i + 2] == path[i];
    assert forall k :: 0 <= k < |address| ==> address[k] != '\\';
    NoWord(address, 0, i + 2);
  }

  lemma {:induction false} NoWord(s: string, i: nat, k: nat)
    requires i <= k < |s| && IsSpace(s[k]) && forall j :: 0 <= j < |s| ==> s[j] != '\\'
    ensures !OneWord(s, i) && WordEnd(s, i) <= k
    decreases k - i
  {
    hide IsSpace;
    if i < k && !IsSpace(s[i]) {
      NoWord(s, i + 1, k);
    }
  }
}
