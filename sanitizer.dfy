/** HomepageScraper.clean_content: four pruning passes over the parsed
    page, collection of the text of content elements, and the string
    normalisation that follows. */
module Sanitizer {
  import opened Common
  import opened Dom

  // ------------------------------------------------------------------
  // Fixed tables and thresholds

  const NonContentTags: set<string> := {"script", "style", "noscript", "meta", "link"}
  const NavTags: set<string> := {"nav", "footer", "header"}
  const NavTextLimit: nat := 100
  const SelectorTextLimit: nat := 30
  const PartMinLength: nat := 2
  const SentenceMinLength: nat := 10
  const MediaTags: set<string> := {"img", "svg"}
  const HeadingTags: set<string> := {"h1", "h2", "h3", "h4", "h5", "h6"}
  const ContentTags: set<string> := HeadingTags +
    {"p", "div", "span", "li", "td", "th", "article", "section", "main"}

  /** The nineteen navigation selectors, in the order they are applied. */
  const NavigationSelectors: seq<Selector> := [
    Selector(ClassAttr, "nav"), Selector(ClassAttr, "menu"), Selector(ClassAttr, "sidebar"),
    Selector(ClassAttr, "footer"), Selector(ClassAttr, "header"),
    Selector(IdAttr, "nav"), Selector(IdAttr, "menu"), Selector(IdAttr, "sidebar"),
    Selector(IdAttr, "footer"), Selector(IdAttr, "header"),
    Selector(ClassAttr, "breadcrumb"), Selector(ClassAttr, "pagination"),
    Selector(ClassAttr, "social"), Selector(ClassAttr, "share"),
    Selector(ClassAttr, "cookie"), Selector(ClassAttr, "popup"), Selector(ClassAttr, "modal"),
    Selector(ClassAttr, "banner"), Selector(ClassAttr, "overlay")
  ]

  // ------------------------------------------------------------------
  // The pruning passes

  /** Pass 1: script, style, noscript, meta and link elements. */
  predicate NonContent(n: Node) {
    HasTag(n, NonContentTags)
  }

  /** Pass 2: a nav, footer or header element whose stripped text is short
      and that holds more links than half its word count. */
  predicate NavClutter(n: Node) {
    HasTag(n, NavTags) &&
    var t := NodeText(n, true);
    |t| < NavTextLimit && 2 * |FindAll(n, {"a"})| > WordCount(t)
  }

  /** Pass 3, one selector: a matching element with little text. */
  predicate SelectorClutter(sel: Selector, n: Node) {
    Matches(n, sel) && |NodeText(n, true)| < SelectorTextLimit
  }

  /** Pass 4: an element with no text and no img or svg below it. */
  predicate Blank(n: Node) {
    n.Element? && NodeText(n, true) == "" && !HasDescendant(n, MediaTags)
  }

  /** The document after the first `k` navigation selectors have been applied. */
  function AfterSelectors(ns: seq<Node>, k: nat): seq<Node>
    requires k <= |NavigationSelectors|
  {
    if k == 0 then ns
    else
      var sel := NavigationSelectors[k - 1];
      PruneAll(AfterSelectors(ns, k - 1), n => SelectorClutter(sel, n))
  }

  /** The document once all four passes have run. */
  function Pruned(doc: seq<Node>): seq<Node> {
    var t1 := PruneAll(doc, NonContent);
    var t2 := PruneAll(t1, NavClutter);
    var t3 := AfterSelectors(t2, |NavigationSelectors|);
    PruneAll(t3, Blank)
  }

  // ------------------------------------------------------------------
  // Collecting text

  predicate IsContent(n: Node) {
    HasTag(n, ContentTags)
  }

  /** What one content element contributes: its stripped text when longer
      than two characters, set off by newlines for a heading. */
  function Part(e: Node): seq<string>
    requires e.Element?
  {
    var t := NodeText(e, true);
    if |t| > PartMinLength then
      (if e.tag in HeadingTags then ["\n" + t + "\n"] else [t])
    else []
  }

  function Parts(es: seq<Node>): seq<string>
    requires forall i :: 0 <= i < |es| ==> es[i].Element?
    decreases |es|
  {
    if es == [] then [] else Parts(es[..|es| - 1]) + Part(es[|es| - 1])
  }

  /** The text parts of the pruned document, falling back to its whole text. */
  function TextParts(tree: seq<Node>): seq<string> {
    var es := Filter(Descendants(tree), IsContent);
    var ps := Parts(es);
    if ps == [] then [ForestText(tree, false)] else ps
  }

  // ------------------------------------------------------------------
  // String post-processing

  /** re.sub(r'\s+', ' ', s). */
  function CollapseSpaces(s: string): (r: string)
    ensures Tidy(r)
    ensures s != [] && !IsSpace(s[0]) ==> r != [] && r[0] == s[0]
    decreases |s|
  {
    if s == [] then []
    else if IsSpace(s[0]) then
      var r := [' '] + CollapseSpaces(TrimLeft(s[1..], IsSpace));
      assert r[1..] == CollapseSpaces(TrimLeft(s[1..], IsSpace));
      r
    else
      var r := [s[0]] + CollapseSpaces(s[1..]);
      assert r[1..] == CollapseSpaces(s[1..]);
      r
  }
  /** Unicode whitespace counts: a run of no-break spaces collapses to one
      space. */
  lemma NoBreakSpacesCollapse()
    ensures CollapseSpaces(['a', '\U{A0}', '\U{A0}', 'b']) == ['a', ' ', 'b']
  {
    CollapsePair('a', '\U{A0}', '\U{A0}', 'b');
  }

  /** Two whitespace characters of any kind between two others become one space. */
  lemma CollapsePair(x: char, w1: char, w2: char, y: char)
    requires !IsSpace(x) && IsSpace(w1) && IsSpace(w2) && !IsSpace(y)
    ensures CollapseSpaces([x, w1, w2, y]) == [x, ' ', y]
  {
    var t := [w2, y];
    CollapseSingle(y);
    TrimOne(w2, y);
    CollapseRun(w1, t);
    var u := [w1] + t;
    assert CollapseSpaces(u) == [' ', y];
    CollapseKeep(x, u);
    assert [x] + u == [x, w1, w2, y];
  }

  lemma CollapseSingle(y: char)
    requires !IsSpace(y)
    ensures CollapseSpaces([y]) == [y]
  {
    CollapseKeep(y, []);
    assert [y] + [] == [y];
  }

  lemma TrimOne(w: char, y: char)
    requires IsSpace(w) && !IsSpace(y)
    ensures TrimLeft([w, y], IsSpace) == [y]
  {
    assert [w, y][1..] == [y];
  }



  lemma CollapseKeep(c: char, rest: string)
    requires !IsSpace(c)
    ensures CollapseSpaces([c] + rest) == [c] + CollapseSpaces(rest)
  {
    assert ([c] + rest)[1..] == rest;
  }

  lemma CollapseRun(c: char, rest: string)
    requires IsSpace(c)
    ensures CollapseSpaces([c] + rest) == [' '] + CollapseSpaces(TrimLeft(rest, IsSpace))
  {
    assert ([c] + rest)[1..] == rest;
  }


  /** An ideographic or no-break space at either end is stripped. */
  lemma NoBreakSpacesStrip()
    ensures Strip(['\U{A0}', 'o', 'k', '\U{3000}']) == ['o', 'k']
  {
    var t := ['\U{A0}', 'o', 'k', '\U{3000}'];
    assert IsSpace('\U{A0}') && IsSpace('\U{3000}') && !IsSpace('o') && !IsSpace('k');
    assert t[..3] == ['\U{A0}', 'o', 'k'];
    assert TrimRight(t[..3], IsSpace) == t[..3];
    assert TrimRight(t, IsSpace) == ['\U{A0}', 'o', 'k'];
    assert ['\U{A0}', 'o', 'k'][1..] == ['o', 'k'];
    assert TrimLeft(['o', 'k'], IsSpace) == ['o', 'k'];
  }



  /** Every whitespace character is a plain space and no two whitespace
      characters are adjacent. */
  predicate Tidy(s: string)
    decreases |s|
  {
    s == [] ||
    ((IsSpace(s[0]) ==> s[0] == ' ' && (|s| > 1 ==> !IsSpace(s[1]))) && Tidy(s[1..]))
  }

  /** The position within `w` of its last newline. */
  function LastNewline(w: string): (r: Option<nat>)
    ensures r.Some? ==> r.value < |w| && w[r.value] == '\n'
    decreases |w|
  {
    if w == [] then None
    else if w[|w| - 1] == '\n' then Some(|w| - 1)
    else LastNewline(w[..|w| - 1])
  }

  /** re.sub(r'\n\s*\n', '\n\n', s): from a newline, the greedy `\s*`
      backs off to the last newline of the whitespace run that follows. */
  function ParagraphBreaks(s: string): string
    decreases |s|
  {
    if s == [] then []
    else if s[0] == '\n' then
      var run := s[1..|s| - |TrimLeft(s[1..], IsSpace)|];
      match LastNewline(run)
      case Some(j) => "\n\n" + ParagraphBreaks(s[j + 2..])
      case None => [s[0]] + ParagraphBreaks(s[1..])
    else [s[0]] + ParagraphBreaks(s[1..])
  }

  predicate IsTerm(c: char) {
    c == '.' || c == '!' || c == '?'
  }

  predicate NoTerm(s: string) {
    '.' !in s && '!' !in s && '?' !in s
  }

  /** re.split(r'[.!?]+', s): the pieces between maximal runs of
      sentence terminators. */
  function SplitTerm(s: string): (r: seq<string>)
    ensures |r| >= 1
    ensures |r[0]| <= |s| && r[0] == s[..|r[0]|]
    ensures forall p :: p in r ==> NoTerm(p)
    decreases |s|
  {
    if s == [] then [""]
    else if IsTerm(s[0]) then [""] + SplitTerm(TrimLeft(s[1..], IsTerm))
    else
      var rest := SplitTerm(s[1..]);
      var r := [[s[0]] + rest[0]] + rest[1..];
      assert forall p :: p in rest[1..] ==> p in rest;
      assert rest[0] in rest;
      r
  }

  /** The loop over sentences: strip each, keep those longer than ten characters. */
  function KeepSentence(s: string): seq<string> {
    var t := Strip(s);
    if |t| > SentenceMinLength then [t] else []
  }

  function Kept(ss: seq<string>): seq<string>
    decreases |ss|
  {
    if ss == [] then [] else Kept(ss[..|ss| - 1]) + KeepSentence(ss[|ss| - 1])
  }

  /** re.sub(r'\.\s*\.', '.', s), scanning left to right. */
  function CollapseDoublePeriods(s: string): string
    decreases |s|
  {
    if s == [] then []
    else if s[0] == '.' then
      var rest := TrimLeft(s[1..], IsSpace);
      if rest != [] && rest[0] == '.' then ['.'] + CollapseDoublePeriods(rest[1..])
      else [s[0]] + CollapseDoublePeriods(s[1..])
    else [s[0]] + CollapseDoublePeriods(s[1..])
  }

  /** The sentences that survive the fragment filter. */
  function Sentences(joined: string): seq<string> {
    Kept(SplitTerm(ParagraphBreaks(CollapseSpaces(joined))))
  }

  /** Everything after the text parts are joined. */
  function PostProcess(joined: string): string {
    var t := Join(Sentences(joined), ". ");
    Strip(CollapseDoublePeriods(CollapseSpaces(t)))
  }

  /** clean_content as a function of the raw input and its parse tree. */
  function CleanSpec(html: string, doc: seq<Node>): string {
    if html == [] then "" else PostProcess(Join(TextParts(Pruned(doc)), " "))
  }

  // ------------------------------------------------------------------
  // What the output looks like

  /** A kept sentence. */
  predicate Good(c: string) {
    |c| > SentenceMinLength && Tidy(c) && NoTerm(c) && !IsSpace(c[0]) && !IsSpace(c[|c| - 1])
  }

  /** No newline, no '!' or '?', no two adjacent whitespace characters, no
      whitespace other than ' ', and no whitespace at either end. */
  predicate Clean(s: string) {
    Tidy(s) && '\n' !in s && '!' !in s && '?' !in s &&
    (s != [] ==> !IsSpace(s[0]) && !IsSpace(s[|s| - 1]))
  }

  // ------------------------------------------------------------------
  // Lemmas about Tidy

  lemma {:induction false} TidySuffix(s: string, k: nat)
    requires Tidy(s) && k <= |s|
    ensures Tidy(s[k..])
    decreases k
  {
    if k > 0 {
      assert s[1..][k - 1..] == s[k..];
      TidySuffix(s[1..], k - 1);
    }
  }

  lemma {:induction false} TidyPrefix(s: string, k: nat)
    requires Tidy(s) && k <= |s|
    ensures Tidy(s[..k])
    decreases |s|
  {
    if k > 0 {
      assert s[..k][1..] == s[1..][..k - 1];
      TidyPrefix(s[1..], k - 1);
    }
  }

  lemma {:induction false} TidyAppend(a: string, b: string)
    requires Tidy(a) && Tidy(b)
    requires a != [] && b != [] ==> !(IsSpace(a[|a| - 1]) && IsSpace(b[0]))
    ensures Tidy(a + b)
    decreases |a|
  {
    if a == [] {
      assert a + b == b;
    } else {
      assert (a + b)[1..] == a[1..] + b;
      TidyAppend(a[1..], b);
    }
  }

  lemma {:induction false} TidyNoNewline(s: string)
    requires Tidy(s)
    ensures '\n' !in s
    decreases |s|
  {
    if s != [] {
      TidyNoNewline(s[1..]);
      assert s == [s[0]] + s[1..];
    }
  }

  /** A tidy string is left alone by the whitespace collapse. */
  lemma {:induction false} CollapseTidy(s: string)
    requires Tidy(s)
    ensures CollapseSpaces(s) == s
    decreases |s|
  {
    if s != [] {
      CollapseTidy(s[1..]);
      if IsSpace(s[0]) {
        assert TrimLeft(s[1..], IsSpace) == s[1..];
      }
      assert s == [s[0]] + s[1..];
    }
  }

  lemma StripTidy(s: string)
    requires Tidy(s)
    ensures Tidy(Strip(s))
  {
    var r := TrimRight(s, IsSpace);
    TidyPrefix(s, |r|);
    TidySuffix(r, |r| - |TrimLeft(r, IsSpace)|);
  }

  /** Pieces of a tidy string are tidy. */
  lemma {:induction false} SplitTermTidy(s: string)
    requires Tidy(s)
    ensures forall p :: p in SplitTerm(s) ==> Tidy(p)
    decreases |s|
  {
    if s != [] {
      if IsTerm(s[0]) {
        var t := TrimLeft(s[1..], IsTerm);
        TidySuffix(s, |s| - |t|);
        assert s[|s| - |t|..] == t;
        SplitTermTidy(t);
      } else {
        var rest := SplitTerm(s[1..]);
        TidySuffix(s, 1);
        SplitTermTidy(s[1..]);
        assert [s[0]] + rest[0] == s[..1 + |rest[0]|];
        TidyPrefix(s, 1 + |rest[0]|);
      }
    }
  }

  // ------------------------------------------------------------------
  // Lemmas about the sentence filter

  lemma {:induction false} KeptAppend(a: seq<string>, b: seq<string>)
    ensures Kept(a + b) == Kept(a) + Kept(b)
    decreases |b|
  {
    if b == [] {
      assert a + b == a;
    } else {
      var b' := b[..|b| - 1];
      var k := KeepSentence(b[|b| - 1]);
      assert (a + b)[..|a + b| - 1] == a + b';
      assert (a + b)[|a + b| - 1] == b[|b| - 1];
      assert Kept(a + b) == Kept(a + b') + k;
      assert Kept(b) == Kept(b') + k;
      KeptAppend(a, b');
      assert Kept(a + b') + k == Kept(a) + (Kept(b') + k);
    }
  }

  lemma NoTermSlice(s: string, a: nat, b: nat)
    requires NoTerm(s) && a <= b <= |s|
    ensures NoTerm(s[a..b])
  {
    forall k | 0 <= k < b - a ensures !IsTerm(s[a..b][k]) {
      assert s[a..b][k] == s[a + k];
      assert s[a + k] in s;
    }
  }

  /** Stripping a tidy, terminator-free piece keeps it so. */
  lemma StripKeeps(s: string)
    requires Tidy(s) && NoTerm(s)
    ensures Tidy(Strip(s)) && NoTerm(Strip(s))
  {
    StripTidy(s);
    var r := TrimRight(s, IsSpace);
    var t := Strip(s);
    assert t == r[|r| - |t|..];
    assert t == s[|r| - |t|..|r|];
    NoTermSlice(s, |r| - |t|, |r|);
  }

  lemma {:induction false} KeptGood(ss: seq<string>)
    requires forall p :: p in ss ==> Tidy(p) && NoTerm(p)
    ensures forall c :: c in Kept(ss) ==> Good(c)
    decreases |ss|
  {
    if ss != [] {
      var last := ss[|ss| - 1];
      assert last in ss;
      forall p | p in ss[..|ss| - 1] ensures Tidy(p) && NoTerm(p) {
        assert p in ss;
      }
      KeptGood(ss[..|ss| - 1]);
      KeepSentenceGood(last);
      var a, b := Kept(ss[..|ss| - 1]), KeepSentence(last);
      assert Kept(ss) == a + b;
      forall c | c in a + b ensures Good(c) {
        if c in a {} else { assert c in b; }
      }
    }
  }

  lemma KeepSentenceGood(s: string)
    requires Tidy(s) && NoTerm(s)
    ensures forall c :: c in KeepSentence(s) ==> Good(c)
  {
    var t := Strip(s);
    StripKeeps(s);
    assert t != [] ==> !IsSpace(t[0]) && !IsSpace(t[|t| - 1]);
    if |t| > SentenceMinLength {
      assert Good(t);
      assert KeepSentence(s) == [t];
    } else {
      assert KeepSentence(s) == [];
    }
  }

  // ------------------------------------------------------------------
  // A join of good sentences

  lemma JoinCons(xs: seq<string>, sep: string)
    requires |xs| > 1
    ensures Join(xs, sep) == xs[0] + (sep + Join(xs[1..], sep))
  {
  }

  /** A join starts with its first element. */
  lemma {:induction false} JoinFirst(xs: seq<string>, sep: string)
    requires xs != []
    ensures |Join(xs, sep)| >= |xs[0]| && Join(xs, sep)[..|xs[0]|] == xs[0]
  {
    if |xs| > 1 {
      JoinCons(xs, sep);
    }
  }

  /** Every sentence of `cs` is good. */
  predicate AllGood(cs: seq<string>)
    decreases |cs|
  {
    cs == [] || (Good(cs[0]) && AllGood(cs[1..]))
  }

  lemma {:induction false} AllGoodFromMembers(cs: seq<string>)
    requires forall c :: c in cs ==> Good(c)
    ensures AllGood(cs)
    decreases |cs|
  {
    if cs != [] {
      assert cs[0] in cs;
      forall x | x in cs[1..] ensures Good(x) { assert x in cs; }
      AllGoodFromMembers(cs[1..]);
    }
  }

  lemma TidySeparator()
    ensures Tidy(". ")
  {
    assert ". "[1..] == " ";
    assert " "[1..] == "";
  }

  lemma {:induction false} JoinClean(cs: seq<string>)
    requires AllGood(cs)
    ensures var j := Join(cs, ". ");
      Tidy(j) && '!' !in j && '?' !in j &&
      (j != [] ==> !IsSpace(j[0]) && !IsSpace(j[|j| - 1]) && j[0] != '.')
    decreases |cs|
  {
    if |cs| > 1 {
      var c := cs[0];
      var rest := Join(cs[1..], ". ");
      JoinClean(cs[1..]);
      JoinFirst(cs[1..], ". ");
      assert rest != [];
      TidySeparator();
      TidyAppend(". ", rest);
      TidyAppend(c, ". " + rest);
      JoinCons(cs, ". ");
      var j := c + (". " + rest);
      assert j[0] == c[0];
      assert j[|j| - 1] == rest[|rest| - 1];
    }
  }

  lemma {:induction false} PeriodFreePrefix(c: string, t: string)
    requires '.' !in c
    ensures CollapseDoublePeriods(c + t) == c + CollapseDoublePeriods(t)
    decreases |c|
  {
    if c == [] {
      assert c + t == t;
    } else {
      assert (c + t)[0] == c[0];
      assert (c + t)[1..] == c[1..] + t;
      assert c == [c[0]] + c[1..];
      PeriodFreePrefix(c[1..], t);
    }
  }

  /** A join of two or more good sentences, taken apart at its first separator. */
  lemma JoinTail(cs: seq<string>)
    requires |cs| > 1 && AllGood(cs)
    ensures Join(cs, ". ") == cs[0] + (". " + Join(cs[1..], ". "))
    ensures var rest := Join(cs[1..], ". ");
      rest != [] && !IsSpace(rest[0]) && rest[0] != '.'
  {
    JoinCons(cs, ". ");
    JoinClean(cs[1..]);
    JoinFirst(cs[1..], ". ");
  }

  lemma CollapseDoublePeriodsSeparator(rest: string)
    requires rest != [] && !IsSpace(rest[0]) && rest[0] != '.'
    ensures CollapseDoublePeriods(". " + rest) == ". " + CollapseDoublePeriods(rest)
  {
    DotSpaceShape(rest);
    DotSpaceStep(rest);
  }

  lemma DotSpaceShape(rest: string)
    ensures ". " + rest == ['.'] + ([' '] + rest)
  {
  }

  lemma DotSpaceStep(rest: string)
    requires rest != [] && !IsSpace(rest[0]) && rest[0] != '.'
    ensures CollapseDoublePeriods(['.'] + ([' '] + rest)) == ['.'] + ([' '] + CollapseDoublePeriods(rest))
  {
    SeparatorTrim(rest);
    CollapseDoublePeriodsLoneDot([' '] + rest);
    CollapseDoublePeriodsSpace(rest);
  }

  lemma SeparatorTrim(rest: string)
    requires rest != [] && !IsSpace(rest[0])
    ensures TrimLeft([' '] + rest, IsSpace) == rest
  {
    TrimLeftStop(rest, IsSpace);
    assert ([' '] + rest)[1..] == rest;
  }

  lemma CollapseDoublePeriodsSpace(rest: string)
    ensures CollapseDoublePeriods([' '] + rest) == [' '] + CollapseDoublePeriods(rest)
  {
    assert ([' '] + rest)[1..] == rest;
  }

  lemma CollapseDoublePeriodsLoneDot(t: string)
    requires var r := TrimLeft(t, IsSpace); r == [] || r[0] != '.'
    ensures CollapseDoublePeriods(['.'] + t) == ['.'] + CollapseDoublePeriods(t)
  {
    assert (['.'] + t)[1..] == t;
  }

  /** No two periods of a join of good sentences are separated by
      whitespace only, so the double-period collapse changes nothing. */
  lemma {:induction false} CollapseDoublePeriodsJoin(cs: seq<string>)
    requires AllGood(cs)
    ensures CollapseDoublePeriods(Join(cs, ". ")) == Join(cs, ". ")
    decreases |cs|
  {
    if |cs| == 1 {
      PeriodFreePrefix(cs[0], "");
      assert cs[0] + "" == cs[0];
    } else if |cs| > 1 {
      JoinTail(cs);
      var rest := Join(cs[1..], ". ");
      CollapseDoublePeriodsJoin(cs[1..]);
      CollapseDoublePeriodsSeparator(rest);
      PeriodFreePrefix(cs[0], ". " + rest);
    }
  }

  lemma TrimLeftStop(s: string, drop: char -> bool)
    requires s != [] && !drop(s[0])
    ensures TrimLeft(s, drop) == s
  {
  }

  lemma StripClean(s: string)
    requires s != [] ==> !IsSpace(s[0]) && !IsSpace(s[|s| - 1])
    ensures Strip(s) == s
  {
  }

  lemma {:induction false} SplitTermNoTermPrefix(c: string, t: string)
    requires NoTerm(c)
    ensures SplitTerm(c + t) == [c + SplitTerm(t)[0]] + SplitTerm(t)[1..]
    decreases |c|
  {
    if c == [] {
      assert c + t == t;
      var r := SplitTerm(t);
      assert c + r[0] == r[0];
      assert r == [r[0]] + r[1..];
    } else {
      assert (c + t)[0] == c[0];
      assert (c + t)[1..] == c[1..] + t;
      assert c == [c[0]] + c[1..];
      assert c[0] in c;
      assert !IsTerm((c + t)[0]);
      SplitTermNoTermPrefix(c[1..], t);
      var rest := SplitTerm(c[1..] + t);
      assert rest == [c[1..] + SplitTerm(t)[0]] + SplitTerm(t)[1..];
      assert SplitTerm(c + t) == [[c[0]] + rest[0]] + rest[1..];
      assert [c[0]] + rest[0] == c + SplitTerm(t)[0];
      assert rest[1..] == SplitTerm(t)[1..];
    }
  }

  lemma StripPadded(p: string, c: string)
    requires p == "" || p == " "
    requires c != [] && !IsSpace(c[0]) && !IsSpace(c[|c| - 1])
    ensures Strip(p + c) == c
  {
    var s := p + c;
    assert s[|s| - 1] == c[|c| - 1];
    assert TrimRight(s, IsSpace) == s;
    if p == " " {
      assert s[0] == ' ' && s[1..] == c;
      assert TrimLeft(c, IsSpace) == c;
      assert TrimLeft(s, IsSpace) == c;
    } else {
      assert s == c;
    }
  }

  /** Re-splitting a join of good sentences, with an optional leading
      space, gives the same sentences back. */
  lemma {:induction false} SplitJoin(p: string, cs: seq<string>)
    requires p == "" || p == " "
    requires cs != [] && AllGood(cs)
    ensures Kept(SplitTerm(p + Join(cs, ". "))) == cs
    decreases |cs|
  {
    if |cs| == 1 {
      SplitJoinSingleton(p, cs);
    } else {
      JoinTail(cs);
      SplitJoin(" ", cs[1..]);
      SplitJoinStep(p, cs[0], Join(cs[1..], ". "));
      SeqCons(cs);
    }
  }

  lemma SeqCons(cs: seq<string>)
    requires cs != []
    ensures [cs[0]] + cs[1..] == cs
  {
  }

  lemma SplitJoinSingleton(p: string, cs: seq<string>)
    requires p == "" || p == " "
    requires |cs| == 1 && AllGood(cs)
    ensures Kept(SplitTerm(p + Join(cs, ". "))) == cs
  {
    var c := cs[0];
    var j := Join(cs, ". ");
    assert j == c;
    SplitJoinOne(p, c);
    assert Kept(SplitTerm(p + c)) == [c];
    assert [c] == cs;
  }

  lemma SplitJoinOne(p: string, c: string)
    requires p == "" || p == " "
    requires Good(c)
    ensures Kept(SplitTerm(p + c)) == [c]
  {
    PaddedSentence(p, c);
    SplitTermSingle(p + c);
    KeptSingle(p + c);
  }

  lemma SplitJoinStep(p: string, c: string, rest: string)
    requires p == "" || p == " "
    requires Good(c)
    ensures Kept(SplitTerm(p + (c + (". " + rest)))) == [c] + Kept(SplitTerm(" " + rest))
  {
    var first := p + c;
    PaddedSentence(p, c);
    ConcatAssoc(p, c, ". " + rest);
    SplitAtSeparator(first, rest);
    KeptCons(first, SplitTerm(" " + rest), c);
  }

  lemma SplitAtSeparator(first: string, rest: string)
    requires NoTerm(first)
    ensures SplitTerm(first + (". " + rest)) == [first] + SplitTerm(" " + rest)
  {
    SplitTermSeparator(rest);
    SplitTermNoTermPrefix(first, ". " + rest);
    assert first + "" == first;
  }

  lemma KeptCons(s: string, ss: seq<string>, c: string)
    requires KeepSentence(s) == [c]
    ensures Kept([s] + ss) == [c] + Kept(ss)
  {
    KeptAppend([s], ss);
    KeptSingle(s);
  }

  lemma PaddedSentence(p: string, c: string)
    requires p == "" || p == " "
    requires Good(c)
    ensures NoTerm(p + c) && KeepSentence(p + c) == [c]
  {
    StripPadded(p, c);
  }

  lemma SplitTermSingle(x: string)
    requires NoTerm(x)
    ensures SplitTerm(x) == [x]
  {
    SplitTermNoTermPrefix(x, "");
    assert x + "" == x;
    assert SplitTerm("") == [""];
  }

  lemma KeptSingle(x: string)
    ensures Kept([x]) == KeepSentence(x)
  {
    assert [x][..0] == [];
  }

  lemma SplitTermSeparator(rest: string)
    ensures SplitTerm(". " + rest) == [""] + SplitTerm(" " + rest)
  {
    var tail := ". " + rest;
    assert tail[1..] == " " + rest;
    TrimLeftStop(" " + rest, IsTerm);
  }

    lemma {:induction false} ParagraphBreaksNoNewline(s: string)
    requires '\n' !in s
    ensures ParagraphBreaks(s) == s
    decreases |s|
  {
    if s != [] {
      assert s[0] in s;
      assert s == [s[0]] + s[1..];
      ParagraphBreaksNoNewline(s[1..]);
    }
  }

  // ------------------------------------------------------------------
  // The promised properties of the post-processing

  /** The paragraph-break substitution never fires: the whitespace
      collapse before it has already turned every newline into a space. */
  lemma ParagraphBreaksDead(joined: string)
    ensures ParagraphBreaks(CollapseSpaces(joined)) == CollapseSpaces(joined)
  {
    TidyNoNewline(CollapseSpaces(joined));
    ParagraphBreaksNoNewline(CollapseSpaces(joined));
  }

  /** Every kept sentence is longer than ten characters, tidy, free of
      terminators and not padded with whitespace. */
  lemma SentencesGood(joined: string)
    ensures forall c :: c in Sentences(joined) ==> Good(c)
    ensures AllGood(Sentences(joined))
  {
    var t := CollapseSpaces(joined);
    ParagraphBreaksDead(joined);
    SplitTermTidy(t);
    KeptGood(SplitTerm(t));
    AllGoodFromMembers(Sentences(joined));
  }

  /** The output is the kept sentences joined by ". ", and it is clean. */
  lemma PostProcessShape(joined: string)
    ensures PostProcess(joined) == Join(Sentences(joined), ". ")
    ensures Clean(PostProcess(joined))
  {
    var cs := Sentences(joined);
    SentencesGood(joined);
    JoinClean(cs);
    var j := Join(cs, ". ");
    CollapseTidy(j);
    CollapseDoublePeriodsJoin(cs);
    StripClean(j);
    TidyNoNewline(j);
  }

  /** Re-running the sentence filter on a join of kept sentences gives
      the same sentences. */
  lemma SentencesOfJoin(cs: seq<string>)
    requires AllGood(cs)
    ensures Sentences(Join(cs, ". ")) == cs
  {
    var j := Join(cs, ". ");
    JoinClean(cs);
    CollapseTidy(j);
    TidyNoNewline(j);
    ParagraphBreaksNoNewline(j);
    if cs == [] {
      assert j == "";
      assert SplitTerm("") == [""];
      assert Kept([""]) == Kept([]) + KeepSentence("");
    } else {
      SplitJoin("", cs);
      assert "" + j == j;
    }
  }

  /** Running the post-processing again on its own output changes nothing. */
  lemma PostProcessIdempotent(joined: string)
    ensures PostProcess(PostProcess(joined)) == PostProcess(joined)
  {
    PostProcessShape(joined);
    SentencesGood(joined);
    SentencesOfJoin(Sentences(joined));
  }

  // ------------------------------------------------------------------
  // What the pruning removes

  /** No script, style, noscript, meta or link element is left. */
  lemma NonContentGone(doc: seq<Node>)
    ensures forall i :: 0 <= i < |Descendants(Pruned(doc))| ==>
      Descendants(Pruned(doc))[i].tag !in NonContentTags
  {
    var good := (s: Shape) => s.tag !in NonContentTags;
    var t1 := PruneAll(doc, NonContent);
    ShapeDoomedGone(doc, NonContent, (s: Shape) => s.tag in NonContentTags);
    var t2 := PruneAll(t1, NavClutter);
    PruneKeepsShapeProperty(t1, NavClutter, good);
    AfterSelectorsKeep(t2, |NavigationSelectors|, good);
    var t3 := AfterSelectors(t2, |NavigationSelectors|);
    PruneKeepsShapeProperty(t3, Blank, good);
  }

  lemma {:induction false} AfterSelectorsKeep(ns: seq<Node>, k: nat, good: Shape -> bool)
    requires k <= |NavigationSelectors|
    requires forall i :: 0 <= i < |Descendants(ns)| ==> good(ShapeOf(Descendants(ns)[i]))
    ensures forall i :: 0 <= i < |Descendants(AfterSelectors(ns, k))| ==>
      good(ShapeOf(Descendants(AfterSelectors(ns, k))[i]))
    decreases k
  {
    if k > 0 {
      AfterSelectorsKeep(ns, k - 1, good);
      var sel := NavigationSelectors[k - 1];
      PruneKeepsShapeProperty(AfterSelectors(ns, k - 1), n => SelectorClutter(sel, n), good);
    }
  }

  /** A bare img or svg element has nothing below it, so pass 4 removes it
      even though it looks for images. */
  lemma BareImageRemoved(tag: string, cls: string, id: string)
    requires tag in MediaTags
    ensures PruneOne(Element(tag, cls, id, []), Blank) == []
  {
    var e := Element(tag, cls, id, []);
    assert Descendants([]) == [];
    assert FindAll(e, MediaTags) == [];
    assert NodeText(e, true) == "";
    assert Blank(e);
  }

  // ------------------------------------------------------------------
  // The operation

  lemma KeptSnoc(ss: seq<string>, j: nat)
    requires j < |ss|
    ensures Kept(ss[..j + 1]) == Kept(ss[..j]) + KeepSentence(ss[j])
  {
    assert ss[..j + 1][..j] == ss[..j];
  }

  lemma PartsSnoc(es: seq<Node>, i: nat)
    requires i < |es| && forall k :: 0 <= k < |es| ==> es[k].Element?
    ensures Parts(es[..i + 1]) == Parts(es[..i]) + Part(es[i])
  {
    assert es[..i + 1][..i] == es[..i];
  }

  /** The four pruning passes, one after the other. */
  method PruneDocument(doc: seq<Node>) returns (tree: seq<Node>)
    ensures tree == Pruned(doc)
  {
    tree := PruneAll(doc, NonContent);
    tree := PruneAll(tree, NavClutter);
    var k := 0;
    while k < |NavigationSelectors|
      invariant 0 <= k <= |NavigationSelectors|
      invariant tree == AfterSelectors(PruneAll(PruneAll(doc, NonContent), NavClutter), k)
    {
      var sel := NavigationSelectors[k];
      tree := PruneAll(tree, n => SelectorClutter(sel, n));
      k := k + 1;
    }
    tree := PruneAll(tree, Blank);
  }

  /** The text parts of the pruned document. */
  method CollectParts(tree: seq<Node>) returns (parts: seq<string>)
    ensures parts == TextParts(tree)
    ensures parts != []
  {
    var elements := Filter(Descendants(tree), IsContent);
    parts := [];
    var i := 0;
    while i < |elements|
      invariant 0 <= i <= |elements|
      invariant parts == Parts(elements[..i])
    {
      var e := elements[i];
      var t := NodeText(e, true);
      PartsSnoc(elements, i);
      if |t| > PartMinLength {
        if e.tag in HeadingTags {
          parts := parts + ["\n" + t + "\n"];
        } else {
          parts := parts + [t];
        }
      }
      i := i + 1;
    }
    assert elements[..i] == elements;
    if parts == [] {
      parts := [ForestText(tree, false)];
    }
  }

  /** Strip every sentence and keep those longer than ten characters. */
  method FilterSentences(sentences: seq<string>) returns (cleaned: seq<string>)
    ensures cleaned == Kept(sentences)
  {
    cleaned := [];
    var j := 0;
    while j < |sentences|
      invariant 0 <= j <= |sentences|
      invariant cleaned == Kept(sentences[..j])
    {
      var s := Strip(sentences[j]);
      KeptSnoc(sentences, j);
      assert KeepSentence(sentences[j]) == if |s| > SentenceMinLength then [s] else [];
      if |s| > SentenceMinLength {
        cleaned := cleaned + [s];
      }
      j := j + 1;
    }
    assert sentences[..j] == sentences;
  }

  method CleanContent(html: string, doc: seq<Node>) returns (text: string)
    ensures text == CleanSpec(html, doc)
    ensures html == [] ==> text == []
    ensures Clean(text)
    ensures PostProcess(text) == text
  {
    if html == [] {
      return "";
    }
    var tree := PruneDocument(doc);
    var parts := CollectParts(tree);
    var joined := Join(parts, " ");

    var t := CollapseSpaces(joined);
    t := ParagraphBreaks(t);
    var sentences := SplitTerm(t);
    var cleaned := FilterSentences(sentences);
    t := Join(cleaned, ". ");
    t := CollapseSpaces(t);
    t := CollapseDoublePeriods(t);
    text := Strip(t);
    PostProcessShape(joined);
    PostProcessIdempotent(joined);
  }
}
