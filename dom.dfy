/** A parsed HTML document as a tree value, and the few BeautifulSoup
    queries the scrapers use on it: text extraction, `find_all` in
    document order, attribute-substring selectors and the removal of
    elements (`decompose`). */
module Dom {
  import opened Common

  /** A node of the parse tree. `cls` and `id` hold the raw attribute
      values, "" when the attribute is absent. Tag names are lower case,
      as html.parser produces them. A string carries the class
      BeautifulSoup gave it when it was parsed (see KindFor). */
  datatype Node =
    | Text(text: string, kind: StringKind)
    | Element(tag: string, cls: string, id: string, children: seq<Node>)

  /** The string classes of BeautifulSoup 4.10 and later: a string inside
      `<script>`, `<style>`, `<template>`, `<rt>` or `<rp>` is a Script,
      Stylesheet, TemplateString, RubyTextString or RubyParenthesisString,
      after the innermost such tag around it; any other is a plain
      NavigableString. */
  datatype StringKind = Plain | Script | Stylesheet | TemplateString | RubyText | RubyParenthesis

  /** The string class a tag gives to the strings inside it, Plain for a
      tag that sets none; it is also the only class that tag's
      get_text() collects. */
  function KindFor(tag: string): StringKind {
    if tag == "script" then Script
    else if tag == "style" then Stylesheet
    else if tag == "template" then TemplateString
    else if tag == "rt" then RubyText
    else if tag == "rp" then RubyParenthesis
    else Plain
  }

  /** Every string of `ns` has the class of the innermost string-container
      tag around it, `outer` when there is none inside `ns`: the trees the
      parser builds. */
  ghost predicate WellKinded(ns: seq<Node>, outer: StringKind)
    decreases ns
  {
    forall i :: 0 <= i < |ns| ==>
      match ns[i]
      case Text(_, k) => k == outer
      case Element(tag, _, _, cs) =>
        WellKinded(cs, if KindFor(tag) == Plain then outer else KindFor(tag))
  }

  /** What identifies an element apart from its contents. */
  datatype Shape = Shape(tag: string, cls: string, id: string)

  // ------------------------------------------------------------------
  // Text

  /** get_text() (strip = false) or get_text(strip=True) (strip = true)
      on `n`: the strings below `n` of the one class `n` collects, in
      document order, concatenated with no separator, each stripped first
      when `strip` holds. */
  function NodeText(n: Node, strip: bool): string {
    match n
    case Text(t, _) => if strip then Strip(t) else t
    case Element(tag, _, _, cs) => Strings(cs, KindFor(tag), strip)
  }

  /** soup.get_text() on a document: its plain strings. */
  function ForestText(ns: seq<Node>, strip: bool): string {
    Strings(ns, Plain, strip)
  }

  /** The strings of class `want` in the forest `ns`, in order. */
  function Strings(ns: seq<Node>, want: StringKind, strip: bool): string
    decreases ns
  {
    if ns == [] then "" else StringsOne(ns[0], want, strip) + Strings(ns[1..], want, strip)
  }

  function StringsOne(n: Node, want: StringKind, strip: bool): string
    decreases n
  {
    match n
    case Text(t, k) => if k != want then "" else if strip then Strip(t) else t
    case Element(_, _, _, cs) => Strings(cs, want, strip)
  }

  /** In a parsed document the text of a `<script>`, `<style>` or
      `<template>` element, or of anything inside one, is no part of
      soup.get_text(). */
  lemma {:induction false} ContainerTextSkipped(ns: seq<Node>, outer: StringKind, strip: bool)
    requires outer != Plain && WellKinded(ns, outer)
    ensures Strings(ns, Plain, strip) == ""
    decreases ns
  {
    if ns != [] {
      assert WellKinded(ns[1..], outer) by {
        forall i | 0 <= i < |ns[1..]| ensures ns[1..][i] == ns[i + 1] { }
      }
      ContainerTextSkipped(ns[1..], outer, strip);
      match ns[0]
      case Text(_, k) =>
      case Element(tag, _, _, cs) =>
        ContainerTextSkipped(cs, if KindFor(tag) == Plain then outer else KindFor(tag), strip);
    }
  }

  /** A page whose only words sit in a script: soup.get_text() is empty,
      while the script element's own get_text() returns them. */
  lemma ScriptOnlyPage(code: string)
    ensures var doc := [Element("body", "", "", [Element("script", "", "", [Text(code, Script)])])];
      WellKinded(doc, Plain) && ForestText(doc, false) == "" &&
      NodeText(doc[0].children[0], false) == code
  {
    var sc := Element("script", "", "", [Text(code, Script)]);
    var doc := [Element("body", "", "", [sc])];
    assert Strings([Text(code, Script)], Script, false) == code;
    assert Strings([Text(code, Script)], Plain, false) == "";
    assert Strings([sc], Plain, false) == "";
    assert StringsOne(doc[0], Plain, false) == "";
    assert Strings(doc, Plain, false) == "" + Strings([], Plain, false);
  }

  lemma {:induction false} StringsAppend(a: seq<Node>, b: seq<Node>, want: StringKind, strip: bool)
    ensures Strings(a + b, want, strip) == Strings(a, want, strip) + Strings(b, want, strip)
    decreases |a|
  {
    if a == [] {
      assert a + b == b;
    } else {
      assert (a + b)[0] == a[0];
      assert (a + b)[1..] == a[1..] + b;
      StringsAppend(a[1..], b, want, strip);
    }
  }

  // ------------------------------------------------------------------
  // Traversal

  /** The elements of the forest `ns` and of their subtrees, in document
      (pre-)order: what `find_all()` walks. */
  function Descendants(ns: seq<Node>): (r: seq<Node>)
    ensures forall i :: 0 <= i < |r| ==> r[i].Element?
    decreases ns
  {
    if ns == [] then [] else SubtreeElements(ns[0]) + Descendants(ns[1..])
  }

  /** `n` itself when it is an element, followed by its descendants. */
  function SubtreeElements(n: Node): (r: seq<Node>)
    ensures forall i :: 0 <= i < |r| ==> r[i].Element?
    decreases n
  {
    match n
    case Text(_, _) => []
    case Element(_, _, _, cs) => [n] + Descendants(cs)
  }

  lemma {:induction false} DescendantsAppend(a: seq<Node>, b: seq<Node>)
    ensures Descendants(a + b) == Descendants(a) + Descendants(b)
    decreases |a|
  {
    if a == [] {
      assert a + b == b;
    } else {
      assert (a + b)[0] == a[0];
      assert (a + b)[1..] == a[1..] + b;
      DescendantsAppend(a[1..], b);
    }
  }

  function ShapeOf(n: Node): Shape
    requires n.Element?
  {
    Shape(n.tag, n.cls, n.id)
  }

  function Shapes(es: seq<Node>): (r: seq<Shape>)
    requires forall i :: 0 <= i < |es| ==> es[i].Element?
    ensures |r| == |es|
    ensures forall i :: 0 <= i < |es| ==> r[i] == ShapeOf(es[i])
  {
    seq(|es|, i requires 0 <= i < |es| => ShapeOf(es[i]))
  }

  predicate HasTag(n: Node, tags: set<string>) {
    n.Element? && n.tag in tags
  }

  /** element.find_all(tags): the descendants of `n` (not `n` itself)
      whose tag is one of `tags`. */
  function FindAll(n: Node, tags: set<string>): (r: seq<Node>)
    requires n.Element?
    ensures forall i :: 0 <= i < |r| ==> r[i].Element? && r[i].tag in tags
  {
    Filter(Descendants(n.children), e => HasTag(e, tags))
  }

  /** `element.find(tags)` succeeds. */
  predicate HasDescendant(n: Node, tags: set<string>)
    requires n.Element?
  {
    FindAll(n, tags) != []
  }

  // ------------------------------------------------------------------
  // Attribute selectors

  datatype Attribute = ClassAttr | IdAttr

  /** The CSS selector `[class*="sub"]` or `[id*="sub"]`. */
  datatype Selector = Selector(attr: Attribute, sub: string)

  predicate Matches(n: Node, sel: Selector) {
    n.Element? &&
    match sel.attr
    case ClassAttr => Contains(n.cls, sel.sub)
    case IdAttr => Contains(n.id, sel.sub)
  }

  /** soup.select(sel): every element of the document that matches. */
  function Select(ns: seq<Node>, sel: Selector): (r: seq<Node>)
    ensures forall i :: 0 <= i < |r| ==> Matches(r[i], sel) && r[i] in Descendants(ns)
    ensures forall i :: 0 <= i < |Descendants(ns)| && Matches(Descendants(ns)[i], sel) ==>
      Descendants(ns)[i] in r
  {
    Filter(Descendants(ns), e => Matches(e, sel))
  }

  // ------------------------------------------------------------------
  // Removal

  /** The forest after every element satisfying `doomed` has been
      decomposed together with its subtree. `doomed` is evaluated on an
      element before anything below it is touched, which is what a loop
      calling decompose() over a document-order list of elements sees:
      when an element comes up, only earlier elements, none of them
      inside it, have been removed. */
  function PruneAll(ns: seq<Node>, doomed: Node -> bool): seq<Node>
    decreases ns
  {
    if ns == [] then [] else PruneOne(ns[0], doomed) + PruneAll(ns[1..], doomed)
  }

  function PruneOne(n: Node, doomed: Node -> bool): seq<Node>
    decreases n
  {
    match n
    case Text(_, _) => [n]
    case Element(t, c, i, cs) =>
      if doomed(n) then [] else [Element(t, c, i, PruneAll(cs, doomed))]
  }

  /** The original elements that survive removal: those not doomed and
      with no doomed ancestor, in document order. */
  function Survivors(ns: seq<Node>, doomed: Node -> bool): seq<Node>
    decreases ns
  {
    if ns == [] then [] else SurvivorsOne(ns[0], doomed) + Survivors(ns[1..], doomed)
  }

  function SurvivorsOne(n: Node, doomed: Node -> bool): seq<Node>
    decreases n
  {
    match n
    case Text(_, _) => []
    case Element(_, _, _, cs) => if doomed(n) then [] else [n] + Survivors(cs, doomed)
  }

  /** Every survivor is an element of the original document that is not doomed. */
  lemma {:induction false} SurvivorsSound(ns: seq<Node>, doomed: Node -> bool)
    ensures forall o :: o in Survivors(ns, doomed) ==>
      o in Descendants(ns) && o.Element? && !doomed(o)
    decreases ns
  {
    if ns != [] {
      SurvivorsOneSound(ns[0], doomed);
      SurvivorsSound(ns[1..], doomed);
    }
  }

  lemma {:induction false} SurvivorsOneSound(n: Node, doomed: Node -> bool)
    ensures forall o :: o in SurvivorsOne(n, doomed) ==>
      o in SubtreeElements(n) && o.Element? && !doomed(o)
    decreases n
  {
    if n.Element? && !doomed(n) {
      SurvivorsSound(n.children, doomed);
    }
  }

  /** The elements left in the pruned tree are exactly the survivors, in
      order, up to their (pruned) contents. */
  lemma {:induction false} PruneShapes(ns: seq<Node>, doomed: Node -> bool)
    ensures SurvivorsElements(ns, doomed)
    ensures Shapes(Descendants(PruneAll(ns, doomed))) == Shapes(Survivors(ns, doomed))
    decreases ns
  {
    if ns != [] {
      PruneOneShapes(ns[0], doomed);
      PruneShapes(ns[1..], doomed);
      DescendantsAppend(PruneOne(ns[0], doomed), PruneAll(ns[1..], doomed));
    }
  }

  ghost predicate SurvivorsElements(ns: seq<Node>, doomed: Node -> bool) {
    forall i :: 0 <= i < |Survivors(ns, doomed)| ==> Survivors(ns, doomed)[i].Element?
  }

  lemma {:induction false} PruneOneShapes(n: Node, doomed: Node -> bool)
    ensures forall i :: 0 <= i < |SurvivorsOne(n, doomed)| ==> SurvivorsOne(n, doomed)[i].Element?
    ensures Shapes(Descendants(PruneOne(n, doomed))) == Shapes(SurvivorsOne(n, doomed))
    decreases n
  {
    match n
    case Text(_, _) =>
      assert PruneOne(n, doomed) == [n];
      assert Descendants([n]) == SubtreeElements(n) + Descendants([]);
    case Element(t, c, i, cs) =>
      if !doomed(n) {
        PruneShapes(cs, doomed);
        var m := Element(t, c, i, PruneAll(cs, doomed));
        assert Descendants([m]) == SubtreeElements(m) + Descendants([]);
      }
  }

  /** Removing nothing leaves the document as it was. */
  lemma {:induction false} PruneNothing(ns: seq<Node>, doomed: Node -> bool)
    requires forall i :: 0 <= i < |Descendants(ns)| ==> !doomed(Descendants(ns)[i])
    ensures PruneAll(ns, doomed) == ns
    decreases ns
  {
    if ns != [] {
      var n := ns[0];
      assert Descendants(ns) == SubtreeElements(n) + Descendants(ns[1..]);
      forall i | 0 <= i < |Descendants(ns[1..])| ensures !doomed(Descendants(ns[1..])[i]) {
        assert Descendants(ns[1..])[i] == Descendants(ns)[|SubtreeElements(n)| + i];
      }
      PruneNothing(ns[1..], doomed);
      if n.Element? {
        assert Descendants(ns)[0] == n;
        forall i | 0 <= i < |Descendants(n.children)| ensures !doomed(Descendants(n.children)[i]) {
          assert Descendants(n.children)[i] == Descendants(ns)[1 + i];
        }
        PruneNothing(n.children, doomed);
      }
      assert ns == [n] + ns[1..];
    }
  }

  /** When the shape alone decides whether an element is doomed, no
      element with a doomed shape is left in the pruned tree. */
  lemma ShapeDoomedGone(ns: seq<Node>, doomed: Node -> bool, bad: Shape -> bool)
    requires forall e: Node :: e.Element? ==> (doomed(e) <==> bad(ShapeOf(e)))
    ensures forall i :: 0 <= i < |Descendants(PruneAll(ns, doomed))| ==>
      !bad(ShapeOf(Descendants(PruneAll(ns, doomed))[i]))
  {
    PruneShapes(ns, doomed);
    SurvivorsSound(ns, doomed);
    var ds := Descendants(PruneAll(ns, doomed));
    var ss := Survivors(ns, doomed);
    forall i | 0 <= i < |ds| ensures !bad(ShapeOf(ds[i])) {
      assert Shapes(ds)[i] == Shapes(ss)[i];
      assert ss[i] in ss;
    }
  }

  /** Removal never brings in an element: a property of shapes that every
      element of the document has, every element of the pruned tree has. */
  lemma PruneKeepsShapeProperty(ns: seq<Node>, doomed: Node -> bool, good: Shape -> bool)
    requires forall i :: 0 <= i < |Descendants(ns)| ==> good(ShapeOf(Descendants(ns)[i]))
    ensures forall i :: 0 <= i < |Descendants(PruneAll(ns, doomed))| ==>
      good(ShapeOf(Descendants(PruneAll(ns, doomed))[i]))
  {
    PruneShapes(ns, doomed);
    SurvivorsSound(ns, doomed);
    var ds := Descendants(PruneAll(ns, doomed));
    var ss := Survivors(ns, doomed);
    forall i | 0 <= i < |ds| ensures good(ShapeOf(ds[i])) {
      assert Shapes(ds)[i] == Shapes(ss)[i];
      assert ss[i] in ss;
      var k :| 0 <= k < |Descendants(ns)| && Descendants(ns)[k] == ss[i];
    }
  }
}
