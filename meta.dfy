/** The meta-tag extractor of the SEO scraper: the page title, the
    dispatch of every <meta> tag to a field or to one of the three tag
    maps, the canonical link override, and the structured-data blocks
    that parse. The HTML parser and json.loads are inputs: the tree
    `doc`, the attribute values of the <meta> tags in document order,
    the href of the first <link rel="canonical">, the string of each
    ld+json <script> and a predicate telling which strings parse. */
module Meta {
  import opened Common
  import opened Dom

  /** A <meta> tag's name, property and content attributes, "" when the
      attribute is absent. */
  datatype MetaTag = MetaTag(name: string, property: string, content: string)

  datatype MetaData = MetaData(
    title: string,
    description: string,
    keywords: string,
    author: string,
    viewport: string,
    robots: string,
    canonical: string,
    og: map<string, string>,
    twitter: map<string, string>,
    schema: seq<string>,
    other: map<string, string>)

  /** The dictionary before anything is filled in; also what the score
      reads from the empty dictionary returned for an empty page. */
  const EmptyMeta: MetaData := MetaData("", "", "", "", "", "", "", map[], map[], [], map[])

  // ------------------------------------------------------------------
  // Dispatch

  datatype Field = Description | Keywords | Author | Viewport | Robots | Canonical
  datatype TagMap = OgTags | TwitterTags | OtherTags

  /** Where a tag's content goes. */
  datatype Slot = Scalar(f: Field) | Keyed(m: TagMap, key: string) | Nowhere

  /** The if/elif chain on the lower-cased name and property. */
  function SlotOf(t: MetaTag): Slot {
    var name := Lower(t.name);
    var prop := Lower(t.property);
    if name == "description" then Scalar(Description)
    else if name == "keywords" then Scalar(Keywords)
    else if name == "author" then Scalar(Author)
    else if name == "viewport" then Scalar(Viewport)
    else if name == "robots" then Scalar(Robots)
    else if name == "canonical" then Scalar(Canonical)
    else if StartsWith(prop, "og:") then Keyed(OgTags, ReplaceAll(prop, "og:", ""))
    else if StartsWith(name, "twitter:") then Keyed(TwitterTags, ReplaceAll(name, "twitter:", ""))
    else if name != "" && t.content != "" then Keyed(OtherTags, name)
    else Nowhere
  }

  function Get(md: MetaData, f: Field): string {
    match f
    case Description => md.description
    case Keywords => md.keywords
    case Author => md.author
    case Viewport => md.viewport
    case Robots => md.robots
    case Canonical => md.canonical
  }

  function GetMap(md: MetaData, m: TagMap): map<string, string> {
    match m
    case OgTags => md.og
    case TwitterTags => md.twitter
    case OtherTags => md.other
  }

  /** Writing `content` where a slot says. */
  function Put(md: MetaData, s: Slot, content: string): MetaData {
    match s
    case Scalar(Description) => md.(description := content)
    case Scalar(Keywords) => md.(keywords := content)
    case Scalar(Author) => md.(author := content)
    case Scalar(Viewport) => md.(viewport := content)
    case Scalar(Robots) => md.(robots := content)
    case Scalar(Canonical) => md.(canonical := content)
    case Keyed(OgTags, k) => md.(og := md.og[k := content])
    case Keyed(TwitterTags, k) => md.(twitter := md.twitter[k := content])
    case Keyed(OtherTags, k) => md.(other := md.other[k := content])
    case Nowhere => md
  }

  /** The loop over the <meta> tags, with `slot` the dispatch chain. */
  function ApplyAll(md: MetaData, tags: seq<MetaTag>, slot: MetaTag -> Slot): MetaData
    decreases |tags|
  {
    if tags == [] then md
    else
      var t := tags[|tags| - 1];
      Put(ApplyAll(md, tags[..|tags| - 1], slot), slot(t), t.content)
  }

  function PutMap(mp: map<string, string>, s: Slot, m: TagMap, content: string): map<string, string> {
    if s.Keyed? && s.m == m then mp[s.key := content] else mp
  }

  lemma PutFields(md: MetaData, s: Slot, content: string, f: Field)
    ensures Get(Put(md, s, content), f) == (if s == Scalar(f) then content else Get(md, f))
  {
  }

  lemma PutMaps(md: MetaData, s: Slot, content: string, m: TagMap)
    ensures GetMap(Put(md, s, content), m) == PutMap(GetMap(md, m), s, m, content)
  {
  }

  /** What one write does to each field and each map. */
  lemma PutMeaning(md: MetaData, s: Slot, content: string)
    ensures forall f :: Get(Put(md, s, content), f) == (if s == Scalar(f) then content else Get(md, f))
    ensures forall m :: GetMap(Put(md, s, content), m) == PutMap(GetMap(md, m), s, m, content)
    ensures Put(md, s, content).title == md.title && Put(md, s, content).schema == md.schema
  {
    forall f ensures Get(Put(md, s, content), f) == (if s == Scalar(f) then content else Get(md, f)) {
      PutFields(md, s, content, f);
    }
    forall m ensures GetMap(Put(md, s, content), m) == PutMap(GetMap(md, m), s, m, content) {
      PutMaps(md, s, content, m);
    }
  }

  /** The six names win over any property, in the chain's order; an
      og: property wins over a twitter: name; a tag lands in other_meta
      only when both its name and its content are non-empty. */
  lemma DispatchOrder(t: MetaTag)
    ensures Lower(t.name) == "description" ==> SlotOf(t) == Scalar(Description)
    ensures Lower(t.name) == "canonical" ==> SlotOf(t) == Scalar(Canonical)
    ensures SlotOf(t).Keyed? && SlotOf(t).m == TwitterTags ==> !StartsWith(Lower(t.property), "og:")
    ensures SlotOf(t).Keyed? && SlotOf(t).m == OtherTags ==>
      t.name != "" && t.content != "" && SlotOf(t).key == Lower(t.name)
    ensures SlotOf(t) == Nowhere ==> t.name == "" || t.content == ""
  {
  }

  /** A field holds the content of the last tag sent to it. */
  lemma {:induction false} FieldLastWins(md: MetaData, tags: seq<MetaTag>, slot: MetaTag -> Slot, f: Field, i: nat)
    requires i < |tags| && slot(tags[i]) == Scalar(f)
    requires forall j :: i < j < |tags| ==> slot(tags[j]) != Scalar(f)
    ensures Get(ApplyAll(md, tags, slot), f) == tags[i].content
    decreases |tags|
  {
    var init := tags[..|tags| - 1];
    var t := tags[|tags| - 1];
    PutMeaning(ApplyAll(md, init, slot), slot(t), t.content);
    if i < |tags| - 1 {
      FieldLastWins(md, init, slot, f, i);
    }
  }

  /** A field no tag is sent to keeps its value. */
  lemma {:induction false} FieldUntouched(md: MetaData, tags: seq<MetaTag>, slot: MetaTag -> Slot, f: Field)
    requires forall j :: 0 <= j < |tags| ==> slot(tags[j]) != Scalar(f)
    ensures Get(ApplyAll(md, tags, slot), f) == Get(md, f)
    decreases |tags|
  {
    if tags != [] {
      PutMeaning(ApplyAll(md, tags[..|tags| - 1], slot), slot(tags[|tags| - 1]), tags[|tags| - 1].content);
      FieldUntouched(md, tags[..|tags| - 1], slot, f);
    }
  }

  /** A map entry holds the content of the last tag sent to its key. */
  lemma {:induction false} KeyedLastWins(md: MetaData, tags: seq<MetaTag>, slot: MetaTag -> Slot, m: TagMap, k: string, i: nat)
    requires i < |tags| && slot(tags[i]) == Keyed(m, k)
    requires forall j :: i < j < |tags| ==> slot(tags[j]) != Keyed(m, k)
    ensures k in GetMap(ApplyAll(md, tags, slot), m) && GetMap(ApplyAll(md, tags, slot), m)[k] == tags[i].content
    decreases |tags|
  {
    var init := tags[..|tags| - 1];
    var t := tags[|tags| - 1];
    PutMeaning(ApplyAll(md, init, slot), slot(t), t.content);
    if i < |tags| - 1 {
      KeyedLastWins(md, init, slot, m, k, i);
    }
  }

  /** The keys of a map are its initial keys and those of the tags sent
      to it. */
  lemma {:induction false} KeyedKeys(md: MetaData, tags: seq<MetaTag>, slot: MetaTag -> Slot, m: TagMap)
    ensures forall k :: k in GetMap(ApplyAll(md, tags, slot), m) <==>
      k in GetMap(md, m) || exists j :: 0 <= j < |tags| && slot(tags[j]) == Keyed(m, k)
    decreases |tags|
  {
    if tags != [] {
      var init := tags[..|tags| - 1];
      var t := tags[|tags| - 1];
      PutMeaning(ApplyAll(md, init, slot), slot(t), t.content);
      KeyedKeys(md, init, slot, m);
      forall k ensures k in GetMap(ApplyAll(md, tags, slot), m) <==>
        k in GetMap(md, m) || exists j :: 0 <= j < |tags| && slot(tags[j]) == Keyed(m, k)
      {
        if exists j :: 0 <= j < |init| && slot(init[j]) == Keyed(m, k) {
          var j :| 0 <= j < |init| && slot(init[j]) == Keyed(m, k);
          assert tags[j] == init[j];
        }
        if exists j :: 0 <= j < |tags| && slot(tags[j]) == Keyed(m, k) {
          var j :| 0 <= j < |tags| && slot(tags[j]) == Keyed(m, k);
          if j < |init| {
            assert init[j] == tags[j];
          }
        }
      }
    }
  }

  /** The loop over the tags leaves the title and the schema list alone. */
  lemma {:induction false} ApplyAllKeeps(md: MetaData, tags: seq<MetaTag>, slot: MetaTag -> Slot)
    ensures ApplyAll(md, tags, slot).title == md.title && ApplyAll(md, tags, slot).schema == md.schema
    decreases |tags|
  {
    if tags != [] {
      PutMeaning(ApplyAll(md, tags[..|tags| - 1], slot), slot(tags[|tags| - 1]), tags[|tags| - 1].content);
      ApplyAllKeeps(md, tags[..|tags| - 1], slot);
    }
  }

  // ------------------------------------------------------------------
  // Title and structured data

  predicate IsTitle(e: Node) {
    HasTag(e, {"title"})
  }

  /** find('title').get_text(strip=True), or "" when there is no title. */
  function TitleOf(doc: seq<Node>): string {
    var ts := Filter(Descendants(doc), IsTitle);
    if ts == [] then "" else NodeText(ts[0], true)
  }

  /** The script strings json.loads accepts, in document order; a script
      without a string (None, a TypeError) is skipped. */
  function Schemas(scripts: seq<Option<string>>, parses: string -> bool): seq<string>
    decreases |scripts|
  {
    if scripts == [] then []
    else
      var s := scripts[|scripts| - 1];
      Schemas(scripts[..|scripts| - 1], parses) + (if s.Some? && parses(s.value) then [s.value] else [])
  }

  lemma {:induction false} SchemasMembers(scripts: seq<Option<string>>, parses: string -> bool)
    ensures |Schemas(scripts, parses)| <= |scripts|
    ensures forall x :: x in Schemas(scripts, parses) <==>
      parses(x) && exists i :: 0 <= i < |scripts| && scripts[i] == Some(x)
    decreases |scripts|
  {
    if scripts != [] {
      var init := scripts[..|scripts| - 1];
      SchemasMembers(init, parses);
      forall x ensures x in Schemas(scripts, parses) <==>
        parses(x) && exists i :: 0 <= i < |scripts| && scripts[i] == Some(x)
      {
        if exists i :: 0 <= i < |init| && init[i] == Some(x) {
          var i :| 0 <= i < |init| && init[i] == Some(x);
          assert scripts[i] == init[i];
        }
        if exists i :: 0 <= i < |scripts| && scripts[i] == Some(x) {
          var i :| 0 <= i < |scripts| && scripts[i] == Some(x);
          if i < |init| {
            assert init[i] == scripts[i];
          }
        }
      }
    }
  }

  // ------------------------------------------------------------------
  // The extractor

  /** What extract_meta_tags returns for a non-empty page. */
  function MetaOf(doc: seq<Node>, tags: seq<MetaTag>, canonicalHref: Option<string>,
                  scripts: seq<Option<string>>, parses: string -> bool): MetaData
  {
    var md := ApplyAll(EmptyMeta.(title := TitleOf(doc)), tags, SlotOf);
    var md' := if canonicalHref.Some? && canonicalHref.value != "" then md.(canonical := canonicalHref.value) else md;
    md'.(schema := Schemas(scripts, parses))
  }

  /** extract_meta_tags: None (the empty dictionary) for an empty page. */
  method ExtractMetaTags(html: string, doc: seq<Node>, tags: seq<MetaTag>, canonicalHref: Option<string>,
                         scripts: seq<Option<string>>, parses: string -> bool)
    returns (r: Option<MetaData>)
    ensures html == [] ==> r == None
    ensures html != [] ==> r == Some(MetaOf(doc, tags, canonicalHref, scripts, parses))
  {
    if html == [] {
      return None;
    }
    var md := EmptyMeta.(title := TitleOf(doc));
    ghost var start := md;
    var i := 0;
    while i < |tags|
      invariant 0 <= i <= |tags|
      invariant md == ApplyAll(start, tags[..i], SlotOf)
    {
      assert tags[..i + 1][..i] == tags[..i];
      var t := tags[i];
      var name := Lower(t.name);
      var prop := Lower(t.property);
      if name == "description" {
        md := md.(description := t.content);
      } else if name == "keywords" {
        md := md.(keywords := t.content);
      } else if name == "author" {
        md := md.(author := t.content);
      } else if name == "viewport" {
        md := md.(viewport := t.content);
      } else if name == "robots" {
        md := md.(robots := t.content);
      } else if name == "canonical" {
        md := md.(canonical := t.content);
      } else if StartsWith(prop, "og:") {
        md := md.(og := md.og[ReplaceAll(prop, "og:", "") := t.content]);
      } else if StartsWith(name, "twitter:") {
        md := md.(twitter := md.twitter[ReplaceAll(name, "twitter:", "") := t.content]);
      } else if name != "" && t.content != "" {
        md := md.(other := md.other[name := t.content]);
      }
      i := i + 1;
    }
    assert tags[..i] == tags;
    if canonicalHref.Some? && canonicalHref.value != "" {
      md := md.(canonical := canonicalHref.value);
    }
    var schema: seq<string> := [];
    var j := 0;
    while j < |scripts|
      invariant 0 <= j <= |scripts|
      invariant schema == Schemas(scripts[..j], parses)
    {
      assert scripts[..j + 1][..j] == scripts[..j];
      match scripts[j] {
        case Some(text) =>
          if parses(text) {
            schema := schema + [text];
          }
        case None =>
      }
      j := j + 1;
    }
    assert scripts[..j] == scripts;
    r := Some(md.(schema := schema));
  }

  /** A non-empty canonical link href replaces whatever the <meta> tags
      put in 'canonical'; without one, 'canonical' is the content of the
      last "canonical" meta tag, or "" when there is none. The title and
      the schema list are never touched by a <meta> tag. */
  lemma CanonicalOverride(doc: seq<Node>, tags: seq<MetaTag>, canonicalHref: Option<string>,
                          scripts: seq<Option<string>>, parses: string -> bool)
    ensures var md := MetaOf(doc, tags, canonicalHref, scripts, parses);
      md.title == TitleOf(doc) && md.schema == Schemas(scripts, parses) &&
      (canonicalHref.Some? && canonicalHref.value != "" ==> md.canonical == canonicalHref.value) &&
      (canonicalHref.None? || canonicalHref.value == "" ==>
        (forall j :: 0 <= j < |tags| ==> SlotOf(tags[j]) != Scalar(Canonical)) ==> md.canonical == "")
  {
    var start := EmptyMeta.(title := TitleOf(doc));
    ApplyAllKeeps(start, tags, SlotOf);
    if (canonicalHref.None? || canonicalHref.value == "") &&
       (forall j :: 0 <= j < |tags| ==> SlotOf(tags[j]) != Scalar(Canonical)) {
      FieldUntouched(start, tags, SlotOf, Canonical);
    }
  }
}
