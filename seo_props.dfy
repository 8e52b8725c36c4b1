/** What the B2B SEO rubric promises: the score stays within 0-100 while
    the raw sum can reach 115, the grade bands, what each section rewards,
    the Open Graph check and how links are classified. */
module SeoProperties {
  import opened Common
  import opened Dom
  import opened Meta
  import opened Seo

  // ------------------------------------------------------------------
  // The scraper's rubric

  lemma B2bShape()
    ensures |B2b.ogRequired| == 4
    ensures forall i :: 0 <= i < |B2b.sectionWords| ==> B2b.sectionWords[i] != ""
    ensures forall i :: 0 <= i < |B2b.trustWords| ==> B2b.trustWords[i] != ""
    ensures B2b.titleWords[0] == "enterprise"
  {
  }

  // ------------------------------------------------------------------
  // The whole score

  /** Every section's points, as the rubric bounds them. */
  lemma SectionBounds(md: MetaData, html: string, doc: seq<Node>, hrefs: seq<string>, url: string,
                      hostOf: string -> string, resolve: string -> string, rb: Rubric)
    requires |rb.ogRequired| == 4
    ensures 0.0 <= TitlePoints(md.title, rb.titleWords) <= 30.0
    ensures 0.0 <= DescriptionPoints(md.description, rb.valueWords) <= 20.0
    ensures 0.0 <= HeadingPoints(Headings(doc), H1s(doc), rb.sectionWords) <= 15.0
    ensures 0.0 <= OgPoints(md.og, rb.ogRequired) <= 10.0
    ensures 0.0 <= RawScore(md, html, doc, hrefs, url, hostOf, resolve, rb) <= 115.0
  {
    var present := Filter(rb.ogRequired, t => OgPresent(md.og, t));
    assert |present| <= 4;
  }

  /** The sections' points add up to the score seo_analysis accumulates. */
  lemma AnalyzeScore(md: MetaData, html: string, doc: seq<Node>, hrefs: seq<string>, url: string,
                     hostOf: string -> string, resolve: string -> string, typeOf: string -> string, rb: Rubric)
    ensures Analyze(md, html, doc, hrefs, url, hostOf, resolve, typeOf, rb).score
         == RawScore(md, html, doc, hrefs, url, hostOf, resolve, rb)
  {
  }

  /** The reported score is min(raw, 100), always in [0, 100], and the
      grade is the grade of that score. */
  lemma ScoreBounds(md: MetaData, html: string, doc: seq<Node>, hrefs: seq<string>, url: string,
                    hostOf: string -> string, resolve: string -> string, typeOf: string -> string, rb: Rubric)
    requires |rb.ogRequired| == 4
    ensures var r := SeoOf(md, html, doc, hrefs, url, hostOf, resolve, typeOf, rb);
            var raw := RawScore(md, html, doc, hrefs, url, hostOf, resolve, rb);
            0.0 <= r.score <= 100.0 && r.score <= raw && (raw <= 100.0 ==> r.score == raw)
            && (raw >= 100.0 ==> r.score == 100.0) && r.grade == Grade(r.score)
  {
    SectionBounds(md, html, doc, hrefs, url, hostOf, resolve, rb);
    AnalyzeScore(md, html, doc, hrefs, url, hostOf, resolve, typeOf, rb);
  }

  /** With every section at its best the raw sum is 115, so the clamp is
      reached and the grade is A. */
  lemma BestPage(md: MetaData, html: string, doc: seq<Node>, hrefs: seq<string>, url: string,
                 hostOf: string -> string, resolve: string -> string, typeOf: string -> string, rb: Rubric)
    requires |rb.ogRequired| == 4
    requires AnyIn(rb.titleWords, Lower(md.title)) && 30 <= |md.title| <= 60
    requires md.description != "" && AnyIn(rb.valueWords, Lower(md.description))
    requires H1s(doc) == 1 && SectionCount(Headings(doc), rb.sectionWords) >= 3
    requires CountIn(rb.trustWords, PageText(doc)) >= 2
    requires |InternalLinks(hrefs, hostOf(url), hostOf, resolve)| >= 5
    requires |ExternalLinks(hrefs, hostOf(url), hostOf)| >= 2
    requires forall i :: 0 <= i < |rb.ogRequired| ==> OgPresent(md.og, rb.ogRequired[i])
    requires md.twitter != map[] && md.schema != [] && |html| < PageSizeLimit
    requires Contains(md.viewport, "width=device-width")
    ensures RawScore(md, html, doc, hrefs, url, hostOf, resolve, rb) == 115.0
    ensures SeoOf(md, html, doc, hrefs, url, hostOf, resolve, typeOf, rb).score == 100.0
    ensures SeoOf(md, html, doc, hrefs, url, hostOf, resolve, typeOf, rb).grade == "A"
  {
    TitleMeaning(md.title, rb.titleWords);
    assert TitlePoints(md.title, rb.titleWords) == 30.0;
    CountInMeaning(rb.valueWords, Lower(md.description));
    assert DescriptionPoints(md.description, rb.valueWords) == 20.0;
    assert HeadingPoints(Headings(doc), H1s(doc), rb.sectionWords) == 15.0;
    assert TrustPoints(PageText(doc), rb.trustWords) == 10.0;
    var host := hostOf(url);
    assert LinkPoints(|InternalLinks(hrefs, host, hostOf, resolve)|, |ExternalLinks(hrefs, host, hostOf)|) == 10.0;
    OgComplete(md.og, rb.ogRequired);
    assert OgPoints(md.og, rb.ogRequired) == 10.0;
    AnalyzeScore(md, html, doc, hrefs, url, hostOf, resolve, typeOf, rb);
  }

  /** A page with no content: extract_meta_tags gives {}, the rubric
      finds nothing but the small page size, and every other section
      adds its advice in order. */
  lemma EmptyPage(url: string, hostOf: string -> string, resolve: string -> string, typeOf: string -> string, rb: Rubric)
    requires forall i :: 0 <= i < |rb.sectionWords| ==> rb.sectionWords[i] != ""
    requires forall i :: 0 <= i < |rb.trustWords| ==> rb.trustWords[i] != ""
    ensures var r := SeoOf(MetaOrDefault(None), "", [], [], url, hostOf, resolve, typeOf, rb);
            r.score == 5.0 && r.grade == "F"
            && r.recommendations == [MissingTitle, MissingDescription, MissingH1, AddSections, AddTrustSignals,
                                     AddInternalLinks, AddExternalLinks, MissingOg(rb.ogRequired), AddTwitterCards,
                                     AddSchema, AddViewport]
  {
    var md := MetaOrDefault(None);
    assert md == EmptyMeta;
    assert Headings([]) == [] && H1s([]) == 0;
    assert PageText([]) == "";
    var host := hostOf(url);
    assert InternalLinks([], host, hostOf, resolve) == [] && ExternalLinks([], host, hostOf) == [];
    EmptyFront(rb);
    var b := TrustStep(HeadingStep(DescriptionStep(TitleStep(Start, "", rb.titleWords), "", rb.valueWords),
                                   [], 0, rb.sectionWords), "", rb.trustWords);
    EmptyBack(b, rb, typeOf);
    assert Grade(5.0) == "F";
  }

  /** The title, description, heading and trust sections of an empty page. */
  lemma EmptyFront(rb: Rubric)
    requires forall i :: 0 <= i < |rb.sectionWords| ==> rb.sectionWords[i] != ""
    requires forall i :: 0 <= i < |rb.trustWords| ==> rb.trustWords[i] != ""
    ensures var b := TrustStep(HeadingStep(DescriptionStep(TitleStep(Start, "", rb.titleWords), "", rb.valueWords),
                                           [], 0, rb.sectionWords), "", rb.trustWords);
      b.score == 0.0 && b.advice == [MissingTitle, MissingDescription, MissingH1, AddSections, AddTrustSignals]
  {
    assert Join(HeadingTexts([]), " ") == "";
    NothingInEmpty(rb.sectionWords);
    NothingInEmpty(rb.trustWords);
  }

  /** The link, Open Graph and technical sections of an empty page: only
      the size check scores. */
  lemma EmptyBack(b: Analysis, rb: Rubric, typeOf: string -> string)
    ensures var c := ViewportStep(SizeStep(SchemaStep(TwitterStep(OgStep(LinkStep(b, 0, 0), map[], rb.ogRequired),
                                                                  map[]), [], typeOf), 0), "");
      c.score == b.score + 5.0 &&
      c.advice == b.advice + [AddInternalLinks, AddExternalLinks, MissingOg(rb.ogRequired), AddTwitterCards,
                              AddSchema, AddViewport]
  {
    OgNone(rb.ogRequired);
    assert !Contains("", "width=device-width");
  }

  lemma {:induction false} NothingInEmpty(words: seq<string>)
    requires forall i :: 0 <= i < |words| ==> words[i] != ""
    ensures CountIn(words, "") == 0
    decreases |words|
  {
    if words != [] {
      assert !Contains("", words[0]);
      NothingInEmpty(words[1..]);
    }
  }

  // ------------------------------------------------------------------
  // Sections

  /** The title rubric in terms of keyword occurrence rather than counts. */
  lemma TitleMeaning(title: string, words: seq<string>)
    ensures TitlePoints(title, words)
         == if title == "" then 0.0
            else 15.0 + (if AnyIn(words, Lower(title)) then 10.0 else 0.0)
                 + (if 30 <= |title| <= 60 then 5.0 else 0.0)
  {
    CountInMeaning(words, Lower(title));
  }

  /** "Enterprise API Platform for Business" (36 characters) scores 30. */
  lemma TitleExample()
    ensures TitlePoints("Enterprise API Platform for Business", B2b.titleWords) == 30.0
  {
    var t := "Enterprise API Platform for Business";
    var l := Lower(t);
    assert t[..10] == "Enterprise";
    assert l[..10] == Lower(t[..10]);
    assert Lower("Enterprise") == "enterprise";
    B2bShape();
    assert OccursAt(l, B2b.titleWords[0], 0);
    ContainsAt(l, B2b.titleWords[0], 0);
    TitleMeaning(t, B2b.titleWords);
  }

  /** The description's length earns nothing: only its presence and a
      value proposition do; the length only decides the factor and the
      advice. */
  lemma DescriptionMeaning(a: Analysis, desc: string, words: seq<string>)
    requires DescriptionLengthOptimal !in a.factors
    ensures DescriptionPoints(desc, words)
         == if desc == "" then 0.0 else if AnyIn(words, Lower(desc)) then 20.0 else 15.0
    ensures DescriptionLengthOptimal in DescriptionStep(a, desc, words).factors
        <==> desc != "" && 120 <= |desc| <= 160
    ensures desc != "" && !(120 <= |desc| <= 160) ==> FixDescriptionLength(|desc|) in DescriptionStep(a, desc, words).advice
  {
    CountInMeaning(words, Lower(desc));
  }

  /** Exactly one h1 earns 10; none or several earn nothing and say so. */
  lemma HeadingMeaning(a: Analysis, headings: seq<Node>, h1s: nat, words: seq<string>)
    ensures HeadingStep(a, headings, h1s, words).score - a.score
         == (if h1s == 1 then 10.0 else 0.0) + (if SectionCount(headings, words) >= 3 then 5.0 else 0.0)
    ensures h1s == 0 ==> MissingH1 in HeadingStep(a, headings, h1s, words).advice
    ensures h1s > 1 ==> MultipleH1(h1s) in HeadingStep(a, headings, h1s, words).advice
    ensures HeadingStep(a, headings, h1s, words).factors[H1Count] == Count(h1s)
  {
    var s := HeadingStep(a, headings, h1s, words);
    var n := SectionCount(headings, words);
    var tail := (if h1s == 1 then [] else if h1s == 0 then [MissingH1] else [MultipleH1(h1s)])
               + (if n >= 3 then [] else [AddSections]);
    assert s.advice == a.advice + tail;
    if h1s == 0 {
      assert s.advice[|a.advice|] == MissingH1;
    } else if h1s > 1 {
      assert s.advice[|a.advice|] == MultipleH1(h1s);
    }
  }

  /** Trust words inside a `<script>` are not on the page: soup.get_text()
      skips Script strings, so only the heading's words are counted. */
  lemma ScriptWordsNotCounted(a: Analysis, code: string, heading: string, words: seq<string>)
    ensures var doc := [Element("body", "", "", [Element("script", "", "", [Text(code, Script)]),
                                                Element("h1", "", "", [Text(heading, Plain)])])];
      WellKinded(doc, Plain) && PageText(doc) == Lower(heading) &&
      TrustStep(a, PageText(doc), words) == TrustStep(a, Lower(heading), words)
  {
    var sc := Element("script", "", "", [Text(code, Script)]);
    var h := Element("h1", "", "", [Text(heading, Plain)]);
    assert Strings([Text(code, Script)], Plain, false) == "";
    assert Strings([Text(heading, Plain)], Plain, false) == heading;
    assert Strings([h], Plain, false) == heading;
    assert Strings([sc, h], Plain, false) == "" + Strings([h], Plain, false);
    var doc := [Element("body", "", "", [sc, h])];
    assert Strings(doc, Plain, false) == Strings([sc, h], Plain, false) + Strings([], Plain, false);
  }

  // ------------------------------------------------------------------
  // Open Graph

  /** og_score is 2.5 for each required tag not missing; it is 10 exactly
      when nothing is missing, and the missing list holds exactly the
      required tags that are absent or empty. */
  lemma OgMeaning(og: map<string, string>, required: seq<string>)
    ensures OgPoints(og, required) == 2.5 * (|required| - |OgMissing(og, required)|) as real
    ensures OgPoints(og, required) == 2.5 * |required| as real <==> OgMissing(og, required) == []
    ensures forall t :: t in OgMissing(og, required) <==> t in required && !OgPresent(og, t)
  {
    FilterSplit(required, t => OgPresent(og, t), t => !OgPresent(og, t));
    var missing := OgMissing(og, required);
    forall t | t in missing ensures t in required && !OgPresent(og, t) {
      var k :| 0 <= k < |missing| && missing[k] == t;
    }
    forall t | t in required && !OgPresent(og, t) ensures t in missing {
      var k :| 0 <= k < |required| && required[k] == t;
    }
  }

  lemma OgComplete(og: map<string, string>, required: seq<string>)
    requires forall i :: 0 <= i < |required| ==> OgPresent(og, required[i])
    ensures OgPoints(og, required) == 2.5 * |required| as real
    ensures OgMissing(og, required) == []
    decreases |required|
  {
    if required != [] {
      OgComplete(og, required[1..]);
    }
    OgMeaning(og, required);
  }

  lemma OgNone(required: seq<string>)
    ensures OgPoints(map[], required) == 0.0
    ensures OgMissing(map[], required) == required
    decreases |required|
  {
    if required != [] {
      OgNone(required[1..]);
    }
  }

  /** With the four required tags, a score below 10 is what triggers the
      "Missing Open Graph tags" advice, and it lists the missing ones. */
  lemma OgAdvice(a: Analysis, og: map<string, string>, required: seq<string>)
    requires |required| == 4
    ensures OgStep(a, og, required).score == a.score + OgPoints(og, required)
    ensures OgPoints(og, required) < 10.0 <==> OgMissing(og, required) != []
    ensures OgStep(a, og, required).advice
         == a.advice + (if OgMissing(og, required) != [] then [MissingOg(OgMissing(og, required))] else [])
  {
    OgMeaning(og, required);
  }

  // ------------------------------------------------------------------
  // Links

  /** An href is ignored exactly when it is empty or a fragment; it is
      external exactly when it is an http… link to another host. The
      `startswith('/')` test never changes the outcome. */
  lemma LinkKindMeaning(h: string, host: string, hostOf: string -> string)
    ensures KindOf(h, host, hostOf) == Ignored <==> h == "" || StartsWith(h, "#")
    ensures KindOf(h, host, hostOf) == External <==> StartsWith(h, "http") && hostOf(h) != host
    ensures KindOf(h, host, hostOf) == Internal <==>
            h != "" && !StartsWith(h, "#") && (StartsWith(h, "http") ==> hostOf(h) == host)
  {
    if StartsWith(h, "http") {
      assert h[0] == 'h';
    }
  }

  function Unused(hrefs: seq<string>, host: string, hostOf: string -> string): seq<string> {
    Filter(hrefs, h => KindOf(h, host, hostOf) == Ignored)
  }

  /** Every href is counted once: as internal, as external or not at all;
      external links are the foreign http… hrefs, in page order. */
  lemma LinkCounts(hrefs: seq<string>, host: string, hostOf: string -> string,
                   resolve: string -> string)
    ensures |InternalLinks(hrefs, host, hostOf, resolve)| + |ExternalLinks(hrefs, host, hostOf)|
            + |Unused(hrefs, host, hostOf)| == |hrefs|
    ensures forall x :: x in ExternalLinks(hrefs, host, hostOf) ==> x in hrefs && StartsWith(x, "http") && hostOf(x) != host
  {
    LinkTotal(hrefs, host, hostOf, resolve);
    ExternalSound(hrefs, host, hostOf);
  }

  lemma {:induction false} LinkTotal(hrefs: seq<string>, host: string, hostOf: string -> string,
                                     resolve: string -> string)
    ensures |InternalLinks(hrefs, host, hostOf, resolve)| + |ExternalLinks(hrefs, host, hostOf)|
            + |Unused(hrefs, host, hostOf)| == |hrefs|
    decreases |hrefs|
  {
    if hrefs != [] {
      var init := hrefs[..|hrefs| - 1];
      var h := hrefs[|hrefs| - 1];
      LinkTotal(init, host, hostOf, resolve);
      assert hrefs == init + [h];
      FilterAppend(init, [h], x => KindOf(x, host, hostOf) == Ignored);
    }
  }

  lemma {:induction false} ExternalSound(hrefs: seq<string>, host: string, hostOf: string -> string)
    ensures forall x :: x in ExternalLinks(hrefs, host, hostOf) ==> x in hrefs && StartsWith(x, "http") && hostOf(x) != host
    decreases |hrefs|
  {
    if hrefs != [] {
      var init := hrefs[..|hrefs| - 1];
      var h := hrefs[|hrefs| - 1];
      ExternalSound(init, host, hostOf);
      assert hrefs == init + [h];
      LinkKindMeaning(h, host, hostOf);
    }
  }

  // ------------------------------------------------------------------
  // Grade

  /** get_seo_grade's bands, both ways. */
  lemma GradeBands(score: real)
    ensures Grade(score) == "A" <==> score >= 90.0
    ensures Grade(score) == "B" <==> 80.0 <= score < 90.0
    ensures Grade(score) == "C" <==> 70.0 <= score < 80.0
    ensures Grade(score) == "D" <==> 60.0 <= score < 70.0
    ensures Grade(score) == "F" <==> score < 60.0
  {
  }

  lemma GradeBoundaries()
    ensures Grade(90.0) == "A" && Grade(89.0) == "B" && Grade(80.0) == "B" && Grade(59.5) == "F"
  {
  }
}
