/** calculate_b2b_seo_score and get_seo_grade: a weighted B2B rubric over
    the metadata extract_meta_tags returns, the parsed page, the href
    values of its links and the page URL. URL parsing and JSON field access
    are parameters: `hostOf` stands for urlparse(·).netloc, `resolve` for
    urljoin(url, ·) and `typeOf` for a schema block's '@type' (or
    'Unknown'). */
module Seo {
  import opened Common
  import opened Dom
  import opened Meta

  // ------------------------------------------------------------------
  // The result

  /** The keys of seo_analysis['factors'], one constructor per key. */
  datatype FactorKey =
    | HasTitle | TitleLength | HasB2bKeywords | TitleLengthOptimal
    | HasDescription | DescriptionLength | HasB2bValueProps | DescriptionLengthOptimal
    | SingleH1 | GoodB2bStructure | TotalHeadings | H1Count
    | GoodTrustSignals | TrustSignalsCount
    | InternalLinkCount | ExternalLinkCount | GoodInternalLinking | GoodExternalLinking
    | OgTagsScore | OgTagsPresent | HasTwitterCards | TwitterTagsPresent
    | HasSchemaMarkup | SchemaTypes | ReasonablePageSize | PageSizeBytes | MobileFriendly

  datatype Factor = Flag(b: bool) | Count(n: nat) | Points(x: real) | Keys(ks: set<string>) | Names(ns: seq<string>)

  /** The keys of seo_analysis['b2b_indicators']. */
  datatype Indicator = B2bKeywordsInTitle | B2bValuePropsInDescription | B2bSectionsFound | TrustSignalsFound

  /** One recommendation; Message gives its text. */
  datatype Advice =
    | AddTitleKeywords | FixTitleLength(titleLen: nat) | MissingTitle
    | AddValueProps | FixDescriptionLength(descLen: nat) | MissingDescription
    | MissingH1 | MultipleH1(h1s: nat) | AddSections | AddTrustSignals
    | AddInternalLinks | AddExternalLinks | MissingOg(tags: seq<string>)
    | AddTwitterCards | AddSchema | LargePage | AddViewport

  function Message(a: Advice): string {
    match a
    case AddTitleKeywords => "Consider adding B2B keywords to title (enterprise, business, solution, etc.)"
    case FixTitleLength(n) => "Title length (" + NatToString(n) + " chars) should be 30-60 characters"
    case MissingTitle => "Missing title tag"
    case AddValueProps => "Consider adding B2B value propositions to description"
    case FixDescriptionLength(n) => "Meta description length (" + NatToString(n) + " chars) should be 120-160 characters"
    case MissingDescription => "Missing meta description"
    case MissingH1 => "Missing H1 tag"
    case MultipleH1(n) => "Multiple H1 tags found (" + NatToString(n) + ")"
    case AddSections => "Consider adding more B2B-focused content sections"
    case AddTrustSignals => "Consider adding more trust signals (security, compliance, certifications)"
    case AddInternalLinks => "Add more internal links"
    case AddExternalLinks => "Add more external links for authority"
    case MissingOg(tags) => "Missing Open Graph tags: " + Join(tags, ", ")
    case AddTwitterCards => "Add Twitter Card meta tags"
    case AddSchema => "Add structured data (Schema.org markup)"
    case LargePage => "Page size is large, consider optimization"
    case AddViewport => "Add responsive viewport meta tag"
  }

  /** seo_analysis: while it is being filled in, and as returned. */
  datatype Analysis = Analysis(
    score: real,
    factors: map<FactorKey, Factor>,
    advice: seq<Advice>,
    indicators: map<Indicator, nat>)

  datatype SeoAnalysis = SeoAnalysis(
    score: real,
    grade: string,
    factors: map<FactorKey, Factor>,
    recommendations: seq<Advice>,
    indicators: map<Indicator, nat>)

  const Start := Analysis(0.0, map[], [], map[])

  // ------------------------------------------------------------------
  // Keyword counts

  /** The keyword lists the rubric looks for, and the Open Graph tags it
      requires. */
  datatype Rubric = Rubric(
    titleWords: seq<string>,
    valueWords: seq<string>,
    sectionWords: seq<string>,
    trustWords: seq<string>,
    ogRequired: seq<string>)

  const B2b := Rubric(
    ["enterprise", "business", "professional", "solution", "platform", "api", "integration"],
    ["enterprise", "scalable", "secure", "integration", "api", "automation", "efficiency"],
    ["features", "pricing", "enterprise", "api", "integration", "security", "compliance"],
    ["security", "compliance", "soc2", "iso", "gdpr", "hipaa", "enterprise", "certified"],
    ["title", "description", "image", "url"])

  const HeadingTags: set<string> := {"h1", "h2", "h3", "h4", "h5", "h6"}

  /** sum(1 for w in words if w in text). */
  function CountIn(words: seq<string>, text: string): nat {
    |Filter(words, w => Contains(text, w))|
  }

  /** Some word of the list occurs in the text. */
  predicate AnyIn(words: seq<string>, text: string) {
    exists i :: 0 <= i < |words| && Contains(text, words[i])
  }

  lemma CountInMeaning(words: seq<string>, text: string)
    ensures CountIn(words, text) <= |words|
    ensures CountIn(words, text) > 0 <==> AnyIn(words, text)
  {
    var r := Filter(words, w => Contains(text, w));
    if r != [] {
      assert r[0] in words;
    }
  }

  /** The elements of a list split into those that pass and those that fail. */
  lemma {:induction false} FilterSplit<T>(xs: seq<T>, p: T -> bool, q: T -> bool)
    requires forall x :: q(x) == !p(x)
    ensures |Filter(xs, p)| + |Filter(xs, q)| == |xs|
    decreases |xs|
  {
    if xs != [] {
      FilterSplit(xs[1..], p, q);
    }
  }

  // ------------------------------------------------------------------
  // The rubric: points per section, in the order the score adds them

  /** 15 for any title, 10 more for a B2B keyword, 5 more for 30-60 characters. */
  function TitlePoints(title: string, words: seq<string>): real {
    if title == "" then 0.0
    else 15.0 + (if CountIn(words, Lower(title)) > 0 then 10.0 else 0.0) + (if 30 <= |title| <= 60 then 5.0 else 0.0)
  }

  /** 15 for any description, 5 more for a value proposition. */
  function DescriptionPoints(desc: string, words: seq<string>): real {
    if desc == "" then 0.0 else 15.0 + (if CountIn(words, Lower(desc)) > 0 then 5.0 else 0.0)
  }

  /** The lowered get_text() of each heading. */
  function HeadingTexts(hs: seq<Node>): (r: seq<string>)
    ensures |r| == |hs|
    ensures forall i :: 0 <= i < |hs| ==> r[i] == Lower(NodeText(hs[i], false))
  {
    seq(|hs|, i requires 0 <= i < |hs| => Lower(NodeText(hs[i], false)))
  }

  function SectionCount(headings: seq<Node>, words: seq<string>): nat {
    CountIn(words, Join(HeadingTexts(headings), " "))
  }

  /** 10 for exactly one h1, 5 for three B2B section words in the headings. */
  function HeadingPoints(headings: seq<Node>, h1s: nat, words: seq<string>): real {
    (if h1s == 1 then 10.0 else 0.0) + (if SectionCount(headings, words) >= 3 then 5.0 else 0.0)
  }

  /** 10 for two trust words in the lowered page text. */
  function TrustPoints(pageText: string, words: seq<string>): real {
    if CountIn(words, pageText) >= 2 then 10.0 else 0.0
  }

  /** 5 for five internal links, 5 for two external ones. */
  function LinkPoints(internal: nat, external: nat): real {
    (if internal >= 5 then 5.0 else 0.0) + (if external >= 2 then 5.0 else 0.0)
  }

  predicate OgPresent(og: map<string, string>, tag: string) {
    tag in og && og[tag] != ""
  }

  /** The required Open Graph tags that are absent or empty, in order. */
  function OgMissing(og: map<string, string>, required: seq<string>): seq<string> {
    Filter(required, t => !OgPresent(og, t))
  }

  /** 2.5 for each required Open Graph tag that is present and non-empty. */
  function OgPoints(og: map<string, string>, required: seq<string>): real {
    2.5 * |Filter(required, t => OgPresent(og, t))| as real
  }

  function TwitterPoints(twitter: map<string, string>): real {
    if twitter != map[] then 5.0 else 0.0
  }

  function SchemaPoints(schema: seq<string>): real {
    if schema != [] then 5.0 else 0.0
  }

  const PageSizeLimit := 500000

  function SizePoints(size: nat): real {
    if size < PageSizeLimit then 5.0 else 0.0
  }

  function ViewportPoints(viewport: string): real {
    if Contains(viewport, "width=device-width") then 5.0 else 0.0
  }

  // ------------------------------------------------------------------
  // The writes each section makes to seo_analysis

  function TitleStep(a: Analysis, title: string, words: seq<string>): Analysis {
    if title == "" then a.(factors := a.factors[HasTitle := Flag(false)], advice := a.advice + [MissingTitle])
    else
      var n := CountIn(words, Lower(title));
      var optimal := 30 <= |title| <= 60;
      var f0 := a.factors[HasTitle := Flag(true)][TitleLength := Count(|title|)];
      var f1 := if n > 0 then f0[HasB2bKeywords := Flag(true)] else f0;
      Analysis(a.score + TitlePoints(title, words),
               if optimal then f1[TitleLengthOptimal := Flag(true)] else f1,
               a.advice + (if n > 0 then [] else [AddTitleKeywords]) + (if optimal then [] else [FixTitleLength(|title|)]),
               a.indicators[B2bKeywordsInTitle := n])
  }

  function DescriptionStep(a: Analysis, desc: string, words: seq<string>): Analysis {
    if desc == "" then a.(factors := a.factors[HasDescription := Flag(false)], advice := a.advice + [MissingDescription])
    else
      var n := CountIn(words, Lower(desc));
      var optimal := 120 <= |desc| <= 160;
      var f0 := a.factors[HasDescription := Flag(true)][DescriptionLength := Count(|desc|)];
      var f1 := if n > 0 then f0[HasB2bValueProps := Flag(true)] else f0;
      Analysis(a.score + DescriptionPoints(desc, words),
               if optimal then f1[DescriptionLengthOptimal := Flag(true)] else f1,
               a.advice + (if n > 0 then [] else [AddValueProps]) + (if optimal then [] else [FixDescriptionLength(|desc|)]),
               a.indicators[B2bValuePropsInDescription := n])
  }

  function HeadingStep(a: Analysis, headings: seq<Node>, h1s: nat, words: seq<string>): Analysis {
    var n := SectionCount(headings, words);
    var f0 := if h1s == 1 then a.factors[SingleH1 := Flag(true)] else a.factors;
    var f1 := if n >= 3 then f0[GoodB2bStructure := Flag(true)] else f0;
    Analysis(a.score + HeadingPoints(headings, h1s, words),
             f1[TotalHeadings := Count(|headings|)][H1Count := Count(h1s)],
             a.advice + (if h1s == 1 then [] else if h1s == 0 then [MissingH1] else [MultipleH1(h1s)])
               + (if n >= 3 then [] else [AddSections]),
             a.indicators[B2bSectionsFound := n])
  }

  function TrustStep(a: Analysis, pageText: string, words: seq<string>): Analysis {
    var n := CountIn(words, pageText);
    Analysis(a.score + TrustPoints(pageText, words),
             (if n >= 2 then a.factors[GoodTrustSignals := Flag(true)] else a.factors)[TrustSignalsCount := Count(n)],
             a.advice + (if n >= 2 then [] else [AddTrustSignals]),
             a.indicators[TrustSignalsFound := n])
  }

  function LinkStep(a: Analysis, internal: nat, external: nat): Analysis {
    var f0 := a.factors[InternalLinkCount := Count(internal)][ExternalLinkCount := Count(external)];
    var f1 := if internal >= 5 then f0[GoodInternalLinking := Flag(true)] else f0;
    a.(score := a.score + LinkPoints(internal, external),
       factors := if external >= 2 then f1[GoodExternalLinking := Flag(true)] else f1,
       advice := a.advice + (if internal >= 5 then [] else [AddInternalLinks]) + (if external >= 2 then [] else [AddExternalLinks]))
  }

  function OgStep(a: Analysis, og: map<string, string>, required: seq<string>): Analysis {
    var s := OgPoints(og, required);
    a.(score := a.score + s,
       factors := a.factors[OgTagsScore := Points(s)][OgTagsPresent := Keys(og.Keys)],
       advice := a.advice + (if s < 10.0 then [MissingOg(OgMissing(og, required))] else []))
  }

  function TwitterStep(a: Analysis, twitter: map<string, string>): Analysis {
    if twitter != map[] then
      a.(score := a.score + TwitterPoints(twitter),
         factors := a.factors[HasTwitterCards := Flag(true)][TwitterTagsPresent := Keys(twitter.Keys)])
    else a.(advice := a.advice + [AddTwitterCards])
  }

  /** The '@type' of each block. */
  function SchemaTypeList(schema: seq<string>, typeOf: string -> string): (r: seq<string>)
    ensures |r| == |schema|
    ensures forall i :: 0 <= i < |schema| ==> r[i] == typeOf(schema[i])
  {
    seq(|schema|, i requires 0 <= i < |schema| => typeOf(schema[i]))
  }

  function SchemaStep(a: Analysis, schema: seq<string>, typeOf: string -> string): Analysis {
    if schema != [] then
      a.(score := a.score + SchemaPoints(schema),
         factors := a.factors[HasSchemaMarkup := Flag(true)][SchemaTypes := Names(SchemaTypeList(schema, typeOf))])
    else a.(advice := a.advice + [AddSchema])
  }

  function SizeStep(a: Analysis, size: nat): Analysis {
    a.(score := a.score + SizePoints(size),
       factors := (if size < PageSizeLimit then a.factors[ReasonablePageSize := Flag(true)] else a.factors)[PageSizeBytes := Count(size)],
       advice := a.advice + (if size < PageSizeLimit then [] else [LargePage]))
  }

  function ViewportStep(a: Analysis, viewport: string): Analysis {
    if Contains(viewport, "width=device-width") then
      a.(score := a.score + ViewportPoints(viewport), factors := a.factors[MobileFriendly := Flag(true)])
    else a.(advice := a.advice + [AddViewport])
  }

  // ------------------------------------------------------------------
  // Links

  datatype LinkKind = Ignored | Internal | External

  /** How the loop over <a href> treats one href. */
  function KindOf(h: string, pageHost: string, hostOf: string -> string): LinkKind {
    if h == "" then Ignored
    else if StartsWith(h, "http") then (if hostOf(h) == pageHost then Internal else External)
    else if StartsWith(h, "/") || !StartsWith(h, "#") then Internal
    else Ignored
  }

  function InternalLinks(hrefs: seq<string>, pageHost: string, hostOf: string -> string,
                         resolve: string -> string): seq<string>
    decreases |hrefs|
  {
    if hrefs == [] then []
    else
      var h := hrefs[|hrefs| - 1];
      InternalLinks(hrefs[..|hrefs| - 1], pageHost, hostOf, resolve)
        + (if KindOf(h, pageHost, hostOf) != Internal then []
           else if StartsWith(h, "http") then [h] else [resolve(h)])
  }

  function ExternalLinks(hrefs: seq<string>, pageHost: string, hostOf: string -> string): seq<string>
    decreases |hrefs|
  {
    if hrefs == [] then []
    else
      var h := hrefs[|hrefs| - 1];
      ExternalLinks(hrefs[..|hrefs| - 1], pageHost, hostOf) + (if KindOf(h, pageHost, hostOf) == External then [h] else [])
  }

  // ------------------------------------------------------------------
  // Grade and the whole score

  /** get_seo_grade. */
  function Grade(score: real): (g: string)
    ensures g == "A" || g == "B" || g == "C" || g == "D" || g == "F"
    ensures g == "A" <==> score >= 90.0
    ensures g == "F" <==> score < 60.0
  {
    if score >= 90.0 then "A"
    else if score >= 80.0 then "B"
    else if score >= 70.0 then "C"
    else if score >= 60.0 then "D"
    else "F"
  }

  /** min(score, 100). */
  function Clamp(raw: real): real {
    if 100.0 < raw then 100.0 else raw
  }

  function Headings(doc: seq<Node>): seq<Node> {
    Filter(Descendants(doc), e => HasTag(e, HeadingTags))
  }

  function H1s(doc: seq<Node>): nat {
    |Filter(Descendants(doc), e => HasTag(e, {"h1"}))|
  }

  function PageText(doc: seq<Node>): string {
    Lower(ForestText(doc, false))
  }

  /** seo_analysis before the final score and grade are written. */
  function Analyze(md: MetaData, html: string, doc: seq<Node>, hrefs: seq<string>, url: string,
                   hostOf: string -> string, resolve: string -> string, typeOf: string -> string, rb: Rubric): Analysis
  {
    var host := hostOf(url);
    var a := DescriptionStep(TitleStep(Start, md.title, rb.titleWords), md.description, rb.valueWords);
    var b := TrustStep(HeadingStep(a, Headings(doc), H1s(doc), rb.sectionWords), PageText(doc), rb.trustWords);
    var c := OgStep(LinkStep(b, |InternalLinks(hrefs, host, hostOf, resolve)|, |ExternalLinks(hrefs, host, hostOf)|), md.og, rb.ogRequired);
    ViewportStep(SizeStep(SchemaStep(TwitterStep(c, md.twitter), md.schema, typeOf), |html|), md.viewport)
  }

  /** The unclamped score: the sum of the sections' points. */
  function RawScore(md: MetaData, html: string, doc: seq<Node>, hrefs: seq<string>, url: string,
                    hostOf: string -> string, resolve: string -> string, rb: Rubric): real
  {
    var host := hostOf(url);
    TitlePoints(md.title, rb.titleWords) + DescriptionPoints(md.description, rb.valueWords)
      + HeadingPoints(Headings(doc), H1s(doc), rb.sectionWords) + TrustPoints(PageText(doc), rb.trustWords)
      + LinkPoints(|InternalLinks(hrefs, host, hostOf, resolve)|, |ExternalLinks(hrefs, host, hostOf)|)
      + OgPoints(md.og, rb.ogRequired) + TwitterPoints(md.twitter) + SchemaPoints(md.schema) + SizePoints(|html|)
      + ViewportPoints(md.viewport)
  }

  function SeoOf(md: MetaData, html: string, doc: seq<Node>, hrefs: seq<string>, url: string,
                 hostOf: string -> string, resolve: string -> string, typeOf: string -> string, rb: Rubric): SeoAnalysis
  {
    var a := Analyze(md, html, doc, hrefs, url, hostOf, resolve, typeOf, rb);
    SeoAnalysis(Clamp(a.score), Grade(Clamp(a.score)), a.factors, a.advice, a.indicators)
  }

  /** The metadata a page without content is scored on: extract_meta_tags
      returns {} and every .get falls back to its default. */
  function MetaOrDefault(md: Option<MetaData>): MetaData {
    if md.Some? then md.value else EmptyMeta
  }

  // ------------------------------------------------------------------
  // The scorer

  /* calculate_b2b_seo_score, one method per section of the rubric. Each
     takes seo_analysis as filled in so far and returns it with that
     section's writes applied. The keyword lists come in as a Rubric;
     the scraper's own are B2b. */

  method ScoreTitle(title: string, words: seq<string>, acc: Analysis) returns (next: Analysis)
    ensures next == TitleStep(acc, title, words)
  {
    var score, factors, advice, indicators := acc.score, acc.factors, acc.advice, acc.indicators;
    if title != "" {
      score := score + 15.0;
      factors := factors[HasTitle := Flag(true)][TitleLength := Count(|title|)];
      var n := CountIn(words, Lower(title));
      indicators := indicators[B2bKeywordsInTitle := n];
      if n > 0 {
        score := score + 10.0;
        factors := factors[HasB2bKeywords := Flag(true)];
      } else {
        advice := advice + [AddTitleKeywords];
      }
      if 30 <= |title| <= 60 {
        score := score + 5.0;
        factors := factors[TitleLengthOptimal := Flag(true)];
      } else {
        advice := advice + [FixTitleLength(|title|)];
      }
    } else {
      factors := factors[HasTitle := Flag(false)];
      advice := advice + [MissingTitle];
    }
    next := Analysis(score, factors, advice, indicators);
  }

  method ScoreDescription(desc: string, words: seq<string>, acc: Analysis) returns (next: Analysis)
    ensures next == DescriptionStep(acc, desc, words)
  {
    var score, factors, advice, indicators := acc.score, acc.factors, acc.advice, acc.indicators;
    if desc != "" {
      score := score + 15.0;
      factors := factors[HasDescription := Flag(true)][DescriptionLength := Count(|desc|)];
      var n := CountIn(words, Lower(desc));
      indicators := indicators[B2bValuePropsInDescription := n];
      if n > 0 {
        score := score + 5.0;
        factors := factors[HasB2bValueProps := Flag(true)];
      } else {
        advice := advice + [AddValueProps];
      }
      if 120 <= |desc| <= 160 {
        factors := factors[DescriptionLengthOptimal := Flag(true)];
      } else {
        advice := advice + [FixDescriptionLength(|desc|)];
      }
    } else {
      factors := factors[HasDescription := Flag(false)];
      advice := advice + [MissingDescription];
    }
    next := Analysis(score, factors, advice, indicators);
  }

  method ScoreHeadings(doc: seq<Node>, words: seq<string>, acc: Analysis) returns (next: Analysis)
    ensures next == HeadingStep(acc, Headings(doc), H1s(doc), words)
  {
    var score, factors, advice, indicators := acc.score, acc.factors, acc.advice, acc.indicators;
    var headings := Headings(doc);
    var h1s := H1s(doc);
    if h1s == 1 {
      score := score + 10.0;
      factors := factors[SingleH1 := Flag(true)];
    } else if h1s == 0 {
      advice := advice + [MissingH1];
    } else {
      advice := advice + [MultipleH1(h1s)];
    }
    var sections := CountIn(words, Join(HeadingTexts(headings), " "));
    indicators := indicators[B2bSectionsFound := sections];
    if sections >= 3 {
      score := score + 5.0;
      factors := factors[GoodB2bStructure := Flag(true)];
    } else {
      advice := advice + [AddSections];
    }
    factors := factors[TotalHeadings := Count(|headings|)][H1Count := Count(h1s)];
    next := Analysis(score, factors, advice, indicators);
  }

  method ScoreTrust(doc: seq<Node>, words: seq<string>, acc: Analysis) returns (next: Analysis)
    ensures next == TrustStep(acc, PageText(doc), words)
  {
    var score, factors, advice, indicators := acc.score, acc.factors, acc.advice, acc.indicators;
    var signals := CountIn(words, Lower(ForestText(doc, false)));
    indicators := indicators[TrustSignalsFound := signals];
    if signals >= 2 {
      score := score + 10.0;
      factors := factors[GoodTrustSignals := Flag(true)];
    } else {
      advice := advice + [AddTrustSignals];
    }
    factors := factors[TrustSignalsCount := Count(signals)];
    next := Analysis(score, factors, advice, indicators);
  }

  /** The loop over <a href>: which links count as internal and external. */
  method ClassifyLinks(hrefs: seq<string>, host: string, hostOf: string -> string, resolve: string -> string)
    returns (internal: seq<string>, external: seq<string>)
    ensures internal == InternalLinks(hrefs, host, hostOf, resolve)
    ensures external == ExternalLinks(hrefs, host, hostOf)
  {
    internal, external := [], [];
    var i := 0;
    while i < |hrefs|
      invariant 0 <= i <= |hrefs|
      invariant internal == InternalLinks(hrefs[..i], host, hostOf, resolve)
      invariant external == ExternalLinks(hrefs[..i], host, hostOf)
    {
      var h := hrefs[i];
      assert hrefs[..i + 1][..i] == hrefs[..i];
      if h != "" {
        if StartsWith(h, "http") {
          if hostOf(h) == host {
            internal := internal + [h];
          } else {
            external := external + [h];
          }
        } else if StartsWith(h, "/") || !StartsWith(h, "#") {
          internal := internal + [resolve(h)];
        }
      }
      i := i + 1;
    }
    assert hrefs[..|hrefs|] == hrefs;
  }

  method ScoreLinks(hrefs: seq<string>, url: string, hostOf: string -> string, resolve: string -> string,
                    acc: Analysis) returns (next: Analysis)
    ensures next == LinkStep(acc, |InternalLinks(hrefs, hostOf(url), hostOf, resolve)|,
                             |ExternalLinks(hrefs, hostOf(url), hostOf)|)
  {
    var score, factors, advice := acc.score, acc.factors, acc.advice;
    var internal, external := ClassifyLinks(hrefs, hostOf(url), hostOf, resolve);
    factors := factors[InternalLinkCount := Count(|internal|)][ExternalLinkCount := Count(|external|)];
    if |internal| >= 5 {
      score := score + 5.0;
      factors := factors[GoodInternalLinking := Flag(true)];
    } else {
      advice := advice + [AddInternalLinks];
    }
    if |external| >= 2 {
      score := score + 5.0;
      factors := factors[GoodExternalLinking := Flag(true)];
    } else {
      advice := advice + [AddExternalLinks];
    }
    next := acc.(score := score, factors := factors, advice := advice);
  }

  method ScoreOg(og: map<string, string>, required: seq<string>, acc: Analysis) returns (next: Analysis)
    ensures next == OgStep(acc, og, required)
  {
    var score, factors, advice := acc.score, acc.factors, acc.advice;
    var ogScore := 0.0;
    var j := 0;
    while j < |required|
      invariant 0 <= j <= |required|
      invariant ogScore == 2.5 * |Filter(required[..j], t => OgPresent(og, t))| as real
    {
      var tag := required[j];
      FilterAppend(required[..j], [tag], t => OgPresent(og, t));
      assert required[..j + 1] == required[..j] + [tag];
      if tag in og && og[tag] != "" {
        ogScore := ogScore + 2.5;
      }
      j := j + 1;
    }
    assert required[..|required|] == required;
    score := score + ogScore;
    factors := factors[OgTagsScore := Points(ogScore)][OgTagsPresent := Keys(og.Keys)];
    if ogScore < 10.0 {
      advice := advice + [MissingOg(OgMissing(og, required))];
    }
    next := acc.(score := score, factors := factors, advice := advice);
  }

  /** Twitter cards, structured data, page size and viewport. */
  method ScoreTechnical(md: MetaData, size: nat, typeOf: string -> string, acc: Analysis) returns (next: Analysis)
    ensures next == ViewportStep(SizeStep(SchemaStep(TwitterStep(acc, md.twitter), md.schema, typeOf), size), md.viewport)
  {
    var score, factors, advice := acc.score, acc.factors, acc.advice;
    if md.twitter != map[] {
      score := score + 5.0;
      factors := factors[HasTwitterCards := Flag(true)][TwitterTagsPresent := Keys(md.twitter.Keys)];
    } else {
      advice := advice + [AddTwitterCards];
    }
    var schema := md.schema;
    if schema != [] {
      score := score + 5.0;
      var types := seq(|schema|, k requires 0 <= k < |schema| => typeOf(schema[k]));
      factors := factors[HasSchemaMarkup := Flag(true)][SchemaTypes := Names(types)];
    } else {
      advice := advice + [AddSchema];
    }
    if size < PageSizeLimit {
      score := score + 5.0;
      factors := factors[ReasonablePageSize := Flag(true)];
    } else {
      advice := advice + [LargePage];
    }
    factors := factors[PageSizeBytes := Count(size)];
    if Contains(md.viewport, "width=device-width") {
      score := score + 5.0;
      factors := factors[MobileFriendly := Flag(true)];
    } else {
      advice := advice + [AddViewport];
    }
    next := acc.(score := score, factors := factors, advice := advice);
  }

  method CalculateSeoScore(md: MetaData, html: string, doc: seq<Node>, hrefs: seq<string>, url: string,
                           hostOf: string -> string, resolve: string -> string, typeOf: string -> string,
                           rb: Rubric)
    returns (r: SeoAnalysis)
    ensures r == SeoOf(md, html, doc, hrefs, url, hostOf, resolve, typeOf, rb)
  {
    var acc := ScoreTitle(md.title, rb.titleWords, Start);
    acc := ScoreDescription(md.description, rb.valueWords, acc);
    acc := ScoreHeadings(doc, rb.sectionWords, acc);
    acc := ScoreTrust(doc, rb.trustWords, acc);
    acc := ScoreLinks(hrefs, url, hostOf, resolve, acc);
    acc := ScoreOg(md.og, rb.ogRequired, acc);
    acc := ScoreTechnical(md, |html|, typeOf, acc);
    var score := if 100.0 < acc.score then 100.0 else acc.score;
    r := SeoAnalysis(score, Grade(score), acc.factors, acc.advice, acc.indicators);
  }
}
