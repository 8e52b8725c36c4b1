/** The sitemap analyzer: flattening a sitemap or sitemap index into its
    page URLs (the Sitemap protocol 0.9 of sitemaps.org, "Using Sitemap
    index files"), keyword filtering, first-match categorisation and
    the accumulation of scraped feature pages. */
module Sitemap {
  import opened Common
  import opened Pages

  // ------------------------------------------------------------------
  // Sitemap documents

  /** The namespace every element name is qualified with. */
  const Namespace: string := "http://www.sitemaps.org/schemas/sitemap/0.9"

  /** A fetched sitemap after XML parsing: for each `<url>` element and
      for each `<sitemap>` element, in document order, the text of its
      `<loc>` child, or None when it has none. A `<loc>` without text is
      modelled by its empty text. */
  datatype Doc =
    | Malformed
    | Parsed(urlLocs: seq<Option<string>>, sitemapLocs: seq<Option<string>>)

  /** The loc texts that are present, in order. */
  function Locs(ls: seq<Option<string>>): (r: seq<string>)
    ensures |r| <= |ls|
    ensures forall x :: x in r <==> Some(x) in ls
    decreases |ls|
  {
    if ls == [] then []
    else
      var init := Locs(ls[..|ls| - 1]);
      assert ls == ls[..|ls| - 1] + [ls[|ls| - 1]];
      match ls[|ls| - 1]
      case Some(x) => init + [x]
      case None => init
  }

  /** What parse_sitemap returns for a document, with nested sitemaps
      fetched through `fetch` (a URL that is not a key could not be
      fetched) and at most `fuel` levels of nesting followed. */
  function Flatten(doc: Doc, fetch: map<string, Doc>, fuel: nat): seq<string>
    decreases fuel, 2
  {
    match doc
    case Malformed => []
    case Parsed(us, ss) => Locs(us) + Nested(ss, fetch, fuel)
  }

  /** The URLs contributed by a list of `<sitemap>` entries, in order. */
  function Nested(ss: seq<Option<string>>, fetch: map<string, Doc>, fuel: nat): seq<string>
    decreases fuel, 1, |ss|
  {
    if ss == [] then []
    else Nested(ss[..|ss| - 1], fetch, fuel) + Child(ss[|ss| - 1], fetch, fuel)
  }

  /** The URLs contributed by one `<sitemap>` entry: nothing without a
      loc, when the fetch fails or when the fuel is spent. */
  function Child(loc: Option<string>, fetch: map<string, Doc>, fuel: nat): seq<string>
    decreases fuel, 0
  {
    match loc
    case None => []
    case Some(u) =>
      if u in fetch && fuel > 0 then Flatten(fetch[u], fetch, fuel - 1) else []
  }

  /** parse_sitemap: the `<url>` locs first, then each nested sitemap's
      URLs in turn. */
  method ParseSitemap(doc: Doc, fetch: map<string, Doc>, fuel: nat) returns (urls: seq<string>)
    ensures urls == Flatten(doc, fetch, fuel)
    ensures doc.Malformed? ==> urls == []
    decreases fuel
  {
    if doc.Malformed? {
      return [];
    }
    var us := doc.urlLocs;
    var ss := doc.sitemapLocs;
    urls := [];
    var i := 0;
    while i < |us|
      invariant 0 <= i <= |us|
      invariant urls == Locs(us[..i])
    {
      LocsSnoc(us, i);
      match us[i] {
        case Some(t) => urls := urls + [t];
        case None =>
      }
      i := i + 1;
    }
    assert us[..i] == us;
    var j := 0;
    while j < |ss|
      invariant 0 <= j <= |ss|
      invariant urls == Locs(us) + Nested(ss[..j], fetch, fuel)
    {
      NestedSnoc(ss, j, fetch, fuel);
      ghost var before := urls;
      match ss[j] {
        case Some(loc) =>
          if loc in fetch && fuel > 0 {
            var nested := ParseSitemap(fetch[loc], fetch, fuel - 1);
            urls := urls + nested;
          }
        case None =>
      }
      assert urls == before + Child(ss[j], fetch, fuel);
      ConcatAssoc(Locs(us), Nested(ss[..j], fetch, fuel), Child(ss[j], fetch, fuel));
      j := j + 1;
    }
    assert ss[..j] == ss;
  }

  lemma LocsSnoc(ls: seq<Option<string>>, i: nat)
    requires i < |ls|
    ensures Locs(ls[..i + 1]) == Locs(ls[..i]) + (if ls[i].Some? then [ls[i].value] else [])
  {
    assert ls[..i + 1][..i] == ls[..i];
  }

  lemma NestedSnoc(ss: seq<Option<string>>, j: nat, fetch: map<string, Doc>, fuel: nat)
    requires j < |ss|
    ensures Nested(ss[..j + 1], fetch, fuel) == Nested(ss[..j], fetch, fuel) + Child(ss[j], fetch, fuel)
  {
    assert ss[..j + 1][..j] == ss[..j];
  }

  lemma {:induction false} NestedAppend(a: seq<Option<string>>, b: seq<Option<string>>,
                                        fetch: map<string, Doc>, fuel: nat)
    ensures Nested(a + b, fetch, fuel) == Nested(a, fetch, fuel) + Nested(b, fetch, fuel)
    decreases |b|
  {
    if b == [] {
      assert a + b == a;
    } else {
      var b0 := b[..|b| - 1];
      assert (a + b)[..|a + b| - 1] == a + b0;
      assert (a + b)[|a + b| - 1] == b[|b| - 1];
      NestedAppend(a, b0, fetch, fuel);
    }
  }

  lemma NestedOne(s: Option<string>, fetch: map<string, Doc>, fuel: nat)
    ensures Nested([s], fetch, fuel) == Child(s, fetch, fuel)
  {
    assert [s][..0] == [];
  }

  /** A nested sitemap that cannot be fetched or does not parse
      contributes nothing, and the entries around it are still followed. */
  lemma FailedChildSkipped(us: seq<Option<string>>, pre: seq<Option<string>>, loc: string,
                           post: seq<Option<string>>, fetch: map<string, Doc>, fuel: nat)
    requires loc !in fetch || fetch[loc].Malformed?
    ensures Flatten(Parsed(us, pre + [Some(loc)] + post), fetch, fuel) ==
            Flatten(Parsed(us, pre + post), fetch, fuel)
  {
    NestedAppend(pre + [Some(loc)], post, fetch, fuel);
    NestedAppend(pre, [Some(loc)], fetch, fuel);
    NestedAppend(pre, post, fetch, fuel);
    NestedOne(Some(loc), fetch, fuel);
  }

  /** A `<sitemap>` entry without a `<loc>` is skipped. */
  lemma MissingLocSkipped(us: seq<Option<string>>, pre: seq<Option<string>>,
                          post: seq<Option<string>>, fetch: map<string, Doc>, fuel: nat)
    ensures Flatten(Parsed(us, pre + [None] + post), fetch, fuel) ==
            Flatten(Parsed(us, pre + post), fetch, fuel)
  {
    NestedAppend(pre + [None], post, fetch, fuel);
    NestedAppend(pre, [None], fetch, fuel);
    NestedAppend(pre, post, fetch, fuel);
    NestedOne(None, fetch, fuel);
  }

  /** An index of two fetchable sitemaps yields the first one's URLs and
      then the second one's. */
  lemma IndexOfTwo(a: string, b: string, fetch: map<string, Doc>, fuel: nat)
    requires a in fetch && b in fetch
    ensures Flatten(Parsed([], [Some(a), Some(b)]), fetch, fuel + 1) ==
            Flatten(fetch[a], fetch, fuel) + Flatten(fetch[b], fetch, fuel)
  {
    var ss := [Some(a), Some(b)];
    assert ss == [Some(a)] + [Some(b)];
    NestedAppend([Some(a)], [Some(b)], fetch, fuel + 1);
    NestedOne(Some(a), fetch, fuel + 1);
    NestedOne(Some(b), fetch, fuel + 1);
    assert Locs([]) == [];
  }

  /** A leaf sitemap's URLs do not depend on what else can be fetched. */
  lemma LeafIndependent(us: seq<Option<string>>, fetch: map<string, Doc>, fuel: nat)
    ensures Flatten(Parsed(us, []), fetch, fuel) == Locs(us)
  {
  }

  /** An index pointing at a sitemap of three URLs and one of two yields five. */
  lemma ThreePlusTwo()
    ensures |Flatten(Parsed([], [Some("s1"), Some("s2")]), ExampleFetch(), 1)| == 5
  {
    var f := ExampleFetch();
    IndexOfTwo("s1", "s2", f, 0);
    var three := [Some("a"), Some("b"), Some("c")];
    var two := [Some("d"), Some("e")];
    assert f["s1"] == Parsed(three, []);
    assert f["s2"] == Parsed(two, []);
    LeafIndependent(three, f, 0);
    LeafIndependent(two, f, 0);
    LocsAllPresent(three);
    LocsAllPresent(two);
  }

  function ExampleFetch(): map<string, Doc> {
    map["s1" := Parsed([Some("a"), Some("b"), Some("c")], []),
        "s2" := Parsed([Some("d"), Some("e")], [])]
  }

  /** When every entry has a loc, every one of them is kept. */
  lemma {:induction false} LocsAllPresent(ls: seq<Option<string>>)
    requires forall i :: 0 <= i < |ls| ==> ls[i].Some?
    ensures |Locs(ls)| == |ls|
    decreases |ls|
  {
    if ls != [] {
      LocsAllPresent(ls[..|ls| - 1]);
    }
  }

  // ------------------------------------------------------------------
  // Keyword filtering

  /** Some keyword (already lower-cased) occurs in the lower-cased URL or
      in its lower-cased path. */
  predicate AnyHit(lowUrl: string, lowPath: string, kws: seq<string>)
    decreases |kws|
  {
    kws != [] &&
    (Contains(lowUrl, kws[0]) || Contains(lowPath, kws[0]) || AnyHit(lowUrl, lowPath, kws[1..]))
  }

  function LowerAll(kws: seq<string>): (r: seq<string>)
    ensures |r| == |kws|
    ensures forall i :: 0 <= i < |kws| ==> r[i] == Lower(kws[i])
  {
    seq(|kws|, i requires 0 <= i < |kws| => Lower(kws[i]))
  }

  predicate KeepUrl(url: string, kws: seq<string>, pathOf: string -> string) {
    AnyHit(Lower(url), Lower(pathOf(url)), LowerAll(kws))
  }

  /** filter_urls_by_keywords; `pathOf` is urlparse(url).path. */
  function Filtered(urls: seq<string>, keywords: Option<seq<string>>,
                    pathOf: string -> string): seq<string>
  {
    match keywords
    case None => urls
    case Some(kws) => if kws == [] then urls else Filter(urls, u => KeepUrl(u, kws, pathOf))
  }

  method FilterUrls(urls: seq<string>, keywords: Option<seq<string>>, pathOf: string -> string)
    returns (filtered: seq<string>)
    ensures filtered == Filtered(urls, keywords, pathOf)
    ensures keywords == None || keywords == Some([]) ==> filtered == urls
  {
    if keywords == None || keywords.value == [] {
      return urls;
    }
    var kws := keywords.value;
    var low := LowerAll(kws);
    filtered := [];
    var i := 0;
    while i < |urls|
      invariant 0 <= i <= |urls|
      invariant filtered == Filter(urls[..i], u => KeepUrl(u, kws, pathOf))
    {
      var url := urls[i];
      var lowUrl := Lower(url);
      var path := Lower(pathOf(url));
      var k := 0;
      var hit := false;
      while k < |low|
        invariant 0 <= k <= |low|
        invariant AnyHit(lowUrl, path, low) == (hit || AnyHit(lowUrl, path, low[k..]))
        invariant hit ==> AnyHit(lowUrl, path, low)
      {
        if Contains(lowUrl, low[k]) || Contains(path, low[k]) {
          hit := true;
          break;
        }
        assert low[k..][1..] == low[k + 1..];
        k := k + 1;
      }
      if hit {
        filtered := filtered + [url];
      }
      FilterAppend(urls[..i], [url], u => KeepUrl(u, kws, pathOf));
      assert urls[..i + 1] == urls[..i] + [url];
      i := i + 1;
    }
    assert urls[..i] == urls;
  }

  lemma {:induction false} AnyHitMember(lowUrl: string, lowPath: string, kws: seq<string>, k: nat)
    requires k < |kws| && (Contains(lowUrl, kws[k]) || Contains(lowPath, kws[k]))
    ensures AnyHit(lowUrl, lowPath, kws)
    decreases k
  {
    if k > 0 {
      AnyHitMember(lowUrl, lowPath, kws[1..], k - 1);
    }
  }

  lemma {:induction false} AnyHitWitness(lowUrl: string, lowPath: string, kws: seq<string>)
    requires AnyHit(lowUrl, lowPath, kws)
    ensures exists k :: 0 <= k < |kws| && (Contains(lowUrl, kws[k]) || Contains(lowPath, kws[k]))
    decreases |kws|
  {
    if !(Contains(lowUrl, kws[0]) || Contains(lowPath, kws[0])) {
      AnyHitWitness(lowUrl, lowPath, kws[1..]);
      var k :| 0 <= k < |kws[1..]| && (Contains(lowUrl, kws[1..][k]) || Contains(lowPath, kws[1..][k]));
      assert kws[k + 1] == kws[1..][k];
    }
  }

  /** A URL is kept exactly when some keyword, ignoring case, occurs in
      the URL or in its path. */
  lemma KeepUrlMeaning(url: string, kws: seq<string>, pathOf: string -> string)
    ensures KeepUrl(url, kws, pathOf) <==>
      exists k :: 0 <= k < |kws| &&
        (Contains(Lower(url), Lower(kws[k])) || Contains(Lower(pathOf(url)), Lower(kws[k])))
  {
    var low := LowerAll(kws);
    if KeepUrl(url, kws, pathOf) {
      AnyHitWitness(Lower(url), Lower(pathOf(url)), low);
    }
    if exists k :: 0 <= k < |kws| &&
        (Contains(Lower(url), Lower(kws[k])) || Contains(Lower(pathOf(url)), Lower(kws[k]))) {
      var k :| 0 <= k < |kws| &&
        (Contains(Lower(url), Lower(kws[k])) || Contains(Lower(pathOf(url)), Lower(kws[k])));
      AnyHitMember(Lower(url), Lower(pathOf(url)), low, k);
    }
  }

  lemma {:induction false} FilterAll<T>(xs: seq<T>, p: T -> bool)
    requires forall i :: 0 <= i < |xs| ==> p(xs[i])
    ensures Filter(xs, p) == xs
    decreases |xs|
  {
    if xs != [] {
      FilterAll(xs[1..], p);
      assert xs == [xs[0]] + xs[1..];
    }
  }

  /** An empty keyword occurs everywhere, so it keeps every URL. */
  lemma EmptyKeywordKeepsAll(urls: seq<string>, kws: seq<string>, pathOf: string -> string)
    requires "" in kws
    ensures Filtered(urls, Some(kws), pathOf) == urls
  {
    var k :| 0 <= k < |kws| && kws[k] == "";
    forall i | 0 <= i < |urls| ensures KeepUrl(urls[i], kws, pathOf) {
      ContainsEmpty(Lower(urls[i]));
      assert Lower(kws[k]) == "";
      AnyHitMember(Lower(urls[i]), Lower(pathOf(urls[i])), LowerAll(kws), k);
    }
    FilterAll(urls, u => KeepUrl(u, kws, pathOf));
  }

  lemma LowerOccurs(s: string, sub: string, i: nat)
    requires OccursAt(s, sub, i)
    ensures OccursAt(Lower(s), Lower(sub), i)
  {
  }

  /** When the path is a piece of the URL itself, as it is for any URL
      urlparse splits, testing the path as well selects nothing more. */
  lemma PathTestRedundant(url: string, kws: seq<string>, pathOf: string -> string)
    requires Contains(url, pathOf(url))
    ensures KeepUrl(url, kws, pathOf) <==> AnyHit(Lower(url), "", LowerAll(kws))
  {
    var p := pathOf(url);
    var m :| 0 <= m <= |url| - |p| && OccursAt(url, p, m);
    LowerOccurs(url, p, m);
    var low := LowerAll(kws);
    if KeepUrl(url, kws, pathOf) {
      AnyHitWitness(Lower(url), Lower(p), low);
      var k :| 0 <= k < |low| && (Contains(Lower(url), low[k]) || Contains(Lower(p), low[k]));
      if Contains(Lower(p), low[k]) {
        ContainsTransitive(Lower(url), Lower(p), low[k], m);
      }
      AnyHitMember(Lower(url), "", low, k);
    }
    if AnyHit(Lower(url), "", low) {
      AnyHitWitness(Lower(url), "", low);
      var k :| 0 <= k < |low| && (Contains(Lower(url), low[k]) || Contains("", low[k]));
      if !Contains(Lower(url), low[k]) {
        assert low[k] == "";
        ContainsEmpty(Lower(url));
      }
      AnyHitMember(Lower(url), Lower(p), low, k);
    }
  }

  // ------------------------------------------------------------------
  // Categorisation

  datatype Category = Features | Products | Pricing | Customers | Faq | Api | Documentation | Other

  /** The rules of categorize_urls in the order they are tried. */
  const Rules: seq<(Category, seq<string>)> := [
    (Features, ["feature", "capability", "function"]),
    (Products, ["product", "service", "solution"]),
    (Pricing, ["pricing", "price", "cost", "plan"]),
    (Customers, ["customer", "customers", "case-study", "case-studies", "success-story",
                 "success-stories", "testimonial", "testimonials", "stories", "client", "clients"]),
    (Faq, ["faq", "frequently-asked-questions", "frequently-asked", "questions"]),
    (Api, ["api", "developer", "docs", "documentation"]),
    (Documentation, ["doc", "guide", "tutorial", "help"])
  ]

  lemma RuleCategories()
    ensures |Rules| == 7
    ensures Rules[0].0 == Features && Rules[1].0 == Products && Rules[2].0 == Pricing
    ensures Rules[3].0 == Customers && Rules[4].0 == Faq && Rules[5].0 == Api
    ensures Rules[6].0 == Documentation
  {
  }

  /** Some word occurs in `s`. */
  predicate AnyIn(s: string, words: seq<string>)
    decreases |words|
  {
    words != [] && (Contains(s, words[0]) || AnyIn(s, words[1..]))
  }

  /** The index of the first rule, from `k` on, with a word in `s`, or
      |Rules| when none has. */
  function FirstRule(s: string, k: nat): (r: nat)
    requires k <= |Rules|
    ensures k <= r <= |Rules|
    ensures r < |Rules| ==> AnyIn(s, Rules[r].1)
    ensures forall j :: k <= j < r ==> !AnyIn(s, Rules[j].1)
    decreases |Rules| - k
  {
    if k == |Rules| then k
    else if AnyIn(s, Rules[k].1) then k
    else FirstRule(s, k + 1)
  }

  /** Rule `j` is the first rule with a word in `s`. */
  predicate FirstMatch(s: string, j: nat) {
    j < |Rules| && AnyIn(s, Rules[j].1) && forall i :: 0 <= i < j ==> !AnyIn(s, Rules[i].1)
  }

  /** The bucket a URL goes to: that of the first rule with a word in the
      lower-cased URL, host included, and Other when there is none. */
  function CategoryOf(url: string): Category {
    var r := FirstRule(Lower(url), 0);
    if r < |Rules| then Rules[r].0 else Other
  }

  /** A URL is in Other exactly when no rule has a word in it, and
      otherwise in the bucket of the first rule that has. */
  lemma CategoryMeaning(url: string)
    ensures CategoryOf(url) == Other <==> forall j :: 0 <= j < |Rules| ==> !AnyIn(Lower(url), Rules[j].1)
    ensures CategoryOf(url) != Other ==>
      exists j: nat :: FirstMatch(Lower(url), j) && Rules[j].0 == CategoryOf(url)
  {
    var r := FirstRule(Lower(url), 0);
    if r < |Rules| {
      assert FirstMatch(Lower(url), r);
    }
  }

  /** The URLs that `cat` puts in category `c`, in input order. */
  function Bucket(urls: seq<string>, c: Category, cat: string -> Category): seq<string> {
    Filter(urls, u => cat(u) == c)
  }

  /** categorize_urls: each of the eight buckets lists, in input order,
      the URLs whose category it is. */
  method Categorize(urls: seq<string>) returns (buckets: map<Category, seq<string>>)
    ensures forall c: Category :: c in buckets && buckets[c] == Bucket(urls, c, CategoryOf)
  {
    buckets := Distribute(urls, CategoryOf);
  }

  /** The bucketing loop of categorize_urls, for any categorizer. */
  method Distribute(urls: seq<string>, cat: string -> Category) returns (buckets: map<Category, seq<string>>)
    ensures forall c: Category :: c in buckets && buckets[c] == Bucket(urls, c, cat)
  {
    buckets := map[Features := [], Products := [], Pricing := [], Customers := [],
                   Faq := [], Api := [], Documentation := [], Other := []];
    InitialBuckets(buckets, cat);
    var i := 0;
    while i < |urls|
      invariant 0 <= i <= |urls|
      invariant BucketsOf(buckets, urls[..i], cat)
    {
      var url := urls[i];
      var c := cat(url);
      TakeSnoc(urls, i);
      BucketsStep(buckets, urls[..i], url, cat);
      buckets := buckets[c := buckets[c] + [url]];
      i := i + 1;
    }
    assert urls[..i] == urls;
  }

  /** `buckets` holds, for every category, the URLs of `xs` in it. */
  ghost predicate BucketsOf(buckets: map<Category, seq<string>>, xs: seq<string>,
                            cat: string -> Category) {
    forall c: Category :: c in buckets && buckets[c] == Bucket(xs, c, cat)
  }

  lemma InitialBuckets(buckets: map<Category, seq<string>>, cat: string -> Category)
    requires buckets == map[Features := [], Products := [], Pricing := [], Customers := [],
                            Faq := [], Api := [], Documentation := [], Other := []]
    ensures BucketsOf(buckets, [], cat)
  {
    forall c: Category ensures c in buckets && buckets[c] == Bucket([], c, cat) {
      match c {
        case Features =>
        case Products =>
        case Pricing =>
        case Customers =>
        case Faq =>
        case Api =>
        case Documentation =>
        case Other =>
      }
    }
  }

  lemma BucketsStep(buckets: map<Category, seq<string>>, xs: seq<string>, url: string,
                    cat: string -> Category)
    requires BucketsOf(buckets, xs, cat)
    ensures BucketsOf(buckets[cat(url) := buckets[cat(url)] + [url]], xs + [url], cat)
  {
    forall d: Category ensures Bucket(xs + [url], d, cat) ==
      Bucket(xs, d, cat) + (if cat(url) == d then [url] else []) {
      BucketSnoc(xs, url, d, cat);
    }
  }

  lemma BucketSnoc(init: seq<string>, url: string, c: Category, cat: string -> Category)
    ensures Bucket(init + [url], c, cat) ==
      Bucket(init, c, cat) + (if cat(url) == c then [url] else [])
  {
    FilterAppend(init, [url], u => cat(u) == c);
    assert [url][1..] == [];
  }

  /** The bucket sizes, summed over the eight categories. */
  function TotalSize(urls: seq<string>, cat: string -> Category): nat {
    |Bucket(urls, Features, cat)| + |Bucket(urls, Products, cat)| + |Bucket(urls, Pricing, cat)| +
    |Bucket(urls, Customers, cat)| + |Bucket(urls, Faq, cat)| + |Bucket(urls, Api, cat)| +
    |Bucket(urls, Documentation, cat)| + |Bucket(urls, Other, cat)|
  }

  /** Every URL lands in exactly one bucket: the sizes add up to the input's. */
  lemma {:induction false} BucketsPartition(urls: seq<string>, cat: string -> Category)
    ensures TotalSize(urls, cat) == |urls|
    decreases |urls|
  {
    if urls != [] {
      BucketsPartition(urls[1..], cat);
    }
  }

  /** A URL is in the bucket of its category and in no other. */
  lemma BucketMembership(urls: seq<string>, url: string, c: Category, cat: string -> Category)
    requires url in urls
    ensures url in Bucket(urls, c, cat) <==> cat(url) == c
  {
    var i :| 0 <= i < |urls| && urls[i] == url;
  }

  lemma AnyInMember(s: string, words: seq<string>, k: nat)
    requires k < |words| && Contains(s, words[k])
    ensures AnyIn(s, words)
    decreases k
  {
    if k > 0 {
      AnyInMember(s, words[1..], k - 1);
    }
  }

  /** The features rule is tried first: a URL mentioning "feature" is a
      feature page whatever else it mentions (pricing, say). */
  lemma FeatureWins(url: string)
    requires Contains(Lower(url), "feature")
    ensures CategoryOf(url) == Features
  {
    AnyInMember(Lower(url), Rules[0].1, 0);
  }

  /** A pricing URL mentions a pricing word and no word of the features
      or products rules. */
  lemma PricingMeaning(url: string)
    requires CategoryOf(url) == Pricing
    ensures AnyIn(Lower(url), ["pricing", "price", "cost", "plan"])
    ensures !AnyIn(Lower(url), ["feature", "capability", "function"])
    ensures !AnyIn(Lower(url), ["product", "service", "solution"])
  {
    var r := FirstRule(Lower(url), 0);
    RuleCategories();
    assert r == 2;
    assert !AnyIn(Lower(url), Rules[0].1);
    assert !AnyIn(Lower(url), Rules[1].1);
  }

  /** A documentation URL contains none of "docs", "api", "developer",
      "documentation", nor any word of an earlier rule. */
  lemma DocumentationExcludes(url: string)
    requires CategoryOf(url) == Documentation
    ensures forall j :: 0 <= j < 6 ==> !AnyIn(Lower(url), Rules[j].1)
    ensures !Contains(Lower(url), "docs") && !Contains(Lower(url), "api")
    ensures !Contains(Lower(url), "developer") && !Contains(Lower(url), "documentation")
  {
    var r := FirstRule(Lower(url), 0);
    RuleCategories();
    assert r == 6;
    var api := Rules[5].1;
    assert !AnyIn(Lower(url), api);
    if Contains(Lower(url), "api") { AnyInMember(Lower(url), api, 0); }
    if Contains(Lower(url), "developer") { AnyInMember(Lower(url), api, 1); }
    if Contains(Lower(url), "docs") { AnyInMember(Lower(url), api, 2); }
    if Contains(Lower(url), "documentation") { AnyInMember(Lower(url), api, 3); }
  }

  /** A URL in Other contains no word of any rule. */
  lemma OtherHasNoKeyword(url: string, j: nat, k: nat)
    requires CategoryOf(url) == Other
    requires j < |Rules| && k < |Rules[j].1|
    ensures !Contains(Lower(url), Rules[j].1[k])
  {
    if Contains(Lower(url), Rules[j].1[k]) {
      AnyInMember(Lower(url), Rules[j].1, k);
    }
  }

  // ------------------------------------------------------------------
  // Scraping feature pages

  /** What the homepage scraper returns for a page it could scrape. */
  datatype PageData = PageData(content: string, scrapedAt: string, cleanLength: nat)

  /** One value of the scraped_data dictionary. */
  datatype FeaturePage = FeaturePage(url: string, content: string, scrapedAt: string, contentLength: nat)

  function Entry(url: string, d: PageData): FeaturePage {
    FeaturePage(url, d.content, d.scrapedAt, d.cleanLength)
  }

  /** scraped_data after scraping `urls` in order: each page that could
      be scraped is stored under its name, a later page overwriting an
      earlier one with the same name. `scrape` is the page scraper, None
      when it failed or raised; `name` is create_feature_name. */
  function Scraped(urls: seq<string>, scrape: string -> Option<PageData>,
                   name: string -> string): map<string, FeaturePage>
    decreases |urls|
  {
    if urls == [] then map[]
    else
      var init := Scraped(urls[..|urls| - 1], scrape, name);
      var url := urls[|urls| - 1];
      if scrape(url).Some? then init[name(url) := Entry(url, scrape(url).value)] else init
  }

  /** The number of pages that could be scraped. */
  function Successes(urls: seq<string>, scrape: string -> Option<PageData>): nat
    decreases |urls|
  {
    if urls == [] then 0
    else Successes(urls[..|urls| - 1], scrape) + (if scrape(urls[|urls| - 1]).Some? then 1 else 0)
  }

  /** create_feature_name on a URL, through urlparse (`parse`). */
  function FeatureName(parse: string -> UrlParts): string -> string {
    u => PageId(parse(u))
  }

  /** scrape_feature_pages, returning the dictionary and the success count
      it reports. */
  method ScrapeFeaturePages(urls: seq<string>, scrape: string -> Option<PageData>,
                            parse: string -> UrlParts)
    returns (data: map<string, FeaturePage>, successful: nat)
    ensures data == Scraped(urls, scrape, FeatureName(parse))
    ensures successful == Successes(urls, scrape)
    ensures |data.Keys| <= successful <= |urls|
  {
    ghost var name := FeatureName(parse);
    data := map[];
    successful := 0;
    var i := 0;
    while i < |urls|
      invariant 0 <= i <= |urls|
      invariant data == Scraped(urls[..i], scrape, name)
      invariant successful == Successes(urls[..i], scrape)
    {
      var url := urls[i];
      assert urls[..i + 1][..i] == urls[..i];
      var pageData := scrape(url);
      if pageData.Some? {
        var featureName := PageId(parse(url));
        assert featureName == name(url);
        data := data[featureName := Entry(url, pageData.value)];
        successful := successful + 1;
      }
      i := i + 1;
    }
    assert urls[..i] == urls;
    ScrapedBound(urls, scrape, name);
  }

  /** There are no more keys than successes and no more successes than URLs. */
  lemma {:induction false} ScrapedBound(urls: seq<string>, scrape: string -> Option<PageData>,
                                        name: string -> string)
    ensures |Scraped(urls, scrape, name).Keys| <= Successes(urls, scrape) <= |urls|
    decreases |urls|
  {
    if urls != [] {
      ScrapedBound(urls[..|urls| - 1], scrape, name);
    }
  }

  /** Each stored page was scraped from a URL of the input whose name is
      its key, and holds what the scraper returned for it. */
  lemma {:induction false} ScrapedSound(urls: seq<string>, scrape: string -> Option<PageData>,
                                        name: string -> string, k: string)
    requires k in Scraped(urls, scrape, name)
    ensures var p := Scraped(urls, scrape, name)[k];
      p.url in urls && name(p.url) == k && scrape(p.url).Some? &&
      p == Entry(p.url, scrape(p.url).value)
    decreases |urls|
  {
    var init := urls[..|urls| - 1];
    var url := urls[|urls| - 1];
    assert urls == init + [url];
    if scrape(url).None? || k != name(url) {
      ScrapedSound(init, scrape, name, k);
    }
  }

  /** The name of every URL that could be scraped is a key. */
  lemma {:induction false} ScrapedComplete(urls: seq<string>, scrape: string -> Option<PageData>,
                                           name: string -> string, i: nat)
    requires i < |urls| && scrape(urls[i]).Some?
    ensures name(urls[i]) in Scraped(urls, scrape, name)
    decreases |urls|
  {
    var init := urls[..|urls| - 1];
    var url := urls[|urls| - 1];
    if i < |init| {
      ScrapedComplete(init, scrape, name, i);
      assert init[i] == urls[i];
      var m := Scraped(init, scrape, name);
      assert name(urls[i]) in m;
      assert Scraped(urls, scrape, name) == if scrape(url).Some? then m[name(url) := Entry(url, scrape(url).value)] else m;
    }
  }

  /** Of several scraped pages with the same name, the last one is kept. */
  lemma LaterPageWins(init: seq<string>, url: string, scrape: string -> Option<PageData>,
                      name: string -> string)
    requires scrape(url).Some?
    ensures var data := Scraped(init + [url], scrape, name);
      name(url) in data && data[name(url)] == Entry(url, scrape(url).value)
  {
    var urls := init + [url];
    assert urls[..|urls| - 1] == init;
  }
}
