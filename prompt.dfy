/** The data helpers of the prompt executor: which data sources a company
    record offers, the content each source selects, the checks made before
    an analysis runs, the token estimate, fixed-size chunking and the
    truncation of oversized content. Loading the record from disk and the
    language-model call are not modelled; the loaded record is an input. */
module Prompt {
  import opened Common

  // ------------------------------------------------------------------
  // Company data

  /** A scraped page record, by its string-valued fields ('content', 'url', ...). */
  type Record = map<string, string>

  /** The loaded JSON: the homepage record when present and the feature
      records keyed by feature name, in dictionary order. */
  datatype CompanyData = CompanyData(homepage: Option<Record>, features: seq<(string, Record)>)

  /** `if company_data.get('homepage'):` — a dictionary is true when non-empty. */
  predicate HomepageTruthy(d: CompanyData) {
    d.homepage.Some? && d.homepage.value != map[]
  }

  /** record.get(key, default). */
  function GetOr(r: Record, key: string, default: string): string {
    if key in r then r[key] else default
  }

  /** Dictionary keys are distinct. */
  ghost predicate DistinctNames(fs: seq<(string, Record)>) {
    forall i, j :: 0 <= i < j < |fs| ==> fs[i].0 != fs[j].0
  }

  /** features[name] when the name is a key. */
  function Lookup(fs: seq<(string, Record)>, name: string): (r: Option<Record>)
    ensures r.Some? ==> exists i :: 0 <= i < |fs| && fs[i] == (name, r.value)
    ensures r.None? ==> forall i :: 0 <= i < |fs| ==> fs[i].0 != name
    decreases |fs|
  {
    if fs == [] then None
    else if fs[0].0 == name then Some(fs[0].1)
    else
      var r := Lookup(fs[1..], name);
      assert r.Some? ==> exists i :: 0 <= i < |fs| && fs[i] == (name, r.value) by {
        if r.Some? {
          var i :| 0 <= i < |fs[1..]| && fs[1..][i] == (name, r.value);
          assert fs[i + 1] == (name, r.value);
        }
      }
      r
  }

  // ------------------------------------------------------------------
  // Available sources

  const FeaturePrefix := "feature:"

  function FeatureSources(fs: seq<(string, Record)>): (r: seq<string>)
    ensures |r| == |fs|
    ensures forall i :: 0 <= i < |fs| ==> r[i] == FeaturePrefix + fs[i].0
  {
    seq(|fs|, i requires 0 <= i < |fs| => FeaturePrefix + fs[i].0)
  }

  /** get_available_data_sources. */
  function Sources(d: CompanyData): seq<string> {
    (if HomepageTruthy(d) then ["homepage"] else []) + FeatureSources(d.features)
  }

  method GetAvailableDataSources(d: CompanyData) returns (sources: seq<string>)
    ensures sources == Sources(d)
  {
    sources := [];
    if HomepageTruthy(d) {
      sources := sources + ["homepage"];
    }
    ghost var start := sources;
    var i := 0;
    while i < |d.features|
      invariant 0 <= i <= |d.features|
      invariant sources == start + FeatureSources(d.features[..i])
    {
      assert FeatureSources(d.features[..i + 1]) == FeatureSources(d.features[..i]) + [FeaturePrefix + d.features[i].0];
      sources := sources + [FeaturePrefix + d.features[i].0];
      i := i + 1;
    }
    assert d.features[..i] == d.features;
  }

  // ------------------------------------------------------------------
  // Content selection

  /** data_source.replace('feature:', ''): every occurrence goes, not only
      the leading one. */
  function FeatureName(source: string): string {
    ReplaceAll(source, FeaturePrefix, "")
  }

  function HomepageBlock(content: string): string {
    "HOMEPAGE CONTENT:\n" + content + "\n"
  }

  function FeatureBlock(name: string, r: Record): string {
    "FEATURE: " + name + "\nURL: " + GetOr(r, "url", "Unknown") + "\nCONTENT:\n" + GetOr(r, "content", "") + "\n"
  }

  /** The feature has a non-empty 'content' entry. */
  predicate HasContent(f: (string, Record)) {
    GetOr(f.1, "content", "") != ""
  }

  /** One block per feature whose content is non-empty, in order. */
  function FeatureBlocks(fs: seq<(string, Record)>): seq<string>
    decreases |fs|
  {
    if fs == [] then []
    else
      var f := fs[|fs| - 1];
      FeatureBlocks(fs[..|fs| - 1]) + (if HasContent(f) then [FeatureBlock(f.0, f.1)] else [])
  }

  /** The blocks the 'all' source joins with newlines. */
  function AllBlocks(d: CompanyData): seq<string> {
    (if HomepageTruthy(d) && GetOr(d.homepage.value, "content", "") != ""
     then [HomepageBlock(GetOr(d.homepage.value, "content", ""))] else [])
    + FeatureBlocks(d.features)
  }

  /** extract_content_for_analysis. */
  function ExtractContent(d: CompanyData, source: string): string {
    if source == "homepage" then
      if HomepageTruthy(d) then GetOr(d.homepage.value, "content", "") else ""
    else if StartsWith(source, FeaturePrefix) then
      var f := Lookup(d.features, FeatureName(source));
      if f.Some? then GetOr(f.value, "content", "") else ""
    else if source == "all" then Join(AllBlocks(d), "\n")
    else ""
  }

  /** The 'all' branch: collect the blocks in a loop, then join them. */
  method CombineAll(d: CompanyData) returns (text: string)
    ensures text == Join(AllBlocks(d), "\n")
  {
    var head: seq<string> := [];
    if HomepageTruthy(d) && GetOr(d.homepage.value, "content", "") != "" {
      head := [HomepageBlock(d.homepage.value["content"])];
    }
    var blocks: seq<string> := [];
    var i := 0;
    while i < |d.features|
      invariant 0 <= i <= |d.features|
      invariant blocks == FeatureBlocks(d.features[..i])
    {
      var (name, record) := d.features[i];
      FeatureBlocksSnoc(d.features, i);
      if GetOr(record, "content", "") != "" {
        blocks := blocks + [FeatureBlock(name, record)];
      }
      i := i + 1;
    }
    assert d.features[..i] == d.features;
    var parts := head + blocks;
    text := Join(parts, "\n");
  }

  lemma FeatureBlocksSnoc(fs: seq<(string, Record)>, i: nat)
    requires i < |fs|
    ensures FeatureBlocks(fs[..i + 1]) ==
      FeatureBlocks(fs[..i]) + (if HasContent(fs[i]) then [FeatureBlock(fs[i].0, fs[i].1)] else [])
  {
    assert fs[..i + 1][..i] == fs[..i];
  }

  method ExtractContentForAnalysis(d: CompanyData, source: string) returns (content: string)
    ensures content == ExtractContent(d, source)
  {
    if source == "homepage" {
      content := if HomepageTruthy(d) then GetOr(d.homepage.value, "content", "") else "";
    } else if StartsWith(source, FeaturePrefix) {
      var f := Lookup(d.features, FeatureName(source));
      content := if f.Some? then GetOr(f.value, "content", "") else "";
    } else if source == "all" {
      content := CombineAll(d);
    } else {
      content := "";
    }
  }

  // ------------------------------------------------------------------
  // The checks before an analysis runs

  datatype Rejection = LoadFailed | NoData | InvalidSource | NoContent | NoApiKey

  function RejectionText(r: Rejection): string {
    match r
    case LoadFailed => "\U{274C} Failed to load company data"
    case NoData => "\U{274C} No data available for analysis"
    case InvalidSource => "\U{274C} Invalid data source specified"
    case NoContent => "\U{274C} No content found in specified data source"
    case NoApiKey => "\U{274C} OpenAI API key not configured. Please set OPENAI_API_KEY environment variable."
  }

  /** Either the reason run_analysis_prompt stops, or the content it hands
      to the analysis. */
  datatype Outcome = Rejected(why: Rejection) | Ready(content: string)

  /** run_analysis_prompt up to the model call. `loaded` is None when the
      record could not be loaded or is empty; `hasClient` says whether an
      API client is configured. */
  function Prepare(loaded: Option<CompanyData>, source: string, hasClient: bool): (o: Outcome)
    ensures loaded.None? ==> o == Rejected(LoadFailed)
    ensures o.Ready? ==>
      (loaded.Some? && hasClient && o.content != "" && o.content == ExtractContent(loaded.value, source))
    ensures o == Rejected(NoApiKey) ==> !hasClient
  {
    if loaded.None? then Rejected(LoadFailed)
    else
      var d := loaded.value;
      var available := Sources(d);
      if available == [] then Rejected(NoData)
      else if source != "all" && source !in available then Rejected(InvalidSource)
      else
        var content := ExtractContent(d, source);
        if content == "" then Rejected(NoContent)
        else if !hasClient then Rejected(NoApiKey)
        else Ready(content)
  }

  // ------------------------------------------------------------------
  // Tokens, chunks and truncation

  /** len(text) // 4. */
  function EstimateTokens(text: string): (n: nat)
    ensures 4 * n <= |text| < 4 * n + 4
  {
    |text| / 4
  }

  const MaxContentTokens := 350000
  const MaxContentLength := MaxContentTokens * 4

  function TruncationNote(originalLength: nat, tokens: nat): string {
    "\n\n[Content truncated for analysis - original length: " + GroupThousands(originalLength)
      + " characters (~" + GroupThousands(tokens) + " tokens)]"
  }

  /** The content run_ai_analysis sends: unchanged when the estimate fits,
      otherwise the first MaxContentLength characters and a note. */
  function Truncate(content: string): (r: string)
    ensures EstimateTokens(content) <= MaxContentTokens ==> r == content
    ensures EstimateTokens(content) > MaxContentTokens ==>
      |content| > MaxContentLength && |r| > MaxContentLength && r[..MaxContentLength] == content[..MaxContentLength]
  {
    var tokens := EstimateTokens(content);
    if tokens > MaxContentTokens then
      content[..MaxContentLength] + TruncationNote(|content|, tokens)
    else content
  }

  function Concat(xs: seq<string>): string
    decreases |xs|
  {
    if xs == [] then "" else xs[0] + Concat(xs[1..])
  }

  lemma {:induction false} ConcatSnoc(xs: seq<string>, x: string)
    ensures Concat(xs + [x]) == Concat(xs) + x
    decreases |xs|
  {
    if xs == [] {
      assert xs + [x] == [x];
    } else {
      assert (xs + [x])[1..] == xs[1..] + [x];
      ConcatSnoc(xs[1..], x);
    }
  }

  /** `chunks` cut `content` into pieces of exactly `size` characters but
      for a shorter, non-empty last one. */
  ghost predicate IsChunking(chunks: seq<string>, content: string, size: nat) {
    Concat(chunks) == content
    && (forall j :: 0 <= j < |chunks| - 1 ==> |chunks[j]| == size)
    && (forall j :: 0 <= j < |chunks| ==> 0 < |chunks[j]| <= size)
  }

  /** chunk_content. range() rejects a zero step (None here); a negative
      step gives an empty range. */
  method ChunkContent(content: string, size: int) returns (r: Option<seq<string>>)
    ensures size == 0 <==> r.None?
    ensures size < 0 ==> r == Some([])
    ensures size > 0 ==> r.Some? && IsChunking(r.value, content, size)
                         && |r.value| == (|content| + size - 1) / size
  {
    if size == 0 {
      return None;
    }
    if size < 0 {
      return Some([]);
    }
    var chunks: seq<string> := [];
    var i := 0;
    while i < |content|
      invariant 0 <= i <= |content|
      invariant Concat(chunks) == content[..i]
      invariant forall j :: 0 <= j < |chunks| - 1 ==> |chunks[j]| == size
      invariant i < |content| ==> forall j :: 0 <= j < |chunks| ==> |chunks[j]| == size
      invariant forall j :: 0 <= j < |chunks| ==> 0 < |chunks[j]| <= size
      decreases |content| - i
    {
      var end := if i + size <= |content| then i + size else |content|;
      var chunk := content[i..end];
      ConcatSnoc(chunks, chunk);
      assert content[..end] == content[..i] + chunk;
      chunks := chunks + [chunk];
      i := end;
    }
    assert content[..i] == content;
    ChunkingCount(chunks, content, size);
    r := Some(chunks);
  }

  /** The number of chunks is the length divided by the size, rounded up. */
  lemma ChunkingCount(chunks: seq<string>, content: string, size: nat)
    requires size > 0 && IsChunking(chunks, content, size)
    ensures |chunks| == (|content| + size - 1) / size
  {
    if chunks == [] {
      assert |content| == 0;
    } else {
      ConcatLength(chunks, size);
      var k := |chunks|;
      var last := |chunks[k - 1]|;
      assert |content| == (k - 1) * size + last;
      assert k * size == (k - 1) * size + size;
      ChunkCount(k, |content|, size);
    }
  }

  lemma {:induction false} ConcatLength(chunks: seq<string>, size: nat)
    requires chunks != []
    requires forall j :: 0 <= j < |chunks| - 1 ==> |chunks[j]| == size
    ensures |Concat(chunks)| == (|chunks| - 1) * size + |chunks[|chunks| - 1]|
    decreases |chunks|
  {
    var rest := chunks[1..];
    if rest != [] {
      ConcatLength(rest, size);
      assert (|chunks| - 1) * size == size + (|rest| - 1) * size;
    }
  }

  /** k steps of `size` reach at least n and overshoot by less than one step
      exactly when k is the rounded-up quotient. */
  lemma ChunkCount(k: nat, n: nat, size: nat)
    requires size > 0
    requires n <= k * size < n + size
    ensures k == (n + size - 1) / size
  {
    var q := (n + size - 1) / size;
    assert q * size <= n + size - 1 < q * size + size;
    if k < q {
      assert k + 1 <= q;
      MulMono(k + 1, q, size);
    } else if k > q {
      assert q + 1 <= k;
      MulMono(q + 1, k, size);
    }
  }

  lemma MulMono(a: nat, b: nat, c: nat)
    requires a <= b
    ensures a * c <= b * c
  {
  }
}
