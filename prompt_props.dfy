/** What the prompt executor's helpers promise: the source list offered,
    the content each source selects, when an analysis is refused, and the
    chunking and truncation arithmetic. */
module PromptProperties {
  import opened Common
  import opened Prompt

  // ------------------------------------------------------------------
  // Sources

  /** The homepage is offered, first, exactly when its record is non-empty;
      every feature is offered under its prefixed name, and nothing else is. */
  lemma SourcesMeaning(d: CompanyData)
    ensures |Sources(d)| == (if HomepageTruthy(d) then 1 else 0) + |d.features|
    ensures ("homepage" in Sources(d)) <==> HomepageTruthy(d)
    ensures HomepageTruthy(d) ==> Sources(d)[0] == "homepage"
    ensures forall i :: 0 <= i < |d.features| ==> FeaturePrefix + d.features[i].0 in Sources(d)
    ensures forall s :: s in Sources(d) ==>
              s == "homepage" || exists i :: 0 <= i < |d.features| && s == FeaturePrefix + d.features[i].0
  {
    SourcesHomepage(d);
    SourcesFeatures(d);
  }

  lemma SourcesHomepage(d: CompanyData)
    ensures |Sources(d)| == (if HomepageTruthy(d) then 1 else 0) + |d.features|
    ensures ("homepage" in Sources(d)) <==> HomepageTruthy(d)
    ensures HomepageTruthy(d) ==> Sources(d)[0] == "homepage"
  {
    var fs := FeatureSources(d.features);
    forall i | 0 <= i < |fs|
      ensures fs[i] != "homepage"
    {
      assert fs[i][0] == 'f';
    }
    assert "homepage" !in fs;
  }

  lemma SourcesFeatures(d: CompanyData)
    ensures forall i :: 0 <= i < |d.features| ==> FeaturePrefix + d.features[i].0 in Sources(d)
    ensures forall s :: s in Sources(d) ==>
              s == "homepage" || exists i :: 0 <= i < |d.features| && s == FeaturePrefix + d.features[i].0
  {
    var head: seq<string> := if HomepageTruthy(d) then ["homepage"] else [];
    var fs := FeatureSources(d.features);
    var all := head + fs;
    assert Sources(d) == all;
    forall i | 0 <= i < |d.features|
      ensures FeaturePrefix + d.features[i].0 in all
    {
      assert all[|head| + i] == fs[i];
    }
    forall s | s in all
      ensures s == "homepage" || exists i :: 0 <= i < |d.features| && s == FeaturePrefix + d.features[i].0
    {
      var k :| 0 <= k < |all| && all[k] == s;
      if k >= |head| {
        assert s == fs[k - |head|];
      }
    }
  }

  // ------------------------------------------------------------------
  // Feature names

  /** Stripping the prefix gives back a feature name that does not itself
      contain "feature:". */
  lemma FeatureNameRoundTrip(name: string)
    requires !Contains(name, FeaturePrefix)
    ensures FeatureName(FeaturePrefix + name) == name
  {
    var s := FeaturePrefix + name;
    assert s[..|FeaturePrefix|] == FeaturePrefix;
    assert s[|FeaturePrefix|..] == name;
    ReplaceAllAbsent(name, FeaturePrefix, "");
  }

  /** replace() removes every occurrence, so a name holding "feature:"
      selects a different name. */
  lemma FeatureNameEveryOccurrence()
    ensures FeatureName("feature:a feature:b") == "a b"
  {
    var s := "feature:a feature:b";
    assert s[..8] == FeaturePrefix;
    var t := s[8..];
    assert t == "a feature:b";
    assert t[..8] != FeaturePrefix by { assert t[..8][0] == 'a'; }
    var u := t[1..];
    assert u == " feature:b";
    assert u[..8] != FeaturePrefix by { assert u[..8][0] == ' '; }
    var v := u[1..];
    assert v == "feature:b";
    assert v[..8] == FeaturePrefix;
    assert v[8..] == "b";
    assert ReplaceAll(v, FeaturePrefix, "") == "b";
    assert ReplaceAll(u, FeaturePrefix, "") == " b";
    assert ReplaceAll(t, FeaturePrefix, "") == "a b";
  }

  // ------------------------------------------------------------------
  // Content selection

  /** A feature offered in the source list selects that feature's content. */
  lemma SelectFeature(d: CompanyData, i: nat)
    requires i < |d.features| && DistinctNames(d.features)
    requires !Contains(d.features[i].0, FeaturePrefix)
    ensures ExtractContent(d, FeaturePrefix + d.features[i].0) == GetOr(d.features[i].1, "content", "")
  {
    var source := FeaturePrefix + d.features[i].0;
    FeatureNameRoundTrip(d.features[i].0);
    assert source[..|FeaturePrefix|] == FeaturePrefix;
    assert source != "homepage" by { assert source[0] == 'f'; }
    var f := Lookup(d.features, d.features[i].0);
    assert f.Some?;
    var k :| 0 <= k < |d.features| && d.features[k] == (d.features[i].0, f.value);
    assert k == i;
  }

  /** A source that is neither "homepage", "all" nor prefixed selects nothing. */
  lemma SelectUnknown(d: CompanyData, source: string)
    requires source != "homepage" && source != "all" && !StartsWith(source, FeaturePrefix)
    ensures ExtractContent(d, source) == ""
  {
  }

  lemma {:induction false} FeatureBlocksEmpty(fs: seq<(string, Record)>)
    ensures FeatureBlocks(fs) == [] <==> forall i :: 0 <= i < |fs| ==> GetOr(fs[i].1, "content", "") == ""
    decreases |fs|
  {
    if fs != [] {
      var init := fs[..|fs| - 1];
      FeatureBlocksEmpty(init);
      assert forall i :: 0 <= i < |init| ==> init[i] == fs[i];
    }
  }

  /** The feature blocks are exactly one block per feature with content,
      in the features' order. */
  lemma {:induction false} FeatureBlocksInOrder(fs: seq<(string, Record)>)
    ensures var ws := Filter(fs, HasContent);
      |FeatureBlocks(fs)| == |ws| &&
      forall k :: 0 <= k < |ws| ==> FeatureBlocks(fs)[k] == BlockOf(ws[k])
    decreases |fs|
  {
    if fs != [] {
      var init, f := fs[..|fs| - 1], fs[|fs| - 1];
      FeatureBlocksInOrder(init);
      assert init + [f] == fs;
      FilterAppend(init, [f], HasContent);
      var tail := if HasContent(f) then [f] else [];
      assert Filter([f], HasContent) == tail by {
        assert [f][1..] == [];
      }
      var bs := FeatureBlocks(init);
      var more := if HasContent(f) then [BlockOf(f)] else [];
      assert FeatureBlocks(fs) == bs + more;
      var ws0 := Filter(init, HasContent);
      assert Filter(fs, HasContent) == ws0 + tail;
      MapConcat(bs, ws0, more, tail, BlockOf);
    }
  }

  function BlockOf(f: (string, Record)): string {
    FeatureBlock(f.0, f.1)
  }

  /** Two sequences that map element-wise under `g`, concatenated, still do. */
  lemma MapConcat<A, B>(bs: seq<B>, ws: seq<A>, more: seq<B>, tail: seq<A>, g: A -> B)
    requires |bs| == |ws| && forall k :: 0 <= k < |ws| ==> bs[k] == g(ws[k])
    requires |more| == |tail| && forall k :: 0 <= k < |tail| ==> more[k] == g(tail[k])
    ensures |bs + more| == |ws + tail|
    ensures forall k :: 0 <= k < |ws + tail| ==> (bs + more)[k] == g((ws + tail)[k])
  {
    forall k | 0 <= k < |ws + tail| ensures (bs + more)[k] == g((ws + tail)[k]) {
      if k >= |ws| {
        assert (bs + more)[k] == more[k - |ws|];
      }
    }
  }

  /** Every feature with content contributes its block. */
  lemma FeatureBlocksComplete(fs: seq<(string, Record)>)
    ensures forall i :: 0 <= i < |fs| && HasContent(fs[i]) ==> FeatureBlock(fs[i].0, fs[i].1) in FeatureBlocks(fs)
  {
    FeatureBlocksInOrder(fs);
    var ws := Filter(fs, HasContent);
    forall i | 0 <= i < |fs| && HasContent(fs[i]) ensures FeatureBlock(fs[i].0, fs[i].1) in FeatureBlocks(fs) {
      assert fs[i] in ws;
      var k :| 0 <= k < |ws| && ws[k] == fs[i];
      assert FeatureBlocks(fs)[k] == BlockOf(ws[k]);
    }
  }

  /** Each feature block names its feature and carries its content. */
  lemma {:induction false} FeatureBlocksFrom(fs: seq<(string, Record)>)
    ensures |FeatureBlocks(fs)| <= |fs|
    ensures forall b :: b in FeatureBlocks(fs) ==>
              exists i :: 0 <= i < |fs| && GetOr(fs[i].1, "content", "") != "" && b == FeatureBlock(fs[i].0, fs[i].1)
    decreases |fs|
  {
    if fs != [] {
      var init := fs[..|fs| - 1];
      FeatureBlocksFrom(init);
      forall b | b in FeatureBlocks(fs)
        ensures exists i :: 0 <= i < |fs| && GetOr(fs[i].1, "content", "") != "" && b == FeatureBlock(fs[i].0, fs[i].1)
      {
        if b in FeatureBlocks(init) {
          var i :| 0 <= i < |init| && GetOr(init[i].1, "content", "") != "" && b == FeatureBlock(init[i].0, init[i].1);
          assert init[i] == fs[i];
        } else {
          assert b == FeatureBlock(fs[|fs| - 1].0, fs[|fs| - 1].1);
        }
      }
    }
  }

  lemma {:induction false} JoinEmpty(xs: seq<string>, sep: string)
    requires forall k :: 0 <= k < |xs| ==> xs[k] != ""
    ensures Join(xs, sep) == "" <==> xs == []
    decreases |xs|
  {
    if |xs| > 1 {
      assert |Join(xs, sep)| >= |xs[0]|;
    }
  }

  lemma BlocksNonEmpty(d: CompanyData)
    ensures forall k :: 0 <= k < |AllBlocks(d)| ==> AllBlocks(d)[k] != ""
  {
    FeatureBlocksFrom(d.features);
    forall k | 0 <= k < |AllBlocks(d)|
      ensures AllBlocks(d)[k] != ""
    {
      var b := AllBlocks(d)[k];
      if b !in FeatureBlocks(d.features) {
        assert |b| >= |HomepageBlock("")|;
      } else {
        var i :| 0 <= i < |d.features| && b == FeatureBlock(d.features[i].0, d.features[i].1);
        assert |b| >= |"FEATURE: "|;
      }
    }
  }

  /** The "all" source is empty exactly when no page has content. */
  lemma AllEmpty(d: CompanyData)
    ensures ExtractContent(d, "all") == "" <==>
            !(HomepageTruthy(d) && GetOr(d.homepage.value, "content", "") != "")
            && forall i :: 0 <= i < |d.features| ==> GetOr(d.features[i].1, "content", "") == ""
  {
    assert !StartsWith("all", FeaturePrefix);
    BlocksNonEmpty(d);
    JoinEmpty(AllBlocks(d), "\n");
    FeatureBlocksEmpty(d.features);
  }

  // ------------------------------------------------------------------
  // The checks before an analysis

  /** An analysis runs exactly when the record loaded with some data, the
      source is "all" or offered, it selects non-empty content and a client
      is configured; and the content it runs on is the selection. */
  lemma PrepareMeaning(loaded: Option<CompanyData>, source: string, hasClient: bool)
    ensures Prepare(loaded, source, hasClient).Ready? <==>
            loaded.Some? && Sources(loaded.value) != []
            && (source == "all" || source in Sources(loaded.value))
            && ExtractContent(loaded.value, source) != "" && hasClient
    ensures Prepare(loaded, source, hasClient).Ready? ==>
            Prepare(loaded, source, hasClient).content == ExtractContent(loaded.value, source)
    ensures Prepare(loaded, source, hasClient) == Rejected(InvalidSource) <==>
            loaded.Some? && Sources(loaded.value) != [] && source != "all" && source !in Sources(loaded.value)
  {
  }

  /** The data checks come before the client check: with the client
      present or absent, any rejection other than the missing key is the same. */
  lemma ClientCheckedLast(loaded: Option<CompanyData>, source: string)
    ensures Prepare(loaded, source, false).Rejected?
    ensures Prepare(loaded, source, true).Rejected? ==>
            Prepare(loaded, source, false) == Prepare(loaded, source, true)
    ensures Prepare(loaded, source, true).Ready? ==>
            Prepare(loaded, source, false) == Rejected(NoApiKey)
  {
  }

  /** With some data and a client, "all" is refused only when no page has content. */
  lemma PrepareAll(d: CompanyData)
    requires Sources(d) != []
    ensures Prepare(Some(d), "all", true) == Rejected(NoContent) <==>
            !(HomepageTruthy(d) && GetOr(d.homepage.value, "content", "") != "")
            && forall i :: 0 <= i < |d.features| ==> GetOr(d.features[i].1, "content", "") == ""
  {
    AllEmpty(d);
  }

  // ------------------------------------------------------------------
  // Truncation

  /** Content within the token budget passes unchanged; longer content keeps
      exactly its first MaxContentLength characters followed by the note. */
  lemma TruncateMeaning(content: string)
    ensures EstimateTokens(content) <= MaxContentTokens ==> Truncate(content) == content
    ensures EstimateTokens(content) > MaxContentTokens ==>
              |content| > MaxContentLength
              && Truncate(content)[..MaxContentLength] == content[..MaxContentLength]
              && Truncate(content)[MaxContentLength..] == TruncationNote(|content|, EstimateTokens(content))
  {
  }

  /** The note pushes the estimate of truncated content back over the budget. */
  lemma TruncatedStillOver(content: string)
    requires EstimateTokens(content) > MaxContentTokens
    ensures EstimateTokens(Truncate(content)) > MaxContentTokens
  {
    var note := TruncationNote(|content|, EstimateTokens(content));
    assert |note| >= 4;
    assert |Truncate(content)| == MaxContentLength + |note|;
  }

  // ------------------------------------------------------------------
  // Chunking

  lemma ChunkingEmpty(chunks: seq<string>, content: string, size: nat)
    requires IsChunking(chunks, content, size)
    ensures chunks == [] <==> content == ""
  {
    if chunks != [] {
      assert |Concat(chunks)| >= |chunks[0]|;
    }
  }

  /** There is only one way to cut content into chunks of a given size, so
      the chunker's result is determined by its inputs. */
  lemma {:induction false} ChunkingUnique(a: seq<string>, b: seq<string>, content: string, size: nat)
    requires size > 0 && IsChunking(a, content, size) && IsChunking(b, content, size)
    ensures a == b
    decreases |content|
  {
    ChunkingEmpty(a, content, size);
    ChunkingEmpty(b, content, size);
    if content != "" {
      var m := Min(size, |content|);
      FirstChunk(a, content, size);
      FirstChunk(b, content, size);
      var rest := content[m..];
      ChunkingUnique(a[1..], b[1..], rest, size);
      assert a == [a[0]] + a[1..];
      assert b == [b[0]] + b[1..];
    }
  }

  /** The first chunk is the first `size` characters, or all of them, and
      the other chunks cut the rest. */
  lemma FirstChunk(chunks: seq<string>, content: string, size: nat)
    requires size > 0 && content != "" && IsChunking(chunks, content, size)
    ensures chunks != []
    ensures chunks[0] == content[..Min(size, |content|)]
    ensures IsChunking(chunks[1..], content[Min(size, |content|)..], size)
  {
    ChunkingEmpty(chunks, content, size);
    var tail := chunks[1..];
    assert content == chunks[0] + Concat(tail);
    if |chunks| > 1 {
      assert |Concat(tail)| >= |tail[0]|;
    } else {
      assert tail == [];
    }
    assert content[..|chunks[0]|] == chunks[0];
    assert content[|chunks[0]|..] == Concat(tail);
  }

  /** Cutting 10 characters by 4 gives 4 + 4 + 2. */
  lemma ChunkExample()
    ensures IsChunking(["abcd", "efgh", "ij"], "abcdefghij", 4)
  {
    assert Concat(["ij"]) == "ij";
    assert Concat(["efgh", "ij"]) == "efghij";
  }
}
