/** The page name derived from a URL, shared by the sitemap analyzer
    (create_feature_name) and by the pricing and SEO scrapers
    (create_page_id), whose three definitions are identical. */
module Pages {
  import opened Common

  /** The two components of urlparse(url) the scrapers read. */
  datatype UrlParts = UrlParts(netloc: string, path: string)

  predicate IsSlash(c: char) {
    c == '/'
  }

  predicate NonEmpty(s: string) {
    s != []
  }

  /** The non-empty segments of a path, with surrounding slashes stripped. */
  function Segments(path: string): seq<string> {
    Filter(Split(Trim(path, IsSlash), '/'), NonEmpty)
  }

  /** The last path segment with '-' and '.' turned into '_', or, for a
      path with no segment, the host with '.' turned into '_'. */
  function PageId(u: UrlParts): (r: string)
    ensures '.' !in r
    ensures Segments(u.path) != [] ==> '-' !in r
    ensures Segments(u.path) == [] ==> |r| == |u.netloc|
  {
    var parts := Segments(u.path);
    if parts != [] then
      var dashless := ReplaceChar(parts[|parts| - 1], '-', '_');
      ReplaceCharRemoves(dashless, '.', '_', '-');
      ReplaceChar(dashless, '.', '_')
    else
      ReplaceCharRemoves(u.netloc, '.', '_', '.');
      ReplaceChar(u.netloc, '.', '_')
  }

  /** A name taken from the path is a non-empty identifier free of '-',
      '.' and '/'; without a segment the name is the host with its dots
      replaced. */
  lemma PageIdShape(u: UrlParts)
    ensures var r := PageId(u);
      (Segments(u.path) != [] ==> '-' !in r && '.' !in r && '/' !in r && r != []) &&
      (Segments(u.path) == [] ==> r == ReplaceChar(u.netloc, '.', '_'))
  {
    var parts := Segments(u.path);
    if parts != [] {
      var last := parts[|parts| - 1];
      assert last in Split(Trim(u.path, IsSlash), '/');
      var r := PageId(u);
      forall i | 0 <= i < |r| ensures r[i] != '/' {
        assert last[i] in last;
      }
    }
  }

  lemma TrimRightSlash(path: string)
    ensures TrimRight(path + "/", IsSlash) == TrimRight(path, IsSlash)
  {
    var s := path + "/";
    assert s[..|s| - 1] == path;
  }

  /** A trailing slash does not change the page name. */
  lemma TrailingSlashIgnored(u: UrlParts)
    ensures PageId(UrlParts(u.netloc, u.path + "/")) == PageId(u)
  {
    TrimRightSlash(u.path);
    assert Segments(u.path + "/") == Segments(u.path);
  }

  lemma {:induction false} TrimLeftSlashesIrrelevant(s: string)
    ensures Filter(Split(TrimLeft(s, IsSlash), '/'), NonEmpty) == Filter(Split(s, '/'), NonEmpty)
    decreases |s|
  {
    if s != [] && IsSlash(s[0]) {
      TrimLeftSlashesIrrelevant(s[1..]);
      assert Split(s, '/') == [""] + Split(s[1..], '/');
    }
  }

  lemma {:induction false} TrimRightSlashesIrrelevant(s: string)
    ensures Filter(Split(TrimRight(s, IsSlash), '/'), NonEmpty) == Filter(Split(s, '/'), NonEmpty)
    decreases |s|
  {
    if s != [] && IsSlash(s[|s| - 1]) {
      assert TrimRight(s, IsSlash) == TrimRight(s[..|s| - 1], IsSlash);
      TrimRightSlashesIrrelevant(s[..|s| - 1]);
      LastSlashIrrelevant(s);
    }
  }

  lemma LastSlashIrrelevant(s: string)
    requires s != [] && s[|s| - 1] == '/'
    ensures Filter(Split(s, '/'), NonEmpty) == Filter(Split(s[..|s| - 1], '/'), NonEmpty)
  {
    var init := s[..|s| - 1];
    TrailingSlashIrrelevant(init);
    assert s == init + "/";
  }

  /** A slash at the end only adds an empty segment. */
  lemma TrailingSlashIrrelevant(init: string)
    ensures Filter(Split(init + "/", '/'), NonEmpty) == Filter(Split(init, '/'), NonEmpty)
  {
    assert init + "/" == init + ['/'] + "";
    SplitAppend(init, "", '/');
    FilterAppend(Split(init, '/'), [""], NonEmpty);
    assert Split("", '/') == [""];
    assert Filter([""], NonEmpty) == [];
    assert Filter(Split(init, '/'), NonEmpty) + [] == Filter(Split(init, '/'), NonEmpty);
  }

  /** Stripping the slashes only drops empty segments, which are dropped anyway. */
  lemma SegmentsIgnoreOuterSlashes(path: string)
    ensures Segments(path) == Filter(Split(path, '/'), NonEmpty)
  {
    TrimLeftSlashesIrrelevant(TrimRight(path, IsSlash));
    TrimRightSlashesIrrelevant(path);
  }

  /** The page is named after the segment after the last slash. */
  lemma LastSegmentNames(host: string, prefix: string, seg: string)
    requires seg != [] && '/' !in seg
    ensures PageId(UrlParts(host, prefix + "/" + seg)) ==
      ReplaceChar(ReplaceChar(seg, '-', '_'), '.', '_')
  {
    var path := prefix + "/" + seg;
    SegmentsIgnoreOuterSlashes(path);
    SplitAppend(prefix, seg, '/');
    assert Split(seg, '/') == [seg] by { SplitWithoutSep(seg, '/'); }
    FilterAppend(Split(prefix, '/'), [seg], NonEmpty);
    assert Filter([seg], NonEmpty) == [seg];
  }

  lemma {:induction false} SplitWithoutSep(s: string, sep: char)
    requires sep !in s
    ensures Split(s, sep) == [s]
    decreases |s|
  {
    if s != [] {
      assert s[0] in s;
      assert forall c :: c in s[1..] ==> c in s;
      SplitWithoutSep(s[1..], sep);
      assert s == [s[0]] + s[1..];
    }
  }

  /** A bare host names the page after the host. */
  lemma HostExample()
    ensures PageId(UrlParts("www.example.com", "/")) == "www_example_com"
  {
    assert "/"[..0] == "";
    assert TrimRight("/", IsSlash) == "";
    assert Split("", '/') == [""];
    assert Segments("/") == [];
  }
}
