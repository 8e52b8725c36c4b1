/** Helpers shared by every scraper: the small part of Python's `str` and
    `list` behaviour that the extraction code relies on, written as total
    functions over `seq<char>`. */
module Common {

  datatype Option<+T> = None | Some(value: T)

  // ------------------------------------------------------------------
  // Characters

  /** Whitespace as Python's str.isspace() sees it, which is also what
      `\s` in a str pattern, str.strip() and str.split() use: the ASCII
      space, \t, \n, \v, \f, \r, the four C0 separators, NEL, no-break
      space, and the Unicode space separators, line and paragraph separators. */
  predicate IsSpace(c: char) {
    c == ' ' || c == '\t' || c == '\n' || c == '\r' || c == '\U{0B}' || c == '\U{0C}'
    || ('\U{1C}' <= c <= '\U{1F}')
    || c == '\U{85}' || c == '\U{A0}' || c == '\U{1680}'
    || ('\U{2000}' <= c <= '\U{200A}')
    || c == '\U{2028}' || c == '\U{2029}' || c == '\U{202F}' || c == '\U{205F}' || c == '\U{3000}'
  }

  function LowerChar(c: char): char {
    if 'A' <= c <= 'Z' then (c as int + 32) as char else c
  }

  /** ASCII lower-casing, standing in for Python's str.lower(). */
  function Lower(s: string): (r: string)
    ensures |r| == |s|
    ensures forall i :: 0 <= i < |s| ==> r[i] == LowerChar(s[i])
  {
    seq(|s|, i requires 0 <= i < |s| => LowerChar(s[i]))
  }

  function DigitChar(d: nat): char
    requires d < 10
  {
    ('0' as int + d) as char
  }

  predicate IsDigit(c: char) {
    '0' <= c <= '9'
  }

  // ------------------------------------------------------------------
  // Substrings

  predicate OccursAt(s: string, sub: string, i: int) {
    0 <= i && i + |sub| <= |s| && s[i..i + |sub|] == sub
  }

  /** Python's `sub in s` on strings. */
  predicate Contains(s: string, sub: string) {
    exists i | 0 <= i <= |s| - |sub| :: OccursAt(s, sub, i)
  }

  /** Python's s.startswith(p). */
  predicate StartsWith(s: string, p: string) {
    |p| <= |s| && s[..|p|] == p
  }

  lemma ContainsAt(s: string, sub: string, i: nat)
    requires OccursAt(s, sub, i)
    ensures Contains(s, sub)
  {
  }

  lemma ContainsEmpty(s: string)
    ensures Contains(s, "")
  {
    assert OccursAt(s, "", 0);
  }

  /** A needle whose first character does not occur in the haystack is not found. */
  lemma NotContainsWithoutChar(s: string, sub: string)
    requires sub != [] && sub[0] !in s
    ensures !Contains(s, sub)
  {
    forall i | 0 <= i <= |s| - |sub| ensures !OccursAt(s, sub, i) {
      assert s[i] in s;
    }
  }

  /** If `t` occurs inside `s`, everything found in `t` is found in `s`. */
  lemma ContainsTransitive(s: string, t: string, sub: string, k: nat)
    requires OccursAt(s, t, k) && Contains(t, sub)
    ensures Contains(s, sub)
  {
    var i :| 0 <= i <= |t| - |sub| && OccursAt(t, sub, i);
    forall m | 0 <= m < |sub| ensures s[k + i + m] == sub[m] {
      assert t[i + m] == sub[m];
      assert s[k..k + |t|][i + m] == s[k + i + m];
    }
    assert s[k + i..k + i + |sub|] == sub;
    assert OccursAt(s, sub, k + i);
  }

  // ------------------------------------------------------------------
  // Replacing

  /** Python's s.replace(a, b) for single characters. */
  function ReplaceChar(s: string, a: char, b: char): (r: string)
    ensures |r| == |s|
    ensures forall i :: 0 <= i < |s| ==> r[i] == (if s[i] == a then b else s[i])
  {
    seq(|s|, i requires 0 <= i < |s| => if s[i] == a then b else s[i])
  }

  /** After the replacement `a` is gone, and so is any other character
      `c` that was absent and is not the replacement. */
  lemma ReplaceCharRemoves(s: string, a: char, b: char, c: char)
    requires a != b
    ensures a !in ReplaceChar(s, a, b)
    ensures c != b && c !in s ==> c !in ReplaceChar(s, a, b)
  {
    var r := ReplaceChar(s, a, b);
    forall i | 0 <= i < |r| ensures r[i] != a && (c != b && c !in s ==> r[i] != c) {
      assert s[i] in s;
    }
  }

  /** Python's s.replace(pat, rep): every non-overlapping occurrence, scanning
      left to right. */
  function ReplaceAll(s: string, pat: string, rep: string): string
    requires pat != []
    decreases |s|
  {
    if |s| < |pat| then s
    else if s[..|pat|] == pat then rep + ReplaceAll(s[|pat|..], pat, rep)
    else [s[0]] + ReplaceAll(s[1..], pat, rep)
  }

  /** With the needle absent, replacing changes nothing. */
  lemma {:induction false} ReplaceAllAbsent(s: string, pat: string, rep: string)
    requires pat != [] && !Contains(s, pat)
    ensures ReplaceAll(s, pat, rep) == s
    decreases |s|
  {
    if |s| >= |pat| {
      if s[..|pat|] == pat {
        assert OccursAt(s, pat, 0);
      } else {
        if Contains(s[1..], pat) {
          var i :| 0 <= i <= |s[1..]| - |pat| && OccursAt(s[1..], pat, i);
          assert s[1..][i..i + |pat|] == s[i + 1..i + 1 + |pat|];
          assert OccursAt(s, pat, i + 1);
        }
        ReplaceAllAbsent(s[1..], pat, rep);
      }
    }
  }

  // ------------------------------------------------------------------
  // Trimming, splitting, joining

  /** Drops the leading characters satisfying `drop`. */
  function TrimLeft(s: string, drop: char -> bool): (r: string)
    ensures |r| <= |s| && r == s[|s| - |r|..]
    ensures r != [] ==> !drop(r[0])
    decreases |s|
  {
    if s != [] && drop(s[0]) then TrimLeft(s[1..], drop) else s
  }

  /** Drops the trailing characters satisfying `drop`. */
  function TrimRight(s: string, drop: char -> bool): (r: string)
    ensures |r| <= |s| && r == s[..|r|]
    ensures r != [] ==> !drop(r[|r| - 1])
    decreases |s|
  {
    if s != [] && drop(s[|s| - 1]) then TrimRight(s[..|s| - 1], drop) else s
  }

  /** Python's s.strip(chars) for the characters satisfying `drop`. */
  function Trim(s: string, drop: char -> bool): (r: string)
    ensures r != [] ==> !drop(r[0]) && !drop(r[|r| - 1])
  {
    TrimLeft(TrimRight(s, drop), drop)
  }

  /** Python's s.strip(). */
  function Strip(s: string): string {
    Trim(s, IsSpace)
  }

  /** Python's s.split(sep) for a one-character separator: the pieces between
      separators, so there is always at least one piece. */
  function Split(s: string, sep: char): (r: seq<string>)
    ensures |r| >= 1
    ensures forall p :: p in r ==> sep !in p
    decreases |s|
  {
    if s == [] then [""]
    else if s[0] == sep then [""] + Split(s[1..], sep)
    else
      var rest := Split(s[1..], sep);
      assert rest[0] in rest;
      assert forall p :: p in rest[1..] ==> p in rest;
      [[s[0]] + rest[0]] + rest[1..]
  }

  /** A separator between two strings splits them apart. */
  lemma {:induction false} SplitAppend(x: string, t: string, sep: char)
    ensures Split(x + [sep] + t, sep) == Split(x, sep) + Split(t, sep)
    decreases |x|
  {
    var s := x + [sep] + t;
    if x == [] {
      assert s == [sep] + t;
      assert s[1..] == t;
    } else {
      assert s[0] == x[0];
      assert s[1..] == x[1..] + [sep] + t;
      SplitAppend(x[1..], t, sep);
    }
  }

  /** Python's sep.join(xs). */
  function Join(xs: seq<string>, sep: string): string
    decreases |xs|
  {
    if xs == [] then ""
    else if |xs| == 1 then xs[0]
    else xs[0] + sep + Join(xs[1..], sep)
  }

  /** len(s.split()): the number of maximal runs of non-whitespace. */
  function WordCount(s: string): nat
    decreases |s|
  {
    if s == [] then 0
    else if IsSpace(s[0]) then WordCount(s[1..])
    else 1 + WordCount(TrimLeft(s, c => !IsSpace(c)))
  }

  // ------------------------------------------------------------------
  // Lists

  function Filter<T>(xs: seq<T>, p: T -> bool): (r: seq<T>)
    ensures |r| <= |xs|
    ensures forall i :: 0 <= i < |r| ==> r[i] in xs && p(r[i])
    ensures forall i :: 0 <= i < |xs| && p(xs[i]) ==> xs[i] in r
    decreases |xs|
  {
    if xs == [] then []
    else (if p(xs[0]) then [xs[0]] else []) + Filter(xs[1..], p)
  }

  lemma ConcatAssoc<T>(a: seq<T>, b: seq<T>, c: seq<T>)
    ensures a + (b + c) == (a + b) + c
  {
  }

  lemma TakeSnoc<T>(xs: seq<T>, i: nat)
    requires i < |xs|
    ensures xs[..i + 1] == xs[..i] + [xs[i]]
  {
  }

  lemma {:induction false} FilterAppend<T>(xs: seq<T>, ys: seq<T>, p: T -> bool)
    ensures Filter(xs + ys, p) == Filter(xs, p) + Filter(ys, p)
    decreases |xs|
  {
    if xs != [] {
      var head := if p(xs[0]) then [xs[0]] else [];
      assert (xs + ys)[0] == xs[0];
      assert (xs + ys)[1..] == xs[1..] + ys;
      FilterAppend(xs[1..], ys, p);
      calc {
        Filter(xs + ys, p);
        head + Filter(xs[1..] + ys, p);
        head + (Filter(xs[1..], p) + Filter(ys, p));
        (head + Filter(xs[1..], p)) + Filter(ys, p);
        Filter(xs, p) + Filter(ys, p);
      }
    } else {
      assert xs + ys == ys;
    }
  }

  ghost predicate NoDups<T>(xs: seq<T>) {
    forall i, j :: 0 <= i < j < |xs| ==> xs[i] != xs[j]
  }

  /** The keys of `xs`, as the `seen` set of a de-duplicating loop holds them. */
  function KeySet<T, K(==)>(xs: seq<T>, key: T -> K): (r: set<K>)
    ensures forall j :: 0 <= j < |xs| ==> key(xs[j]) in r
    ensures forall k :: k in r ==> exists j :: 0 <= j < |xs| && key(xs[j]) == k
    decreases |xs|
  {
    if xs == [] then {}
    else
      var r := KeySet(xs[..|xs| - 1], key);
      assert forall j :: 0 <= j < |xs| - 1 ==> xs[..|xs| - 1][j] == xs[j];
      r + {key(xs[|xs| - 1])}
  }

  /** The elements of `xs` whose key has not been seen earlier, in order:
      first occurrence wins. */
  function DistinctBy<T, K(==)>(xs: seq<T>, key: T -> K): seq<T>
    decreases |xs|
  {
    if xs == [] then []
    else
      var init := xs[..|xs| - 1];
      var x := xs[|xs| - 1];
      if key(x) in KeySet(init, key) then DistinctBy(init, key) else DistinctBy(init, key) + [x]
  }

  /** `x` is the first element of `xs` carrying its key. */
  ghost predicate FirstWithKey<T, K>(xs: seq<T>, key: T -> K, x: T) {
    exists i :: 0 <= i < |xs| && xs[i] == x && forall j :: 0 <= j < i ==> key(xs[j]) != key(x)
  }

  /** Index of the first element of `xs` carrying key `k`. */
  function FirstIndex<T, K(==)>(xs: seq<T>, key: T -> K, k: K): (i: nat)
    requires k in KeySet(xs, key)
    ensures i < |xs| && key(xs[i]) == k
    ensures forall j :: 0 <= j < i ==> key(xs[j]) != k
    decreases |xs|
  {
    if key(xs[0]) == k then 0
    else
      assert forall j :: 0 <= j < |xs| - 1 ==> xs[1..][j] == xs[j + 1];
      assert k in KeySet(xs[1..], key) by {
        var j :| 0 <= j < |xs| && key(xs[j]) == k;
        assert key(xs[1..][j - 1]) == k;
      }
      1 + FirstIndex(xs[1..], key, k)
  }

  /** De-duplication never lengthens, keeps every key of the input and never
      keeps a key twice. */
  lemma {:induction false} DistinctByKeys<T, K>(xs: seq<T>, key: T -> K)
    ensures |DistinctBy(xs, key)| <= |xs|
    ensures KeySet(DistinctBy(xs, key), key) == KeySet(xs, key)
    ensures var r := DistinctBy(xs, key);
      forall i, j :: 0 <= i < j < |r| ==> key(r[i]) != key(r[j])
    decreases |xs|
  {
    if xs != [] {
      var init, x := xs[..|xs| - 1], xs[|xs| - 1];
      DistinctByKeys(init, key);
      var r0 := DistinctBy(init, key);
      assert KeySet(xs, key) == KeySet(init, key) + {key(x)};
      if key(x) !in KeySet(init, key) {
        DistinctBySnoc(r0, x, key);
      }
    }
  }

  /** Appending an element with a new key keeps the keys distinct. */
  lemma DistinctBySnoc<T, K>(r0: seq<T>, x: T, key: T -> K)
    requires forall i, j :: 0 <= i < j < |r0| ==> key(r0[i]) != key(r0[j])
    requires key(x) !in KeySet(r0, key)
    ensures KeySet(r0 + [x], key) == KeySet(r0, key) + {key(x)}
    ensures var r := r0 + [x];
      forall i, j :: 0 <= i < j < |r| ==> key(r[i]) != key(r[j])
  {
    var r := r0 + [x];
    assert r[..|r| - 1] == r0;
    forall i | 0 <= i < |r0| ensures key(r[i]) != key(x) {
      assert key(r0[i]) in KeySet(r0, key);
    }
  }

  /** The first `n` de-duplicated elements: distinct keys, each the first
      element with its key, and every key when there are at most `n`. */
  lemma TakeDistinctBy<T, K>(xs: seq<T>, key: T -> K, n: nat)
    ensures var u := DistinctBy(xs, key);
      var ps := Take(u, n);
      |ps| == Min(|u|, n) && ps == u[..|ps|] &&
      (|u| <= n ==> forall q :: q in xs ==> exists p :: p in ps && key(p) == key(q)) &&
      (forall i, j :: 0 <= i < j < |ps| ==> key(ps[i]) != key(ps[j])) &&
      (forall q :: q in ps ==> FirstWithKey(xs, key, q))
  {
    var u := DistinctBy(xs, key);
    DistinctByKeys(xs, key);
    DistinctByFirst(xs, key);
    var ps := Take(u, n);
    TakeProperties(u, n);
    assert forall i :: 0 <= i < |ps| ==> ps[i] == u[i];
    TakeDistinctByComplete(xs, key, n);
  }

  /** When no more than `n` keys are distinct, the first `n` de-duplicated
      elements cover every key of the input. */
  lemma TakeDistinctByComplete<T, K>(xs: seq<T>, key: T -> K, n: nat)
    ensures |DistinctBy(xs, key)| <= n ==>
      forall q :: q in xs ==> exists p :: p in Take(DistinctBy(xs, key), n) && key(p) == key(q)
  {
    var u := DistinctBy(xs, key);
    if |u| <= n {
      DistinctByKeys(xs, key);
      assert Take(u, n) == u;
      forall q | q in xs ensures exists p :: p in u && key(p) == key(q) {
        var j :| 0 <= j < |xs| && xs[j] == q;
        assert key(q) in KeySet(u, key);
        var k :| 0 <= k < |u| && key(u[k]) == key(q);
        assert u[k] in u;
      }
    }
  }

  /** Every kept element is the first element of the input with its key. */
  lemma {:induction false} DistinctByFirst<T, K>(xs: seq<T>, key: T -> K)
    ensures forall x :: x in DistinctBy(xs, key) ==> FirstWithKey(xs, key, x)
    decreases |xs|
  {
    if xs != [] {
      var init, x := xs[..|xs| - 1], xs[|xs| - 1];
      DistinctByFirst(init, key);
      forall y | y in DistinctBy(xs, key) ensures FirstWithKey(xs, key, y) {
        if y in DistinctBy(init, key) {
          var i :| 0 <= i < |init| && init[i] == y && forall j :: 0 <= j < i ==> key(init[j]) != key(y);
          assert xs[i] == y;
          assert forall j :: 0 <= j < i ==> xs[j] == init[j];
        } else {
          assert y == x && key(x) !in KeySet(init, key);
          assert xs[|xs| - 1] == y;
          forall j | 0 <= j < |xs| - 1 ensures key(xs[j]) != key(y) {
            assert xs[j] == init[j];
          }
        }
      }
    }
  }

  lemma {:induction false} FirstIndexPrefix<T, K>(xs: seq<T>, ys: seq<T>, key: T -> K, k: K)
    requires k in KeySet(xs, key)
    ensures k in KeySet(xs + ys, key)
    ensures FirstIndex(xs + ys, key, k) == FirstIndex(xs, key, k)
    decreases |xs|
  {
    var j :| 0 <= j < |xs| && key(xs[j]) == k;
    assert key((xs + ys)[j]) == k;
    if key(xs[0]) != k {
      assert (xs + ys)[1..] == xs[1..] + ys;
      assert key(xs[1..][j - 1]) == k;
      FirstIndexPrefix(xs[1..], ys, key, k);
    }
  }

  /** Appending an element does not move the first occurrence of an earlier key. */
  lemma FirstIndexStable<T, K>(init: seq<T>, x: T, key: T -> K)
    ensures forall k :: k in KeySet(init, key) ==>
      k in KeySet(init + [x], key) && FirstIndex(init + [x], key, k) == FirstIndex(init, key, k)
  {
    forall k | k in KeySet(init, key)
      ensures k in KeySet(init + [x], key) && FirstIndex(init + [x], key, k) == FirstIndex(init, key, k)
    {
      FirstIndexPrefix(init, [x], key, k);
    }
  }

  /** The elements of `r` appear in the order in which their keys first occur in `xs`. */
  ghost predicate OrderedByFirst<T, K>(xs: seq<T>, key: T -> K, r: seq<T>) {
    (forall i :: 0 <= i < |r| ==> key(r[i]) in KeySet(xs, key)) &&
    forall i, j :: 0 <= i < j < |r| ==>
      key(r[i]) in KeySet(xs, key) && key(r[j]) in KeySet(xs, key) &&
      FirstIndex(xs, key, key(r[i])) < FirstIndex(xs, key, key(r[j]))
  }

  lemma OrderedByFirstSnoc<T, K>(init: seq<T>, x: T, key: T -> K, r: seq<T>)
    requires OrderedByFirst(init, key, r)
    ensures OrderedByFirst(init + [x], key, r)
    ensures key(x) !in KeySet(init, key) ==> OrderedByFirst(init + [x], key, r + [x])
  {
    FirstIndexStable(init, x, key);
    var xs := init + [x];
    if key(x) !in KeySet(init, key) {
      var r' := r + [x];
      assert key(xs[|xs| - 1]) == key(x);
      assert FirstIndex(xs, key, key(x)) == |xs| - 1;
      forall i | 0 <= i < |r| ensures FirstIndex(xs, key, key(r[i])) < |init| {
        assert key(r[i]) in KeySet(init, key);
      }
      forall i, j | 0 <= i < j < |r'|
        ensures key(r'[i]) in KeySet(xs, key) && key(r'[j]) in KeySet(xs, key)
        ensures FirstIndex(xs, key, key(r'[i])) < FirstIndex(xs, key, key(r'[j]))
      {
        if j < |r| {
          assert r'[i] == r[i] && r'[j] == r[j];
        } else {
          assert r'[i] == r[i] && r'[j] == x;
        }
      }
    }
  }

  /** Kept elements appear in the order in which their keys first appear. */
  lemma {:induction false} DistinctByOrder<T, K>(xs: seq<T>, key: T -> K)
    ensures OrderedByFirst(xs, key, DistinctBy(xs, key))
    decreases |xs|
  {
    if xs != [] {
      var init, x := xs[..|xs| - 1], xs[|xs| - 1];
      assert xs == init + [x];
      DistinctByOrder(init, key);
      OrderedByFirstSnoc(init, x, key, DistinctBy(init, key));
    }
  }

  /** Python's list(set(xs)) in one admissible order: first occurrences. */
  function Distinct<T(==)>(xs: seq<T>): seq<T> {
    DistinctBy(xs, x => x)
  }

  lemma DistinctProperties<T>(xs: seq<T>)
    ensures NoDups(Distinct(xs))
    ensures forall x :: x in Distinct(xs) <==> x in xs
    ensures |Distinct(xs)| <= |xs|
  {
    DistinctByKeys(xs, x => x);
    var r := Distinct(xs);
    forall x | x in xs ensures x in r {
      var j :| 0 <= j < |xs| && xs[j] == x;
      assert x in KeySet(xs, y => y);
      assert x in KeySet(r, y => y);
    }
  }

  function Min(a: int, b: int): int {
    if a <= b then a else b
  }

  /** Python's xs[:n]. */
  function Take<T>(xs: seq<T>, n: nat): (r: seq<T>)
    ensures |r| == Min(|xs|, n) && r == xs[..|r|]
  {
    if |xs| <= n then xs else xs[..n]
  }

  /** A prefix keeps membership and the absence of repetitions. */
  lemma TakeProperties<T>(xs: seq<T>, n: nat)
    ensures forall x :: x in Take(xs, n) ==> x in xs
    ensures NoDups(xs) ==> NoDups(Take(xs, n))
  {
    var r := Take(xs, n);
    assert forall i :: 0 <= i < |r| ==> r[i] == xs[i];
  }

  // ------------------------------------------------------------------
  // Numbers as text

  /** str(n) for a natural number. */
  function NatToString(n: nat): string
    decreases n
  {
    if n < 10 then [DigitChar(n)] else NatToString(n / 10) + [DigitChar(n % 10)]
  }

  /** Exactly three digits, with leading zeros. */
  function Pad3(n: nat): string
    requires n < 1000
  {
    [DigitChar(n / 100), DigitChar(n / 10 % 10), DigitChar(n % 10)]
  }

  /** f"{n:,}": the decimal digits in groups of three separated by commas. */
  function GroupThousands(n: nat): string
    decreases n
  {
    if n < 1000 then NatToString(n) else GroupThousands(n / 1000) + "," + Pad3(n % 1000)
  }
}
