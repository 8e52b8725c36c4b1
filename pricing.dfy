/** The price and availability extractor: prices found by an ordered
    list of patterns, each labelled with a currency read off the
    pattern's own text; plan names; the currencies mentioned on the page;
    billing, discount and trial phrases; B2B availability phrases; and
    the currency table used to print a price. The regular-expression
    engine is an input: `findAll(p)` is what re.findall(p, text,
    re.IGNORECASE) returns on the page text and `search(p)` whether
    re.search(p, text, re.IGNORECASE) finds anything. */
module Pricing {
  import opened Common
  import opened Dom
  import opened PriceRules

  // ------------------------------------------------------------------
  // Amounts

  predicate AllDigits(s: string) {
    forall i :: 0 <= i < |s| ==> IsDigit(s[i])
  }

  /** One or more ASCII digits. */
  predicate Num(s: string) {
    s != [] && AllDigits(s)
  }

  function DigitValue(c: char): nat
    requires IsDigit(c)
  {
    c as int - '0' as int
  }

  function Value(s: string): nat
    requires AllDigits(s)
    decreases |s|
  {
    if s == [] then 0 else 10 * Value(s[..|s| - 1]) + DigitValue(s[|s| - 1])
  }

  /** float(s) in hundredths, for the decimal forms a price can take:
      digits, optionally followed by a point and one or two digits.
      Anything else is a ValueError (None). */
  function ParseAmount(s: string): (r: Option<nat>)
    ensures r.Some? ==> s != [] && IsDigit(s[0]) && IsDigit(s[|s| - 1])
    ensures AllDigits(s) && s != [] ==> r.Some?
  {
    if |s| >= 3 && s[|s| - 2] == '.' && Num(s[..|s| - 2]) && IsDigit(s[|s| - 1]) then
      Some(100 * Value(s[..|s| - 2]) + 10 * DigitValue(s[|s| - 1]))
    else if |s| >= 4 && s[|s| - 3] == '.' && Num(s[..|s| - 3]) && Num(s[|s| - 2..]) then
      Some(100 * Value(s[..|s| - 3]) + Value(s[|s| - 2..]))
    else if Num(s) then Some(100 * Value(s))
    else None
  }

  /** The upper bound 10000, in hundredths. */
  const PriceLimit: nat := 1000000

  /** A text that does not start with a digit is not a price: the
      phrases of the last pattern ("contact sales", ...) never are. */
  lemma NotNumericNotPrice(s: string)
    requires s == [] || !IsDigit(s[0])
    ensures ParseAmount(s) == None
  {
  }

  lemma {:induction false} NatToStringDigits(n: nat)
    ensures Num(NatToString(n)) && Value(NatToString(n)) == n
    decreases n
  {
    var s := NatToString(n);
    if n >= 10 {
      NatToStringDigits(n / 10);
      assert s[..|s| - 1] == NatToString(n / 10);
    }
  }

  /** repr() of the float price/100: the integer part, a point and the
      shortest fraction, "99.0" for 99 and "99.5" for 99.50. */
  function AmountRepr(cents: nat): string {
    var whole := NatToString(cents / 100);
    var f := cents % 100;
    if f == 0 then whole + ".0"
    else if f % 10 == 0 then whole + "." + [DigitChar(f / 10)]
    else whole + "." + [DigitChar(f / 10), DigitChar(f % 10)]
  }

  lemma DigitCharValue(d: nat)
    requires d < 10
    ensures IsDigit(DigitChar(d)) && DigitValue(DigitChar(d)) == d
  {
  }

  /** Digits, a point and one digit. */
  lemma ParseOneDecimal(w: string, d: nat)
    requires Num(w) && d < 10
    ensures ParseAmount(w + "." + [DigitChar(d)]) == Some(100 * Value(w) + 10 * d)
  {
    DigitCharValue(d);
    var s := w + "." + [DigitChar(d)];
    assert s[..|s| - 2] == w;
  }

  /** Digits, a point and two digits, the second not a point. */
  lemma ParseTwoDecimals(w: string, d1: nat, d2: nat)
    requires Num(w) && d1 < 10 && d2 < 10
    ensures ParseAmount(w + "." + [DigitChar(d1), DigitChar(d2)]) == Some(100 * Value(w) + 10 * d1 + d2)
  {
    DigitCharValue(d1);
    DigitCharValue(d2);
    var s := w + "." + [DigitChar(d1), DigitChar(d2)];
    assert s[|s| - 2] == DigitChar(d1);
    assert s[..|s| - 3] == w;
    var t := s[|s| - 2..];
    assert t == [DigitChar(d1), DigitChar(d2)];
    assert t[..1] == [DigitChar(d1)];
    assert t[..1][..0] == [];
    assert Value(t[..1]) == d1;
    assert Value(t) == 10 * d1 + d2;
  }

  /** Reading a printed amount back gives the amount. */
  lemma AmountReprRoundTrip(cents: nat)
    ensures ParseAmount(AmountRepr(cents)) == Some(cents)
  {
    var whole := NatToString(cents / 100);
    NatToStringDigits(cents / 100);
    var f := cents % 100;
    if f == 0 {
      ParseOneDecimal(whole, 0);
    } else if f % 10 == 0 {
      ParseOneDecimal(whole, f / 10);
    } else {
      ParseTwoDecimals(whole, f / 10, f % 10);
    }
  }

  // ------------------------------------------------------------------
  // Prices

  /** One entry of the 'prices' list: the amount in hundredths, the
      currency label and the pattern that found it. */
  datatype PriceInfo = PriceInfo(cents: nat, currency: Option<Currency>, pattern: string)

  /** The price a match contributes, if any: one that parses and lies
      strictly between 0 and 10000. */
  function Priced(p: string, m: string): seq<PriceInfo> {
    match ParseAmount(m)
    case Some(c) => if 0 < c < PriceLimit then [PriceInfo(c, Infer(p), p)] else []
    case None => []
  }

  /** The prices the matches `ms` of pattern `p` contribute, in order. */
  function PatternPrices(p: string, ms: seq<string>): seq<PriceInfo>
    decreases |ms|
  {
    if ms == [] then [] else PatternPrices(p, ms[..|ms| - 1]) + Priced(p, ms[|ms| - 1])
  }

  /** The prices of every pattern, pattern by pattern. */
  function RawPrices(pats: seq<string>, findAll: string -> seq<string>): seq<PriceInfo>
    decreases |pats|
  {
    if pats == [] then []
    else RawPrices(pats[..|pats| - 1], findAll) + PatternPrices(pats[|pats| - 1], findAll(pats[|pats| - 1]))
  }

  /** The loop over the price patterns and their matches. */
  method CollectPrices(pats: seq<string>, findAll: string -> seq<string>) returns (prices: seq<PriceInfo>)
    ensures prices == RawPrices(pats, findAll)
  {
    prices := [];
    var i := 0;
    while i < |pats|
      invariant 0 <= i <= |pats|
      invariant prices == RawPrices(pats[..i], findAll)
    {
      var pattern := pats[i];
      var matches := findAll(pattern);
      ghost var before := prices;
      var j := 0;
      while j < |matches|
        invariant 0 <= j <= |matches|
        invariant prices == before + PatternPrices(pattern, matches[..j])
      {
        assert matches[..j + 1][..j] == matches[..j];
        var m := matches[j];
        match ParseAmount(m) {
          case Some(c) =>
            if 0 < c < PriceLimit {
              prices := prices + [PriceInfo(c, Infer(pattern), pattern)];
            }
          case None =>
        }
        j := j + 1;
      }
      assert matches[..j] == matches;
      assert pats[..i + 1][..i] == pats[..i];
      i := i + 1;
    }
    assert pats[..i] == pats;
  }

  /** Every price found lies strictly between 0 and 10000, comes from a
      match that parses to it, and carries its pattern's label. */
  lemma {:induction false} PatternPricesSound(p: string, ms: seq<string>)
    ensures forall q :: q in PatternPrices(p, ms) ==>
      0 < q.cents < PriceLimit && q.pattern == p && q.currency == Infer(p) &&
      exists m :: m in ms && ParseAmount(m) == Some(q.cents)
    decreases |ms|
  {
    if ms != [] {
      var init := ms[..|ms| - 1];
      PatternPricesSound(p, init);
      assert ms[|ms| - 1] in ms;
      assert forall m :: m in init ==> m in ms;
    }
  }

  lemma {:induction false} RawPricesSound(pats: seq<string>, findAll: string -> seq<string>)
    ensures forall q :: q in RawPrices(pats, findAll) ==>
      0 < q.cents < PriceLimit && q.pattern in pats && q.currency == Infer(q.pattern) &&
      exists m :: m in findAll(q.pattern) && ParseAmount(m) == Some(q.cents)
    decreases |pats|
  {
    if pats != [] {
      var init := pats[..|pats| - 1];
      var p := pats[|pats| - 1];
      RawPricesSound(init, findAll);
      PatternPricesSound(p, findAll(p));
      assert p in pats;
      assert forall x :: x in init ==> x in pats;
    }
  }

  /** A pattern whose matches all start with a non-digit adds no price:
      the group-less "contact sales" pattern is one. */
  lemma {:induction false} PhrasesAddNoPrice(p: string, ms: seq<string>)
    requires forall i :: 0 <= i < |ms| ==> ms[i] == [] || !IsDigit(ms[i][0])
    ensures PatternPrices(p, ms) == []
    decreases |ms|
  {
    if ms != [] {
      PhrasesAddNoPrice(p, ms[..|ms| - 1]);
      NotNumericNotPrice(ms[|ms| - 1]);
    }
  }

  /** The key prices are de-duplicated on. */
  function PriceKey(p: PriceInfo): (nat, Option<Currency>) {
    (p.cents, p.currency)
  }

  /** The loop with `seen_prices`: the first price with each key, in order. */
  method UniquePrices(prices: seq<PriceInfo>) returns (unique: seq<PriceInfo>)
    ensures unique == DistinctBy(prices, PriceKey)
  {
    unique := [];
    var seen: set<(nat, Option<Currency>)> := {};
    var i := 0;
    while i < |prices|
      invariant 0 <= i <= |prices|
      invariant unique == DistinctBy(prices[..i], PriceKey)
      invariant seen == KeySet(prices[..i], PriceKey)
    {
      var key := PriceKey(prices[i]);
      assert prices[..i + 1][..i] == prices[..i];
      if key !in seen {
        unique := unique + [prices[i]];
        seen := seen + {key};
      }
      i := i + 1;
    }
    assert prices[..i] == prices;
  }

  // ------------------------------------------------------------------
  // Plans

  const PlanSelectors: seq<Selector> := [
    Selector(ClassAttr, "plan"), Selector(ClassAttr, "pricing"), Selector(ClassAttr, "tier"),
    Selector(ClassAttr, "package"), Selector(ClassAttr, "subscription")
  ]

  /** The stripped texts of `es` longer than 10 characters, in order. */
  function PlanTexts(es: seq<Node>): seq<string>
    decreases |es|
  {
    if es == [] then []
    else
      var t := NodeText(es[|es| - 1], true);
      PlanTexts(es[..|es| - 1]) + (if t != [] && |t| > 10 then [t] else [])
  }

  function RawPlans(doc: seq<Node>, sels: seq<Selector>): seq<string>
    decreases |sels|
  {
    if sels == [] then []
    else RawPlans(doc, sels[..|sels| - 1]) + PlanTexts(Select(doc, sels[|sels| - 1]))
  }

  /** The inner loop over the elements one selector selects. */
  method CollectPlanTexts(elements: seq<Node>) returns (texts: seq<string>)
    ensures texts == PlanTexts(elements)
  {
    texts := [];
    var j := 0;
    while j < |elements|
      invariant 0 <= j <= |elements|
      invariant texts == PlanTexts(elements[..j])
    {
      assert elements[..j + 1][..j] == elements[..j];
      var planText := NodeText(elements[j], true);
      if planText != [] && |planText| > 10 {
        texts := texts + [planText];
      }
      j := j + 1;
    }
    assert elements[..j] == elements;
  }

  /** The loop over the plan selectors. */
  method CollectPlans(doc: seq<Node>, sels: seq<Selector>) returns (plans: seq<string>)
    ensures plans == RawPlans(doc, sels)
  {
    plans := [];
    var i := 0;
    while i < |sels|
      invariant 0 <= i <= |sels|
      invariant plans == RawPlans(doc, sels[..i])
    {
      var texts := CollectPlanTexts(Select(doc, sels[i]));
      plans := plans + texts;
      assert sels[..i + 1][..i] == sels[..i];
      i := i + 1;
    }
    assert sels[..i] == sels;
  }

  lemma {:induction false} PlanTextsLong(es: seq<Node>)
    ensures forall t :: t in PlanTexts(es) ==> |t| > 10
    decreases |es|
  {
    if es != [] {
      PlanTextsLong(es[..|es| - 1]);
    }
  }

  lemma {:induction false} RawPlansLong(doc: seq<Node>, sels: seq<Selector>)
    ensures forall t :: t in RawPlans(doc, sels) ==> |t| > 10
    decreases |sels|
  {
    if sels != [] {
      RawPlansLong(doc, sels[..|sels| - 1]);
      PlanTextsLong(Select(doc, sels[|sels| - 1]));
    }
  }

  // ------------------------------------------------------------------
  // Currencies mentioned on the page

  /** The presence table, in the dictionary's order. */
  const CurrencyPatterns: seq<(Currency, seq<string>)> := [
    (USD, ["\\$", "USD", "US\\$", "dollars?", "US\\s*dollars?"]),
    (EUR, ["\U{20AC}", "EUR", "euros?", "euro"]),
    (GBP, ["\U{A3}", "GBP", "pounds?", "sterling", "British\\s*pounds?"]),
    (INR, ["\U{20B9}", "INR", "rupees?", "rupee", "Indian\\s*rupees?"]),
    (JPY, ["\U{A5}", "JPY", "yen", "Japanese\\s*yen"]),
    (CAD, ["C\\$", "CAD", "Canadian\\s*dollars?"]),
    (AUD, ["A\\$", "AUD", "Australian\\s*dollars?"]),
    (CHF, ["CHF", "Swiss\\s*francs?"]),
    (CNY, ["\U{A5}", "CNY", "Chinese\\s*yuan", "renminbi"]),
    (KRW, ["\U{20A9}", "KRW", "Korean\\s*won"])
  ]

  /** The position of a currency in the presence table. */
  function Rank(c: Currency): nat {
    match c
    case USD => 0 case EUR => 1 case GBP => 2 case INR => 3 case JPY => 4
    case CAD => 5 case AUD => 6 case CHF => 7 case CNY => 8 case KRW => 9
  }

  predicate AnySearch(pats: seq<string>, search: string -> bool)
    decreases |pats|
  {
    pats != [] && (search(pats[0]) || AnySearch(pats[1..], search))
  }

  /** currencies_found: each currency with a pattern found on the page,
      added when not already present. */
  function Found(table: seq<(Currency, seq<string>)>, search: string -> bool): seq<Currency>
    decreases |table|
  {
    if table == [] then []
    else
      var init := Found(table[..|table| - 1], search);
      var e := table[|table| - 1];
      if AnySearch(e.1, search) && e.0 !in init then init + [e.0] else init
  }

  function FirstOf(cs: seq<Currency>): Option<Currency> {
    if cs == [] then None else Some(cs[0])
  }

  /** The currency-presence loop, with its `break` after the first
      pattern found. */
  method ScanCurrencies(table: seq<(Currency, seq<string>)>, search: string -> bool)
    returns (found: seq<Currency>, primary: Option<Currency>)
    ensures found == Found(table, search)
    ensures primary == FirstOf(found)
  {
    found := [];
    primary := None;
    var i := 0;
    while i < |table|
      invariant 0 <= i <= |table|
      invariant found == Found(table[..i], search)
      invariant primary == FirstOf(found)
    {
      var currency := table[i].0;
      var patterns := table[i].1;
      assert table[..i + 1][..i] == table[..i];
      var k := 0;
      var hit := false;
      while k < |patterns|
        invariant 0 <= k <= |patterns|
        invariant AnySearch(patterns, search) == (hit || AnySearch(patterns[k..], search))
      {
        if search(patterns[k]) {
          hit := true;
          if currency !in found {
            found := found + [currency];
          }
          if primary == None {
            primary := Some(currency);
          }
          break;
        }
        assert patterns[k..][1..] == patterns[k + 1..];
        k := k + 1;
      }
      i := i + 1;
    }
    assert table[..i] == table;
  }

  /** With the currencies of the table in strictly increasing rank, those
      found come from the table, in its order, without repetition, and
      are exactly those with a pattern found. */
  lemma {:induction false} FoundOrdered(table: seq<(Currency, seq<string>)>, search: string -> bool)
    requires forall i, j :: 0 <= i < j < |table| ==> Rank(table[i].0) < Rank(table[j].0)
    ensures forall i, j :: 0 <= i < j < |Found(table, search)| ==>
      Rank(Found(table, search)[i]) < Rank(Found(table, search)[j])
    ensures forall c :: c in Found(table, search) ==> FoundIn(table, search, c)
    ensures forall i :: 0 <= i < |table| && AnySearch(table[i].1, search) ==> table[i].0 in Found(table, search)
    decreases |table|
  {
    if table != [] {
      var init := table[..|table| - 1];
      var e := table[|table| - 1];
      FoundOrdered(init, search);
      var f0 := Found(init, search);
      forall c | c in f0 ensures Rank(c) < Rank(e.0) && FoundIn(table, search, c) {
        var i :| 0 <= i < |init| && init[i].0 == c && AnySearch(init[i].1, search);
        assert init[i] == table[i];
      }
      forall i | 0 <= i < |init| ensures init[i] == table[i] { }
      assert FoundIn(table, search, e.0) <== AnySearch(e.1, search);
    }
  }

  /** Some row for `c` has a pattern found. */
  ghost predicate FoundIn(table: seq<(Currency, seq<string>)>, search: string -> bool, c: Currency) {
    exists i :: 0 <= i < |table| && table[i].0 == c && AnySearch(table[i].1, search)
  }

  lemma TableRanked()
    ensures forall i, j :: 0 <= i < j < |CurrencyPatterns| ==>
      Rank(CurrencyPatterns[i].0) < Rank(CurrencyPatterns[j].0)
  {
    forall i | 0 <= i < |CurrencyPatterns| ensures Rank(CurrencyPatterns[i].0) == i {
    }
  }

  /** currencies_found lists, without repetition and in the table's order
      USD, EUR, GBP, INR, JPY, CAD, AUD, CHF, CNY, KRW, the currencies with
      a pattern found; the primary currency is the first of them, None
      when there is none. */
  lemma CurrenciesFoundOrdered(search: string -> bool)
    ensures var f := Found(CurrencyPatterns, search);
      (forall i, j :: 0 <= i < j < |f| ==> Rank(f[i]) < Rank(f[j])) &&
      (forall c :: c in f <==> FoundIn(CurrencyPatterns, search, c)) &&
      (FirstOf(f) == None <==> f == [])
  {
    TableRanked();
    FoundOrdered(CurrencyPatterns, search);
    var f := Found(CurrencyPatterns, search);
    forall c | FoundIn(CurrencyPatterns, search, c) ensures c in f {
      var i :| 0 <= i < |CurrencyPatterns| && CurrencyPatterns[i].0 == c && AnySearch(CurrencyPatterns[i].1, search);
    }
  }

  /** The yen sign is in both the JPY and the CNY rows, so finding it
      records both currencies. */
  lemma YenMeansBoth(search: string -> bool)
    requires search("\U{A5}")
    ensures JPY in Found(CurrencyPatterns, search) && CNY in Found(CurrencyPatterns, search)
  {
    CurrenciesFoundOrdered(search);
    assert CurrencyPatterns[4].1[0] == "\U{A5}";
    assert CurrencyPatterns[8].1[0] == "\U{A5}";
    assert AnySearch(CurrencyPatterns[4].1, search);
    assert AnySearch(CurrencyPatterns[8].1, search);
  }

  // ------------------------------------------------------------------
  // Phrase lists

  const BillingPatterns: seq<string> := [
    "(?:per|/)\\s*(month|year|mo|yr|annually|monthly)",
    "(monthly|yearly|annual)",
    "(billed\\s+(?:monthly|yearly|annually))"
  ]

  const DiscountPatterns: seq<string> := [
    "(\\d+)%\\s*(?:off|discount)",
    "save\\s*(\\d+)%",
    "(\\d+)\\s*(?:percent|%)\\s*(?:off|discount)"
  ]

  const TrialPatterns: seq<string> := [
    "(\\d+)\\s*(?:day|week|month)s?\\s*(?:free|trial)",
    "free\\s*(?:trial|for)\\s*(\\d+)\\s*(?:day|week|month)s?",
    "(\\d+)\\s*(?:day|week|month)s?\\s*(?:trial|free)"
  ]

  /** The matches of every pattern, pattern by pattern. */
  function AllMatches(pats: seq<string>, findAll: string -> seq<string>): seq<string>
    decreases |pats|
  {
    if pats == [] then [] else AllMatches(pats[..|pats| - 1], findAll) + findAll(pats[|pats| - 1])
  }

  /** The loops that extend a list with the matches of each pattern. */
  method CollectMatches(pats: seq<string>, findAll: string -> seq<string>) returns (ms: seq<string>)
    ensures ms == AllMatches(pats, findAll)
  {
    ms := [];
    var i := 0;
    while i < |pats|
      invariant 0 <= i <= |pats|
      invariant ms == AllMatches(pats[..i], findAll)
    {
      assert pats[..i + 1][..i] == pats[..i];
      ms := ms + findAll(pats[i]);
      i := i + 1;
    }
    assert pats[..i] == pats;
  }

  lemma {:induction false} AllMatchesMembers(pats: seq<string>, findAll: string -> seq<string>)
    ensures forall m :: m in AllMatches(pats, findAll) <==>
      exists i :: 0 <= i < |pats| && m in findAll(pats[i])
    decreases |pats|
  {
    if pats != [] {
      var init := pats[..|pats| - 1];
      AllMatchesMembers(init, findAll);
      forall m ensures m in AllMatches(pats, findAll) <==>
        exists i :: 0 <= i < |pats| && m in findAll(pats[i])
      {
        if exists i :: 0 <= i < |pats| && m in findAll(pats[i]) {
          var i :| 0 <= i < |pats| && m in findAll(pats[i]);
          if i < |init| {
            assert init[i] == pats[i];
          }
        }
        if m in AllMatches(init, findAll) {
          var i :| 0 <= i < |init| && m in findAll(init[i]);
          assert pats[i] == init[i];
        }
      }
    }
  }

  // ------------------------------------------------------------------
  // The two extractors

  datatype PricingData = PricingData(
    prices: seq<PriceInfo>,
    plans: seq<string>,
    currency: Option<Currency>,
    currenciesFound: seq<Currency>,
    billingPeriods: seq<string>,
    discounts: seq<string>,
    freeTrials: seq<string>)

  /** The 'prices' list: the first 20 of the prices with distinct keys. */
  function PricesOf(findAll: string -> seq<string>): seq<PriceInfo> {
    Take(DistinctBy(RawPrices(PricePatterns, findAll), PriceKey), 20)
  }

  /** The 'plans' list: the first 10 distinct plan texts. */
  function PlansOf(doc: seq<Node>): seq<string> {
    Take(Distinct(RawPlans(doc, PlanSelectors)), 10)
  }

  function FoundOnPage(search: string -> bool): seq<Currency> {
    Found(CurrencyPatterns, search)
  }

  /** The matches of a phrase list, once each. */
  function PhrasesOf(pats: seq<string>, findAll: string -> seq<string>): seq<string> {
    Distinct(AllMatches(pats, findAll))
  }

  /** What extract_pricing_data returns for a non-empty page. */
  function PricingOf(doc: seq<Node>, findAll: string -> seq<string>, search: string -> bool): PricingData {
    PricingData(
      PricesOf(findAll), PlansOf(doc), FirstOf(FoundOnPage(search)), FoundOnPage(search),
      PhrasesOf(BillingPatterns, findAll), PhrasesOf(DiscountPatterns, findAll),
      PhrasesOf(TrialPatterns, findAll))
  }

  /** extract_pricing_data: None (the empty dictionary) for an empty page. */
  method ExtractPricingData(html: string, doc: seq<Node>, findAll: string -> seq<string>,
                            search: string -> bool)
    returns (r: Option<PricingData>)
    ensures html == [] ==> r == None
    ensures html != [] ==> r == Some(PricingOf(doc, findAll, search))
  {
    if html == [] {
      return None;
    }
    var raw := CollectPrices(PricePatterns, findAll);
    var plans := CollectPlans(doc, PlanSelectors);
    var found, primary := ScanCurrencies(CurrencyPatterns, search);
    var billing := CollectMatches(BillingPatterns, findAll);
    var discounts := CollectMatches(DiscountPatterns, findAll);
    var trials := CollectMatches(TrialPatterns, findAll);
    var unique := UniquePrices(raw);
    r := Some(PricingData(Take(unique, 20), Take(Distinct(plans), 10), primary, found,
                          Distinct(billing), Distinct(discounts), Distinct(trials)));
  }

  /** The prices reported: the first 20 distinct (amount, currency) keys
      in order of discovery, each key once, each price the first one found
      with its key, every key present when there are at most 20, each
      price strictly between 0 and 10000, labelled by its pattern, never
      CAD or AUD. */
  lemma PricesReported(findAll: string -> seq<string>)
    ensures var ps := PricesOf(findAll);
      var raw := RawPrices(PricePatterns, findAll);
      var u := DistinctBy(raw, PriceKey);
      |ps| == Min(|u|, 20) && ps == u[..|ps|] &&
      (|u| <= 20 ==> forall q :: q in raw ==> exists p :: p in ps && PriceKey(p) == PriceKey(q)) &&
      (forall i, j :: 0 <= i < j < |ps| ==> PriceKey(ps[i]) != PriceKey(ps[j])) &&
      (forall q :: q in ps ==> FirstWithKey(raw, PriceKey, q)) &&
      (forall q :: q in ps ==>
        0 < q.cents < PriceLimit && q.pattern in PricePatterns && q.currency == Infer(q.pattern) &&
        q.currency != Some(CAD) && q.currency != Some(AUD))
  {
    PricesKeys(findAll);
    PricesSound(findAll);
  }

  lemma PricesKeys(findAll: string -> seq<string>)
    ensures var ps := PricesOf(findAll);
      var raw := RawPrices(PricePatterns, findAll);
      var u := DistinctBy(raw, PriceKey);
      |ps| == Min(|u|, 20) && ps == u[..|ps|] &&
      (|u| <= 20 ==> forall q :: q in raw ==> exists p :: p in ps && PriceKey(p) == PriceKey(q)) &&
      (forall i, j :: 0 <= i < j < |ps| ==> PriceKey(ps[i]) != PriceKey(ps[j])) &&
      (forall q :: q in ps ==> FirstWithKey(raw, PriceKey, q))
  {
    TakeDistinctBy(RawPrices(PricePatterns, findAll), PriceKey, 20);
  }

  lemma PricesSound(findAll: string -> seq<string>)
    ensures forall q :: q in PricesOf(findAll) ==>
      0 < q.cents < PriceLimit && q.pattern in PricePatterns && q.currency == Infer(q.pattern) &&
      q.currency != Some(CAD) && q.currency != Some(AUD)
  {
    var raw := RawPrices(PricePatterns, findAll);
    var u := DistinctBy(raw, PriceKey);
    DistinctByFirst(raw, PriceKey);
    RawPricesSound(PricePatterns, findAll);
    TakeProperties(u, 20);
    forall q | q in PricesOf(findAll)
      ensures 0 < q.cents < PriceLimit && q.pattern in PricePatterns && q.currency == Infer(q.pattern)
      ensures q.currency != Some(CAD) && q.currency != Some(AUD)
    {
      assert q in u;
      assert FirstWithKey(raw, PriceKey, q);
      assert q in raw;
      CadAudUnreachable(q.pattern);
    }
  }

  /** The plans reported: 10 of the distinct texts found, or all of them
      when there are fewer, without repetition, each longer than 10
      characters. */
  lemma PlansReported(doc: seq<Node>)
    ensures var pl := PlansOf(doc);
      var raw := RawPlans(doc, PlanSelectors);
      |pl| == Min(|Distinct(raw)|, 10) && NoDups(pl) &&
      (forall t :: t in pl ==> t in raw && |t| > 10) &&
      (|Distinct(raw)| <= 10 ==> forall t :: t in raw ==> t in pl)
  {
    var raw := RawPlans(doc, PlanSelectors);
    DistinctProperties(raw);
    RawPlansLong(doc, PlanSelectors);
    TakeProperties(Distinct(raw), 10);
  }

  /** A phrase list (billing periods, discounts, free trials, and the
      three availability lists) holds each match of its patterns exactly
      once. */
  lemma PhrasesReported(pats: seq<string>, findAll: string -> seq<string>)
    ensures NoDups(PhrasesOf(pats, findAll))
    ensures forall m :: m in PhrasesOf(pats, findAll) <==> exists i :: 0 <= i < |pats| && m in findAll(pats[i])
  {
    DistinctProperties(AllMatches(pats, findAll));
    AllMatchesMembers(pats, findAll);
  }

  const AvailabilityPatterns: seq<string> := [
    "(?:available\\s*now|ready\\s*for\\s*deployment|live\\s*service)",
    "(?:coming\\s*soon|beta|preview|early\\s*access)",
    "(?:contact\\s*sales|request\\s*demo|schedule\\s*call)",
    "(?:enterprise\\s*ready|production\\s*ready|scalable)"
  ]

  const DeploymentPatterns: seq<string> := [
    "(?:cloud|saas|on-premise|hybrid|self-hosted)",
    "(?:api\\s*access|sdk|integration|webhook)",
    "(?:white-label|custom\\s*deployment|dedicated)"
  ]

  const ContactPatterns: seq<string> := [
    "(?:contact\\s*sales|speak\\s*to\\s*sales|sales\\s*team)",
    "(?:request\\s*quote|get\\s*quote|custom\\s*pricing)",
    "(?:enterprise\\s*contact|business\\s*inquiry)"
  ]

  datatype AvailabilityData = AvailabilityData(
    serviceStatus: seq<string>,
    availabilityIndicators: seq<string>,
    deploymentOptions: seq<string>,
    contactRequirements: seq<string>)

  /** extract_availability_data: None (the empty dictionary) for an empty
      page; otherwise each list holds the matches of its patterns once,
      and availability_indicators is never filled. */
  method ExtractAvailabilityData(html: string, findAll: string -> seq<string>)
    returns (r: Option<AvailabilityData>)
    ensures html == [] ==> r == None
    ensures html != [] ==> r == Some(AvailabilityData(
      PhrasesOf(AvailabilityPatterns, findAll), [],
      PhrasesOf(DeploymentPatterns, findAll), PhrasesOf(ContactPatterns, findAll)))
  {
    if html == [] {
      return None;
    }
    var status := CollectMatches(AvailabilityPatterns, findAll);
    var deployment := CollectMatches(DeploymentPatterns, findAll);
    var contact := CollectMatches(ContactPatterns, findAll);
    r := Some(AvailabilityData(Distinct(status), [], Distinct(deployment), Distinct(contact)));
  }

  // ------------------------------------------------------------------
  // Currency table and price formatting

  datatype CurrencyInfo = CurrencyInfo(name: string, symbol: string, region: string)

  function Code(c: Currency): string {
    match c
    case USD => "USD" case EUR => "EUR" case GBP => "GBP" case INR => "INR" case JPY => "JPY"
    case CAD => "CAD" case AUD => "AUD" case CHF => "CHF" case CNY => "CNY" case KRW => "KRW"
  }

  /** The key lookup in the currency_info dictionary. */
  function CurrencyOfCode(code: string): Option<Currency> {
    if code == "USD" then Some(USD) else if code == "EUR" then Some(EUR)
    else if code == "GBP" then Some(GBP) else if code == "INR" then Some(INR)
    else if code == "JPY" then Some(JPY) else if code == "CAD" then Some(CAD)
    else if code == "AUD" then Some(AUD) else if code == "CHF" then Some(CHF)
    else if code == "CNY" then Some(CNY) else if code == "KRW" then Some(KRW)
    else None
  }

  function Row(c: Currency): CurrencyInfo {
    match c
    case USD => CurrencyInfo("US Dollar", "$", "United States")
    case EUR => CurrencyInfo("Euro", "\U{20AC}", "European Union")
    case GBP => CurrencyInfo("British Pound", "\U{A3}", "United Kingdom")
    case INR => CurrencyInfo("Indian Rupee", "\U{20B9}", "India")
    case JPY => CurrencyInfo("Japanese Yen", "\U{A5}", "Japan")
    case CAD => CurrencyInfo("Canadian Dollar", "C$", "Canada")
    case AUD => CurrencyInfo("Australian Dollar", "A$", "Australia")
    case CHF => CurrencyInfo("Swiss Franc", "CHF", "Switzerland")
    case CNY => CurrencyInfo("Chinese Yuan", "\U{A5}", "China")
    case KRW => CurrencyInfo("Korean Won", "\U{20A9}", "South Korea")
  }

  /** get_currency_info: the table row, or an "Unknown" entry whose
      symbol is the code itself. */
  function GetCurrencyInfo(code: string): (info: CurrencyInfo)
    ensures info.name == "Unknown" <==> CurrencyOfCode(code).None?
    ensures CurrencyOfCode(code).None? ==> info.symbol == code && info.region == "Unknown"
  {
    match CurrencyOfCode(code)
    case Some(c) => Row(c)
    case None => CurrencyInfo("Unknown", code, "Unknown")
  }

  /** The ten codes are keys, each naming its own currency, and nothing
      else is. */
  lemma CodesRoundTrip(c: Currency, code: string)
    ensures CurrencyOfCode(Code(c)) == Some(c)
    ensures CurrencyOfCode(code) == Some(c) ==> code == Code(c)
  {
  }

  /** A known code gets its row, whose name is never "Unknown"; any other
      code gets "Unknown" with the code as its symbol. */
  lemma CurrencyInfoMeaning(code: string)
    ensures CurrencyOfCode(code).Some? ==>
      GetCurrencyInfo(code) == Row(CurrencyOfCode(code).value) && GetCurrencyInfo(code).name != "Unknown"
    ensures CurrencyOfCode(code).None? ==>
      GetCurrencyInfo(code) == CurrencyInfo("Unknown", code, "Unknown")
  {
    if CurrencyOfCode(code).Some? {
      var c := CurrencyOfCode(code).value;
      assert Row(c).name[0] != 'U' || Row(c).name[1] != 'n';
    }
  }

  /** The argument of format_price_with_currency: a dictionary, whose
      'amount' (hundredths) and 'currency' keys may each be missing, or a
      bare number already rendered by str(). */
  datatype PriceArg =
    | Record(amount: Option<nat>, currency: Option<Option<Currency>>)
    | Bare(text: string)

  /** The dictionary the extractor builds for a price. */
  function RecordOf(p: PriceInfo): PriceArg {
    Record(Some(p.cents), Some(p.currency))
  }

  /** The symbol printed for a 'currency' value: the row's symbol for a
      currency, "None" (the f-string rendering of the Unknown entry's
      symbol None) for a None label, and the USD row's "$" when the key
      is missing. */
  function SymbolFor(cur: Option<Option<Currency>>): string {
    match cur
    case None => GetCurrencyInfo("USD").symbol
    case Some(None) => "None"
    case Some(Some(c)) => GetCurrencyInfo(Code(c)).symbol
  }

  /** The printed 'amount': the float's repr, and the integer default 0
      when the key is missing. */
  function AmountText(amount: Option<nat>): string {
    match amount
    case None => "0"
    case Some(c) => AmountRepr(c)
  }

  function FormatPrice(arg: PriceArg): (s: string)
    ensures arg.Record? ==> var sym := SymbolFor(arg.currency);
      |sym| <= |s| && s[..|sym|] == sym &&
      (arg.amount.Some? ==> ParseAmount(s[|sym|..]) == arg.amount) &&
      (arg.amount.None? ==> s[|sym|..] == "0")
    ensures arg.Bare? ==> |s| == |arg.text| + 1 && s[0] == '$' && s[1..] == arg.text
  {
    match arg
    case Record(a, c) =>
      (if a.Some? then AmountReprRoundTrip(a.value); SymbolFor(c) + AmountText(a)
       else SymbolFor(c) + AmountText(a))
    case Bare(t) => "$" + t
  }

  /** A formatted extracted price is its label's symbol followed by a
      text that reads back as the amount; an unlabelled one starts with
      "None", and a dictionary without keys prints as "$0". */
  lemma FormatPriceReadsBack(p: PriceInfo)
    ensures var s := FormatPrice(RecordOf(p));
      var sym := SymbolFor(Some(p.currency));
      |sym| <= |s| && s[..|sym|] == sym && ParseAmount(s[|sym|..]) == Some(p.cents)
    ensures p.currency == None ==> FormatPrice(RecordOf(p))[..4] == "None"
    ensures FormatPrice(Record(None, None)) == "$0"
  {
    var s := FormatPrice(RecordOf(p));
    var sym := SymbolFor(Some(p.currency));
    assert s[|sym|..] == AmountRepr(p.cents);
    AmountReprRoundTrip(p.cents);
  }

  /** 99 dollars prints as Python prints the float 99.0, and a bare
      value gets a dollar sign. */
  lemma FormatExample()
    ensures FormatPrice(RecordOf(PriceInfo(9900, Some(USD), "\\$" + Amount))) == "$99.0"
    ensures FormatPrice(Record(Some(1950), Some(Some(EUR)))) == "\U{20AC}19.5"
    ensures FormatPrice(Bare("42")) == "$42"
  {
    DollarExample();
    EuroExample();
  }

  lemma DollarExample()
    ensures FormatPrice(Record(Some(9900), Some(Some(USD)))) == "$99.0"
  {
    assert NatToString(99) == "99";
    assert AmountText(Some(9900)) == "99.0";
    assert SymbolFor(Some(Some(USD))) == "$";
  }

  lemma EuroExample()
    ensures FormatPrice(Record(Some(1950), Some(Some(EUR)))) == "\U{20AC}19.5"
  {
    assert NatToString(19) == "19";
    assert AmountText(Some(1950)) == "19.5";
    assert SymbolFor(Some(Some(EUR))) == "\U{20AC}";
  }
}
