/** The price patterns of the price extractor as raw pattern texts, and
    the currency each one labels its prices with. The label is read off
    the pattern text, never off the matched page text. */
module PriceRules {
  import opened Common

  datatype Currency = USD | EUR | GBP | INR | JPY | CAD | AUD | CHF | CNY | KRW

  // ------------------------------------------------------------------
  // Pattern pieces

  /** The amount group every numeric price pattern captures. */
  const Amount: string := "(\\d+(?:\\.\\d{2})?)"

  const UsdWords: string := "\\s*(?:USD|dollars?)"
  const EurWords: string := "\\s*(?:EUR|euros?)"
  const GbpWords: string := "\\s*(?:GBP|pounds?)"
  const InrWords: string := "\\s*(?:INR|rupees?)"
  const JpyWords: string := "\\s*(?:JPY|yen)"
  const KrwWords: string := "\\s*(?:KRW|won)"
  const PerWord: string := "\\s*(?:per|/)\\s*"
  const UnitWords: string := "(?:month|year|mo|yr|" + "user|seat|license)"
  const From: string := "from\\s*"
  const StartingAt: string := "starting\\s*at\\s*"
  const RecurringWords: string :=
    "\\s*(?:monthly|yearly|" + "per\\s*month|per\\s*year|" + "per\\s*user|per\\s*seat)"
  const QuoteWords: string :=
    "contact\\s*sales|" + "request\\s*quote|" + "custom\\s*pricing|" + "enterprise\\s*pricing"

  /** The optional currency symbol of the "from" and "starting at" patterns. */
  const Symbols: string := "[\U{20AC}\U{A3}\U{20B9}\U{A5}\U{20A9}\\$]?"

  /** The raw pattern texts, in the order they are tried. */
  const PricePatterns: seq<string> := [
    "\\$" + Amount,
    Amount + UsdWords,
    "C\\$" + Amount,
    "A\\$" + Amount,
    "\U{20AC}" + Amount,
    Amount + EurWords,
    "\U{A3}" + Amount,
    Amount + GbpWords,
    "\U{20B9}" + Amount,
    Amount + InrWords,
    "\U{A5}" + Amount,
    Amount + JpyWords,
    "\U{20A9}" + Amount,
    Amount + KrwWords,
    Amount + PerWord + UnitWords,
    From + Symbols + Amount,
    StartingAt + Symbols + Amount,
    Amount + RecurringWords,
    QuoteWords
  ]

  // ------------------------------------------------------------------
  // Labelling

  /** The currency a price found with pattern `p` is labelled with: the
      if/elif chain over the characters and substrings of the pattern. */
  function Infer(p: string): Option<Currency> {
    if '$' in p && !Contains(p, "C$") && !Contains(p, "A$") then Some(USD)
    else if Contains(p, "C$") then Some(CAD)
    else if Contains(p, "A$") then Some(AUD)
    else if '\U{20AC}' in p then Some(EUR)
    else if '\U{A3}' in p then Some(GBP)
    else if '\U{20B9}' in p then Some(INR)
    else if '\U{A5}' in p then Some(JPY)
    else if '\U{20A9}' in p then Some(KRW)
    else None
  }

  /** The currency each currency sign stands for. */
  function SignCurrency(c: char): Option<Currency> {
    if c == '\U{20AC}' then Some(EUR)
    else if c == '\U{A3}' then Some(GBP)
    else if c == '\U{20B9}' then Some(INR)
    else if c == '\U{A5}' then Some(JPY)
    else if c == '\U{20A9}' then Some(KRW)
    else None
  }

  /** The label of each pattern: USD for every pattern holding a dollar
      sign, the sign's currency for the five sign patterns, none for the
      rest. */
  function PatternCurrency(k: nat): Option<Currency> {
    if k in {0, 2, 3, 15, 16} then Some(USD)
    else if k == 4 then Some(EUR)
    else if k == 6 then Some(GBP)
    else if k == 8 then Some(INR)
    else if k == 10 then Some(JPY)
    else if k == 12 then Some(KRW)
    else None
  }

  // ------------------------------------------------------------------
  // Character facts about the pieces

  /** A character that is ASCII and neither '$' nor one of the letters
      that start "C$" and "A$". */
  predicate Safe(c: char) {
    c < '\U{80}' && c != '$' && c != 'A' && c != 'C'
  }

  predicate Plain(s: string) {
    forall i :: 0 <= i < |s| ==> Safe(s[i])
  }

  lemma PlainConcat(a: string, b: string)
    requires Plain(a) && Plain(b)
    ensures Plain(a + b)
  {
  }

  lemma AmountPlain() ensures Plain(Amount) {}
  lemma UsdPlain() ensures Plain(UsdWords) {}
  lemma EurPlain() ensures Plain(EurWords) {}
  lemma GbpPlain() ensures Plain(GbpWords) {}
  lemma InrPlain() ensures Plain(InrWords) {}
  lemma JpyPlain() ensures Plain(JpyWords) {}
  lemma KrwPlain() ensures Plain(KrwWords) {}
  lemma PerPlain() ensures Plain(PerWord) {}
  lemma FromPlain() ensures Plain(From) && Plain(StartingAt) {}

  lemma UnitPlain() ensures Plain(UnitWords) {
    assert Plain("(?:month|year|mo|yr|");
    assert Plain("user|seat|license)");
    PlainConcat("(?:month|year|mo|yr|", "user|seat|license)");
  }

  lemma RecurringPlain() ensures Plain(RecurringWords) {
    assert Plain("\\s*(?:monthly|yearly|");
    assert Plain("per\\s*month|per\\s*year|");
    assert Plain("per\\s*user|per\\s*seat)");
    PlainConcat("\\s*(?:monthly|yearly|", "per\\s*month|per\\s*year|");
    PlainConcat("\\s*(?:monthly|yearly|" + "per\\s*month|per\\s*year|", "per\\s*user|per\\s*seat)");
  }

  lemma QuotePlain() ensures Plain(QuoteWords) {
    assert Plain("contact\\s*sales|");
    assert Plain("request\\s*quote|");
    assert Plain("custom\\s*pricing|");
    assert Plain("enterprise\\s*pricing");
    PlainConcat("contact\\s*sales|", "request\\s*quote|");
    PlainConcat("contact\\s*sales|" + "request\\s*quote|", "custom\\s*pricing|");
    PlainConcat("contact\\s*sales|" + "request\\s*quote|" + "custom\\s*pricing|", "enterprise\\s*pricing");
  }

  /** A substring [x, y] of a text without x. */
  lemma NoPairWithout(s: string, x: char, y: char)
    requires x !in s
    ensures !Contains(s, [x, y])
  {
    NotContainsWithoutChar(s, [x, y]);
  }

  /** A plain pattern has no label. */
  lemma PlainUnlabelled(p: string)
    requires Plain(p)
    ensures Infer(p) == None
  {
    NoPairWithout(p, 'C', '$');
    NoPairWithout(p, 'A', '$');
  }

  /** A currency sign followed by a plain text is labelled with the
      sign's currency. */
  lemma SignLabelled(c: char, rest: string)
    requires SignCurrency(c).Some? && Plain(rest)
    ensures Infer([c] + rest) == SignCurrency(c)
  {
    var p := [c] + rest;
    assert p[0] == c;
    NoPairWithout(p, 'C', '$');
    NoPairWithout(p, 'A', '$');
  }

  /** A text holding '$' but neither 'C' nor 'A' is labelled USD. */
  lemma DollarLabelled(p: string)
    requires '$' in p && 'C' !in p && 'A' !in p
    ensures Infer(p) == Some(USD)
  {
    NoPairWithout(p, 'C', '$');
    NoPairWithout(p, 'A', '$');
  }

  /** A letter, an escaped dollar sign and a plain text: the letter is
      followed by a backslash, so no "C$" or "A$" appears and the label
      is USD. */
  lemma EscapedDollarLabelled(x: char, rest: string)
    requires x == 'C' || x == 'A'
    requires Plain(rest)
    ensures Infer([x, '\\', '$'] + rest) == Some(USD)
  {
    var p := [x, '\\', '$'] + rest;
    assert p[2] == '$';
    forall y: char, i | 0 <= i <= |p| - 2 && (y == 'C' || y == 'A')
      ensures !OccursAt(p, [y, '$'], i)
    {
      if i == 0 {
        assert p[1] == '\\';
      } else if i >= 3 {
        assert p[i] == rest[i - 3];
      }
    }
  }

  // ------------------------------------------------------------------
  // The labels of the price patterns

  /** Every pattern holding a dollar sign is labelled USD: the Canadian
      and Australian patterns, written `C\$` and `A\$`, never contain
      the substrings "C$" and "A$" the chain tests for, and the generic
      "from" and "starting at" patterns hold one in their sign class. */
  lemma DollarPatternsUsd(k: nat)
    requires k in {0, 2, 3, 15, 16}
    ensures Infer(PricePatterns[k]) == Some(USD)
  {
    AmountPlain();
    if k == 0 {
      assert PricePatterns[0] == ['\\', '$'] + Amount;
      assert PricePatterns[0][1] == '$';
      DollarLabelled(PricePatterns[0]);
    } else if k == 2 {
      assert PricePatterns[2] == ['C', '\\', '$'] + Amount;
      EscapedDollarLabelled('C', Amount);
    } else if k == 3 {
      assert PricePatterns[3] == ['A', '\\', '$'] + Amount;
      EscapedDollarLabelled('A', Amount);
    } else {
      FromPlain();
      var lead := if k == 15 then From else StartingAt;
      var p := lead + Symbols + Amount;
      assert PricePatterns[k] == p;
      assert 'C' !in Symbols && 'A' !in Symbols;
      assert Symbols[7] == '$';
      assert p[|lead| + 7] == '$';
      DollarLabelled(p);
    }
  }

  /** Each sign pattern is labelled with its sign's currency. */
  lemma SignPatternsLabelled(k: nat)
    requires k in {4, 6, 8, 10, 12}
    ensures Infer(PricePatterns[k]) == PatternCurrency(k)
  {
    AmountPlain();
    var c := PricePatterns[k][0];
    if k == 4 {
      assert PricePatterns[4] == ['\U{20AC}'] + Amount;
    } else if k == 6 {
      assert PricePatterns[6] == ['\U{A3}'] + Amount;
    } else if k == 8 {
      assert PricePatterns[8] == ['\U{20B9}'] + Amount;
    } else if k == 10 {
      assert PricePatterns[10] == ['\U{A5}'] + Amount;
    } else {
      assert PricePatterns[12] == ['\U{20A9}'] + Amount;
    }
    assert PricePatterns[k] == [c] + Amount;
    SignLabelled(c, Amount);
  }

  /** Every code-word, per-unit and contact pattern has no label. */
  lemma WordPatternsUnlabelled(k: nat)
    requires k in {1, 5, 7, 9, 11, 13, 14, 17, 18}
    ensures Infer(PricePatterns[k]) == None
  {
    AmountPlain();
    if k == 1 {
      UsdPlain(); PlainConcat(Amount, UsdWords);
    } else if k == 5 {
      EurPlain(); PlainConcat(Amount, EurWords);
    } else if k == 7 {
      GbpPlain(); PlainConcat(Amount, GbpWords);
    } else if k == 9 {
      InrPlain(); PlainConcat(Amount, InrWords);
    } else if k == 11 {
      JpyPlain(); PlainConcat(Amount, JpyWords);
    } else if k == 13 {
      KrwPlain(); PlainConcat(Amount, KrwWords);
    } else if k == 14 {
      PerPlain(); UnitPlain();
      PlainConcat(Amount, PerWord); PlainConcat(Amount + PerWord, UnitWords);
    } else if k == 17 {
      RecurringPlain(); PlainConcat(Amount, RecurringWords);
    } else {
      QuotePlain();
    }
    PlainUnlabelled(PricePatterns[k]);
  }

  /** The label of every price pattern. */
  lemma InferredCurrencies(k: nat)
    requires k < |PricePatterns|
    ensures Infer(PricePatterns[k]) == PatternCurrency(k)
  {
    if k in {0, 2, 3, 15, 16} {
      DollarPatternsUsd(k);
    } else if k in {4, 6, 8, 10, 12} {
      SignPatternsLabelled(k);
    } else {
      WordPatternsUnlabelled(k);
    }
  }

  /** No price is ever labelled CAD or AUD. */
  lemma CadAudUnreachable(p: string)
    requires p in PricePatterns
    ensures Infer(p) != Some(CAD) && Infer(p) != Some(AUD)
  {
    var k :| 0 <= k < |PricePatterns| && PricePatterns[k] == p;
    InferredCurrencies(k);
  }
}
