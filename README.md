# Competitive-Intelligence-CLI core, modelled in Dafny

The command-line tool gathers competitive intelligence on B2B companies. It
resolves sitemaps and picks out feature pages, cleans homepage HTML into
plain text, pulls prices, plans and availability phrases from pricing pages,
reads meta tags, scores pages against a B2B SEO rubric, and prepares saved
company data for a language-model analysis. This project models the
deterministic core of those steps and proves what each one promises.

Parsers, regular-expression engines, URL parsing, JSON decoding and fetching
are not modelled. They appear as inputs:

- a parsed page is a tree value (`Dom.Node`);
- a fetched sitemap is a `Sitemap.Doc`, and fetching is a map from URL to document;
- `re.findall` / `re.search` are the functions `findAll` / `search`;
- `urlparse(...).netloc`, `urlparse(...).path` and `urljoin` are the functions `hostOf`, `pathOf`/`parse` and `resolve`;
- `json.loads` succeeding is the predicate `parses`, and a block's `'@type'` is `typeOf`.

Modules and files:

| file | module | models |
|---|---|---|
| common.dfy | Common | string and sequence helpers (ASCII lower-casing, substring search, `str.replace`, split/join/strip, filter, ordered de-duplication) |
| dom.dfy | Dom | the parse tree, `get_text`, `find_all`, `select` and `decompose` as pruning |
| sitemap.dfy | Sitemap | `parse_sitemap`, `filter_urls_by_keywords`, `categorize_urls`, `scrape_feature_pages` |
| page_id.dfy | Pages | `create_feature_name` / `create_page_id` (identical in both scrapers) |
| sanitizer.dfy | Sanitizer | `clean_content` |
| price_rules.dfy | PriceRules | the price patterns and the currency each one is labelled with |
| pricing.dfy | Pricing | `extract_pricing_data`, `extract_availability_data`, `get_currency_info`, `format_price_with_currency` |
| meta.dfy | Meta | `extract_meta_tags` |
| seo.dfy, seo_props.dfy | Seo, SeoProperties | `calculate_b2b_seo_score`, `get_seo_grade` |
| prompt.dfy, prompt_props.dfy | Prompt, PromptProperties | `get_available_data_sources`, `extract_content_for_analysis`, the checks of `run_analysis_prompt`, `estimate_tokens`, `chunk_content`, the truncation in `run_ai_analysis` |

Where the code loops and appends, the model is a method with a loop,
proved equal to a specification function; the properties are lemmas
about those functions.

Behaviour of the code that the model keeps, and that a reader of the
docstrings might not expect:

- Price currencies are read off the pattern text. Every pattern holding
  a `$` is labelled USD. This includes the Canadian `C\$` and Australian
  `A\$` patterns, so CAD and AUD are never assigned (`PriceRules.CadAudUnreachable`).
- "Enterprise API Platform for Business" is 36 characters long, and it
  scores 30 title points.
- `clean_content` can return "" for non-empty HTML, when no sentence is
  longer than ten characters.
- The paragraph-break substitution in `clean_content` never fires
  (`Sanitizer.ParagraphBreaksDead`).
- The SEO score is a real number: the Open Graph points move in steps
  of 2.5. The Open Graph check requires og:description, not og:type.
- The raw SEO sum reaches 115, so the clamp at 100 is reachable.
- `extract_content_for_analysis` strips every "feature:" in a source name,
  not only the prefix (`PromptProperties.FeatureNameEveryOccurrence`).
- Truncated analysis content is still estimated above the 350000-token
  budget, because the note is appended after the cut
  (`PromptProperties.TruncatedStillOver`).

## Model

| member | source | states |
|---|---|---|
| Sitemap.ParseSitemap | scrapers/sitemap_analyzer.py:34-65 | the URLs are the document's `<url>` locs in order, then each nested sitemap's URLs in order; malformed XML gives [] |
| Sitemap.Locs | scrapers/sitemap_analyzer.py:42-45 | the kept locs are exactly the entries that have one, never more than there are entries |
| Sitemap.FailedChildSkipped | scrapers/sitemap_analyzer.py:52-55 | a nested sitemap that cannot be fetched or does not parse contributes nothing, and its siblings are still processed |
| Sitemap.MissingLocSkipped | scrapers/sitemap_analyzer.py:49-50 | a `<sitemap>` entry without `<loc>` is skipped |
| Sitemap.IndexOfTwo | scrapers/sitemap_analyzer.py:48-55 | an index of two fetchable sitemaps yields the first one's URLs followed by the second's |
| Sitemap.LeafIndependent | scrapers/sitemap_analyzer.py:42-58 | a sitemap with no `<sitemap>` entries yields its locs, whatever can be fetched |
| Sitemap.ThreePlusTwo | scrapers/sitemap_analyzer.py:42-58 | an index pointing at sitemaps of three and two URLs yields five |
| Sitemap.LocsAllPresent | scrapers/sitemap_analyzer.py:42-45 | when every `<url>` has a loc, all of them are kept |
| Sitemap.FilterUrls | scrapers/sitemap_analyzer.py:67-89 | the filter keeps, in order and once each, the URLs that match; no keywords (None or []) returns the input unchanged |
| Sitemap.KeepUrlMeaning | scrapers/sitemap_analyzer.py:77-86 | a URL is kept iff some keyword, ignoring case, occurs in the URL or in its path |
| Sitemap.EmptyKeywordKeepsAll | scrapers/sitemap_analyzer.py:82-84 | an empty keyword keeps every URL |
| Sitemap.PathTestRedundant | scrapers/sitemap_analyzer.py:79-83 | when the path is a piece of the URL, the path test adds nothing to the URL test |
| Sitemap.RuleCategories | scrapers/sitemap_analyzer.py:109-122 | the seven rules are tried in the order features, products, pricing, customers, faq, api, documentation |
| Sitemap.FirstRule | scrapers/sitemap_analyzer.py:109-124 | the rule chosen has a word in the URL and no earlier rule has one |
| Sitemap.CategoryMeaning | scrapers/sitemap_analyzer.py:104-124 | a URL is "other" iff no rule has a word in it, else it goes to the first rule that has |
| Sitemap.Categorize | scrapers/sitemap_analyzer.py:91-126 | all eight buckets exist, and each lists in input order the URLs of its category |
| Sitemap.Distribute | scrapers/sitemap_analyzer.py:91-126 | the bucketing loop, for any categorizer: every category has a bucket holding exactly the URLs the categorizer sends there, in input order |
| Sitemap.BucketsPartition | scrapers/sitemap_analyzer.py:104-124 | the bucket sizes add up to the number of URLs |
| Sitemap.BucketMembership | scrapers/sitemap_analyzer.py:104-124 | a URL is in the bucket of its category and in no other |
| Sitemap.FeatureWins | scrapers/sitemap_analyzer.py:109-110 | a URL mentioning "feature" is a features URL, whatever else it mentions |
| Sitemap.PricingMeaning | scrapers/sitemap_analyzer.py:109-114 | a pricing URL has a pricing word and no features or products word |
| Sitemap.DocumentationExcludes | scrapers/sitemap_analyzer.py:109-122 | a documentation URL has no word of an earlier rule, so no "docs", "api", "developer" |
| Sitemap.OtherHasNoKeyword | scrapers/sitemap_analyzer.py:123-124 | an "other" URL contains no word of any rule |
| Sitemap.ScrapeFeaturePages | scrapers/sitemap_analyzer.py:128-164 | the dictionary holds each scraped page under its name, a later page with the same name winning; the success count is the number of pages scraped |
| Sitemap.ScrapedBound | scrapers/sitemap_analyzer.py:133-152 | there are no more keys than successes and no more successes than URLs |
| Sitemap.ScrapedSound | scrapers/sitemap_analyzer.py:143-151 | every stored page came from an input URL that was scraped, with its name as key and its url, content, time and length copied |
| Sitemap.ScrapedComplete | scrapers/sitemap_analyzer.py:143-146 | the name of every URL that could be scraped is a key |
| Sitemap.LaterPageWins | scrapers/sitemap_analyzer.py:146-151 | of several pages with the same name, the last one scraped is kept |
| Pages.PageId | scrapers/sitemap_analyzer.py:166-180 | the name never holds '.'; named after a path segment it holds no '-' either; with no segment it is as long as the host |
| Pages.PageIdShape | scrapers/sitemap_analyzer.py:166-180 | a name taken from the path is non-empty and free of '-', '.' and '/'; with no segment it is the host with '.' replaced by '_' |
| Pages.TrailingSlashIgnored | scrapers/sitemap_analyzer.py:168-170 | a trailing slash does not change the name |
| Pages.SegmentsIgnoreOuterSlashes | scrapers/price_stock_scraper.py:359-361 | stripping the outer slashes only removes empty segments |
| Pages.LastSegmentNames | scrapers/meta_seo_scraper.py:407-421 | the page is named after the last path segment, with '-' and '.' made '_' |
| Pages.HostExample | scrapers/price_stock_scraper.py:366-369 | a bare host "www.example.com" names the page "www_example_com" |
| Dom.ContainerTextSkipped | scrapers/meta_seo_scraper.py:188 | the strings inside a script, style, template, rt or rp element are never part of a tree's plain get_text() |
| Dom.ScriptOnlyPage | scrapers/homepage_scraper.py:81 | a page whose only words are in a script has empty text, while the script element's own get_text() returns its code |
| Dom.SurvivorsSound | scrapers/homepage_scraper.py:26-61 | the elements left by a removal pass were in the page and are not themselves removable |
| Dom.PruneShapes | scrapers/homepage_scraper.py:26-61 | the elements left are exactly the elements that are not removed and have no removed ancestor, in document order |
| Dom.PruneNothing | scrapers/homepage_scraper.py:26-61 | a pass that matches nothing leaves the page as it was |
| Dom.ShapeDoomedGone | scrapers/homepage_scraper.py:26-27 | when tag and attributes alone decide removal, no such element is left |
| Dom.PruneKeepsShapeProperty | scrapers/homepage_scraper.py:26-61 | a removal pass never brings in an element |
| Sanitizer.CleanContent | scrapers/homepage_scraper.py:17-106 | the result is "" for empty input, is clean (no newline, '!', '?', double space or outer space) and is left unchanged by the post-processing |
| Sanitizer.PruneDocument | scrapers/homepage_scraper.py:25-61 | the four removal passes run in order: non-content tags, link-heavy navigation, short selector matches, blank elements |
| Sanitizer.CollectParts | scrapers/homepage_scraper.py:65-81 | the parts are the texts of content elements longer than two characters, headings set off by newlines, or the whole text when there is none; never empty |
| Sanitizer.FilterSentences | scrapers/homepage_scraper.py:93-98 | the sentences kept are the stripped ones longer than ten characters, in order |
| Sanitizer.NonContentGone | scrapers/homepage_scraper.py:26-27 | no script, style, noscript, meta or link element is left |
| Sanitizer.BareImageRemoved | scrapers/homepage_scraper.py:59-61 | an img or svg with nothing below it is itself removed as blank |
| Sanitizer.CollapseSpaces | scrapers/homepage_scraper.py:87 | whitespace runs become single spaces |
| Sanitizer.NoBreakSpacesCollapse | scrapers/homepage_scraper.py:87 | a run of no-break spaces is whitespace and collapses to one space |
| Sanitizer.NoBreakSpacesStrip | scrapers/homepage_scraper.py:96 | strip removes the Unicode spaces U+00A0 and U+3000 at either end |
| Sanitizer.ParagraphBreaksDead | scrapers/homepage_scraper.py:87-88 | the paragraph-break substitution never changes anything |
| Sanitizer.SplitTerm | scrapers/homepage_scraper.py:92 | a split piece holds no '.', '!' or '?', and the first piece is a prefix of the text |
| Sanitizer.SentencesGood | scrapers/homepage_scraper.py:92-98 | every kept sentence is longer than ten characters, free of terminators, tidy and not padded |
| Sanitizer.CollapseDoublePeriodsJoin | scrapers/homepage_scraper.py:100-104 | the double-period substitution never fires on the joined sentences |
| Sanitizer.PostProcessShape | scrapers/homepage_scraper.py:84-106 | the output is the kept sentences joined by ". ", and it is clean |
| Sanitizer.PostProcessIdempotent | scrapers/homepage_scraper.py:84-106 | post-processing its own output gives the output again |
| Sanitizer.SentencesOfJoin | scrapers/homepage_scraper.py:92-100 | splitting a ". "-join of clean, long-enough sentences and filtering the pieces gives back exactly those sentences |
| Sanitizer.SplitJoin | scrapers/homepage_scraper.py:92-100 | splitting a join of kept sentences gives the same sentences back |
| PriceRules.InferredCurrencies | scrapers/price_stock_scraper.py:37-99 | the label of every one of the nineteen patterns |
| PriceRules.DollarPatternsUsd | scrapers/price_stock_scraper.py:84-85 | every pattern holding '$', the Canadian, Australian, "from" and "starting at" ones included, is labelled USD |
| PriceRules.SignPatternsLabelled | scrapers/price_stock_scraper.py:90-99 | the five sign patterns are labelled EUR, GBP, INR, JPY and KRW |
| PriceRules.WordPatternsUnlabelled | scrapers/price_stock_scraper.py:83 | code-word, per-unit and contact patterns carry no currency |
| PriceRules.CadAudUnreachable | scrapers/price_stock_scraper.py:86-89 | no price is ever labelled CAD or AUD |
| PriceRules.PlainUnlabelled | scrapers/price_stock_scraper.py:83-99 | a pattern with no currency character has no label |
| PriceRules.SignLabelled | scrapers/price_stock_scraper.py:90-99 | a sign followed by plain text is labelled with the sign's currency |
| PriceRules.EscapedDollarLabelled | scrapers/price_stock_scraper.py:84-89 | `C\$` and `A\$` contain no "C$" or "A$", so they are labelled USD |
| Pricing.ExtractPricingData | scrapers/price_stock_scraper.py:20-197 | an empty page gives {}; otherwise prices, plans, currencies and phrase lists as specified below |
| Pricing.CollectPrices | scrapers/price_stock_scraper.py:76-109 | the prices found, pattern by pattern and match by match |
| Pricing.PatternPricesSound | scrapers/price_stock_scraper.py:78-107 | each price parses from one of its pattern's matches, lies strictly between 0 and 10000 and carries the pattern's label |
| Pricing.RawPricesSound | scrapers/price_stock_scraper.py:76-109 | the same for every pattern together |
| Pricing.PhrasesAddNoPrice | scrapers/price_stock_scraper.py:69 | a pattern whose matches do not start with a digit, like the contact-sales one, adds no price |
| Pricing.ParseAmount | scrapers/price_stock_scraper.py:80 | text that reads as an amount starts and ends with a digit, and every non-empty digit string reads as one |
| Pricing.NotNumericNotPrice | scrapers/price_stock_scraper.py:80 | text that does not start with a digit is not a float |
| Pricing.AmountReprRoundTrip | scrapers/price_stock_scraper.py:80-103 | the printed float reads back as the same amount |
| Pricing.UniquePrices | scrapers/price_stock_scraper.py:183-189 | the first price with each (amount, currency) key, in order |
| Pricing.PricesReported | scrapers/price_stock_scraper.py:183-190 | the first min(n, 20) of the n first-with-their-key prices, in order; with at most 20 keys every key found is reported; keys pairwise distinct; each in range, never CAD or AUD |
| Pricing.CollectPlanTexts | scrapers/price_stock_scraper.py:119-122 | the stripped element texts longer than ten characters |
| Pricing.CollectPlans | scrapers/price_stock_scraper.py:117-122 | the plan texts of each selector in turn |
| Pricing.PlansReported | scrapers/price_stock_scraper.py:192 | min(n, 10) plans for n distinct plan texts, no duplicates, each found and longer than ten characters; with at most 10 distinct texts every one is kept |
| Pricing.ScanCurrencies | scrapers/price_stock_scraper.py:139-146 | currencies_found as the table scan builds it, and the primary currency is its first element |
| Pricing.FoundOrdered | scrapers/price_stock_scraper.py:139-146 | the currencies found follow table order without repetition and are exactly those with a pattern found |
| Pricing.CurrenciesFoundOrdered | scrapers/price_stock_scraper.py:125-146 | for the ten-currency table: table order, no repeats, exactly those found, and no primary currency iff none found |
| Pricing.YenMeansBoth | scrapers/price_stock_scraper.py:130-134 | '¥' on a page records both JPY and CNY |
| Pricing.CollectMatches | scrapers/price_stock_scraper.py:155-179 | the matches of each phrase pattern, in turn |
| Pricing.AllMatchesMembers | scrapers/price_stock_scraper.py:155-179 | a phrase is collected iff some pattern of its list matched it |
| Pricing.PhrasesReported | scrapers/price_stock_scraper.py:193-195 | each phrase list holds every match of its patterns exactly once |
| Pricing.ExtractAvailabilityData | scrapers/price_stock_scraper.py:199-253 | an empty page gives {}; otherwise the three phrase lists, de-duplicated, and an empty availability_indicators |
| Pricing.GetCurrencyInfo | scrapers/price_stock_scraper.py:373-387 | the name is "Unknown" iff the code is not in the table, and then the symbol is the code and the region "Unknown" |
| Pricing.CodesRoundTrip | scrapers/price_stock_scraper.py:375-386 | the ten codes are keys, each naming its currency, and nothing else is |
| Pricing.CurrencyInfoMeaning | scrapers/price_stock_scraper.py:373-387 | a known code gets its row; another gets "Unknown" with the code as its symbol |
| Pricing.FormatPrice | scrapers/price_stock_scraper.py:389-399 | a price record prints its currency's symbol followed by text reading back as its amount, or "0" without one; a bare value prints "$" and the value |
| Pricing.FormatPriceReadsBack | scrapers/price_stock_scraper.py:389-399 | a formatted price is its currency's symbol followed by text reading back as the amount; no label prints "None"; an empty dict prints "$0" |
| Pricing.FormatExample | scrapers/price_stock_scraper.py:389-399 | 99 USD prints "$99.0", 19.50 EUR "€19.5", a bare 42 "$42" |
| Meta.ExtractMetaTags | scrapers/meta_seo_scraper.py:20-90 | an empty page gives {}; otherwise the title, the dispatched tags, the canonical override and the parsed schema blocks |
| Meta.PutMeaning | scrapers/meta_seo_scraper.py:52-74 | one tag changes only the field or map entry it is dispatched to |
| Meta.DispatchOrder | scrapers/meta_seo_scraper.py:48-74 | the six names win in order, og: properties before twitter: names, other_meta only with a name and a content |
| Meta.FieldLastWins | scrapers/meta_seo_scraper.py:47-63 | a field holds the content of the last tag sent to it |
| Meta.FieldUntouched | scrapers/meta_seo_scraper.py:26-63 | a field no tag is sent to keeps its initial value |
| Meta.KeyedLastWins | scrapers/meta_seo_scraper.py:64-74 | a map entry holds the content of the last tag sent to its key |
| Meta.KeyedKeys | scrapers/meta_seo_scraper.py:64-74 | the keys of a tag map are exactly those some tag was sent to |
| Meta.ApplyAllKeeps | scrapers/meta_seo_scraper.py:46-74 | the meta loop leaves the title and schema list alone |
| Meta.SchemasMembers | scrapers/meta_seo_scraper.py:82-88 | schema_markup holds exactly the script strings that parse, no more blocks than scripts |
| Meta.CanonicalOverride | scrapers/meta_seo_scraper.py:76-79 | a non-empty canonical link replaces the canonical meta; without it or a canonical meta the field stays "" |
| Seo.CalculateSeoScore | scrapers/meta_seo_scraper.py:92-288 | the analysis is the rubric's sections applied in order, score min(raw, 100), grade of that score |
| Seo.ScoreTitle | scrapers/meta_seo_scraper.py:103-129 | the title section's points, factors, indicator and advice |
| Seo.ScoreDescription | scrapers/meta_seo_scraper.py:131-156 | the description section's points, factors, indicator and advice |
| Seo.ScoreHeadings | scrapers/meta_seo_scraper.py:158-184 | the heading section over the page's headings and h1 count |
| Seo.ScoreTrust | scrapers/meta_seo_scraper.py:186-198 | the trust section over the lowered page text |
| Seo.ClassifyLinks | scrapers/meta_seo_scraper.py:201-213 | internal and external link lists as the href loop builds them |
| Seo.ScoreLinks | scrapers/meta_seo_scraper.py:200-228 | the link section over the number of internal and external links |
| Seo.ScoreOg | scrapers/meta_seo_scraper.py:230-245 | og_score, the og factors and the missing-tag advice |
| Seo.ScoreTechnical | scrapers/meta_seo_scraper.py:247-282 | Twitter cards, structured data, page size and viewport, in that order |
| Seo.Grade | scrapers/meta_seo_scraper.py:290-301 | the grade is one of A, B, C, D, F; A iff the score is at least 90; F iff it is below 60 |
| Seo.CountInMeaning | scrapers/meta_seo_scraper.py:113 | a keyword count is at most the list's length and positive iff some keyword occurs |
| Seo.HeadingTexts | scrapers/meta_seo_scraper.py:173 | each heading's lowered text, in order |
| Seo.SchemaTypeList | scrapers/meta_seo_scraper.py:261 | each block's '@type', in order |
| SeoProperties.ScriptWordsNotCounted | scrapers/meta_seo_scraper.py:186-198 | words inside a script do not count as trust signals: the page text of a script plus a heading is the lowered heading alone |
| SeoProperties.B2bShape | scrapers/meta_seo_scraper.py:111-232 | the four required og tags, non-empty section and trust words |
| SeoProperties.SectionBounds | scrapers/meta_seo_scraper.py:103-282 | title at most 30, description 20, headings 15, og 10, raw sum between 0 and 115 |
| SeoProperties.AnalyzeScore | scrapers/meta_seo_scraper.py:94-282 | the accumulated score is the sum of the sections' points |
| SeoProperties.ScoreBounds | scrapers/meta_seo_scraper.py:285-286 | the score is min(raw, 100), always in [0, 100], and the grade is the grade of the score |
| SeoProperties.BestPage | scrapers/meta_seo_scraper.py:103-286 | a page best on every section has raw sum 115, score 100, grade A |
| SeoProperties.EmptyPage | scrapers/meta_seo_scraper.py:22-23 | an empty page scores 5 (page size only), grade F, with the eleven recommendations in order |
| SeoProperties.TitleMeaning | scrapers/meta_seo_scraper.py:104-129 | 15 for a title, 10 more iff a keyword occurs, 5 more for 30-60 characters |
| SeoProperties.TitleExample | scrapers/meta_seo_scraper.py:104-126 | "Enterprise API Platform for Business" scores 30 |
| SeoProperties.DescriptionMeaning | scrapers/meta_seo_scraper.py:132-156 | 15 or 20 points; length 120-160 only sets the factor, otherwise adds advice |
| SeoProperties.HeadingMeaning | scrapers/meta_seo_scraper.py:160-184 | exactly one h1 earns 10; none or several earn nothing and add their advice |
| SeoProperties.OgMeaning | scrapers/meta_seo_scraper.py:231-245 | og_score is 2.5 per tag not missing, full iff nothing missing; the missing list is the absent or empty required tags |
| SeoProperties.OgComplete | scrapers/meta_seo_scraper.py:234-237 | all tags present gives the full og score and nothing missing |
| SeoProperties.OgNone | scrapers/meta_seo_scraper.py:231-244 | no og tags give 0 and every required tag missing |
| SeoProperties.OgAdvice | scrapers/meta_seo_scraper.py:239-245 | the advice appears iff some tag is missing and lists the missing ones |
| SeoProperties.LinkKindMeaning | scrapers/meta_seo_scraper.py:204-213 | ignored iff empty or '#…'; external iff http to another host; internal otherwise |
| SeoProperties.LinkCounts | scrapers/meta_seo_scraper.py:204-216 | every href is internal, external or ignored exactly once; external links are foreign http links |
| SeoProperties.GradeBands | scrapers/meta_seo_scraper.py:290-301 | each grade's band, both directions |
| SeoProperties.GradeBoundaries | scrapers/meta_seo_scraper.py:292-301 | 90 is A, 89 B, 80 B, 59.5 F |
| Prompt.GetAvailableDataSources | utils/prompt_executor.py:121-132 | the sources built by the loop are "homepage" when present, then "feature:"+name per feature |
| Prompt.ExtractContentForAnalysis | utils/prompt_executor.py:134-166 | the content the source selects |
| Prompt.CombineAll | utils/prompt_executor.py:149-164 | the "all" text is the newline join of the homepage and feature blocks with content |
| Prompt.Lookup | utils/prompt_executor.py:145-146 | a found record is stored under the name; none found means no feature has it |
| Prompt.Prepare | utils/prompt_executor.py:168-203 | data that fails to load is rejected first; a ready analysis has loaded data, a client and non-empty content equal to the selected content; a missing-key rejection means there is no client |
| Prompt.Truncate | utils/prompt_executor.py:226-240 | within 350000 tokens the content is unchanged; beyond, the content is longer than 1400000 characters and the result keeps its first 1400000 characters and adds text after them |
| Prompt.EstimateTokens | utils/prompt_executor.py:207-209 | the estimate is the length divided by four, rounded down |
| Prompt.ChunkContent | utils/prompt_executor.py:211-217 | size 0 fails; a negative size gives []; otherwise the chunks concatenate to the content, all but the last have the size, none is empty, and there are ceil(len/size) of them |
| Prompt.ChunkingCount | utils/prompt_executor.py:214 | a chunking has ceil(len/size) chunks |
| PromptProperties.SourcesMeaning | utils/prompt_executor.py:121-132 | "homepage" is offered, first, iff the homepage is non-empty; every feature is offered as "feature:"+name; nothing else is |
| PromptProperties.FeatureNameRoundTrip | utils/prompt_executor.py:142-143 | stripping the prefix gives back a name that does not contain "feature:" |
| PromptProperties.FeatureNameEveryOccurrence | utils/prompt_executor.py:143 | every "feature:" is removed, not only the prefix |
| PromptProperties.SelectFeature | utils/prompt_executor.py:142-147 | an offered feature source selects that feature's content |
| PromptProperties.SelectUnknown | utils/prompt_executor.py:166 | any other source selects "" |
| PromptProperties.FeatureBlocksFrom | utils/prompt_executor.py:159-162 | there are no more blocks than features, and each block is the block of some feature with content |
| PromptProperties.FeatureBlocksInOrder | utils/prompt_executor.py:158-164 | there is exactly one block per feature with content, in feature order |
| PromptProperties.FeatureBlocksComplete | utils/prompt_executor.py:159-162 | every feature with content contributes its block |
| PromptProperties.AllEmpty | utils/prompt_executor.py:149-164 | "all" is empty iff no page has content |
| PromptProperties.PrepareMeaning | utils/prompt_executor.py:176-203 | the analysis runs iff data loaded, some source exists, the source is "all" or offered, it has content and a client exists; it runs on the selected content; an invalid source is rejected before extraction |
| PromptProperties.ClientCheckedLast | utils/prompt_executor.py:193-201 | the data checks come before the API-key check |
| PromptProperties.PrepareAll | utils/prompt_executor.py:186-195 | with data, "all" is refused for no content iff no page has content |
| PromptProperties.TruncateMeaning | utils/prompt_executor.py:226-240 | within 350000 tokens the content is unchanged; beyond, it is the first 1400000 characters and the note |
| PromptProperties.TruncatedStillOver | utils/prompt_executor.py:234-238 | the truncated content is still estimated above 350000 tokens |
| PromptProperties.ChunkingUnique | utils/prompt_executor.py:211-217 | there is only one chunking of a content for a size |
| PromptProperties.ChunkingEmpty | utils/prompt_executor.py:214 | a chunking is empty iff the content is |
| PromptProperties.ChunkExample | utils/prompt_executor.py:211-217 | ten characters by four give "abcd", "efgh", "ij" |

## Left out

- Fetching, crawling, saving and loading files, the interactive menus, `main.py` and the language-model call: these are I/O. Their results are inputs or are not modelled.
- BeautifulSoup, ElementTree, `json.loads`, `urlparse`/`urljoin` and the regex engine: their results are inputs (trees, match lists, hosts, paths, parse predicates).
- Unicode lower-casing: `Lower` lowers ASCII only.
- Whitespace is the set Python's `str.isspace()`, `\s`, `strip()` and `split()` use (`Common.IsSpace`).
- `get_text()` follows BeautifulSoup 4.10 and later: strings inside script, style, template, rt and rp are of their own string class and are left out of a plain `get_text()` (`Dom.KindFor`). CDATA sections, comments and processing instructions are not modelled as tree nodes.
- Sitemap.Locs: an empty `<loc/>` has `text` None in ElementTree, and `parse_sitemap` appends that None, on which `filter_urls_by_keywords` later raises; the model appends "".
- Pricing.ParseAmount: `float()` also accepts non-ASCII decimal digits; the model reads ASCII digits only.
- Pricing.AmountRepr: `repr(float)` switches to exponent form from 1e16 up; the model prints positional digits only. An extracted price is below 10000, so only `format_price_with_currency` on a hand-built dict with a larger amount differs.
- `list(set(...))` order: Python leaves it unspecified. The model keeps first occurrences in order, and the lemmas state only membership, no duplicates and caps.
- Dictionary key order of the SEO factors and of `og_tags_present` / `twitter_tags_present`: the model uses maps and sets.
- Sitemap recursion has no cycle or depth guard in the code; the model bounds it with a fuel parameter. Once fuel runs out, a nested sitemap contributes nothing.
- Pricing.ParseAmount: `float()` is modelled for the forms a price match can take (digits, optionally a point and one or two digits). Exponents, signs and other float syntax are not modelled.
- Meta.SchemasMembers: a JSON block that parses to a non-dict makes `schema.get` raise in the scorer; `typeOf` is taken as total.
- Seo.CalculateSeoScore: the keyword lists are a `Rubric` parameter, and `B2b` holds the scraper's lists. The href list of the page's `<a href>` elements is an input.
- Prompt.Prepare: a record that fails to load and an empty record are both `None`; `hasClient` stands for the configured OpenAI client.
- Prompt.ChunkContent: `range()` with a zero step raises; the model returns None for it.
