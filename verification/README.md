# Boostra benchmark pages in Dafny

This project models the benchmark logic of the Boostra marketing site. The
site publishes one page per niche-and-metric benchmark. The data pipeline
writes each benchmark as a JSON record into `data/benchmarks/pages`. The
record holds the slug, the niche, the metric, the sample size, the data date,
the percentiles p10/p25/p50/p75/p90 and the mean, and optional good/bad
thresholds.

The model covers five parts of the repository:

- **The enrichment script** (`scripts/enrich-benchmarks.js`). It reads every
  page file and, for the three metrics it has content for (`lcp_ms`,
  `pagespeed_score`, `trust_gap_score`), adds generated content: an SEO
  block, a hero statistic, four key findings, improvement tips, up to four
  related-benchmark links and a schema.org Dataset. It then writes the file
  back in place.
- **The shared display formatter** `formatMetricValue` (`src/lib/types.ts`).
- **The server helpers** `getPerformanceLevel` and `getAllBenchmarks`
  (`src/lib/benchmarks.ts`).
- **The "Compare Your Store" widget.** It places a typed value in one of five
  percentile buckets.
- **The benchmarks index page.** It groups the records by metric, sorts each
  group by sample size and renders one table per metric.

Numbers are exact `real`s. `Math.round`, `String(n)`, `toFixed` and the en-US
`toLocaleString` are written out digit by digit in module `Numbers`. The main
properties are proved against `ParseDecimal`, which reads a decimal numeral
back:

- every millisecond, seconds, cents, CLS and rounded-integer rendering, and
  every `toLocaleString` of a whole number, reads back as the value rounded
  to the shown precision (a fractional `toLocaleString` and the "Infinity" /
  "NaN" texts of the zero-divisor findings have no read-back lemma);
- key findings are exactly the first four templates;
- enrichment reads only the fields the data pipeline writes, so enriching
  an enriched record again at the same time `now` changes nothing (a real
  second run reads the clock anew and so rewrites the two timestamps);
- the batch run rewrites exactly the rewritable listed files and counts them;
- the index page has a section for each of its three configured metrics
  (`lcp_ms`, `pagespeed_score`, `trust_gap_score`) and shows every record of
  those metrics once, in its metric's section, sorted by decreasing sample
  size; records of other metrics count towards the niche total but appear
  in no section;
- the "Top 10%" value of the index page's column (`IndexPage.TopAndBottomColumns`)
  and of the enrichment's SEO description and hero context
  (`Enrich.TopPerformerIsTop10`) is one the compare widget classifies as top
  10%; the widget's own quick reference, as written, is not (see Findings).

Files and modules:

- `wrappers.dfy`: `Wrappers` (Option).
- `text.dfy`: `Text`, the JavaScript string operations the code uses.
- `numbers.dfy`: `Numbers`, number rendering and parsing.
- `types.dfy`: `Types`, the page record and `formatMetricValue`.
- `pages.dfy`: `Pages`, the pages directory as the programs see it.
- `benchmarks.dfy`: `Benchmarks`.
- `compare_widget.dfy`: `CompareWidgetModel`.
- `index_page.dfy`: `IndexPage`.
- The enrichment script is split over five files:
  - `enrich_config.dfy`: `EnrichConfig`, the constant tables;
  - `enrich_findings.dfy`: `EnrichFindings`, the finding templates;
  - `enrich_content.dfy`: `EnrichContent`, the hero, SEO and JSON-LD generators;
  - `enrich_related.dfy`: `EnrichRelated`, the related links;
  - `enrich.dfy`: `Enrich`, `enrichBenchmark` and `main`.

The directory is a class `Pages.PagesDir`:

- `names` is the listing order of `readdirSync`;
- `files` holds each entry's content, either a parsed record or `Malformed`;
- `readOnly` is the set of entries whose write throws.

`getAllBenchmarks` and the script's `main` are methods over that class.
`main` is proved against the pure loop specification `Enrich.Run`. The index
page's group sort is an in-place insertion sort on an `array`.

## Model

| member | source | states |
|---|---|---|
| Types.MillisecondTestSubsumes | nextjs-temp/src/lib/types.ts:69 | the `=== "lcp_ms"` and `=== "ttfb_ms"` tests add nothing to `includes("_ms")`: the condition holds exactly when the key contains "_ms" |
| Types.SecondsDisplay | nextjs-temp/src/lib/types.ts:69-72 | a millisecond metric of at least 1000 shows as value/1000 with exactly one decimal followed by "s", and that text reads back as value/1000 rounded to one place |
| Types.SecondsText | nextjs-temp/src/lib/types.ts:70-71 | from 1000 ms on, the display is `(value / 1000).toFixed(1)` followed by "s" |
| Types.MillisecondsDisplay | nextjs-temp/src/lib/types.ts:73 | a millisecond metric below 1000 ends in "ms", and what precedes it reads back as the nearest integer, within 0.5 of the value |
| Types.CentsDisplay | nextjs-temp/src/lib/types.ts:75-77 | "median_price_cents" shows "$" followed by the dollar amount with exactly two decimals, rounded from value/100 |
| Types.SkuCountDisplay | nextjs-temp/src/lib/types.ts:78-80 | a whole "sku_count" shows as the sign, then the decimal digits of its magnitude grouped by thousands with commas, and nothing else; removing the commas gives `String(count)` |
| Types.ClsDisplay | nextjs-temp/src/lib/types.ts:81-83 | "cls_score" shows the value with exactly two decimals, rounded |
| Types.RoundedDisplay | nextjs-temp/src/lib/types.ts:84 | every other metric shows `String(Math.round(value))`, which reads back as an integer within 0.5 of the value |
| Types.LcpHasMs | nextjs-temp/src/lib/types.ts:69 | "lcp_ms" takes the millisecond branch |
| Types.PageSpeedLacksMs | nextjs-temp/src/lib/types.ts:69 | "pagespeed_score" does not take the millisecond branch |
| Types.TrustGapLacksMs | nextjs-temp/src/lib/types.ts:69 | "trust_gap_score" does not take the millisecond branch |
| Types.CentsLacksMs | nextjs-temp/src/lib/types.ts:69 | "median_price_cents" does not take the millisecond branch, so it reaches its own branch |
| Types.SkuCountLacksMs | nextjs-temp/src/lib/types.ts:69 | "sku_count" does not take the millisecond branch |
| Types.ClsLacksMs | nextjs-temp/src/lib/types.ts:69 | "cls_score" does not take the millisecond branch |
| Numbers.Round | nextjs-temp/src/lib/types.ts:73 | `Math.round(x)` is the integer r with x - 1/2 < r <= x + 1/2, so halves round up |
| Numbers.NatToString | nextjs-temp/src/lib/types.ts:84 | `String(n)` is a non-empty string of digits with no leading zero |
| Numbers.IntToString | nextjs-temp/src/lib/types.ts:84 | `String(i)` is the digits of \|i\|, preceded by "-" exactly when i is negative |
| Numbers.IntToStringRoundTrip | nextjs-temp/src/lib/types.ts:84 | reading `String(i)` back gives i |
| Numbers.ParseNatToString | nextjs-temp/src/lib/types.ts:84 | the digits of n have the value n |
| Numbers.ToFixedRoundTrip | nextjs-temp/src/lib/types.ts:71 | reading `x.toFixed(d)` back gives x rounded to d places; for d > 0 the text is sign, whole digits, ".", d fraction digits |
| Numbers.RoundedToIsClose | nextjs-temp/src/lib/types.ts:71 | x rounded to d places is within half a unit of the last place of x |
| Numbers.ToFixedIsFixedText | nextjs-temp/src/lib/types.ts:82 | `x.toFixed(d)` for d > 0 has a point and exactly d fraction digits, and reads back within half a unit of the last place of x |
| Numbers.RoundedToWhole | nextjs-temp/src/lib/types.ts:76 | a whole number written with `toFixed` reads back unchanged |
| Numbers.UngroupThousands | nextjs-temp/src/lib/types.ts:79 | removing the commas from digits grouped by three gives the digits back |
| Numbers.ThousandsGroupSizes | nextjs-temp/src/lib/types.ts:79 | the comma-separated groups of a grouped numeral are a leading group of one to three digits followed by groups of exactly three, ⌈digits/3⌉ groups in all |
| Numbers.LocaleStringWhole | nextjs-temp/src/lib/types.ts:79 | for a whole number, `toLocaleString()` is the sign followed by the digits of the magnitude grouped by thousands, with no fraction part; removing the commas gives `String(i)` |
| Text.ContainsIffOccurs | nextjs-temp/src/components/benchmarks/CompareWidget.tsx:37 | `s.includes(sub)` holds exactly when sub occurs at some position of s |
| Text.IndexOf | nextjs-temp/scripts/enrich-benchmarks.js:303 | the first occurrence: sub occurs at the result and at no earlier position; None exactly when s does not contain sub |
| Text.ReplaceFirst | nextjs-temp/scripts/enrich-benchmarks.js:196 | `replace` with a string pattern: s unchanged when the pattern is absent, else the first occurrence (no earlier one exists) replaced and the rest kept |
| Text.StripLeadingPattern | nextjs-temp/scripts/enrich-benchmarks.js:219 | a string that starts with the pattern loses exactly that prefix |
| Text.ReplaceAllChar | nextjs-temp/scripts/enrich-benchmarks.js:180 | `replace(/_/g, " ")`: same length, every occurrence of the character replaced and nothing else changed |
| Text.Split | nextjs-temp/scripts/enrich-benchmarks.js:219 | `split(sep)` yields at least one piece and no piece holds the separator |
| Text.JoinSplit | nextjs-temp/scripts/enrich-benchmarks.js:219 | joining the pieces of a split with the same separator restores the string |
| Text.SplitJoin | nextjs-temp/scripts/enrich-benchmarks.js:224-229 | splitting a join of separator-free pieces gives the pieces back |
| Text.SplitAtLastSeparator | nextjs-temp/src/lib/types.ts:79 | splitting `a + sep + b`, with no separator in b, gives the pieces of a followed by b |
| Text.Filter | nextjs-temp/scripts/enrich-benchmarks.js:195-196 | `filter(p)` keeps exactly the elements satisfying p and is empty when none does |
| Text.FilterAppend | nextjs-temp/scripts/enrich-benchmarks.js:195-196 | `filter` of a concatenation is the concatenation of the filters, so kept elements keep their order and repetitions |
| Text.Take | nextjs-temp/scripts/enrich-benchmarks.js:197 | `slice(0, n)` is exactly the first n elements, or the whole list when it is shorter |
| Text.Drop | nextjs-temp/scripts/enrich-benchmarks.js:224-226 | `slice(k)` is exactly the elements from index k on, none when k is past the end |
| Text.ToLower | nextjs-temp/scripts/enrich-benchmarks.js:177 | `toLowerCase()` maps every character and keeps the length |
| Text.Capitalize | nextjs-temp/scripts/enrich-benchmarks.js:229 | the first character upper-cased, the rest kept |
| Text.CapitalizeAll | nextjs-temp/scripts/enrich-benchmarks.js:229 | every word capitalised, in order |
| Pages.JsonNames | nextjs-temp/src/lib/benchmarks.ts:105 | the listing filtered to exactly the names ending in ".json" |
| Pages.JsonNamesInOrder | nextjs-temp/src/lib/benchmarks.ts:105 | the filter keeps listing order: the ".json" names of a concatenated listing are those of each part in turn, and one entry is kept exactly when it ends in ".json" |
| Pages.ReadRecord | nextjs-temp/src/lib/benchmarks.ts:109-116 | exactly the parsed record of the file when it exists and parses; nothing otherwise |
| Pages.ParsedRecordsMembers | nextjs-temp/src/lib/benchmarks.ts:108-117 | a record is loaded exactly when some listed file holds it |
| Pages.ParsedRecordsComplete | nextjs-temp/src/lib/benchmarks.ts:108-117 | no file is skipped exactly when every listed file exists and parses |
| Benchmarks.LevelCharacterization | nextjs-temp/src/lib/benchmarks.ts:157-175 | Good exactly when the good threshold is met in the given direction; Bad exactly when it is not but the bad threshold is passed; Average otherwise |
| Benchmarks.NoThresholdsIsAverage | nextjs-temp/src/lib/benchmarks.ts:162-164 | with neither threshold the level is Average for every value and direction |
| Benchmarks.DirectionMirror | nextjs-temp/src/lib/benchmarks.ts:166-172 | lower-is-better equals higher-is-better applied to the negated value and thresholds |
| Benchmarks.BetterValueNeverWorse | nextjs-temp/src/lib/benchmarks.ts:166-172 | a value moved in the better direction never gets a worse level |
| Benchmarks.GetAllBenchmarks | nextjs-temp/src/lib/benchmarks.ts:100-123 | no directory gives []; otherwise the records of the ".json" entries that parse, in listing order, and no more than there are such entries |
| CompareWidgetModel.LowerIsBetterMetrics | nextjs-temp/src/components/benchmarks/CompareWidget.tsx:37 | LCP, TTFB, trust gap and CLS keys count as lower-is-better |
| CompareWidgetModel.PageSpeedIsHigherBetter | nextjs-temp/src/components/benchmarks/CompareWidget.tsx:37 | "pagespeed_score" counts as higher-is-better |
| CompareWidgetModel.LowerBuckets | nextjs-temp/src/components/benchmarks/CompareWidget.tsx:39-60 | lower-is-better: Top 10% exactly at or below p10, Bottom 25% exactly above every cut point; with ordered percentiles each bucket is the half-open interval between two cut points |
| CompareWidgetModel.HigherBuckets | nextjs-temp/src/components/benchmarks/CompareWidget.tsx:61-82 | higher-is-better: Top 10% exactly at or above p90, Bottom 25% below every cut point; with ordered percentiles each bucket is the half-open interval between two cut points |
| CompareWidgetModel.ClassifyMonotone | nextjs-temp/src/components/benchmarks/CompareWidget.tsx:39-83 | a value at least as good never lands in a worse bucket, even when the percentiles are unordered |
| CompareWidgetModel.DirectionsMirror | nextjs-temp/src/components/benchmarks/CompareWidget.tsx:39-83 | the lower-is-better table is the higher-is-better table on negated values and mirrored percentiles |
| CompareWidgetModel.DisplayDistinguishes | nextjs-temp/src/components/benchmarks/CompareWidget.tsx:41-81 | distinct buckets show distinct labels and distinct colours |
| CompareWidgetModel.QuickReferenceAsWritten | nextjs-temp/src/components/benchmarks/CompareWidget.tsx:127-129 | as written: the median, p75 and p90, in that order, in every direction |
| CompareWidgetModel.QuickReferenceMislabels | nextjs-temp/src/components/benchmarks/CompareWidget.tsx:129 | for a lower-is-better metric with p75 < p90, the value labelled "Top 10%" is classified Bottom 25% |
| CompareWidgetModel.QuickReferenceLcpExample | nextjs-temp/src/components/benchmarks/CompareWidget.tsx:129 | LCP percentiles 1000/1500/2000/3000/5000: the reference shows 5.0s as "Top 10%", and 5000 is classified Bottom 25% |
| CompareWidgetModel.QuickReference | nextjs-temp/src/components/benchmarks/CompareWidget.tsx:127-129 | corrected: three values starting with the median, chosen by direction |
| CompareWidgetModel.QuickReferenceAgrees | nextjs-temp/src/components/benchmarks/CompareWidget.tsx:127-129 | corrected: "Top 10%" lands in Top 10%, "Top 25%" in Top 25% or better, the median in Top 50% or better |
| CompareWidgetModel.CompareWidget.constructor | nextjs-temp/src/components/benchmarks/CompareWidget.tsx:20-25 | the input starts empty and no result is shown |
| CompareWidgetModel.CompareWidget.SetValue | nextjs-temp/src/components/benchmarks/CompareWidget.tsx:103 | the input holds the typed text |
| CompareWidgetModel.CompareWidget.HandleCompare | nextjs-temp/src/components/benchmarks/CompareWidget.tsx:27-86 | a text that is not a number leaves the result unchanged; otherwise the result is the label, message and colour of the value's bucket, in the direction inferred from the key |
| CompareWidgetModel.CompareWidget.QuickReferenceText | nextjs-temp/src/components/benchmarks/CompareWidget.tsx:127-129 | the three reference lines are the corrected reference values, each in the shared display format |
| IndexPage.FirstAppearances | nextjs-temp/src/app/benchmarks/page.tsx:76 | the distinct values: no repeats, the same members, no more than the input |
| IndexPage.TotalNichesCounts | nextjs-temp/src/app/benchmarks/page.tsx:76 | `totalNiches` is the number of distinct niches: at most the number of records, and 0 exactly when there are none |
| IndexPage.WithMetric | nextjs-temp/src/app/benchmarks/page.tsx:60-69 | a group holds only records of its metric, all taken from the input |
| IndexPage.InOwnGroup | nextjs-temp/src/app/benchmarks/page.tsx:60-69 | every record is in the group of its own metric |
| IndexPage.AbsentMetricEmpty | nextjs-temp/src/app/benchmarks/page.tsx:100 | a metric no record has gets an empty group |
| IndexPage.GroupByMetric | nextjs-temp/src/app/benchmarks/page.tsx:60-69 | a key for exactly the metrics present, each holding that metric's records in input order |
| IndexPage.MetricKeys | nextjs-temp/src/app/benchmarks/page.tsx:72 | `Object.keys(byMetric)`: each metric present exactly once |
| IndexPage.GroupSizesSum | nextjs-temp/src/app/benchmarks/page.tsx:60-69 | the group sizes add up to the number of records, so no record is dropped or duplicated |
| IndexPage.SwapAdjacent | nextjs-temp/src/app/benchmarks/page.tsx:73 | exchanges two neighbours, keeping the same records |
| IndexPage.InsertAt | nextjs-temp/src/app/benchmarks/page.tsx:73 | one insertion step: the prefix through i becomes sorted by decreasing sample size, the records stay the same, and those after i are left in place |
| IndexPage.SortBySampleSize | nextjs-temp/src/app/benchmarks/page.tsx:73 | in place: decreasing sample size (missing counts as 0), and a permutation of the input |
| IndexPage.SortGroups | nextjs-temp/src/app/benchmarks/page.tsx:72-74 | the same keys, and every group sorted by decreasing sample size and a permutation of its input |
| IndexPage.PageSpeedFormatAgrees | nextjs-temp/src/app/benchmarks/page.tsx:30 | the PageSpeed cell formatter equals the shared display formatter |
| IndexPage.LcpFormatAgrees | nextjs-temp/src/app/benchmarks/page.tsx:40 | the LCP cell formatter equals the shared display formatter |
| IndexPage.TrustGapFormatAgrees | nextjs-temp/src/app/benchmarks/page.tsx:50 | the Trust Gap cell formatter equals the shared display formatter |
| IndexPage.SectionDirectionsAgree | nextjs-temp/src/app/benchmarks/page.tsx:22-53 | each section's `lowerIsBetter` is the direction the compare widget infers from the key |
| IndexPage.TopAndBottomColumns | nextjs-temp/src/app/benchmarks/page.tsx:146-147 | "Top 10%" is a value the widget puts in Top 10% and, with p10 <= p90, at least as good as "Bottom 10%"; with ordered percentiles and p75 < p90 (or p10 < p25) "Bottom 10%" is classified Bottom 25% |
| IndexPage.RowOf | nextjs-temp/src/app/benchmarks/page.tsx:141-172 | the row links the record's slug, shows `niche_label` or else the niche, the sample size with `toLocaleString()` exactly when there is one, the formatted median, and top and bottom in the section's direction |
| IndexPage.Rows | nextjs-temp/src/app/benchmarks/page.tsx:141 | one row per record, in order |
| IndexPage.BuildSection | nextjs-temp/src/app/benchmarks/page.tsx:100 | the section lists exactly that metric's records (as a multiset), sorted by decreasing sample size, with their rows; empty when the metric is absent |
| IndexPage.RenderIndex | nextjs-temp/src/app/benchmarks/page.tsx:55-195 | the niche count; one section per `METRICS` entry listing its records by decreasing sample size; the empty notice exactly when there are no records, and then no rows |
| EnrichConfig.MetricContent | nextjs-temp/scripts/enrich-benchmarks.js:44-111 | a configuration exactly for "lcp_ms", "pagespeed_score" and "trust_gap_score", keyed by its own id; only PageSpeed is higher-is-better |
| EnrichConfig.RelatedNiches | nextjs-temp/scripts/enrich-benchmarks.js:210 | a niche without an entry has no related niches |
| EnrichFindings.Templates | nextjs-temp/scripts/enrich-benchmarks.js:59-65 | five templates per metric |
| EnrichFindings.TemplatesNonEmpty | nextjs-temp/scripts/enrich-benchmarks.js:59-65 | no template of any metric yields an empty sentence, so `filter(Boolean)` drops none |
| EnrichFindings.NonEmpty | nextjs-temp/scripts/enrich-benchmarks.js:163 | `filter(Boolean)` keeps only non-empty strings of the input |
| EnrichFindings.NonEmptyKeepsAll | nextjs-temp/scripts/enrich-benchmarks.js:163 | on non-empty strings `filter(Boolean)` is the identity |
| EnrichFindings.KeyFindings | nextjs-temp/scripts/enrich-benchmarks.js:157-164 | at most four findings |
| EnrichFindings.KeyFindingsAreFirstFour | nextjs-temp/scripts/enrich-benchmarks.js:157-164 | exactly four findings: the first four templates applied to the record, in order; the fifth is never used |
| EnrichFindings.LcpMedianClause | nextjs-temp/scripts/enrich-benchmarks.js:60 | the first LCP finding ends with the "exceeds 2.5s" clause exactly when the median is over 2500 ms |
| EnrichFindings.LcpFinding1 | nextjs-temp/scripts/enrich-benchmarks.js:60 | the finding sentence is never empty, so `filter(Boolean)` keeps it |
| EnrichFindings.LcpFinding2 | nextjs-temp/scripts/enrich-benchmarks.js:61 | the finding sentence is never empty, so `filter(Boolean)` keeps it |
| EnrichFindings.LcpFinding3 | nextjs-temp/scripts/enrich-benchmarks.js:62 | the finding sentence is never empty, so `filter(Boolean)` keeps it |
| EnrichFindings.LcpFinding4 | nextjs-temp/scripts/enrich-benchmarks.js:63 | the finding sentence is never empty, so `filter(Boolean)` keeps it |
| EnrichFindings.LcpFinding5 | nextjs-temp/scripts/enrich-benchmarks.js:64 | the finding sentence is never empty |
| EnrichFindings.PageSpeedFinding1 | nextjs-temp/scripts/enrich-benchmarks.js:82 | the finding sentence is never empty, so `filter(Boolean)` keeps it |
| EnrichFindings.PageSpeedFinding2 | nextjs-temp/scripts/enrich-benchmarks.js:83 | the finding sentence is never empty, so `filter(Boolean)` keeps it |
| EnrichFindings.PageSpeedFinding3 | nextjs-temp/scripts/enrich-benchmarks.js:84 | the finding sentence is never empty, so `filter(Boolean)` keeps it |
| EnrichFindings.PageSpeedFinding4 | nextjs-temp/scripts/enrich-benchmarks.js:85 | the finding sentence is never empty, so `filter(Boolean)` keeps it |
| EnrichFindings.PageSpeedFinding5 | nextjs-temp/scripts/enrich-benchmarks.js:86 | the finding sentence is never empty |
| EnrichFindings.TrustGapFinding1 | nextjs-temp/scripts/enrich-benchmarks.js:104 | the finding sentence is never empty, so `filter(Boolean)` keeps it |
| EnrichFindings.TrustGapFinding2 | nextjs-temp/scripts/enrich-benchmarks.js:105 | the finding sentence is never empty, so `filter(Boolean)` keeps it |
| EnrichFindings.TrustGapFinding3 | nextjs-temp/scripts/enrich-benchmarks.js:106 | the finding sentence is never empty, so `filter(Boolean)` keeps it |
| EnrichFindings.TrustGapFinding4 | nextjs-temp/scripts/enrich-benchmarks.js:107 | the finding sentence is never empty, so `filter(Boolean)` keeps it |
| EnrichFindings.TrustGapFinding5 | nextjs-temp/scripts/enrich-benchmarks.js:108 | the finding sentence is never empty |
| EnrichContent.FormatMsIsLcpDisplay | nextjs-temp/scripts/enrich-benchmarks.js:114-117 | the script's `formatMs` is the site's display of an "lcp_ms" value |
| EnrichContent.FormatMsSeconds | nextjs-temp/scripts/enrich-benchmarks.js:115 | from 1000 ms on, `formatMs` gives seconds with exactly one decimal followed by "s", reading back within 0.05 s |
| EnrichContent.FormatMsMilliseconds | nextjs-temp/scripts/enrich-benchmarks.js:116 | below 1000 ms, `formatMs` gives the rounded milliseconds followed by "ms" |
| EnrichContent.FormatAgreesWithDisplay | nextjs-temp/scripts/enrich-benchmarks.js:119-123 | the script's formatter equals the site's on every metric except cents, SKU counts and CLS |
| EnrichContent.HeroValueIsFormattedMedian | nextjs-temp/scripts/enrich-benchmarks.js:125-155 | in every branch the hero value is the median in the script's format |
| EnrichContent.HeroContextQuotesTopPerformer | nextjs-temp/scripts/enrich-benchmarks.js:130-147 | for a configured metric the hero context contains the formatted top performer: p10 for lower-is-better, p90 otherwise |
| EnrichContent.NicheContextFor | nextjs-temp/scripts/enrich-benchmarks.js:268-272 | the niche's table entry if there is one, else an industry equal to the lower-cased niche label |
| EnrichContent.SeoQuotesMedianAndTopPerformer | nextjs-temp/scripts/enrich-benchmarks.js:166-187 | the description ends by quoting the formatted median and then the top performer (p10 when lower is better, p90 otherwise); the title ends " Stores (2026)"; seven keywords |
| EnrichContent.JsonLdDescribesRecord | nextjs-temp/scripts/enrich-benchmarks.js:237-262 | the Dataset's URL and download are both the record's own page, dated by the data date, measuring the median under the metric label |
| EnrichRelated.ScoreToken | nextjs-temp/scripts/enrich-benchmarks.js:196 | a key ending in "_score" with no earlier "_s" and no 'm' has the part before "_score" as its metric token |
| EnrichRelated.MsToken | nextjs-temp/scripts/enrich-benchmarks.js:196 | a key ending in "_ms" with no earlier '_' and no 'o' has the part before "_ms" as its metric token |
| EnrichRelated.LcpToken | nextjs-temp/scripts/enrich-benchmarks.js:196 | the token of "lcp_ms" is "lcp" |
| EnrichRelated.PageSpeedToken | nextjs-temp/scripts/enrich-benchmarks.js:196 | the token of "pagespeed_score" is "pagespeed" |
| EnrichRelated.TrustGapToken | nextjs-temp/scripts/enrich-benchmarks.js:213 | the token of "trust_gap_score" is "trust_gap" |
| EnrichRelated.TakeTwo | nextjs-temp/scripts/enrich-benchmarks.js:197 | `slice(0, 2)` keeps at most two listed elements, and all of them when fewer |
| EnrichRelated.SameNicheSelection | nextjs-temp/scripts/enrich-benchmarks.js:195-197 | at most two listed slugs, each containing the niche and not the metric token; when fewer than two, every such slug |
| EnrichRelated.RelatedNicheSelection | nextjs-temp/scripts/enrich-benchmarks.js:210-216 | at most two listed slugs, each containing the token and a related niche; when fewer than two, every such slug; none without related niches |
| EnrichRelated.StripShopify | nextjs-temp/scripts/enrich-benchmarks.js:219 | removing the first "shopify-" leaves the slug body |
| EnrichRelated.TrustSlugParts | nextjs-temp/scripts/enrich-benchmarks.js:219-224 | "trust-<second>-<words>" splits into "trust", the second token and the words |
| EnrichRelated.MetricTitle | nextjs-temp/scripts/enrich-benchmarks.js:220-232 | tokens [metric] + words are titled "<metric label> - <Capitalised Words>" |
| EnrichRelated.TrustTitle | nextjs-temp/scripts/enrich-benchmarks.js:220-232 | tokens ["trust", second] + words are titled "Trust Gap - <Capitalised Words>" |
| EnrichRelated.SlugTitleOfMetricSlug | nextjs-temp/scripts/enrich-benchmarks.js:218-234 | "[shopify-]<metric>-<niche words>" is titled with the metric's label and the capitalised niche words joined by spaces |
| EnrichRelated.SlugTitleOfTrustSlug | nextjs-temp/scripts/enrich-benchmarks.js:218-234 | "[shopify-]trust-<token>-<niche words>" is titled "Trust Gap - " and the capitalised niche words |
| EnrichRelated.GenerateRelatedBenchmarks | nextjs-temp/scripts/enrich-benchmarks.js:218-234 | one link per selected slug, same-niche ones first, each titled from its slug, never with anchor text |
| EnrichRelated.RelatedBounds | nextjs-temp/scripts/enrich-benchmarks.js:189-235 | at most four links, all to listed slugs |
| EnrichRelated.RelatedWithoutAdjacency | nextjs-temp/scripts/enrich-benchmarks.js:210 | a niche without adjacency entry gets only its at most two same-niche links |
| EnrichRelated.OwnSlugCanAppear | nextjs-temp/scripts/enrich-benchmarks.js:195-197 | a record whose slug mentions its niche and not its token, listed after fewer than two other such slugs, links to its own page, at the position equal to that count |
| EnrichRelated.OwnSlugCrowdedOut | nextjs-temp/scripts/enrich-benchmarks.js:195-197 | two such slugs listed before the own slug fill both same-niche places, and a record whose slug passes the filter then does not link to itself |
| EnrichRelated.KeptAmongFirstTwo | nextjs-temp/scripts/enrich-benchmarks.js:195-197 | a kept element preceded by fewer than two kept elements is in `filter(p).slice(0, 2)`, at the position equal to that number |
| EnrichRelated.FirstTwoInPrefix | nextjs-temp/scripts/enrich-benchmarks.js:195-197 | when a prefix of the list already has two kept elements, `filter(p).slice(0, 2)` is those two |
| EnrichRelated.SameNicheNeverRelatedNiche | nextjs-temp/scripts/enrich-benchmarks.js:208-216 | a slug without the metric token is never a related-niche link |
| EnrichRelated.UnderscoreTokenOwnSlug | nextjs-temp/scripts/enrich-benchmarks.js:196 | a token containing '_' never occurs in a hyphenated slug, so such a record's own slug passes its same-niche filter |
| EnrichRelated.UnderscoreTokenNoRelatedNiche | nextjs-temp/scripts/enrich-benchmarks.js:208-216 | with a token containing '_' and only hyphenated slugs, the related-niche filter picks nothing |
| Enrich.EnrichBenchmark | nextjs-temp/scripts/enrich-benchmarks.js:265-296 | producer fields kept; unconfigured metric returned unchanged; otherwise timestamps set to now, version 1, and all generated fields present |
| Enrich.EnrichedHeroAndTips | nextjs-temp/scripts/enrich-benchmarks.js:286-290 | the hero value is the formatted median and the tips are the configuration's, verbatim |
| Enrich.EnrichedFindings | nextjs-temp/scripts/enrich-benchmarks.js:288 | exactly the first four templates applied to the record |
| Enrich.EnrichedSeo | nextjs-temp/scripts/enrich-benchmarks.js:285 | the description ends by quoting the median and the top performer |
| Enrich.EnrichedLinks | nextjs-temp/scripts/enrich-benchmarks.js:291 | at most four related links, all to listed slugs |
| Enrich.FindingsReadProducerFields | nextjs-temp/scripts/enrich-benchmarks.js:157-164 | findings depend only on producer fields |
| Enrich.TemplatesReadProducerFields | nextjs-temp/scripts/enrich-benchmarks.js:59-109 | the four used templates of each metric read only producer fields |
| Enrich.LcpFindingsReadProducerFields | nextjs-temp/scripts/enrich-benchmarks.js:60-63 | the four LCP templates read only the niche label and percentiles |
| Enrich.PageSpeedFindingsReadProducerFields | nextjs-temp/scripts/enrich-benchmarks.js:82-85 | the four PageSpeed templates read only the niche label and percentiles |
| Enrich.TrustGapFindingsReadProducerFields | nextjs-temp/scripts/enrich-benchmarks.js:104-107 | the four trust gap templates read only the niche label and percentiles |
| Enrich.GeneratorsReadProducerFields | nextjs-temp/scripts/enrich-benchmarks.js:280-293 | niche context, hero, SEO, links and Dataset read only producer fields |
| Enrich.EnrichReadsProducerFields | nextjs-temp/scripts/enrich-benchmarks.js:280-293 | on a configured metric, records with the same producer fields enrich identically: old generated fields are replaced |
| Enrich.EnrichIdempotent | nextjs-temp/scripts/enrich-benchmarks.js:265-296 | enriching an enriched record again with the same listing and timestamp changes nothing |
| Enrich.AllSlugs | nextjs-temp/scripts/enrich-benchmarks.js:303 | one slug per listed file, in order, the first ".json" removed |
| Enrich.SlugOfFileName | nextjs-temp/scripts/enrich-benchmarks.js:303 | "<slug>.json" with no '.' in the slug gives back the slug |
| Enrich.CountRewritable | nextjs-temp/scripts/enrich-benchmarks.js:319 | the count never exceeds the number of listed files |
| Enrich.RunShape | nextjs-temp/scripts/enrich-benchmarks.js:307-317 | the run keeps the directory's entries and which of them parse, leaves every file not rewritable untouched, and counts exactly the rewritable listed entries, unsupported metrics included |
| Enrich.RunEnrichesListed | nextjs-temp/scripts/enrich-benchmarks.js:307-317 | every listed rewritable file ends up holding the enrichment of its old content, even when listed twice |
| Enrich.RunPrefix | nextjs-temp/scripts/enrich-benchmarks.js:307 | the loop over one more file is one more step |
| Enrich.EnrichAll | nextjs-temp/scripts/enrich-benchmarks.js:299-320 | the directory after `main` and the enriched count are those of the loop specification over the ".json" listing, with the slugs of that listing |
| Enrich.ConfigDirectionMatchesWidget | nextjs-temp/scripts/enrich-benchmarks.js:44-111 | each configured `goodDirection` is the direction the compare widget infers from the key |
| Enrich.TopPerformerIsTop10 | nextjs-temp/scripts/enrich-benchmarks.js:169-172 | the "Top 10%" value of the SEO text and hero context is one the compare widget classifies Top 10% |

## Left out

- File-system access and `JSON.parse` are modelled by the `Pages.PagesDir` state:
  - a missing or unreadable entry is a name absent from `files`;
  - a syntax error is `Malformed`;
  - a failing write is membership in `readOnly`.
- `getAllBenchmarks` turns a missing directory into `null`. A `readdirSync` that throws for another reason is not modelled.
- In the script's `main`, `readdirSync` at enrich-benchmarks.js:302 is outside any `try`, so a missing pages directory aborts the script. `Enrich.EnrichAll` takes an existing directory and does not model that abort.
- A parsed record is assumed to have the fields of `BenchmarkPageData`.
  - A record without `niche_label` throws in enrichment in two cases. If `NICHE_CONTEXT` has no entry for its niche, the fallback `niche_label.toLowerCase()` at enrich-benchmarks.js:269 throws, for any metric. If the niche is configured and the metric is supported, `generateSEO` throws at enrich-benchmarks.js:174. The model has no such record.
  - A record without `percentiles` would throw in the generators, or show "—" on the index page. The model has no such record either.
- `JSON.stringify` output and key order are not modelled. A rewritten file is its record. An unsupported metric's file is re-serialised with the same content.
- Object-literal lookups (`NICHE_CONTEXT`, `METRIC_CONTENT`, `RELATED_NICHES`) treat keys inherited from `Object.prototype` (such as "constructor") as missing.
- IndexPage.GroupByMetric: gives every metric its own group. In the `reduce` at page.tsx:61-64, a record whose metric is an inherited key such as "constructor" or "__proto__" finds `acc[b.metric]` already truthy, so `push` throws and the page fails to render; the model does not capture that failure.
- The `typical_products` and `audience` fields of `NICHE_CONTEXT` are not modelled, because no generator reads them.
- The `metricExplainer` and `thresholdContext` texts of `METRIC_CONTENT` are not modelled: no generator reads them. `ImprovementTips` is copied verbatim, so no property is stated about its wording.
- `new Date().toISOString()` is a parameter `now` shared by both timestamps. The script reads the clock twice.
- Console output is not modelled: the progress lines, the warning for an unsupported metric and the final summary.
- Floating point is not modelled. Values are exact reals.
  - `Math.round`, `toFixed` and `toLocaleString` are written over the exact value. Binary rounding of inputs such as 1.005 is not captured.
  - `toFixed` is modelled only for magnitudes below 10^21, where JavaScript does not switch to exponent notation.
  - Zero divisors in the LCP findings render as "Infinity", "-Infinity" or "NaN", as JavaScript prints them.
- CompareWidgetModel.CompareWidget.HandleCompare: the input is read with `ParseDecimal`, which accepts only plain decimal numerals. `parseFloat` also accepts leading whitespace, trailing garbage ("12abc" is 12), exponents and "Infinity"; the model treats those as not a number.
- `toLocaleString` is modelled for the en-US locale only.
- Numbers.LocaleString: a non-whole value (a fractional `sku_count`) is rendered with up to three fraction digits, but no lemma reads that text back; only whole numbers are characterised (`LocaleStringWhole`).
- Case mapping (`toLowerCase`, `toUpperCase`) is modelled for ASCII letters only.
- React rendering is modelled only as the data each view shows. Static JSX text, CSS classes, section ids and link hrefs are left out, and so are the manifest's `total_stores_analyzed` fallback "2,500+" and the `getManifest` helper.
- The duplicate `formatMetricValue` in benchmarks.ts:137-154 is identical to the one in types.ts and is modelled once, as `Types.FormatMetricValue`.
- IndexPage.SortBySampleSize: proves sortedness and permutation. It does not prove that equal sample sizes keep their input order, although `Array.prototype.sort` is stable.
- IndexPage.SortGroups: sorts the groups in an unspecified key order. This makes no difference to the result, because the groups are independent.
- EnrichRelated.SameNicheSelection and EnrichRelated.RelatedNicheSelection: state membership, the bound and completeness. They do not state that the picked slugs keep their listing order.
- EnrichConfig.RelatedNiches: its contract covers only the niches without an entry. The seven entries are the table itself.
- EnrichRelated.GenerateRelatedBenchmarks: titles are characterised only for well-formed slugs, by SlugTitleOfMetricSlug and SlugTitleOfTrustSlug. The titles of other slugs follow the same function but have no lemma.
- EnrichRelated.MetricToken: the script recomputes the token for every slug. The model computes it once; the value is the same.
- EnrichFindings.LcpFinding1 (and the other templates): each one's own contract states only that the sentence is non-empty. Their wording is their definition, and their dependencies are stated by the `*FindingsReadProducerFields` lemmas.
- CompareWidgetModel.CompareWidget.QuickReferenceText: renders the corrected reference values (see Findings). The values as written are `QuickReferenceAsWritten`.

## Behaviour notes

- Key findings are the first four templates (`slice(0, 4)`), so a page has four entries and no trailing citation sentence.
- No FAQ or breadcrumb schema is generated; the only schema.org object is the Dataset.
- Related links never carry anchor text.
- `version` is the constant 1, so a second enrichment with the same timestamp is identical to the first (`Enrich.EnrichIdempotent`).
- The record's own slug can appear among its related links. It does when its slug names its niche, lacks its metric token, and fewer than two other such slugs are listed before it (`EnrichRelated.OwnSlugCanAppear`). Otherwise `slice(0, 2)` keeps the two earlier ones and the own slug is not linked (`EnrichRelated.OwnSlugCrowdedOut`).
- A trust gap slug such as "trust-gaps-fashion" never contains the token "trust_gap", so it passes its own same-niche filter (`EnrichRelated.UnderscoreTokenOwnSlug`). For the same reason the related-niche filter picks nothing for trust gap pages when all slugs are hyphenated (`EnrichRelated.UnderscoreTokenNoRelatedNiche`).
- A file whose metric has no configuration is rewritten unchanged and counted as enriched.

## Findings

| source | as written | input that shows it | evidently intended | confidence | as-written member | corrected member |
|---|---|---|---|---|---|---|
| nextjs-temp/src/components/benchmarks/CompareWidget.tsx:127-129 | The quick reference shows p75 as "Top 25%" and p90 as "Top 10%" for every metric, including lower-is-better ones. | LCP percentiles p10..p90 = 1000, 1500, 2000, 3000, 5000 ms: the reference reads "Top 10%: 5.0s", and entering 5000 gives "You're in the Bottom 25%!" | For lower-is-better metrics, show p25 and p10, as the index page's Top 10% column and the SEO text do. | medium; not executed | CompareWidgetModel.QuickReferenceMislabels | CompareWidgetModel.QuickReferenceAgrees |
