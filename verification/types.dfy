/**
 * The benchmark page record shared by the site and the enrichment script
 * (nextjs-temp/src/lib/types.ts), and the display formatter every page
 * component uses for metric values.
 */
module Types {
  import opened Wrappers
  import opened Text
  import opened Numbers

  /** The distribution statistics of one niche-and-metric sample. */
  datatype PercentileStats = PercentileStats(
    p10: real, p25: real, p50: real, p75: real, p90: real, mean: real,
    stdDev: Option<real>, minValue: Option<real>, maxValue: Option<real>)

  /** Optional good/bad cut-offs; JSON `null` and a missing key are both None. */
  datatype Thresholds = Thresholds(good: Option<real>, bad: Option<real>)

  datatype HeroStat = HeroStat(value: string, caption: string, context: string)

  datatype Seo = Seo(title: string, metaDescription: string, keywords: seq<string>)

  datatype PageContent = PageContent(heroStat: HeroStat, keyFindings: seq<string>, howToImprove: seq<string>)

  datatype RelatedBenchmark = RelatedBenchmark(slug: string, title: string, anchorText: Option<string>)

  datatype Organization = Organization(name: string, url: string)
  datatype DataDownload = DataDownload(contentUrl: string, encodingFormat: string)
  datatype PropertyValue = PropertyValue(name: string, value: real, description: string)

  /** The schema.org Dataset object the enrichment script stores under `jsonld`. */
  datatype JsonLd = JsonLd(
    context: string, schemaType: string, name: string, description: string, url: string,
    dateModified: string, creator: Organization, distribution: DataDownload,
    variableMeasured: PropertyValue)

  /**
   * One benchmark page (`BenchmarkPageData`). The producer writes the
   * fields from `slug` to `thresholds`; the enrichment script writes the
   * Option-typed ones after them. `otherFields` holds, as JSON text, every
   * other key a file may carry (`faqSchema`, `breadcrumbSchema`, ...), so
   * that an object spread can be modelled exactly.
   */
  datatype BenchmarkPageData = BenchmarkPageData(
    slug: string,
    niche: string,
    nicheLabel: string,
    metric: string,
    metricLabel: string,
    sampleSize: Option<int>,
    dataDate: string,
    percentiles: PercentileStats,
    thresholds: Thresholds,
    contentGeneratedAt: Option<string>,
    lastUpdated: Option<string>,
    version: Option<int>,
    seo: Option<Seo>,
    content: Option<PageContent>,
    relatedBenchmarks: Option<seq<RelatedBenchmark>>,
    jsonld: Option<JsonLd>,
    otherFields: map<string, string>)

  /** The display text of a millisecond metric: seconds from 1000 ms on. */
  function MillisecondText(value: real): string {
    if value >= 1000.0 then ToFixed(value / 1000.0, 1) + "s"
    else IntToString(Round(value)) + "ms"
  }

  /** `formatMetricValue(value, metric)`: the display text of a metric value. */
  function FormatMetricValue(value: real, metric: string): string {
    if Contains(metric, "_ms") || metric == "lcp_ms" || metric == "ttfb_ms" then MillisecondText(value)
    else if metric == "median_price_cents" then "$" + ToFixed(value / 100.0, 2)
    else if metric == "sku_count" then LocaleString(value)
    else if metric == "cls_score" then ToFixed(value, 2)
    else IntToString(Round(value))
  }

  /** The two equality tests for millisecond metrics add nothing to the `includes("_ms")` test. */
  lemma MillisecondTestSubsumes(metric: string)
    ensures (Contains(metric, "_ms") || metric == "lcp_ms" || metric == "ttfb_ms") <==> Contains(metric, "_ms")
  {
    if metric == "lcp_ms" || metric == "ttfb_ms" {
      ContainsIffOccurs(metric, "_ms");
      assert OccursAt(metric, "_ms", |metric| - 3);
    }
  }

  lemma LcpHasMs()
    ensures Contains("lcp_ms", "_ms")
  {
    ContainsInfix("lcp", "_ms", "");
  }

  lemma PageSpeedLacksMs()
    ensures !Contains("pagespeed_score", "_ms")
  {
    NoAdjacentPair("pagespeed_score", "_ms");
  }

  lemma TrustGapLacksMs()
    ensures !Contains("trust_gap_score", "_ms")
  {
    NoAdjacentPair("trust_gap_score", "_ms");
  }

  lemma CentsLacksMs()
    ensures !Contains("median_price_cents", "_ms")
  {
    NoAdjacentPair("median_price_cents", "_ms");
  }

  lemma SkuCountLacksMs()
    ensures !Contains("sku_count", "_ms")
  {
    NoAdjacentPair("sku_count", "_ms");
  }

  lemma ClsLacksMs()
    ensures !Contains("cls_score", "_ms")
  {
    NoAdjacentPair("cls_score", "_ms");
  }

  /**
   * A millisecond metric of at least 1000 shows as seconds: value/1000 with
   * one decimal, followed by "s".
   */
  lemma SecondsDisplay(value: real, metric: string)
    requires Contains(metric, "_ms") && value >= 1000.0
    ensures var r := FormatMetricValue(value, metric);
      && EndsWith(r, "s") && FixedText(r[..|r| - 1], value / 1000.0, 1)
  {
    SecondsText(value, metric);
    DropLastChar(ToFixed(value / 1000.0, 1), 's');
    ToFixedIsFixedText(value / 1000.0, 1);
  }

  lemma SecondsText(value: real, metric: string)
    requires Contains(metric, "_ms") && value >= 1000.0
    ensures FormatMetricValue(value, metric) == ToFixed(value / 1000.0, 1) + "s"
  {
    assert FormatMetricValue(value, metric) == MillisecondText(value);
  }

  lemma DropLastChar(t: string, c: char)
    ensures EndsWith(t + [c], [c]) && (t + [c])[..|t|] == t
  {
    EndsWithAppend(t, [c]);
  }

  /** A millisecond metric below 1000 shows as the rounded integer followed by "ms". */
  lemma MillisecondsDisplay(value: real, metric: string)
    requires Contains(metric, "_ms") && value < 1000.0
    ensures var r := FormatMetricValue(value, metric);
      && EndsWith(r, "ms")
      && ParseDecimal(r[..|r| - 2]) == Some(Round(value) as real)
      && -0.5 <= Round(value) as real - value <= 0.5
  {
    var r := FormatMetricValue(value, metric);
    IntToStringRoundTrip(Round(value));
    assert r == IntToString(Round(value)) + "ms";
    assert r[..|r| - 2] == IntToString(Round(value));
  }

  /** Cents show as "$" and then the dollar amount with exactly two decimals. */
  lemma CentsDisplay(value: real)
    ensures var r := FormatMetricValue(value, "median_price_cents");
      && StartsWith(r, "$") && FixedText(r[1..], value / 100.0, 2)
  {
    CentsLacksMs();
    ToFixedIsFixedText(value / 100.0, 2);
    var r := FormatMetricValue(value, "median_price_cents");
    assert r == "$" + ToFixed(value / 100.0, 2);
    assert r[1..] == ToFixed(value / 100.0, 2);
  }

  /** "cls_score" shows with exactly two decimals. */
  lemma ClsDisplay(value: real)
    ensures FixedText(FormatMetricValue(value, "cls_score"), value, 2)
  {
    ClsLacksMs();
    ToFixedIsFixedText(value, 2);
  }

  /** A whole "sku_count" shows as its digits with thousands separators. */
  lemma SkuCountDisplay(count: int)
    ensures FormatMetricValue(count as real, "sku_count")
         == (if count < 0 then "-" else "") + GroupThousands(NatToString(if count < 0 then -count else count))
    ensures RemoveChar(FormatMetricValue(count as real, "sku_count"), ',') == IntToString(count)
  {
    SkuCountLacksMs();
    LocaleStringWhole(count);
  }

  /** Every other metric shows as the nearest integer. */
  lemma RoundedDisplay(value: real, metric: string)
    requires !Contains(metric, "_ms")
    requires metric != "median_price_cents" && metric != "sku_count" && metric != "cls_score"
    ensures FormatMetricValue(value, metric) == IntToString(Round(value))
    ensures ParseDecimal(FormatMetricValue(value, metric)) == Some(Round(value) as real)
    ensures -0.5 <= Round(value) as real - value <= 0.5
  {
    MillisecondTestSubsumes(metric);
    IntToStringRoundTrip(Round(value));
  }
}
