/**
 * The per-record generators of nextjs-temp/scripts/enrich-benchmarks.js
 * other than key findings and related links: the script's own number
 * formatter, the hero statistic, the SEO block and the JSON-LD Dataset.
 */
module EnrichContent {
  import opened Wrappers
  import opened Text
  import opened Numbers
  import opened Types
  import opened EnrichConfig
  import opened EnrichFindings

  /** The script's `formatMetricValue`: `formatMs` for "_ms" metrics, a rounded integer otherwise. */
  function FormatMetricValue(value: real, metric: string): string {
    if Contains(metric, "_ms") then FormatMs(value)
    else if metric == "pagespeed_score" then RoundText(value)
    else RoundText(value)
  }

  /** `formatMs` is the site's display of an LCP value. */
  lemma FormatMsIsLcpDisplay(ms: real)
    ensures FormatMs(ms) == Types.FormatMetricValue(ms, "lcp_ms")
  {
    LcpHasMs();
  }

  /** From 1000 ms up, `formatMs` gives one-decimal seconds followed by "s". */
  lemma FormatMsSeconds(ms: real)
    requires ms >= 1000.0
    ensures EndsWith(FormatMs(ms), "s") && FixedText(FormatMs(ms)[..|FormatMs(ms)| - 1], ms / 1000.0, 1)
  {
    LcpHasMs();
    FormatMsIsLcpDisplay(ms);
    SecondsDisplay(ms, "lcp_ms");
  }

  /** Below 1000 ms, `formatMs` gives the rounded milliseconds followed by "ms". */
  lemma FormatMsMilliseconds(ms: real)
    requires ms < 1000.0
    ensures EndsWith(FormatMs(ms), "ms")
    ensures ParseDecimal(FormatMs(ms)[..|FormatMs(ms)| - 2]) == Some(Round(ms) as real)
  {
    LcpHasMs();
    FormatMsIsLcpDisplay(ms);
    MillisecondsDisplay(ms, "lcp_ms");
  }

  /**
   * The script's formatter agrees with the site's on every metric except
   * the three the site formats specially (cents, SKU counts, CLS).
   */
  lemma FormatAgreesWithDisplay(value: real, metric: string)
    requires metric != "median_price_cents" && metric != "sku_count" && metric != "cls_score"
    ensures FormatMetricValue(value, metric) == Types.FormatMetricValue(value, metric)
  {
    MillisecondTestSubsumes(metric);
  }

  /** `data.sample_size` interpolated into a template: "undefined" when absent. */
  function SampleSizeText(sampleSize: Option<int>): string {
    match sampleSize
    case Some(n) => IntToString(n)
    case None => "undefined"
  }

  /** `generateHeroStat`. */
  function GenerateHeroStat(data: BenchmarkPageData): HeroStat {
    var p := data.percentiles;
    if data.metric == "lcp_ms" then
      HeroStat(FormatMs(p.p50), "Median LCP", "Top 10% achieve " + FormatMs(p.p10) + " or faster")
    else if data.metric == "pagespeed_score" then
      HeroStat(RoundText(p.p50), "Median PageSpeed", "Top 10% score " + RoundText(p.p90) + "+ points")
    else if data.metric == "trust_gap_score" then
      HeroStat(RoundText(p.p50), "Median Trust Gap", "Best stores achieve " + RoundText(p.p10) + " or lower")
    else
      HeroStat(FormatMetricValue(p.p50, data.metric), "Median " + data.metricLabel,
               "Based on " + SampleSizeText(data.sampleSize) + " stores analyzed")
  }

  /** The hero value is always the median in the script's own format, whichever branch builds it. */
  lemma HeroValueIsFormattedMedian(data: BenchmarkPageData)
    ensures GenerateHeroStat(data).value == FormatMetricValue(data.percentiles.p50, data.metric)
  {
    LcpHasMs();
    PageSpeedLacksMs();
    TrustGapLacksMs();
  }

  /** The percentile the SEO text calls "Top 10%": p10 for lower-is-better metrics, p90 otherwise. */
  function TopPercentile(p: PercentileStats, direction: Direction): real {
    if direction == Lower then p.p10 else p.p90
  }

  /**
   * For the three configured metrics the hero context quotes the same
   * top-performer value as the SEO description.
   */
  lemma HeroContextQuotesTopPerformer(data: BenchmarkPageData, config: MetricConfig)
    requires MetricContent(data.metric) == Some(config)
    ensures Contains(GenerateHeroStat(data).context,
                     FormatMetricValue(TopPercentile(data.percentiles, config.goodDirection), data.metric))
  {
    var p := data.percentiles;
    LcpHasMs();
    PageSpeedLacksMs();
    TrustGapLacksMs();
    if data.metric == "lcp_ms" {
      ContainsInfix("Top 10% achieve ", FormatMs(p.p10), " or faster");
    } else if data.metric == "pagespeed_score" {
      ContainsInfix("Top 10% score ", RoundText(p.p90), "+ points");
    } else {
      ContainsInfix("Best stores achieve ", RoundText(p.p10), " or lower");
    }
  }

  /** `NICHE_CONTEXT[data.niche] || { industry: niche_label.toLowerCase(), ... }`. */
  function NicheContextFor(data: BenchmarkPageData): (c: NicheContext)
    ensures NicheContextEntry(data.niche).Some? ==> c == NicheContextEntry(data.niche).value
    ensures NicheContextEntry(data.niche).None? ==> c.industry == ToLower(data.nicheLabel)
  {
    match NicheContextEntry(data.niche)
    case Some(c) => c
    case None => NicheContext(ToLower(data.nicheLabel))
  }

  /** The start of the SEO description, up to the niche label. */
  function SeoIntro(data: BenchmarkPageData, niche: NicheContext): string {
    "How does your " + niche.industry + " store compare? See " + ToLower(data.metricLabel)
      + " benchmarks from " + SampleSizeText(data.sampleSize) + " Shopify " + ToLower(data.nicheLabel)
  }

  /** The end of the SEO description: the median and the top performer. */
  function SeoSummary(median: string, top: string): string {
    " stores. Median: " + median + ", Top 10%: " + top + "."
  }

  const TITLE_END := " Stores (2026)"

  /** `generateSEO`. */
  function GenerateSeo(data: BenchmarkPageData, config: MetricConfig, niche: NicheContext): Seo {
    var p := data.percentiles;
    var title := data.metricLabel + " Benchmarks for Shopify " + data.nicheLabel + TITLE_END;
    var topPerformerValue :=
      if config.goodDirection == Lower then FormatMetricValue(p.p10, data.metric)
      else FormatMetricValue(p.p90, data.metric);
    var metaDescription := SeoIntro(data, niche) + SeoSummary(FormatMetricValue(p.p50, data.metric), topPerformerValue);
    var keywords := [
      "shopify " + ToLower(data.niche) + " benchmark",
      ToLower(data.metricLabel) + " shopify",
      ToLower(data.nicheLabel) + " store performance",
      "ecommerce " + ReplaceAllChar(data.metric, '_', ' ') + " benchmark",
      "shopify speed benchmarks",
      ToLower(data.nicheLabel) + " ecommerce statistics",
      "shopify store analytics"
    ];
    Seo(title, metaDescription, keywords)
  }

  /**
   * The description ends by quoting the median and then the top performer
   * (p10 for lower-is-better metrics, p90 otherwise), both in the same
   * format; there are seven keywords.
   */
  lemma SeoQuotesMedianAndTopPerformer(data: BenchmarkPageData, config: MetricConfig, niche: NicheContext)
    ensures var seo := GenerateSeo(data, config, niche);
      var median := FormatMetricValue(data.percentiles.p50, data.metric);
      var top := FormatMetricValue(TopPercentile(data.percentiles, config.goodDirection), data.metric);
      && EndsWith(seo.metaDescription, SeoSummary(median, top))
      && EndsWith(seo.title, TITLE_END)
      && |seo.keywords| == 7
  {
    var median := FormatMetricValue(data.percentiles.p50, data.metric);
    var top := FormatMetricValue(TopPercentile(data.percentiles, config.goodDirection), data.metric);
    EndsWithAppend(SeoIntro(data, niche), SeoSummary(median, top));
    EndsWithAppend(data.metricLabel + " Benchmarks for Shopify " + data.nicheLabel, TITLE_END);
  }

  const SITE := "https://boostra.io"

  /** `generateJsonLd`. */
  function GenerateJsonLd(data: BenchmarkPageData, niche: NicheContext): JsonLd {
    var pageUrl := SITE + "/benchmarks/" + data.slug;
    JsonLd(
      "https://schema.org", "Dataset",
      data.metricLabel + " Benchmarks for Shopify " + data.nicheLabel + " Stores",
      "Performance benchmark data for " + SampleSizeText(data.sampleSize) + " Shopify stores in the "
        + niche.industry + " industry, measuring " + ToLower(data.metricLabel) + ".",
      pageUrl,
      data.dataDate,
      Organization("Boostra", SITE),
      DataDownload(pageUrl, "text/html"),
      PropertyValue(data.metricLabel, data.percentiles.p50,
        "Median " + ToLower(data.metricLabel) + " across " + SampleSizeText(data.sampleSize) + " stores"))
  }

  /**
   * The Dataset points at the record's own page (as both its URL and its
   * download), is dated by the data date, and measures the median.
   */
  lemma JsonLdDescribesRecord(data: BenchmarkPageData, niche: NicheContext)
    ensures var j := GenerateJsonLd(data, niche);
      && j.url == j.distribution.contentUrl
      && StartsWith(j.url, SITE + "/benchmarks/") && j.url[|SITE + "/benchmarks/"|..] == data.slug
      && j.dateModified == data.dataDate
      && j.variableMeasured.value == data.percentiles.p50
      && j.variableMeasured.name == data.metricLabel
  {
    var prefix := SITE + "/benchmarks/";
    var j := GenerateJsonLd(data, niche);
    assert j.url == prefix + data.slug;
    assert j.url[..|prefix|] == prefix;
  }
}
