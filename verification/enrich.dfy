/**
 * `enrichBenchmark` and `main` of nextjs-temp/scripts/enrich-benchmarks.js:
 * every ".json" page record is read, given generated content when its
 * metric has a configuration, and written back in place.
 */
module Enrich {
  import opened Wrappers
  import opened Text
  import opened Types
  import opened Pages
  import opened EnrichConfig
  import opened EnrichFindings
  import opened EnrichContent
  import opened EnrichRelated
  import CompareWidgetModel

  /** The fields the data pipeline writes; enrichment reads only these and keeps them. */
  predicate SameProducerFields(a: BenchmarkPageData, b: BenchmarkPageData) {
    && a.slug == b.slug && a.niche == b.niche && a.nicheLabel == b.nicheLabel
    && a.metric == b.metric && a.metricLabel == b.metricLabel && a.sampleSize == b.sampleSize
    && a.dataDate == b.dataDate && a.percentiles == b.percentiles && a.thresholds == b.thresholds
    && a.otherFields == b.otherFields
  }

  /**
   * `enrichBenchmark` on a parsed record: a record whose metric has no
   * configuration comes back as it is; any other keeps its own fields and
   * gains the generated ones, stamped with `now` and version 1.
   */
  function EnrichBenchmark(data: BenchmarkPageData, allSlugs: seq<string>, now: string): (r: BenchmarkPageData)
    ensures SameProducerFields(data, r)
    ensures MetricContent(data.metric).None? ==> r == data
    ensures MetricContent(data.metric).Some? ==>
      && r.contentGeneratedAt == Some(now) && r.lastUpdated == Some(now) && r.version == Some(1)
      && r.seo.Some? && r.content.Some? && r.relatedBenchmarks.Some? && r.jsonld.Some?
  {
    match MetricContent(data.metric)
    case None => data
    case Some(config) =>
      var niche := NicheContextFor(data);
      data.(
        contentGeneratedAt := Some(now),
        lastUpdated := Some(now),
        version := Some(1),
        seo := Some(GenerateSeo(data, config, niche)),
        content := Some(PageContent(GenerateHeroStat(data), KeyFindings(data, config.id), ImprovementTips(config.id))),
        relatedBenchmarks := Some(GenerateRelatedBenchmarks(data, allSlugs)),
        jsonld := Some(GenerateJsonLd(data, niche)))
  }

  /** An enriched record shows the formatted median as its hero value and the configuration's tips verbatim. */
  lemma EnrichedHeroAndTips(data: BenchmarkPageData, allSlugs: seq<string>, now: string, config: MetricConfig)
    requires MetricContent(data.metric) == Some(config)
    ensures var c := EnrichBenchmark(data, allSlugs, now).content.value;
      && c.heroStat.value == EnrichContent.FormatMetricValue(data.percentiles.p50, data.metric)
      && c.howToImprove == ImprovementTips(config.id)
  {
    HeroValueIsFormattedMedian(data);
  }

  /** An enriched record holds exactly four findings: the first four templates, in order. */
  lemma EnrichedFindings(data: BenchmarkPageData, allSlugs: seq<string>, now: string, config: MetricConfig)
    requires MetricContent(data.metric) == Some(config)
    ensures var c := EnrichBenchmark(data, allSlugs, now).content.value;
      && |c.keyFindings| == 4
      && forall k :: 0 <= k < 4 ==> c.keyFindings[k] == Templates(config.id)[k](data)
  {
    KeyFindingsAreFirstFour(data, config.id);
  }

  /** The description of an enriched record ends by quoting the median and the top performer. */
  lemma EnrichedSeo(data: BenchmarkPageData, allSlugs: seq<string>, now: string, config: MetricConfig)
    requires MetricContent(data.metric) == Some(config)
    ensures var median := EnrichContent.FormatMetricValue(data.percentiles.p50, data.metric);
      var top := EnrichContent.FormatMetricValue(TopPercentile(data.percentiles, config.goodDirection), data.metric);
      EndsWith(EnrichBenchmark(data, allSlugs, now).seo.value.metaDescription, SeoSummary(median, top))
  {
    SeoQuotesMedianAndTopPerformer(data, config, NicheContextFor(data));
  }

  /** An enriched record links to at most four pages, all of them listed. */
  lemma EnrichedLinks(data: BenchmarkPageData, allSlugs: seq<string>, now: string)
    requires MetricContent(data.metric).Some?
    ensures var links := EnrichBenchmark(data, allSlugs, now).relatedBenchmarks.value;
      && |links| <= 4
      && forall i :: 0 <= i < |links| ==> links[i].slug in allSlugs
  {
    RelatedBounds(data, allSlugs);
  }

  /** The findings of two records with the same producer fields are the same. */
  lemma FindingsReadProducerFields(a: BenchmarkPageData, b: BenchmarkPageData, id: MetricId)
    requires SameProducerFields(a, b)
    ensures KeyFindings(a, id) == KeyFindings(b, id)
  {
    KeyFindingsAreFirstFour(a, id);
    KeyFindingsAreFirstFour(b, id);
    TemplatesReadProducerFields(a, b, id);
  }

  lemma TemplatesReadProducerFields(a: BenchmarkPageData, b: BenchmarkPageData, id: MetricId)
    requires SameProducerFields(a, b)
    ensures forall k :: 0 <= k < 4 ==> Templates(id)[k](a) == Templates(id)[k](b)
  {
    match id
    case Lcp => LcpFindingsReadProducerFields(a, b);
    case PageSpeed => PageSpeedFindingsReadProducerFields(a, b);
    case TrustGap => TrustGapFindingsReadProducerFields(a, b);
  }

  lemma LcpFindingsReadProducerFields(a: BenchmarkPageData, b: BenchmarkPageData)
    requires a.nicheLabel == b.nicheLabel && a.percentiles == b.percentiles
    ensures forall k :: 0 <= k < 4 ==> Templates(Lcp)[k](a) == Templates(Lcp)[k](b)
  {
    assert Templates(Lcp)[..4] == [LcpFinding1, LcpFinding2, LcpFinding3, LcpFinding4];
  }

  lemma PageSpeedFindingsReadProducerFields(a: BenchmarkPageData, b: BenchmarkPageData)
    requires a.nicheLabel == b.nicheLabel && a.percentiles == b.percentiles
    ensures forall k :: 0 <= k < 4 ==> Templates(PageSpeed)[k](a) == Templates(PageSpeed)[k](b)
  {
    assert Templates(PageSpeed)[..4] == [PageSpeedFinding1, PageSpeedFinding2, PageSpeedFinding3, PageSpeedFinding4];
  }

  lemma TrustGapFindingsReadProducerFields(a: BenchmarkPageData, b: BenchmarkPageData)
    requires a.nicheLabel == b.nicheLabel && a.percentiles == b.percentiles
    ensures forall k :: 0 <= k < 4 ==> Templates(TrustGap)[k](a) == Templates(TrustGap)[k](b)
  {
    assert Templates(TrustGap)[..4] == [TrustGapFinding1, TrustGapFinding2, TrustGapFinding3, TrustGapFinding4];
  }

  /**
   * On a supported metric, the enrichment depends on the producer fields
   * alone: whatever generated fields a record already holds are replaced.
   */
  lemma EnrichReadsProducerFields(a: BenchmarkPageData, b: BenchmarkPageData, allSlugs: seq<string>, now: string)
    requires SameProducerFields(a, b) && MetricContent(a.metric).Some?
    ensures EnrichBenchmark(a, allSlugs, now) == EnrichBenchmark(b, allSlugs, now)
  {
    var config := MetricContent(a.metric).value;
    FindingsReadProducerFields(a, b, config.id);
    GeneratorsReadProducerFields(a, b, allSlugs, config);
  }

  /** The hero statistic, the SEO block, the related links and the Dataset read only producer fields. */
  lemma GeneratorsReadProducerFields(a: BenchmarkPageData, b: BenchmarkPageData, allSlugs: seq<string>, config: MetricConfig)
    requires SameProducerFields(a, b)
    ensures NicheContextFor(a) == NicheContextFor(b)
    ensures GenerateHeroStat(a) == GenerateHeroStat(b)
    ensures GenerateSeo(a, config, NicheContextFor(a)) == GenerateSeo(b, config, NicheContextFor(b))
    ensures GenerateRelatedBenchmarks(a, allSlugs) == GenerateRelatedBenchmarks(b, allSlugs)
    ensures GenerateJsonLd(a, NicheContextFor(a)) == GenerateJsonLd(b, NicheContextFor(b))
  {
  }

  /**
   * Enriching an enriched record again with the same listing and the same
   * timestamp changes nothing: the generators read only producer fields.
   */
  lemma EnrichIdempotent(data: BenchmarkPageData, allSlugs: seq<string>, now: string)
    ensures EnrichBenchmark(EnrichBenchmark(data, allSlugs, now), allSlugs, now) == EnrichBenchmark(data, allSlugs, now)
  {
    if MetricContent(data.metric).Some? {
      EnrichReadsProducerFields(EnrichBenchmark(data, allSlugs, now), data, allSlugs, now);
    }
  }

  /** `files.map(f => f.replace('.json', ''))`. */
  function AllSlugs(files: seq<string>): (slugs: seq<string>)
    ensures |slugs| == |files|
    ensures forall i :: 0 <= i < |files| ==> slugs[i] == ReplaceFirst(files[i], ".json", "")
  {
    seq(|files|, i requires 0 <= i < |files| => ReplaceFirst(files[i], ".json", ""))
  }

  /** A file name "<slug>.json" whose slug has no '.' gives back the slug. */
  lemma SlugOfFileName(slug: string)
    requires '.' !in slug
    ensures ReplaceFirst(slug + ".json", ".json", "") == slug
  {
    var s := slug + ".json";
    assert s[|slug|..] == ".json";
    forall j | 0 <= j < |slug| ensures s[j] != '.' { assert s[j] == slug[j]; }
    FirstOccurrence(s, ".json", |slug|);
    assert s[..|slug|] == slug;
  }

  /** `enrichBenchmark` for one run of `main`: the listing and the clock are fixed. */
  function Enricher(allSlugs: seq<string>, now: string): BenchmarkPageData -> BenchmarkPageData {
    data => EnrichBenchmark(data, allSlugs, now)
  }

  /** The directory and the counter after some iterations of the main loop. */
  datatype RunOutcome = RunOutcome(files: map<string, FileContent>, enrichedCount: nat)

  /** The entry is read, parsed and written without an exception. */
  predicate Rewritable(name: string, files: map<string, FileContent>, readOnly: set<string>) {
    name in files && files[name].Parsed? && name !in readOnly
  }

  /**
   * One iteration: a file that reads, parses and can be written is replaced
   * by its enrichment and counted; any exception leaves both unchanged.
   */
  function Step(o: RunOutcome, name: string, readOnly: set<string>, enrich: BenchmarkPageData -> BenchmarkPageData): RunOutcome {
    if Rewritable(name, o.files, readOnly) then
      RunOutcome(o.files[name := Parsed(enrich(o.files[name].data))], o.enrichedCount + 1)
    else o
  }

  /** The loop of `main` over `names`, from the directory `files`. */
  function Run(names: seq<string>, files: map<string, FileContent>, readOnly: set<string>, enrich: BenchmarkPageData -> BenchmarkPageData): RunOutcome
  {
    if names == [] then RunOutcome(files, 0)
    else Step(Run(names[..|names| - 1], files, readOnly, enrich), names[|names| - 1], readOnly, enrich)
  }

  /** How many listed entries are rewritable, counting a name as often as it is listed. */
  function CountRewritable(names: seq<string>, files: map<string, FileContent>, readOnly: set<string>): (n: nat)
    ensures n <= |names|
  {
    if names == [] then 0
    else CountRewritable(names[..|names| - 1], files, readOnly) + (if Rewritable(names[|names| - 1], files, readOnly) then 1 else 0)
  }

  /**
   * The run keeps the directory's entries and which of them parse; it
   * counts every rewritable listed entry (whatever its metric), and leaves
   * every other file as it was.
   */
  lemma {:induction false} RunShape(names: seq<string>, files: map<string, FileContent>, readOnly: set<string>, enrich: BenchmarkPageData -> BenchmarkPageData)
    ensures var o := Run(names, files, readOnly, enrich);
      && o.files.Keys == files.Keys
      && (forall n :: n in files ==> o.files[n].Parsed? == files[n].Parsed?)
      && (forall n :: n in files && !(n in names && Rewritable(n, files, readOnly)) ==> o.files[n] == files[n])
      && o.enrichedCount == CountRewritable(names, files, readOnly)
  {
    if names != [] {
      var init := names[..|names| - 1];
      var last := names[|names| - 1];
      RunShape(init, files, readOnly, enrich);
      assert names == init + [last];
      var o := Run(init, files, readOnly, enrich);
      assert Rewritable(last, o.files, readOnly) == Rewritable(last, files, readOnly);
    }
  }

  /**
   * Every listed rewritable file ends up holding the enrichment of what it
   * held before, even when the listing names it more than once.
   */
  lemma {:induction false} RunEnrichesListed(names: seq<string>, files: map<string, FileContent>, readOnly: set<string>, allSlugs: seq<string>, now: string, name: string)
    requires name in names && Rewritable(name, files, readOnly)
    ensures name in Run(names, files, readOnly, Enricher(allSlugs, now)).files
    ensures Run(names, files, readOnly, Enricher(allSlugs, now)).files[name] == Parsed(EnrichBenchmark(files[name].data, allSlugs, now))
  {
    var enrich := Enricher(allSlugs, now);
    var init := names[..|names| - 1];
    var last := names[|names| - 1];
    assert names == init + [last];
    RunShape(init, files, readOnly, enrich);
    RunShape(names, files, readOnly, enrich);
    if name in init {
      RunEnrichesListed(init, files, readOnly, allSlugs, now, name);
      if last == name {
        EnrichIdempotent(files[name].data, allSlugs, now);
      }
    }
  }

  /** The run over one more name is one more step. */
  lemma RunPrefix(names: seq<string>, i: nat, files: map<string, FileContent>, readOnly: set<string>, enrich: BenchmarkPageData -> BenchmarkPageData)
    requires i < |names|
    ensures Run(names[..i + 1], files, readOnly, enrich) == Step(Run(names[..i], files, readOnly, enrich), names[i], readOnly, enrich)
  {
    assert names[..i + 1][..i] == names[..i];
  }

  /**
   * `main`: list the ".json" entries, derive the slugs, and enrich each
   * file in turn, skipping (and not counting) a file whose read, parse or
   * write throws.
   */
  method EnrichAll(dir: PagesDir, now: string) returns (enrichedCount: nat)
    modifies dir`files
    ensures var files := JsonNames(dir.names);
      var o := Run(files, old(dir.files), dir.readOnly, Enricher(AllSlugs(files), now));
      dir.files == o.files && enrichedCount == o.enrichedCount
  {
    var files := JsonNames(dir.names);
    var allSlugs := AllSlugs(files);
    ghost var start := dir.files;
    ghost var enrich := Enricher(allSlugs, now);
    var readOnly := dir.readOnly;
    enrichedCount := 0;
    for i := 0 to |files|
      invariant Run(files[..i], start, readOnly, enrich) == RunOutcome(dir.files, enrichedCount)
    {
      var file := files[i];
      RunPrefix(files, i, start, readOnly, enrich);
      if file in dir.files && dir.files[file].Parsed? && file !in readOnly {
        var enriched := EnrichBenchmark(dir.files[file].data, allSlugs, now);
        dir.files := dir.files[file := Parsed(enriched)];
        enrichedCount := enrichedCount + 1;
      }
    }
    assert files[..|files|] == files;
  }

  /** The configured direction of each metric is the one the compare widget infers from its key. */
  lemma ConfigDirectionMatchesWidget(id: MetricId)
    ensures MetricContent(MetricKey(id)).Some?
    ensures MetricContent(MetricKey(id)).value.goodDirection == Lower <==> CompareWidgetModel.LowerIsBetter(MetricKey(id))
  {
    CompareWidgetModel.LowerIsBetterMetrics();
    CompareWidgetModel.PageSpeedIsHigherBetter();
  }

  /**
   * The value the SEO text and the hero context call "Top 10%" is one the
   * compare widget classifies as top 10%.
   */
  lemma TopPerformerIsTop10(data: BenchmarkPageData, config: MetricConfig)
    requires MetricContent(data.metric) == Some(config)
    ensures CompareWidgetModel.Classify(TopPercentile(data.percentiles, config.goodDirection),
                                        CompareWidgetModel.LowerIsBetter(data.metric), data.percentiles)
            == CompareWidgetModel.Top10
  {
    ConfigDirectionMatchesWidget(config.id);
  }
}
