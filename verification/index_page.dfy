/**
 * The benchmarks index page (nextjs-temp/src/app/benchmarks/page.tsx): the
 * records are grouped by metric, each group is sorted by sample size, and
 * one table per known metric lists the niches with their median, best and
 * worst values.
 */
module IndexPage {
  import opened Wrappers
  import opened Numbers
  import opened Types
  import CompareWidgetModel

  // ----- Distinct values in order of first appearance -----

  predicate Distinct(xs: seq<string>) {
    forall i, j :: 0 <= i < j < |xs| ==> xs[i] != xs[j]
  }

  /**
   * The distinct elements of `xs` in order of first appearance: the
   * iteration order of a JavaScript `Set` built from `xs`, and the key
   * order of an object whose keys are inserted in the order of `xs`.
   */
  function FirstAppearances(xs: seq<string>): (r: seq<string>)
    ensures Distinct(r)
    ensures forall x :: x in r <==> x in xs
    ensures |r| <= |xs|
  {
    if xs == [] then []
    else
      var r0 := FirstAppearances(xs[..|xs| - 1]);
      var x := xs[|xs| - 1];
      assert forall y :: y in xs <==> y in xs[..|xs| - 1] || y == x by {
        assert xs == xs[..|xs| - 1] + [x];
      }
      if x in r0 then r0 else r0 + [x]
  }

  /** A sequence without repetitions has as many elements as its set. */
  lemma {:induction false} DistinctCardinality(xs: seq<string>)
    requires Distinct(xs)
    ensures |set x | x in xs| == |xs|
  {
    if xs != [] {
      var init := xs[..|xs| - 1];
      var x := xs[|xs| - 1];
      DistinctCardinality(init);
      assert xs == init + [x];
      forall i | 0 <= i < |init| ensures init[i] != x {
        assert init[i] == xs[i];
      }
      assert (set y | y in xs) == (set y | y in init) + {x};
    }
  }

  function NicheList(bs: seq<BenchmarkPageData>): (r: seq<string>)
    ensures |r| == |bs| && forall i :: 0 <= i < |bs| ==> r[i] == bs[i].niche
  {
    seq(|bs|, i requires 0 <= i < |bs| => bs[i].niche)
  }

  function MetricList(bs: seq<BenchmarkPageData>): (r: seq<string>)
    ensures |r| == |bs| && forall i :: 0 <= i < |bs| ==> r[i] == bs[i].metric
  {
    seq(|bs|, i requires 0 <= i < |bs| => bs[i].metric)
  }

  /** `new Set(benchmarks.map((b) => b.niche)).size`. */
  function TotalNiches(bs: seq<BenchmarkPageData>): nat {
    |FirstAppearances(NicheList(bs))|
  }

  /** `totalNiches` is the number of distinct niches: at most one per record, and none only without records. */
  lemma TotalNichesCounts(bs: seq<BenchmarkPageData>)
    ensures TotalNiches(bs) == |set b | b in bs :: b.niche|
    ensures TotalNiches(bs) <= |bs|
    ensures TotalNiches(bs) == 0 <==> bs == []
  {
    var r := FirstAppearances(NicheList(bs));
    DistinctCardinality(r);
    assert (set x | x in r) == (set b | b in bs :: b.niche) by {
      forall x ensures x in r <==> x in (set b | b in bs :: b.niche) {
        if x in NicheList(bs) {
          var i :| 0 <= i < |bs| && NicheList(bs)[i] == x;
          assert bs[i] in bs;
        }
        if x in (set b | b in bs :: b.niche) {
          var b :| b in bs && b.niche == x;
          var i :| 0 <= i < |bs| && bs[i] == b;
          assert NicheList(bs)[i] == x;
        }
      }
    }
    if bs != [] {
      assert NicheList(bs)[0] in r;
    }
  }

  // ----- Grouping by metric -----

  /** The records of metric `m`, in input order. */
  function WithMetric(bs: seq<BenchmarkPageData>, m: string): (r: seq<BenchmarkPageData>)
    ensures |r| <= |bs|
    ensures forall b :: b in r ==> b in bs && b.metric == m
  {
    if bs == [] then []
    else
      var init := bs[..|bs| - 1];
      var last := bs[|bs| - 1];
      assert forall b :: b in init ==> b in bs;
      WithMetric(init, m) + (if last.metric == m then [last] else [])
  }

  /** Every record is in the group of its own metric. */
  lemma {:induction false} InOwnGroup(bs: seq<BenchmarkPageData>, b: BenchmarkPageData)
    requires b in bs
    ensures b in WithMetric(bs, b.metric)
  {
    var init := bs[..|bs| - 1];
    var last := bs[|bs| - 1];
    assert bs == init + [last];
    if b != last {
      InOwnGroup(init, b);
    }
  }

  /** A metric no record has yields an empty group. */
  lemma {:induction false} AbsentMetricEmpty(bs: seq<BenchmarkPageData>, m: string)
    requires forall b :: b in bs ==> b.metric != m
    ensures WithMetric(bs, m) == []
  {
    if bs != [] {
      var init := bs[..|bs| - 1];
      assert bs == init + [bs[|bs| - 1]];
      AbsentMetricEmpty(init, m);
    }
  }

  /**
   * The `reduce` that builds `byMetric`: a key for every metric present,
   * holding that metric's records in input order.
   */
  method GroupByMetric(bs: seq<BenchmarkPageData>) returns (byMetric: map<string, seq<BenchmarkPageData>>)
    ensures forall m :: m in byMetric <==> m in MetricList(bs)
    ensures forall m :: m in byMetric ==> byMetric[m] == WithMetric(bs, m)
  {
    byMetric := map[];
    for i := 0 to |bs|
      invariant forall m :: m in byMetric <==> m in MetricList(bs)[..i]
      invariant forall m :: m in byMetric ==> byMetric[m] == WithMetric(bs[..i], m)
    {
      var b := bs[i];
      if b.metric !in byMetric {
        forall c | c in bs[..i] ensures c.metric != b.metric {
          var k :| 0 <= k < i && bs[..i][k] == c;
          assert MetricList(bs)[..i][k] == c.metric;
        }
        AbsentMetricEmpty(bs[..i], b.metric);
        byMetric := byMetric[b.metric := []];
      }
      byMetric := byMetric[b.metric := byMetric[b.metric] + [b]];
      assert bs[..i + 1][..i] == bs[..i];
      assert MetricList(bs)[..i + 1] == MetricList(bs)[..i] + [b.metric];
    }
    assert bs[..|bs|] == bs;
    assert MetricList(bs)[..|bs|] == MetricList(bs);
  }

  /** The metrics of `bs` in the order `Object.keys(byMetric)` lists them. */
  function MetricKeys(bs: seq<BenchmarkPageData>): (r: seq<string>)
    ensures Distinct(r)
    ensures forall m :: m in r <==> m in MetricList(bs)
  {
    FirstAppearances(MetricList(bs))
  }

  function SumSizes(keys: seq<string>, bs: seq<BenchmarkPageData>): nat {
    if keys == [] then 0 else |WithMetric(bs, keys[0])| + SumSizes(keys[1..], bs)
  }

  lemma {:induction false} SumSizesStep(keys: seq<string>, init: seq<BenchmarkPageData>, b: BenchmarkPageData)
    requires Distinct(keys)
    ensures SumSizes(keys, init + [b]) == SumSizes(keys, init) + (if b.metric in keys then 1 else 0)
  {
    if keys != [] {
      assert (init + [b])[..|init|] == init;
      SumSizesStep(keys[1..], init, b);
      assert b.metric in keys <==> b.metric == keys[0] || b.metric in keys[1..];
      forall j | 0 <= j < |keys| - 1 ensures keys[1..][j] != keys[0] {
        assert keys[1..][j] == keys[j + 1];
      }
    }
  }

  lemma {:induction false} SumSizesAppend(keys: seq<string>, m: string, bs: seq<BenchmarkPageData>)
    ensures SumSizes(keys + [m], bs) == SumSizes(keys, bs) + |WithMetric(bs, m)|
  {
    if keys != [] {
      assert (keys + [m])[1..] == keys[1..] + [m];
      SumSizesAppend(keys[1..], m, bs);
    }
  }

  /** The groups partition the input: their sizes add up to the number of records. */
  lemma {:induction false} GroupSizesSum(bs: seq<BenchmarkPageData>)
    ensures SumSizes(MetricKeys(bs), bs) == |bs|
  {
    if bs != [] {
      var init := bs[..|bs| - 1];
      var b := bs[|bs| - 1];
      assert bs == init + [b];
      GroupSizesSum(init);
      var keys := MetricKeys(init);
      SumSizesStep(keys, init, b);
      MetricKeysStep(init, b);
      if b.metric !in keys {
        SumSizesAppend(keys, b.metric, bs);
        FirstOfMetric(init, b);
      }
    }
  }

  /** One more record adds its metric to the keys when the metric is new. */
  lemma MetricKeysStep(init: seq<BenchmarkPageData>, b: BenchmarkPageData)
    ensures MetricKeys(init + [b]) == if b.metric in MetricKeys(init) then MetricKeys(init) else MetricKeys(init) + [b.metric]
  {
    var bs := init + [b];
    assert MetricList(bs)[..|init|] == MetricList(init);
  }

  /** The first record of a metric is alone in its group. */
  lemma FirstOfMetric(init: seq<BenchmarkPageData>, b: BenchmarkPageData)
    requires b.metric !in MetricKeys(init)
    ensures WithMetric(init + [b], b.metric) == [b]
  {
    forall c | c in init ensures c.metric != b.metric {
      var i :| 0 <= i < |init| && init[i] == c;
      assert MetricList(init)[i] == c.metric;
    }
    AbsentMetricEmpty(init, b.metric);
    assert (init + [b])[..|init|] == init;
  }

  // ----- Sorting each group by sample size -----

  /** `b.sample_size || 0`: a missing sample size counts as 0. */
  function SizeKey(b: BenchmarkPageData): int {
    match b.sampleSize
    case Some(n) => n
    case None => 0
  }

  /** Largest sample first. */
  predicate NonIncreasing(s: seq<BenchmarkPageData>) {
    forall i, j :: 0 <= i < j < |s| ==> SizeKey(s[i]) >= SizeKey(s[j])
  }

  /** Exchanges `a[j - 1]` and `a[j]`. */
  method SwapAdjacent(a: array<BenchmarkPageData>, j: int)
    requires 0 < j < a.Length
    modifies a
    ensures a[..] == old(a[..])[j - 1 := old(a[j])][j := old(a[j - 1])]
    ensures multiset(a[..]) == multiset(old(a[..]))
  {
    a[j - 1], a[j] := a[j], a[j - 1];
  }

  /** Sorted up to `i` except that `a[j]` may be larger than the records before it. */
  predicate SortedAround(s: seq<BenchmarkPageData>, i: int, j: int)
    requires 0 <= j <= i < |s|
  {
    && (forall k, l :: 0 <= k < l <= i && k != j && l != j ==> SizeKey(s[k]) >= SizeKey(s[l]))
    && (forall l :: j < l <= i ==> SizeKey(s[j]) > SizeKey(s[l]))
  }

  /** Moves `a[i]` left past every smaller record, so that `a[..i + 1]` is sorted; the records after `i` stay where they are. */
  method InsertAt(a: array<BenchmarkPageData>, i: int)
    requires 0 <= i < a.Length && NonIncreasing(a[..i])
    modifies a
    ensures NonIncreasing(a[..i + 1])
    ensures multiset(a[..]) == multiset(old(a[..]))
    ensures a[i + 1..] == old(a[i + 1..])
  {
    var j := i;
    while j > 0 && SizeKey(a[j - 1]) < SizeKey(a[j])
      invariant 0 <= j <= i
      invariant multiset(a[..]) == multiset(old(a[..]))
      invariant a[i + 1..] == old(a[i + 1..])
      invariant SortedAround(a[..], i, j)
    {
      SwapAdjacent(a, j);
      j := j - 1;
    }
  }

  /**
   * `group.sort((a, b) => (b.sample_size || 0) - (a.sample_size || 0))`,
   * in place: the array ends up ordered by decreasing sample size and holds
   * the same records.
   */
  method SortBySampleSize(a: array<BenchmarkPageData>)
    modifies a
    ensures NonIncreasing(a[..])
    ensures multiset(a[..]) == multiset(old(a[..]))
  {
    for i := 0 to a.Length
      invariant NonIncreasing(a[..i])
      invariant multiset(a[..]) == multiset(old(a[..]))
    {
      InsertAt(a, i);
    }
    assert a[..a.Length] == a[..];
  }

  /** The `forEach` over `Object.keys(byMetric)` that sorts every group. */
  method SortGroups(byMetric: map<string, seq<BenchmarkPageData>>) returns (sorted: map<string, seq<BenchmarkPageData>>)
    ensures sorted.Keys == byMetric.Keys
    ensures forall m :: m in sorted ==>
      NonIncreasing(sorted[m]) && multiset(sorted[m]) == multiset(byMetric[m])
  {
    sorted := byMetric;
    var todo := byMetric.Keys;
    while todo != {}
      invariant todo <= byMetric.Keys && sorted.Keys == byMetric.Keys
      invariant forall m :: m in sorted ==> multiset(sorted[m]) == multiset(byMetric[m])
      invariant forall m :: m in sorted && m !in todo ==> NonIncreasing(sorted[m])
      decreases todo
    {
      var m :| m in todo;
      var group := sorted[m];
      var a := new BenchmarkPageData[|group|](i requires 0 <= i < |group| => group[i]);
      assert a[..] == group;
      SortBySampleSize(a);
      sorted := sorted[m := a[..]];
      todo := todo - {m};
    }
  }

  // ----- The three metric sections -----

  /** An entry of `METRICS`: the key, the direction and the cell formatter. */
  datatype MetricSection = MetricSection(key: string, name: string, lowerIsBetter: bool, formatValue: real -> string)

  const METRICS: seq<MetricSection> := [
    MetricSection("pagespeed_score", "PageSpeed Score", false, v => IntToString(Round(v))),
    MetricSection("lcp_ms", "Largest Contentful Paint (LCP)", true,
      v => if v >= 1000.0 then ToFixed(v / 1000.0, 1) + "s" else IntToString(Round(v)) + "ms"),
    MetricSection("trust_gap_score", "Trust Gap Score", true, v => IntToString(Round(v)))
  ]

  /** The PageSpeed section renders exactly as the shared display formatter does. */
  lemma PageSpeedFormatAgrees(v: real)
    ensures METRICS[0].formatValue(v) == FormatMetricValue(v, METRICS[0].key)
  {
    PageSpeedLacksMs();
    RoundedDisplay(v, "pagespeed_score");
  }

  /** The LCP section renders exactly as the shared display formatter does. */
  lemma LcpFormatAgrees(v: real)
    ensures METRICS[1].formatValue(v) == FormatMetricValue(v, METRICS[1].key)
  {
    MillisecondTestSubsumes("lcp_ms");
  }

  /** The Trust Gap section renders exactly as the shared display formatter does. */
  lemma TrustGapFormatAgrees(v: real)
    ensures METRICS[2].formatValue(v) == FormatMetricValue(v, METRICS[2].key)
  {
    TrustGapLacksMs();
    RoundedDisplay(v, "trust_gap_score");
  }

  /** Each section's direction flag is the one the compare widget infers from the key. */
  lemma SectionDirectionsAgree()
    ensures METRICS[0].lowerIsBetter == CompareWidgetModel.LowerIsBetter(METRICS[0].key)
    ensures METRICS[1].lowerIsBetter == CompareWidgetModel.LowerIsBetter(METRICS[1].key)
    ensures METRICS[2].lowerIsBetter == CompareWidgetModel.LowerIsBetter(METRICS[2].key)
  {
    CompareWidgetModel.LowerIsBetterMetrics();
    CompareWidgetModel.PageSpeedIsHigherBetter();
  }

  /** The "Top 10%" column. */
  function TopValue(p: PercentileStats, lowerIsBetter: bool): real {
    if lowerIsBetter then p.p10 else p.p90
  }

  /** The "Bottom 10%" column. */
  function BottomValue(p: PercentileStats, lowerIsBetter: bool): real {
    if lowerIsBetter then p.p90 else p.p10
  }

  /**
   * The "Top 10%" column shows a value the compare widget puts in its
   * Top 10% bucket; with ordered percentiles it is at least as good as the
   * "Bottom 10%" column, which then lands in the Bottom 25% bucket unless the
   * upper cut points coincide.
   */
  lemma TopAndBottomColumns(p: PercentileStats, lowerIsBetter: bool)
    ensures CompareWidgetModel.Classify(TopValue(p, lowerIsBetter), lowerIsBetter, p) == CompareWidgetModel.Top10
    ensures p.p10 <= p.p90 ==>
      if lowerIsBetter then TopValue(p, lowerIsBetter) <= BottomValue(p, lowerIsBetter)
      else TopValue(p, lowerIsBetter) >= BottomValue(p, lowerIsBetter)
    ensures lowerIsBetter && CompareWidgetModel.LowerCutsOrdered(p) && p.p75 < p.p90 ==>
      CompareWidgetModel.Classify(BottomValue(p, lowerIsBetter), lowerIsBetter, p) == CompareWidgetModel.Bottom25
    ensures !lowerIsBetter && CompareWidgetModel.HigherCutsOrdered(p) && p.p10 < p.p25 ==>
      CompareWidgetModel.Classify(BottomValue(p, lowerIsBetter), lowerIsBetter, p) == CompareWidgetModel.Bottom25
  {
  }

  datatype Row = Row(slug: string, nicheLabel: string, stores: Option<string>, median: string, top: string, bottom: string)

  /** One table row: `niche_label || niche`, the sample size if present, and the three formatted values. */
  function RowOf(section: MetricSection, b: BenchmarkPageData): (r: Row)
    ensures r.slug == b.slug
    ensures r.nicheLabel == (if b.nicheLabel != "" then b.nicheLabel else b.niche)
    ensures r.stores.Some? <==> b.sampleSize.Some?
    ensures b.sampleSize.Some? ==> r.stores == Some(LocaleString(b.sampleSize.value as real))
    ensures r.median == section.formatValue(b.percentiles.p50)
    ensures r.top == section.formatValue(TopValue(b.percentiles, section.lowerIsBetter))
    ensures r.bottom == section.formatValue(BottomValue(b.percentiles, section.lowerIsBetter))
  {
    var p := b.percentiles;
    Row(b.slug,
        if b.nicheLabel != "" then b.nicheLabel else b.niche,
        match b.sampleSize { case Some(n) => Some(LocaleString(n as real)) case None => None },
        section.formatValue(p.p50),
        section.formatValue(TopValue(p, section.lowerIsBetter)),
        section.formatValue(BottomValue(p, section.lowerIsBetter)))
  }

  function Rows(section: MetricSection, records: seq<BenchmarkPageData>): (rows: seq<Row>)
    ensures |rows| == |records|
    ensures forall i :: 0 <= i < |records| ==> rows[i] == RowOf(section, records[i])
  {
    seq(|records|, i requires 0 <= i < |records| => RowOf(section, records[i]))
  }

  datatype SectionView = SectionView(key: string, records: seq<BenchmarkPageData>, rows: seq<Row>)
  datatype IndexView = IndexView(totalNiches: nat, sections: seq<SectionView>, showEmpty: bool)

  /** A section of `section.key` lists that metric's records by decreasing sample size. */
  predicate ShowsMetric(view: SectionView, section: MetricSection, bs: seq<BenchmarkPageData>) {
    && view.key == section.key
    && multiset(view.records) == multiset(WithMetric(bs, section.key))
    && NonIncreasing(view.records)
    && view.rows == Rows(section, view.records)
  }

  /** `byMetric[metric.key] || []` and its rows. */
  method BuildSection(section: MetricSection, byMetric: map<string, seq<BenchmarkPageData>>, bs: seq<BenchmarkPageData>)
    returns (view: SectionView)
    requires forall m :: m in byMetric <==> m in MetricList(bs)
    requires forall m :: m in byMetric ==>
      NonIncreasing(byMetric[m]) && multiset(byMetric[m]) == multiset(WithMetric(bs, m))
    ensures ShowsMetric(view, section, bs)
  {
    var key := section.key;
    var records := if key in byMetric then byMetric[key] else [];
    if key !in byMetric {
      forall c | c in bs ensures c.metric != key {
        var k :| 0 <= k < |bs| && bs[k] == c;
        assert MetricList(bs)[k] == c.metric;
      }
      AbsentMetricEmpty(bs, key);
    }
    view := SectionView(key, records, Rows(section, records));
  }

  /**
   * `BenchmarksIndexPage`: one section per entry of `METRICS`, each listing
   * the records of its key by decreasing sample size, the niche count, and
   * the "No benchmarks" notice exactly when there are no records at all.
   */
  method RenderIndex(bs: seq<BenchmarkPageData>) returns (view: IndexView)
    ensures view.totalNiches == TotalNiches(bs)
    ensures view.showEmpty <==> bs == []
    ensures |view.sections| == |METRICS|
    ensures forall s :: 0 <= s < |METRICS| ==> ShowsMetric(view.sections[s], METRICS[s], bs)
    ensures view.showEmpty ==> forall s :: 0 <= s < |METRICS| ==> view.sections[s].rows == []
  {
    var byMetric := GroupByMetric(bs);
    var sorted := SortGroups(byMetric);
    var metrics := METRICS;
    var sections: seq<SectionView> := [];
    for s := 0 to |metrics|
      invariant |sections| == s
      invariant forall t :: 0 <= t < s ==> ShowsMetric(sections[t], metrics[t], bs)
    {
      var section := BuildSection(metrics[s], sorted, bs);
      sections := sections + [section];
    }
    view := IndexView(TotalNiches(bs), sections, |bs| == 0);
    if bs == [] {
      forall s | 0 <= s < |metrics| ensures view.sections[s].rows == [] {
        assert multiset(view.sections[s].records) == multiset{};
      }
    }
  }
}
