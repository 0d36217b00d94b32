/**
 * The "Compare Your Store" widget
 * (nextjs-temp/src/components/benchmarks/CompareWidget.tsx): the visitor
 * types a value, and `handleCompare` places it in one of five percentile
 * buckets of the benchmark's distribution.
 */
module CompareWidgetModel {
  import opened Wrappers
  import opened Text
  import opened Numbers
  import opened Types

  /** Metrics whose name mentions "_ms", "gap" or "cls" are lower-is-better. */
  predicate LowerIsBetter(metric: string) {
    Contains(metric, "_ms") || Contains(metric, "gap") || Contains(metric, "cls")
  }

  lemma LowerIsBetterMetrics()
    ensures LowerIsBetter("lcp_ms") && LowerIsBetter("ttfb_ms")
    ensures LowerIsBetter("trust_gap_score") && LowerIsBetter("cls_score")
  {
    ContainsIffOccurs("lcp_ms", "_ms");
    assert OccursAt("lcp_ms", "_ms", 3);
    ContainsIffOccurs("ttfb_ms", "_ms");
    assert OccursAt("ttfb_ms", "_ms", 4);
    ContainsIffOccurs("trust_gap_score", "gap");
    assert OccursAt("trust_gap_score", "gap", 6);
    ContainsIffOccurs("cls_score", "cls");
    assert OccursAt("cls_score", "cls", 0);
  }

  lemma PageSpeedLacksGap()
    ensures !Contains("pagespeed_score", "gap")
  {
    NoAdjacentPair("pagespeed_score", "gap");
  }

  lemma PageSpeedLacksCls()
    ensures !Contains("pagespeed_score", "cls")
  {
    NoAdjacentPair("pagespeed_score", "cls");
  }

  lemma PageSpeedIsHigherBetter()
    ensures !LowerIsBetter("pagespeed_score")
  {
    PageSpeedLacksMs();
    PageSpeedLacksGap();
    PageSpeedLacksCls();
  }

  datatype Bucket = Top10 | Top25 | Top50 | Bottom50 | Bottom25

  /** Better buckets rank higher. */
  function BucketRank(b: Bucket): (n: nat)
    ensures n <= 4
    ensures b == Top10 <==> n == 4
    ensures b == Bottom25 <==> n == 0
  {
    match b
    case Bottom25 => 0
    case Bottom50 => 1
    case Top50 => 2
    case Top25 => 3
    case Top10 => 4
  }

  /** The bucket of `value`: the first cut point it is on the good side of. */
  function Classify(value: real, lowerIsBetter: bool, p: PercentileStats): Bucket {
    if lowerIsBetter then
      if value <= p.p10 then Top10
      else if value <= p.p25 then Top25
      else if value <= p.p50 then Top50
      else if value <= p.p75 then Bottom50
      else Bottom25
    else
      if value >= p.p90 then Top10
      else if value >= p.p75 then Top25
      else if value >= p.p50 then Top50
      else if value >= p.p25 then Bottom50
      else Bottom25
  }

  predicate LowerCutsOrdered(p: PercentileStats) {
    p.p10 <= p.p25 <= p.p50 <= p.p75
  }

  predicate HigherCutsOrdered(p: PercentileStats) {
    p.p25 <= p.p50 <= p.p75 <= p.p90
  }

  /**
   * Lower-is-better: "Top 10%" exactly at or below p10; "Bottom 25%" exactly
   * above every cut point, which with ordered percentiles is above p75, and
   * then each bucket is the half-open interval between two cut points.
   */
  lemma LowerBuckets(value: real, p: PercentileStats)
    ensures Classify(value, true, p) == Top10 <==> value <= p.p10
    ensures Classify(value, true, p) == Bottom25
            <==> value > p.p10 && value > p.p25 && value > p.p50 && value > p.p75
    ensures LowerCutsOrdered(p) ==>
      && (Classify(value, true, p) == Top25 <==> p.p10 < value <= p.p25)
      && (Classify(value, true, p) == Top50 <==> p.p25 < value <= p.p50)
      && (Classify(value, true, p) == Bottom50 <==> p.p50 < value <= p.p75)
      && (Classify(value, true, p) == Bottom25 <==> p.p75 < value)
  {
  }

  /** Higher-is-better: the mirror image with cut points p90, p75, p50 and p25. */
  lemma HigherBuckets(value: real, p: PercentileStats)
    ensures Classify(value, false, p) == Top10 <==> value >= p.p90
    ensures Classify(value, false, p) == Bottom25
            <==> value < p.p90 && value < p.p75 && value < p.p50 && value < p.p25
    ensures HigherCutsOrdered(p) ==>
      && (Classify(value, false, p) == Top25 <==> p.p75 <= value < p.p90)
      && (Classify(value, false, p) == Top50 <==> p.p50 <= value < p.p75)
      && (Classify(value, false, p) == Bottom50 <==> p.p25 <= value < p.p50)
      && (Classify(value, false, p) == Bottom25 <==> value < p.p25)
  {
  }

  /** A value that is at least as good never lands in a worse bucket, whether or not the percentiles are ordered. */
  lemma ClassifyMonotone(v: real, w: real, lowerIsBetter: bool, p: PercentileStats)
    requires if lowerIsBetter then v <= w else w <= v
    ensures BucketRank(Classify(v, lowerIsBetter, p)) >= BucketRank(Classify(w, lowerIsBetter, p))
  {
  }

  /** Percentiles of the negated sample: p10 and p90 swap places, as do p25 and p75. */
  function Negated(p: PercentileStats): (q: PercentileStats)
    ensures q.p10 == -p.p90 && q.p25 == -p.p75 && q.p50 == -p.p50
    ensures q.p75 == -p.p25 && q.p90 == -p.p10
  {
    PercentileStats(-p.p90, -p.p75, -p.p50, -p.p25, -p.p10, -p.mean, p.stdDev, None, None)
  }

  /** The two directions use one table: lower-is-better is higher-is-better on negated values. */
  lemma DirectionsMirror(value: real, p: PercentileStats)
    ensures Classify(value, true, p) == Classify(-value, false, Negated(p))
  {
  }

  datatype CompareResult = CompareResult(percentile: string, message: string, color: string)

  /** The label, message and colour shown for each bucket. */
  function Display(b: Bucket): CompareResult {
    match b
    case Top10 => CompareResult("Top 10%", "Excellent! You're outperforming most stores.", "text-green-600")
    case Top25 => CompareResult("Top 25%", "Great! You're ahead of most stores.", "text-green-500")
    case Top50 => CompareResult("Top 50%", "You're doing better than average.", "text-yellow-600")
    case Bottom50 => CompareResult("Bottom 50%", "There's room for improvement.", "text-orange-500")
    case Bottom25 => CompareResult("Bottom 25%", "This needs attention. Consider a CRO audit.", "text-red-500")
  }

  /** Distinct buckets show distinct labels and colours, so the result names its bucket. */
  lemma DisplayDistinguishes(a: Bucket, b: Bucket)
    requires a != b
    ensures Display(a).percentile != Display(b).percentile
    ensures Display(a).color != Display(b).color
  {
  }

  /**
   * The three "Quick reference" values as written: the median, then p75
   * labelled "Top 25%" and p90 labelled "Top 10%", whatever the direction.
   */
  function QuickReferenceAsWritten(p: PercentileStats): (r: seq<real>)
    ensures |r| == 3 && r[0] == p.p50 && r[1] == p.p75 && r[2] == p.p90
  {
    [p.p50, p.p75, p.p90]
  }

  /**
   * For a lower-is-better metric the value shown as "Top 10%" is classified
   * "Bottom 25%" as soon as p75 < p90: with LCP percentiles 1000, 1500,
   * 2000, 3000, 5000 ms the reference says "Top 10%: 5.0s", and entering
   * 5000 gives "Bottom 25%".
   */
  lemma QuickReferenceMislabels(metric: string, p: PercentileStats)
    requires LowerIsBetter(metric) && LowerCutsOrdered(p) && p.p75 < p.p90
    ensures Classify(QuickReferenceAsWritten(p)[2], LowerIsBetter(metric), p) == Bottom25
  {
  }

  lemma QuickReferenceLcpExample()
    ensures var p := PercentileStats(1000.0, 1500.0, 2000.0, 3000.0, 5000.0, 2500.0, None, None, None);
      && FormatMetricValue(QuickReferenceAsWritten(p)[2], "lcp_ms") == ToFixed(5.0, 1) + "s"
      && Classify(QuickReferenceAsWritten(p)[2], LowerIsBetter("lcp_ms"), p) == Bottom25
  {
    LowerIsBetterMetrics();
    var p := PercentileStats(1000.0, 1500.0, 2000.0, 3000.0, 5000.0, 2500.0, None, None, None);
    QuickReferenceMislabels("lcp_ms", p);
    ContainsIffOccurs("lcp_ms", "_ms");
    assert OccursAt("lcp_ms", "_ms", 3);
  }

  /** The reference values with the direction taken into account, as the benchmarks index page does. */
  function QuickReference(metric: string, p: PercentileStats): (r: seq<real>)
    ensures |r| == 3 && r[0] == p.p50
  {
    if LowerIsBetter(metric) then [p.p50, p.p25, p.p10] else [p.p50, p.p75, p.p90]
  }

  /**
   * Each corrected reference value lands in the bucket of its label:
   * "Top 10%" in Top 10%, "Top 25%" in Top 25% or better, the median in
   * Top 50% or better.
   */
  lemma QuickReferenceAgrees(metric: string, p: PercentileStats)
    ensures var r := QuickReference(metric, p);
      && Classify(r[2], LowerIsBetter(metric), p) == Top10
      && BucketRank(Classify(r[1], LowerIsBetter(metric), p)) >= BucketRank(Top25)
      && BucketRank(Classify(r[0], LowerIsBetter(metric), p)) >= BucketRank(Top50)
  {
  }

  /** The widget's state: the typed text and the last result shown. */
  class CompareWidget {
    const metric: string
    const percentiles: PercentileStats
    var value: string
    var result: Option<CompareResult>

    constructor (metric: string, percentiles: PercentileStats)
      ensures this.metric == metric && this.percentiles == percentiles
      ensures value == "" && result == None
    {
      this.metric := metric;
      this.percentiles := percentiles;
      value := "";
      result := None;
    }

    /** The input's `onChange`. */
    method SetValue(text: string)
      modifies this`value
      ensures value == text
    {
      value := text;
    }

    /**
     * `handleCompare`: a text that is not a number leaves the result as it
     * was; otherwise the result becomes the display of the value's bucket.
     */
    method HandleCompare()
      modifies this`result
      ensures ParseDecimal(value).None? ==> result == old(result)
      ensures ParseDecimal(value).Some? ==>
        result == Some(Display(Classify(ParseDecimal(value).value, LowerIsBetter(metric), percentiles)))
    {
      var parsed := ParseDecimal(value);
      if parsed.None? {
        return;
      }
      var numValue := parsed.value;
      var percentile: string, message: string, color: string;
      var lowerIsBetter := Contains(metric, "_ms") || Contains(metric, "gap") || Contains(metric, "cls");
      if lowerIsBetter {
        if numValue <= percentiles.p10 {
          percentile, message, color := "Top 10%", "Excellent! You're outperforming most stores.", "text-green-600";
        } else if numValue <= percentiles.p25 {
          percentile, message, color := "Top 25%", "Great! You're ahead of most stores.", "text-green-500";
        } else if numValue <= percentiles.p50 {
          percentile, message, color := "Top 50%", "You're doing better than average.", "text-yellow-600";
        } else if numValue <= percentiles.p75 {
          percentile, message, color := "Bottom 50%", "There's room for improvement.", "text-orange-500";
        } else {
          percentile, message, color := "Bottom 25%", "This needs attention. Consider a CRO audit.", "text-red-500";
        }
      } else {
        if numValue >= percentiles.p90 {
          percentile, message, color := "Top 10%", "Excellent! You're outperforming most stores.", "text-green-600";
        } else if numValue >= percentiles.p75 {
          percentile, message, color := "Top 25%", "Great! You're ahead of most stores.", "text-green-500";
        } else if numValue >= percentiles.p50 {
          percentile, message, color := "Top 50%", "You're doing better than average.", "text-yellow-600";
        } else if numValue >= percentiles.p25 {
          percentile, message, color := "Bottom 50%", "There's room for improvement.", "text-orange-500";
        } else {
          percentile, message, color := "Bottom 25%", "This needs attention. Consider a CRO audit.", "text-red-500";
        }
      }
      result := Some(CompareResult(percentile, message, color));
    }

    /** The "Quick reference" lines: median, "Top 25%" and "Top 10%", formatted for the metric. */
    function QuickReferenceText(): (r: seq<string>)
      reads this
      ensures |r| == 3
      ensures forall i :: 0 <= i < 3 ==> r[i] == FormatMetricValue(QuickReference(metric, percentiles)[i], metric)
    {
      var q := QuickReference(metric, percentiles);
      [FormatMetricValue(q[0], metric), FormatMetricValue(q[1], metric), FormatMetricValue(q[2], metric)]
    }
  }
}
