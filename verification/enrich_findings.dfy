/**
 * The key-finding templates of nextjs-temp/scripts/enrich-benchmarks.js
 * (`keyFindingTemplates`, five per metric) and `generateKeyFindings`, which
 * applies the first four and drops empty results.
 */
module EnrichFindings {
  import opened Text
  import opened Numbers
  import opened Types
  import opened EnrichConfig

  /** `formatMs(ms)`: seconds with one decimal from 1000 up, rounded milliseconds below. */
  function FormatMs(ms: real): string {
    if ms >= 1000.0 then ToFixed(ms / 1000.0, 1) + "s" else IntToString(Round(ms)) + "ms"
  }

  /** `String(Math.round(x))` for a finite number. */
  function RoundText(x: real): string {
    IntToString(Round(x))
  }

  /** `String(Math.round(n / d))`, where a zero divisor yields an infinity or NaN. */
  function RoundedQuotientText(n: real, d: real): string {
    if d != 0.0 then RoundText(n / d)
    else if n > 0.0 then "Infinity"
    else if n < 0.0 then "-Infinity"
    else "NaN"
  }

  /** `String(Math.round((1 - p10 / p50) * 100))`, including its zero-median renderings. */
  function FasterPercentText(p10: real, p50: real): string {
    if p50 != 0.0 then RoundText((1.0 - p10 / p50) * 100.0)
    else if p10 > 0.0 then "-Infinity"
    else if p10 < 0.0 then "Infinity"
    else "NaN"
  }

  const LCP_EXCEEDS := "which exceeds Google's recommended 2.5s threshold"
  const LCP_MEETS := "meeting Google's recommended threshold"

  function LcpFinding1(data: BenchmarkPageData): (r: string)
    ensures r != []
  {
    var p := data.percentiles;
    "The median " + data.nicheLabel + " store has an LCP of " + FormatMs(p.p50) + ", "
      + (if p.p50 > 2500.0 then LCP_EXCEEDS else LCP_MEETS)
  }

  function LcpFinding2(data: BenchmarkPageData): (r: string)
    ensures r != []
  {
    var p := data.percentiles;
    "Top-performing stores (P10) achieve LCP of " + FormatMs(p.p10) + " - "
      + FasterPercentText(p.p10, p.p50) + "% faster than the median"
  }

  function LcpFinding3(data: BenchmarkPageData): (r: string)
    ensures r != []
  {
    var p := data.percentiles;
    "A " + RoundedQuotientText(p.p90, p.p10) + "x performance gap exists between the fastest and slowest stores in this niche"
  }

  function LcpFinding4(data: BenchmarkPageData): (r: string)
    ensures r != []
  {
    if data.percentiles.p10 <= 2500.0
    then "Only stores in the top 10% meet Google's \"good\" LCP threshold of 2.5 seconds or less"
    else "Even the fastest stores in this niche exceed Google's 2.5s \"good\" threshold"
  }

  function LcpFinding5(data: BenchmarkPageData): (r: string)
    ensures r != []
  {
    if data.percentiles.p25 > 4000.0
    then "Over 75% of stores in this niche have \"poor\" LCP scores by Google's standards"
    else "Most stores in this niche have room to improve their loading speed"
  }

  function PageSpeedFinding1(data: BenchmarkPageData): (r: string)
    ensures r != []
  {
    var mean := data.percentiles.mean;
    "The average " + data.nicheLabel + " store scores " + RoundText(mean) + " on PageSpeed, "
      + (if mean < 50.0 then "falling into Google's \"poor\" category"
         else if mean < 90.0 then "in the \"needs improvement\" range"
         else "achieving \"good\" status")
  }

  function PageSpeedFinding2(data: BenchmarkPageData): (r: string)
    ensures r != []
  {
    "Top 10% of stores achieve scores of " + RoundText(data.percentiles.p90) + "+, giving them a significant competitive advantage"
  }

  function PageSpeedFinding3(data: BenchmarkPageData): (r: string)
    ensures r != []
  {
    var p := data.percentiles;
    "There's a " + RoundText(p.p90 - p.p10) + " point gap between top and bottom performers in this niche"
  }

  function PageSpeedFinding4(data: BenchmarkPageData): (r: string)
    ensures r != []
  {
    var p := data.percentiles;
    (if p.p50 < 50.0 then "More than half of stores" else if p.p75 < 50.0 then "Over 25% of stores" else "Some stores")
      + " in this niche fall below Google's minimum acceptable threshold"
  }

  function PageSpeedFinding5(data: BenchmarkPageData): (r: string)
    ensures r != []
  {
    var p := data.percentiles;
    "Improving from median (" + RoundText(p.p50) + ") to top 25% (" + RoundText(p.p75) + ") could significantly impact your search rankings"
  }

  function TrustGapFinding1(data: BenchmarkPageData): (r: string)
    ensures r != []
  {
    var p50 := data.percentiles.p50;
    "The median " + data.nicheLabel + " store has a trust gap of " + RoundText(p50) + ", indicating "
      + (if p50 > 50.0 then "significant room for improvement" else "moderate trust signal implementation")
  }

  function TrustGapFinding2(data: BenchmarkPageData): (r: string)
    ensures r != []
  {
    "Best-in-class stores (P10) achieve trust gap scores of just " + RoundText(data.percentiles.p10) + ", showing strong trust signal optimization"
  }

  const TRUST_SPREAD := " point spread between top and bottom performers shows trust optimization is a key differentiator"

  function TrustGapFinding3(data: BenchmarkPageData): (r: string)
    ensures r != []
  {
    var p := data.percentiles;
    "The " + RoundText(p.p90 - p.p10) + TRUST_SPREAD
  }

  function TrustGapFinding4(data: BenchmarkPageData): (r: string)
    ensures r != []
  {
    data.nicheLabel + " shoppers have specific trust expectations that "
      + (if data.percentiles.p50 > 40.0 then "many stores are failing to meet" else "most stores partially address")
  }

  function TrustGapFinding5(data: BenchmarkPageData): (r: string)
    ensures r != []
  {
    "Reducing your trust gap from median to top 25% could meaningfully improve your conversion rate"
  }

  /** `keyFindingTemplates` of each configuration, in order. */
  function Templates(id: MetricId): (ts: seq<BenchmarkPageData -> string>)
    ensures |ts| == 5
  {
    match id
    case Lcp => [LcpFinding1, LcpFinding2, LcpFinding3, LcpFinding4, LcpFinding5]
    case PageSpeed => [PageSpeedFinding1, PageSpeedFinding2, PageSpeedFinding3, PageSpeedFinding4, PageSpeedFinding5]
    case TrustGap => [TrustGapFinding1, TrustGapFinding2, TrustGapFinding3, TrustGapFinding4, TrustGapFinding5]
  }

  /** No template yields an empty sentence. */
  lemma TemplatesNonEmpty(data: BenchmarkPageData, id: MetricId)
    ensures forall k :: 0 <= k < 5 ==> Templates(id)[k](data) != []
  {
    var ts := Templates(id);
    forall k | 0 <= k < 5 ensures ts[k](data) != [] {
      match id
      case Lcp => assert ts == [LcpFinding1, LcpFinding2, LcpFinding3, LcpFinding4, LcpFinding5];
      case PageSpeed => assert ts == [PageSpeedFinding1, PageSpeedFinding2, PageSpeedFinding3, PageSpeedFinding4, PageSpeedFinding5];
      case TrustGap => assert ts == [TrustGapFinding1, TrustGapFinding2, TrustGapFinding3, TrustGapFinding4, TrustGapFinding5];
    }
  }

  /** `.filter(Boolean)` on strings: drops the empty ones, keeps the order. */
  function NonEmpty(xs: seq<string>): (r: seq<string>)
    ensures |r| <= |xs|
    ensures forall x :: x in r ==> x in xs && x != []
  {
    if xs == [] then []
    else (if xs[0] != [] then [xs[0]] else []) + NonEmpty(xs[1..])
  }

  lemma {:induction false} NonEmptyKeepsAll(xs: seq<string>)
    requires forall i :: 0 <= i < |xs| ==> xs[i] != []
    ensures NonEmpty(xs) == xs
  {
    if xs != [] {
      NonEmptyKeepsAll(xs[1..]);
    }
  }

  /** `generateKeyFindings`: `templates.slice(0, 4).map(t => t(data)).filter(Boolean)`. */
  function KeyFindings(data: BenchmarkPageData, id: MetricId): (r: seq<string>)
    ensures |r| <= 4
  {
    var ts := Take(Templates(id), 4);
    NonEmpty(seq(|ts|, k requires 0 <= k < |ts| => ts[k](data)))
  }

  /**
   * Exactly four findings: the first four templates applied to the record,
   * in order; no template yields an empty sentence and the fifth is never used.
   */
  lemma KeyFindingsAreFirstFour(data: BenchmarkPageData, id: MetricId)
    ensures |KeyFindings(data, id)| == 4
    ensures forall k :: 0 <= k < 4 ==> KeyFindings(data, id)[k] == Templates(id)[k](data)
  {
    var ts := Take(Templates(id), 4);
    var applied := seq(|ts|, k requires 0 <= k < |ts| => ts[k](data));
    TemplatesNonEmpty(data, id);
    NonEmptyKeepsAll(applied);
  }

  /** The first LCP finding ends with the "exceeds" clause exactly when the median is over 2500 ms. */
  lemma LcpMedianClause(data: BenchmarkPageData)
    ensures EndsWith(LcpFinding1(data), LCP_EXCEEDS) <==> data.percentiles.p50 > 2500.0
  {
    var p := data.percentiles;
    var head := "The median " + data.nicheLabel + " store has an LCP of " + FormatMs(p.p50) + ", ";
    var s := LcpFinding1(data);
    if p.p50 > 2500.0 {
      assert s == head + LCP_EXCEEDS;
      assert s[|s| - |LCP_EXCEEDS|..] == LCP_EXCEEDS;
    } else {
      assert s == head + LCP_MEETS;
      assert s[|s| - 11] == 'd';
      if |LCP_EXCEEDS| <= |s| {
        assert s[|s| - |LCP_EXCEEDS|..][|LCP_EXCEEDS| - 11] == s[|s| - 11];
        assert LCP_EXCEEDS[|LCP_EXCEEDS| - 11] == 's';
      }
    }
  }
}
