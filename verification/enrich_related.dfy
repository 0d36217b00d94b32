/**
 * `generateRelatedBenchmarks` of nextjs-temp/scripts/enrich-benchmarks.js:
 * up to two other metrics of the same niche and up to two adjacent niches
 * of the same metric, each titled by parsing its slug.
 */
module EnrichRelated {
  import opened Wrappers
  import opened Text
  import opened Types
  import opened EnrichConfig

  /** `metric.replace('_score', '').replace('_ms', '')`: the token a slug of that metric is expected to contain. */
  function MetricToken(metric: string): string {
    ReplaceFirst(ReplaceFirst(metric, "_score", ""), "_ms", "")
  }

  /**
   * A metric key that ends in "_score" at `k`, with no earlier "_s" and no
   * 'm' before it, has everything before "_score" as its token.
   */
  lemma ScoreToken(metric: string, k: nat)
    requires OccursAt(metric, "_score", k) && |metric| == k + 6
    requires forall j :: 0 <= j < k ==> metric[j] != 'm' && (metric[j] != '_' || metric[j + 1] != 's')
    ensures MetricToken(metric) == metric[..k]
  {
    FirstOccurrence(metric, "_score", k);
    assert metric[k + 6..] == [];
    assert ReplaceFirst(metric, "_score", "") == metric[..k];
    MissingChar(metric[..k], "_ms", 1);
  }

  /** A metric key that ends in "_ms" at `k`, with no '_' and no 'o' before it, has everything before "_ms" as its token. */
  lemma MsToken(metric: string, k: nat)
    requires OccursAt(metric, "_ms", k) && |metric| == k + 3
    requires forall j :: 0 <= j < k ==> metric[j] != '_' && metric[j] != 'o'
    ensures MetricToken(metric) == metric[..k]
  {
    forall j | 0 <= j < |metric| ensures metric[j] != 'o' {
      if j >= k {
        assert metric[j] == metric[k..k + 3][j - k];
      }
    }
    MissingChar(metric, "_score", 3);
    FirstOccurrence(metric, "_ms", k);
    assert metric[k + 3..] == [];
  }

  /** The tokens of the three supported metrics: "lcp", "pagespeed" and "trust_gap". */
  lemma LcpToken()
    ensures MetricToken("lcp_ms") == "lcp_ms"[..3]
  {
    MsToken("lcp_ms", 3);
  }

  lemma PageSpeedToken()
    ensures MetricToken("pagespeed_score") == "pagespeed_score"[..9]
  {
    ScoreToken("pagespeed_score", 9);
  }

  lemma TrustGapToken()
    ensures MetricToken("trust_gap_score") == "trust_gap_score"[..9]
  {
    ScoreToken("trust_gap_score", 9);
  }

  /** `relatedNiches.some(n => s.includes(n))`. */
  predicate MentionsAny(s: string, niches: seq<string>) {
    exists n :: n in niches && Contains(s, n)
  }

  /** Slugs of the same niche but, judging by the metric token, another metric. */
  predicate SameNicheOther(s: string, niche: string, token: string) {
    Contains(s, niche) && !Contains(s, token)
  }

  /** Slugs of the same metric (by token) and of one of the related niches. */
  predicate SameMetricRelated(s: string, token: string, related: seq<string>) {
    Contains(s, token) && MentionsAny(s, related)
  }

  /** `sameNicheOtherMetrics`: the first two listed slugs of the niche that lack the token. */
  function SameNicheOtherMetrics(niche: string, token: string, allSlugs: seq<string>): seq<string> {
    Take(Filter(allSlugs, s => SameNicheOther(s, niche, token)), 2)
  }

  /** `sameMetricRelatedNiches`: the first two listed slugs with the token and a related niche. */
  function SameMetricRelatedNiches(token: string, related: seq<string>, allSlugs: seq<string>): seq<string> {
    Take(Filter(allSlugs, s => SameMetricRelated(s, token, related)), 2)
  }

  /** `Take(xs, 2)` keeps up to two elements, all of them when there are fewer than two. */
  lemma TakeTwo(xs: seq<string>)
    ensures |Take(xs, 2)| <= 2
    ensures forall x :: x in Take(xs, 2) ==> x in xs
    ensures |Take(xs, 2)| < 2 ==> Take(xs, 2) == xs
  {
    if |xs| >= 2 {
      assert Take(xs, 2) == xs[..2];
    }
  }

  /**
   * The same-niche list: at most two slugs, each containing the niche and
   * not the metric token; when it has fewer than two, it holds every such
   * slug of the listing.
   */
  lemma SameNicheSelection(niche: string, token: string, allSlugs: seq<string>)
    ensures var picked := SameNicheOtherMetrics(niche, token, allSlugs);
      && |picked| <= 2
      && (forall s :: s in picked ==> s in allSlugs && SameNicheOther(s, niche, token))
      && (|picked| < 2 ==> forall s :: s in allSlugs && SameNicheOther(s, niche, token) ==> s in picked)
  {
    TakeTwo(Filter(allSlugs, s => SameNicheOther(s, niche, token)));
  }

  /**
   * The related-niche list: at most two slugs, each containing the metric
   * token and a related niche; empty when there are no related niches;
   * complete when shorter than two.
   */
  lemma RelatedNicheSelection(token: string, related: seq<string>, allSlugs: seq<string>)
    ensures var picked := SameMetricRelatedNiches(token, related, allSlugs);
      && |picked| <= 2
      && (forall s :: s in picked ==> s in allSlugs && SameMetricRelated(s, token, related))
      && (|picked| < 2 ==> forall s :: s in allSlugs && SameMetricRelated(s, token, related) ==> s in picked)
      && (related == [] ==> picked == [])
  {
    var matching := Filter(allSlugs, s => SameMetricRelated(s, token, related));
    TakeTwo(matching);
    if related == [] {
      forall i | 0 <= i < |allSlugs| ensures !SameMetricRelated(allSlugs[i], token, related) { }
    }
  }

  /** The label for the first slug token: 'lcp', 'pagespeed', anything else is a trust gap. */
  function MetricLabel(token: string): string {
    if token == "lcp" then "LCP" else if token == "pagespeed" then "PageSpeed" else "Trust Gap"
  }

  /**
   * The title built from a slug: drop the first "shopify-", split on "-",
   * read the metric from the first token and the niche from the rest (after
   * a second token for "trust-gaps-..."), and capitalise the niche words.
   */
  function SlugTitle(slug: string): string {
    TitleOfParts(Split(ReplaceFirst(slug, "shopify-", ""), '-'))
  }

  /** The title read from the "-"-separated tokens of a slug. */
  function TitleOfParts(parts: seq<string>): string
    requires |parts| >= 1
  {
    var metric := parts[0];
    var niche := if metric == "trust" then Join(Drop(parts, 2), "-") else Join(Drop(parts, 1), "-");
    var nicheLabel := Join(CapitalizeAll(Split(niche, '-')), " ");
    MetricLabel(metric) + " - " + nicheLabel
  }

  /** What is left of a slug once its first "shopify-" is removed. */
  predicate SlugBody(slug: string, body: string) {
    slug == "shopify-" + body || (slug == body && !Contains(body, "shopify-"))
  }

  lemma StripShopify(slug: string, body: string)
    requires SlugBody(slug, body)
    ensures ReplaceFirst(slug, "shopify-", "") == body
  {
    if slug == "shopify-" + body {
      StripLeadingPattern("shopify-", body);
    }
  }

  predicate Words(words: seq<string>) {
    |words| >= 1 && forall i :: 0 <= i < |words| ==> '-' !in words[i]
  }

  /**
   * A slug "[shopify-]<metric>-<niche words>" is titled with the metric's
   * label and the capitalised niche words separated by spaces.
   */
  lemma SlugTitleOfMetricSlug(slug: string, metric: string, words: seq<string>)
    requires '-' !in metric && metric != "trust" && Words(words)
    requires SlugBody(slug, metric + "-" + Join(words, "-"))
    ensures SlugTitle(slug) == MetricLabel(metric) + " - " + Join(CapitalizeAll(words), " ")
  {
    var body := metric + "-" + Join(words, "-");
    StripShopify(slug, body);
    SplitAtFirstSeparator(metric, '-', Join(words, "-"));
    SplitJoin(words, '-');
    MetricTitle(metric, words);
  }

  lemma MetricTitle(metric: string, words: seq<string>)
    requires metric != "trust" && Words(words)
    ensures TitleOfParts([metric] + words) == MetricLabel(metric) + " - " + Join(CapitalizeAll(words), " ")
  {
    assert Drop([metric] + words, 1) == words;
    SplitJoin(words, '-');
  }

  /** "trust-<second>-<niche words>" splits into "trust", the second token and the words. */
  lemma TrustSlugParts(body: string, second: string, words: seq<string>)
    requires '-' !in second && Words(words)
    requires body == "trust-" + second + "-" + Join(words, "-")
    ensures Split(body, '-') == ["trust", second] + words
  {
    var rest := second + "-" + Join(words, "-");
    assert body == "trust" + "-" + rest;
    SplitAtFirstSeparator("trust", '-', rest);
    SplitAtFirstSeparator(second, '-', Join(words, "-"));
    SplitJoin(words, '-');
  }

  /** A slug "[shopify-]trust-<second token>-<niche words>" is titled "Trust Gap - <Niche Words>". */
  lemma SlugTitleOfTrustSlug(slug: string, second: string, words: seq<string>)
    requires '-' !in second && Words(words)
    requires SlugBody(slug, "trust-" + second + "-" + Join(words, "-"))
    ensures SlugTitle(slug) == "Trust Gap - " + Join(CapitalizeAll(words), " ")
  {
    var body := "trust-" + second + "-" + Join(words, "-");
    StripShopify(slug, body);
    TrustSlugParts(body, second, words);
    TrustTitle(second, words);
  }

  lemma TrustTitle(second: string, words: seq<string>)
    requires Words(words)
    ensures TitleOfParts(["trust", second] + words) == "Trust Gap - " + Join(CapitalizeAll(words), " ")
  {
    assert Drop(["trust", second] + words, 2) == words;
    SplitJoin(words, '-');
  }

  /** The slugs `generateRelatedBenchmarks` links to: the same-niche ones, then the related-niche ones. */
  function RelatedSlugs(data: BenchmarkPageData, allSlugs: seq<string>): seq<string> {
    var token := MetricToken(data.metric);
    SameNicheOtherMetrics(data.niche, token, allSlugs) + SameMetricRelatedNiches(token, RelatedNiches(data.niche), allSlugs)
  }

  /** `generateRelatedBenchmarks`: the same-niche slugs, then the related-niche slugs, each with its title. */
  function GenerateRelatedBenchmarks(data: BenchmarkPageData, allSlugs: seq<string>): (r: seq<RelatedBenchmark>)
    ensures |r| == |RelatedSlugs(data, allSlugs)|
    ensures forall i :: 0 <= i < |r| ==> r[i].slug == RelatedSlugs(data, allSlugs)[i]
    ensures forall i :: 0 <= i < |r| ==> r[i].title == SlugTitle(r[i].slug) && r[i].anchorText.None?
  {
    var picked := RelatedSlugs(data, allSlugs);
    seq(|picked|, i requires 0 <= i < |picked| => RelatedBenchmark(picked[i], SlugTitle(picked[i]), None))
  }

  /** The first two elements of a filtered list are at most two elements of the list. */
  lemma FirstTwoListed(xs: seq<string>, p: string -> bool)
    ensures |Take(Filter(xs, p), 2)| <= 2
    ensures forall i :: 0 <= i < |Take(Filter(xs, p), 2)| ==> Take(Filter(xs, p), 2)[i] in xs
  {
    var t := Take(Filter(xs, p), 2);
    forall i | 0 <= i < |t| ensures t[i] in xs {
      assert t[i] in Filter(xs, p);
    }
  }

  /** Two lists of listed elements make a listed list. */
  lemma AppendListed(a: seq<string>, b: seq<string>, xs: seq<string>)
    requires forall i :: 0 <= i < |a| ==> a[i] in xs
    requires forall i :: 0 <= i < |b| ==> b[i] in xs
    ensures forall i :: 0 <= i < |a + b| ==> (a + b)[i] in xs
  {
    forall i | 0 <= i < |a + b| ensures (a + b)[i] in xs {
      if i < |a| { assert (a + b)[i] == a[i]; } else { assert (a + b)[i] == b[i - |a|]; }
    }
  }

  /** Every related link goes to one of at most four listed slugs. */
  lemma RelatedBounds(data: BenchmarkPageData, allSlugs: seq<string>)
    ensures var r := RelatedSlugs(data, allSlugs);
      && |r| <= 4
      && forall i :: 0 <= i < |r| ==> r[i] in allSlugs
  {
    var token := MetricToken(data.metric);
    var related := RelatedNiches(data.niche);
    FirstTwoListed(allSlugs, s => SameNicheOther(s, data.niche, token));
    FirstTwoListed(allSlugs, s => SameMetricRelated(s, token, related));
    AppendListed(SameNicheOtherMetrics(data.niche, token, allSlugs), SameMetricRelatedNiches(token, related, allSlugs), allSlugs);
  }

  /** A niche without adjacency entry gets only same-niche links: at most two, of other metrics. */
  lemma RelatedWithoutAdjacency(data: BenchmarkPageData, allSlugs: seq<string>)
    requires RelatedNichesEntry(data.niche).None?
    ensures var r := RelatedSlugs(data, allSlugs);
      && r == SameNicheOtherMetrics(data.niche, MetricToken(data.metric), allSlugs)
      && |r| <= 2
      && forall s :: s in r ==> SameNicheOther(s, data.niche, MetricToken(data.metric))
  {
    var token := MetricToken(data.metric);
    RelatedNicheSelection(token, RelatedNiches(data.niche), allSlugs);
    SameNicheSelection(data.niche, token, allSlugs);
    assert RelatedSlugs(data, allSlugs) == SameNicheOtherMetrics(data.niche, token, allSlugs) + [];
  }

  /**
   * A kept element preceded by fewer than two kept elements is among the
   * first two, at the position equal to that number.
   */
  lemma KeptAmongFirstTwo(xs: seq<string>, i: nat, p: string -> bool)
    requires i < |xs| && p(xs[i]) && |Filter(xs[..i], p)| < 2
    ensures var b := |Filter(xs[..i], p)|;
      b < |Take(Filter(xs, p), 2)| && Take(Filter(xs, p), 2)[b] == xs[i]
  {
    var before := Filter(xs[..i], p);
    var tail := xs[i..];
    assert xs == xs[..i] + tail;
    FilterAppend(xs[..i], tail, p);
    assert tail[0] == xs[i];
    assert Filter(tail, p)[0] == xs[i];
    assert Filter(xs, p)[|before|] == xs[i];
  }

  /**
   * The record's own page is among its related links when its slug mentions
   * its niche and not its metric token and fewer than two such slugs are
   * listed before it: it is then the same-niche link at the position equal
   * to the number of those earlier slugs.
   */
  lemma OwnSlugCanAppear(data: BenchmarkPageData, allSlugs: seq<string>, i: nat)
    requires i < |allSlugs| && allSlugs[i] == data.slug
    requires SameNicheOther(data.slug, data.niche, MetricToken(data.metric))
    requires |Filter(allSlugs[..i], s => SameNicheOther(s, data.niche, MetricToken(data.metric)))| < 2
    ensures var before := |Filter(allSlugs[..i], s => SameNicheOther(s, data.niche, MetricToken(data.metric)))|;
      var r := GenerateRelatedBenchmarks(data, allSlugs);
      before < |r| && r[before].slug == data.slug
  {
    var token := MetricToken(data.metric);
    var p := s => SameNicheOther(s, data.niche, token);
    KeptAmongFirstTwo(allSlugs, i, p);
    var before := |Filter(allSlugs[..i], p)|;
    var picked := SameNicheOtherMetrics(data.niche, token, allSlugs);
    assert picked[before] == data.slug;
    assert RelatedSlugs(data, allSlugs)[before] == data.slug;
  }

  /** When a prefix already has two kept elements, the first two kept elements are those. */
  lemma FirstTwoInPrefix(xs: seq<string>, i: nat, p: string -> bool)
    requires i <= |xs| && |Filter(xs[..i], p)| >= 2
    ensures Take(Filter(xs, p), 2) == Filter(xs[..i], p)[..2]
  {
    assert xs == xs[..i] + xs[i..];
    FilterAppend(xs[..i], xs[i..], p);
    assert Filter(xs, p)[..2] == Filter(xs[..i], p)[..2];
  }

  /** A slug without the metric token is never a related-niche link. */
  lemma SameNicheNeverRelatedNiche(data: BenchmarkPageData, allSlugs: seq<string>)
    requires SameNicheOther(data.slug, data.niche, MetricToken(data.metric))
    ensures data.slug !in SameMetricRelatedNiches(MetricToken(data.metric), RelatedNiches(data.niche), allSlugs)
  {
    var token := MetricToken(data.metric);
    var q := s => SameMetricRelated(s, token, RelatedNiches(data.niche));
    TakeTwo(Filter(allSlugs, q));
  }

  /**
   * Conversely, two earlier slugs of the niche without the token fill both
   * same-niche places (`slice(0, 2)`), so a record whose own slug passes the
   * same-niche filter, listed only after them, does not link to itself.
   */
  lemma OwnSlugCrowdedOut(data: BenchmarkPageData, allSlugs: seq<string>, i: nat)
    requires i <= |allSlugs| && data.slug !in allSlugs[..i]
    requires |Filter(allSlugs[..i], s => SameNicheOther(s, data.niche, MetricToken(data.metric)))| >= 2
    ensures SameNicheOtherMetrics(data.niche, MetricToken(data.metric), allSlugs)
         == Filter(allSlugs[..i], s => SameNicheOther(s, data.niche, MetricToken(data.metric)))[..2]
    ensures SameNicheOther(data.slug, data.niche, MetricToken(data.metric)) ==>
      forall k :: 0 <= k < |GenerateRelatedBenchmarks(data, allSlugs)| ==> GenerateRelatedBenchmarks(data, allSlugs)[k].slug != data.slug
  {
    var token := MetricToken(data.metric);
    var p := s => SameNicheOther(s, data.niche, token);
    var before := Filter(allSlugs[..i], p);
    FirstTwoInPrefix(allSlugs, i, p);
    var picked := SameNicheOtherMetrics(data.niche, token, allSlugs);
    assert picked == before[..2];
    assert data.slug !in picked;
    if SameNicheOther(data.slug, data.niche, token) {
      var others := SameMetricRelatedNiches(token, RelatedNiches(data.niche), allSlugs);
      SameNicheNeverRelatedNiche(data, allSlugs);
      var r := RelatedSlugs(data, allSlugs);
      assert r == picked + others;
      assert data.slug !in r;
    }
  }

  /**
   * When the metric token holds a '_' (as the trust gap token "trust_gap"
   * does) a hyphenated slug never contains it, so such a record's own slug
   * (e.g. "trust-gaps-fashion") passes its own same-niche filter.
   */
  lemma UnderscoreTokenOwnSlug(data: BenchmarkPageData)
    requires '_' in MetricToken(data.metric) && '_' !in data.slug && Contains(data.slug, data.niche)
    ensures SameNicheOther(data.slug, data.niche, MetricToken(data.metric))
  {
    var token := MetricToken(data.metric);
    var k :| 0 <= k < |token| && token[k] == '_';
    MissingChar(data.slug, token, k);
  }

  /**
   * For the same reason the related-niche filter, which asks for the token,
   * picks nothing for a '_' token when every listed slug is hyphenated: trust
   * gap pages get same-niche links only.
   */
  lemma UnderscoreTokenNoRelatedNiche(token: string, related: seq<string>, allSlugs: seq<string>)
    requires '_' in token
    requires forall i :: 0 <= i < |allSlugs| ==> '_' !in allSlugs[i]
    ensures SameMetricRelatedNiches(token, related, allSlugs) == []
  {
    var k :| 0 <= k < |token| && token[k] == '_';
    forall i | 0 <= i < |allSlugs| ensures !SameMetricRelated(allSlugs[i], token, related) {
      MissingChar(allSlugs[i], token, k);
    }
    assert Filter(allSlugs, s => SameMetricRelated(s, token, related)) == [];
  }
}
