/**
 * The constant tables of nextjs-temp/scripts/enrich-benchmarks.js: the
 * per-metric content configuration, the per-niche wording and the niche
 * adjacency used for related links. The key-finding templates are the
 * named functions of module EnrichFindings.
 */
module EnrichConfig {
  import opened Wrappers

  datatype Direction = Lower | Higher

  /** The three metrics the script has content for. */
  datatype MetricId = Lcp | PageSpeed | TrustGap

  /**
   * The short fields of a `METRIC_CONTENT` entry; its tips are the function
   * `ImprovementTips` of the same id, and its templates `EnrichFindings.Templates`.
   */
  datatype MetricConfig = MetricConfig(id: MetricId, goodDirection: Direction, unit: string)

  /** `improvementTips` of each `METRIC_CONTENT` entry, copied verbatim into every enriched page. */
  function ImprovementTips(id: MetricId): seq<string> {
    match id
    case Lcp =>
      [
        "Optimize and compress hero images using modern formats like WebP or AVIF",
        "Implement lazy loading for below-the-fold images and defer non-critical JavaScript",
        "Use a Content Delivery Network (CDN) to serve assets from edge locations closer to users",
        "Preload critical resources and fonts to reduce render-blocking time",
        "Minimize server response time by optimizing your hosting infrastructure",
        "Remove or defer third-party scripts that block page rendering",
        "Consider using a headless commerce approach for faster page loads"
      ]
    case PageSpeed =>
      [
        "Audit and remove unused CSS and JavaScript to reduce page weight",
        "Implement efficient caching strategies for static assets",
        "Optimize your Shopify theme by removing unnecessary apps and code",
        "Use optimized, properly-sized images throughout your store",
        "Minimize main-thread work by deferring non-critical JavaScript",
        "Reduce the impact of third-party scripts like analytics and chat widgets",
        "Consider a performance-focused Shopify theme if your current theme is bloated"
      ]
    case TrustGap =>
      [
        "Add authentic customer reviews and ratings prominently on product pages",
        "Display trust badges, security seals, and payment icons clearly",
        "Include detailed shipping and return policy information",
        "Show real-time inventory and social proof (e.g., 'X people viewing')",
        "Add founder story or 'About Us' content to build brand authenticity",
        "Implement live chat or clear contact options for customer questions",
        "Display any press mentions, certifications, or industry awards"
      ]
  }

  /** The `METRIC_CONTENT` key of each configuration. */
  function MetricKey(id: MetricId): string {
    match id
    case Lcp => "lcp_ms"
    case PageSpeed => "pagespeed_score"
    case TrustGap => "trust_gap_score"
  }

  /** `METRIC_CONTENT[metric]`: a configuration for exactly three metric ids. */
  function MetricContent(metric: string): (r: Option<MetricConfig>)
    ensures r.Some? <==> metric == "lcp_ms" || metric == "pagespeed_score" || metric == "trust_gap_score"
    ensures r.Some? ==> MetricKey(r.value.id) == metric
    ensures r.Some? ==> (r.value.goodDirection == Higher <==> r.value.id == PageSpeed)
  {
    if metric == "lcp_ms" then Some(MetricConfig(Lcp, Lower, "ms"))
    else if metric == "pagespeed_score" then Some(MetricConfig(PageSpeed, Higher, "points"))
    else if metric == "trust_gap_score" then Some(MetricConfig(TrustGap, Lower, "points"))
    else None
  }

  /** The part of a `NICHE_CONTEXT` entry that the generators read: `industry`. */
  datatype NicheContext = NicheContext(industry: string)

  /** Looking a key up in an object literal, given as its key-value pairs in order. */
  function Lookup<V>(table: seq<(string, V)>, key: string): Option<V>
  {
    if table == [] then None
    else if table[0].0 == key then Some(table[0].1)
    else Lookup(table[1..], key)
  }

  /** `NICHE_CONTEXT[niche]`: the wording for the 26 niches the script knows. */
  function NicheContextEntry(niche: string): Option<NicheContext> {
    Lookup([
      ("fashion", NicheContext("fashion and apparel")),
      ("electronics", NicheContext("consumer electronics")),
      ("automotive", NicheContext("automotive parts and accessories")),
      ("art", NicheContext("art and collectibles")),
      ("jewelry", NicheContext("jewelry and accessories")),
      ("luxury", NicheContext("luxury goods")),
      ("pet", NicheContext("pet supplies")),
      ("food", NicheContext("food and beverages")),
      ("skincare", NicheContext("skincare and beauty")),
      ("fitness", NicheContext("fitness and sports")),
      ("kids", NicheContext("kids and baby products")),
      ("gadgets", NicheContext("tech gadgets")),
      ("shoes", NicheContext("footwear")),
      ("beauty", NicheContext("beauty and cosmetics")),
      ("supplements", NicheContext("health supplements")),
      ("sustainable", NicheContext("sustainable products")),
      ("kitchen", NicheContext("kitchen and home")),
      ("home_decor", NicheContext("home decor")),
      ("sports", NicheContext("sports equipment")),
      ("office", NicheContext("office supplies")),
      ("furniture", NicheContext("furniture")),
      ("baby", NicheContext("baby products")),
      ("tea", NicheContext("tea and beverages")),
      ("haircare", NicheContext("haircare")),
      ("crafts", NicheContext("arts and crafts")),
      ("watches", NicheContext("watches and timepieces"))
    ], niche)
  }

  /** `RELATED_NICHES[niche]` inside `generateRelatedBenchmarks`: adjacent niches for seven niches. */
  function RelatedNichesEntry(niche: string): Option<seq<string>> {
    Lookup([
      ("fashion", ["shoes", "jewelry", "luxury"]),
      ("electronics", ["gadgets", "office"]),
      ("beauty", ["skincare", "haircare"]),
      ("fitness", ["sports", "supplements"]),
      ("kids", ["baby", "toys"]),
      ("food", ["tea", "supplements"]),
      ("home_decor", ["furniture", "kitchen"])
    ], niche)
  }

  /** `RELATED_NICHES[niche] || []`. */
  function RelatedNiches(niche: string): (r: seq<string>)
    ensures RelatedNichesEntry(niche).None? ==> r == []
  {
    match RelatedNichesEntry(niche)
    case Some(ns) => ns
    case None => []
  }
}
