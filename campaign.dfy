/** The records of the A/B dashboard: one wide row per campaign date, with
    parallel Facebook and AdWords columns, and the long-format observation
    (one row per date and platform) that the dashboard derives from it. */
module Campaign {

  datatype Option<T> = None | Some(value: T)

  /** The two advertising platforms; the dashboard tags rows with the
      strings "Facebook" and "AdWords". */
  datatype Platform = Facebook | AdWords

  function PlatformName(p: Platform): (s: string)
    ensures s == "Facebook" <==> p == Facebook
    ensures s == "AdWords" <==> p == AdWords
  {
    match p
    case Facebook => "Facebook"
    case AdWords => "AdWords"
  }

  function Other(p: Platform): (q: Platform)
    ensures q != p
  {
    match p
    case Facebook => AdWords
    case AdWords => Facebook
  }

  /** One row of the CSV: `date_of_campaign` and, per platform prefix
      (`facebook_`, `adword_`), seven metric columns. Dates are modelled as
      already-ordered integers; the four floating-point columns are carried
      as reals and are never computed with. */
  datatype WideRecord = WideRecord(
    date: int,
    facebookAdViews: nat,
    facebookAdClicks: nat,
    facebookAdConversions: nat,
    facebookCostPerAd: real,
    facebookCtr: real,
    facebookConversionRate: real,
    facebookCostPerClick: real,
    adwordAdViews: nat,
    adwordAdClicks: nat,
    adwordAdConversions: nat,
    adwordCostPerAd: real,
    adwordCtr: real,
    adwordConversionRate: real,
    adwordCostPerClick: real)

  /** One row of the long table, with the shared column names
      date, views, clicks, conversions, cost_per_ad, ctr, conversion_rate,
      cost_per_click, platform. */
  datatype Observation = Observation(
    date: int,
    views: nat,
    clicks: nat,
    conversions: nat,
    costPerAd: real,
    ctr: real,
    conversionRate: real,
    costPerClick: real,
    platform: Platform)

  /** The integer metrics that the dashboard sums per platform. */
  datatype Metric = Views | Clicks | Conversions

  /** The value of an integer metric in a long-format row. */
  function Count(o: Observation, m: Metric): nat
  {
    match m
    case Views => o.views
    case Clicks => o.clicks
    case Conversions => o.conversions
  }

  /** The value of an integer metric in the wide column of one platform. */
  function Column(r: WideRecord, p: Platform, m: Metric): nat
  {
    match (p, m)
    case (Facebook, Views) => r.facebookAdViews
    case (Facebook, Clicks) => r.facebookAdClicks
    case (Facebook, Conversions) => r.facebookAdConversions
    case (AdWords, Views) => r.adwordAdViews
    case (AdWords, Clicks) => r.adwordAdClicks
    case (AdWords, Conversions) => r.adwordAdConversions
  }

  /** `mapping.get(key, default)` on a groupby result. */
  function GetOr<V>(m: map<Platform, V>, p: Platform, default: V): (v: V)
    ensures p in m ==> v == m[p]
    ensures p !in m ==> v == default
  {
    if p in m then m[p] else default
  }
}
