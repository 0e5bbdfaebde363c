/**
 * The price catalog shared by the services grid and the rate calculator:
 * whole-dollar monthly and one-time prices, including a four-band
 * ad-management fee keyed by monthly ad spend.
 */
module Pricing {
  import opened Wrappers

  /** Monthly ad-spend band: under $2k, $2k-$5k, $5k-$10k, over $10k. */
  datatype AdTier = Lt2 | From2To5 | From5To10 | Gt10

  /** Position of a band in increasing order of spend. */
  function TierRank(t: AdTier): nat
  {
    match t
    case Lt2 => 0
    case From2To5 => 1
    case From5To10 => 2
    case Gt10 => 3
  }

  /** The string value the tier selector uses for each band. */
  function TierCode(t: AdTier): string
  {
    match t
    case Lt2 => "lt2"
    case From2To5 => "2to5"
    case From5To10 => "5to10"
    case Gt10 => "gt10"
  }

  /**
   * Reading the band selector's value as a band; any string other than the
   * four codes is not a band.
   */
  function ParseTier(code: string): (r: Option<AdTier>)
    ensures r.Some? ==> TierCode(r.value) == code
    ensures r.None? ==> forall t: AdTier :: TierCode(t) != code
  {
    if code == "lt2" then Some(Lt2)
    else if code == "2to5" then Some(From2To5)
    else if code == "5to10" then Some(From5To10)
    else if code == "gt10" then Some(Gt10)
    else None
  }

  lemma ParseTierCode(t: AdTier)
    ensures ParseTier(TierCode(t)) == Some(t)
  {
  }

  // Monthly prices, in whole dollars.
  const LocalDominanceBase: int := 900   // covers the first location
  const ExtraLocation: int := 250        // each location after the first
  const EcomSprintBase: int := 1200
  const SocialMediaMgmt: int := 199
  const AnalyticsReporting: int := 99
  const SeoEssentials: int := 349
  const EcomFunnelsLite: int := 449

  // One-time prices, in whole dollars.
  const PilotWithProof: int := 3500
  const MeasurementMakeover: int := 1200
  const LandingPage: int := 300          // per landing page
  const WebDesignBase: int := 499
  const BrandingStrategy: int := 299
  const LeadGenCampaign: int := 349      // per campaign project

  /** The monthly ad-management fee of each band; defined for every band. */
  function AdMgmt(t: AdTier): (r: int)
    ensures r > 0
    ensures r % 300 == 0 && r / 300 == TierRank(t) + 1
  {
    match t
    case Lt2 => 300
    case From2To5 => 600
    case From5To10 => 900
    case Gt10 => 1200
  }

  /** Every flat and per-unit price in the catalog is a positive whole-dollar amount. */
  lemma CatalogPositive()
    ensures LocalDominanceBase > 0 && ExtraLocation > 0 && EcomSprintBase > 0
    ensures SocialMediaMgmt > 0 && AnalyticsReporting > 0 && SeoEssentials > 0 && EcomFunnelsLite > 0
    ensures PilotWithProof > 0 && MeasurementMakeover > 0 && LandingPage > 0
    ensures WebDesignBase > 0 && BrandingStrategy > 0 && LeadGenCampaign > 0
  {
  }

  /** The ad-management fee grows strictly with the spend band. */
  lemma AdMgmtStrictlyIncreasing(a: AdTier, b: AdTier)
    ensures TierRank(a) < TierRank(b) <==> AdMgmt(a) < AdMgmt(b)
  {
  }
}
