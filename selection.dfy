/**
 * The rate calculator's selection state: ten package and add-on switches,
 * three quantities and an ad-spend band; the patches the store merges into
 * it and the defaults it starts from.
 */
module Selection {
  import opened Wrappers
  import opened Pricing

  /**
   * A numeric field as the store holds it: a whole number, or NaN. A patch's
   * number fields admit NaN and negative values, and the engine must cope.
   */
  datatype Quantity = Count(n: int) | Malformed

  datatype Selection = Selection(
    // core packages
    pilotWithProof: bool,
    localDominance: bool,
    ecomSprint: bool,
    measurementMakeover: bool,
    // variables
    locations: Quantity,
    landingPages: Quantity,
    adTier: AdTier,
    // add-ons
    socialMediaMgmt: bool,
    analyticsReporting: bool,
    seoEssentials: bool,
    ecomFunnelsLite: bool,
    webDesign: bool,
    brandingStrategy: bool,
    leadGenCampaigns: Quantity
  )

  /** The defaults: nothing selected, one location, lowest band. */
  const Initial := Selection(
    false, false, false, false,
    Count(1), Count(0), Lt2,
    false, false, false, false, false, false,
    Count(0))

  /** A partial state: the fields that are present overwrite, the others are kept. */
  datatype Patch = Patch(
    pilotWithProof: Option<bool>,
    localDominance: Option<bool>,
    ecomSprint: Option<bool>,
    measurementMakeover: Option<bool>,
    locations: Option<Quantity>,
    landingPages: Option<Quantity>,
    adTier: Option<AdTier>,
    socialMediaMgmt: Option<bool>,
    analyticsReporting: Option<bool>,
    seoEssentials: Option<bool>,
    ecomFunnelsLite: Option<bool>,
    webDesign: Option<bool>,
    brandingStrategy: Option<bool>,
    leadGenCampaigns: Option<Quantity>
  )

  const EmptyPatch := Patch(None, None, None, None, None, None, None,
                            None, None, None, None, None, None, None)

  /** The patch that spells out every field of `s` (`{ ...s }`). */
  function FullPatch(s: Selection): Patch
  {
    Patch(Some(s.pilotWithProof), Some(s.localDominance), Some(s.ecomSprint),
          Some(s.measurementMakeover), Some(s.locations), Some(s.landingPages),
          Some(s.adTier), Some(s.socialMediaMgmt), Some(s.analyticsReporting),
          Some(s.seoEssentials), Some(s.ecomFunnelsLite), Some(s.webDesign),
          Some(s.brandingStrategy), Some(s.leadGenCampaigns))
  }

  function Or<T>(o: Option<T>, keep: T): T
  {
    match o
    case Some(v) => v
    case None => keep
  }

  /**
   * Shallow merge of a patch into a state: every field the patch holds is
   * overwritten with the patch's value, every other field is kept
   * (`MergeSwitch` states it for the ten switches).
   */
  function Merge(s: Selection, p: Patch): (r: Selection)
    ensures p.locations.Some? ==> r.locations == p.locations.value
    ensures p.locations.None? ==> r.locations == s.locations
    ensures p.landingPages.Some? ==> r.landingPages == p.landingPages.value
    ensures p.landingPages.None? ==> r.landingPages == s.landingPages
    ensures p.adTier.Some? ==> r.adTier == p.adTier.value
    ensures p.adTier.None? ==> r.adTier == s.adTier
    ensures p.leadGenCampaigns.Some? ==> r.leadGenCampaigns == p.leadGenCampaigns.value
    ensures p.leadGenCampaigns.None? ==> r.leadGenCampaigns == s.leadGenCampaigns
  {
    Selection(
      Or(p.pilotWithProof, s.pilotWithProof),
      Or(p.localDominance, s.localDominance),
      Or(p.ecomSprint, s.ecomSprint),
      Or(p.measurementMakeover, s.measurementMakeover),
      Or(p.locations, s.locations),
      Or(p.landingPages, s.landingPages),
      Or(p.adTier, s.adTier),
      Or(p.socialMediaMgmt, s.socialMediaMgmt),
      Or(p.analyticsReporting, s.analyticsReporting),
      Or(p.seoEssentials, s.seoEssentials),
      Or(p.ecomFunnelsLite, s.ecomFunnelsLite),
      Or(p.webDesign, s.webDesign),
      Or(p.brandingStrategy, s.brandingStrategy),
      Or(p.leadGenCampaigns, s.leadGenCampaigns))
  }

  /** Merging the empty patch changes nothing. */
  lemma MergeEmpty(s: Selection)
    ensures Merge(s, EmptyPatch) == s
  {
  }

  /** A full patch replaces the whole state, whatever it was. */
  lemma MergeFull(s: Selection, t: Selection)
    ensures Merge(s, FullPatch(t)) == t
  {
  }

  /** Merging the same patch twice is the same as merging it once. */
  lemma MergeIdempotent(s: Selection, p: Patch)
    ensures Merge(Merge(s, p), p) == Merge(s, p)
  {
  }

  /** The ten on/off fields, one per package or add-on card. */
  datatype ServiceKey =
    | PilotWithProofKey
    | LocalDominanceKey
    | EcomSprintKey
    | MeasurementMakeoverKey
    | SocialMediaMgmtKey
    | AnalyticsReportingKey
    | SeoEssentialsKey
    | EcomFunnelsLiteKey
    | WebDesignKey
    | BrandingStrategyKey

  /** The value of the switch named by `k` (`state[key]`). */
  function Get(s: Selection, k: ServiceKey): bool
  {
    match k
    case PilotWithProofKey => s.pilotWithProof
    case LocalDominanceKey => s.localDominance
    case EcomSprintKey => s.ecomSprint
    case MeasurementMakeoverKey => s.measurementMakeover
    case SocialMediaMgmtKey => s.socialMediaMgmt
    case AnalyticsReportingKey => s.analyticsReporting
    case SeoEssentialsKey => s.seoEssentials
    case EcomFunnelsLiteKey => s.ecomFunnelsLite
    case WebDesignKey => s.webDesign
    case BrandingStrategyKey => s.brandingStrategy
  }

  /** What a patch holds for switch `k`, if anything. */
  function PatchGet(p: Patch, k: ServiceKey): Option<bool>
  {
    match k
    case PilotWithProofKey => p.pilotWithProof
    case LocalDominanceKey => p.localDominance
    case EcomSprintKey => p.ecomSprint
    case MeasurementMakeoverKey => p.measurementMakeover
    case SocialMediaMgmtKey => p.socialMediaMgmt
    case AnalyticsReportingKey => p.analyticsReporting
    case SeoEssentialsKey => p.seoEssentials
    case EcomFunnelsLiteKey => p.ecomFunnelsLite
    case WebDesignKey => p.webDesign
    case BrandingStrategyKey => p.brandingStrategy
  }

  /** The patch `{ [k]: b }` that writes one switch. */
  function SwitchPatch(k: ServiceKey, b: bool): Patch
  {
    match k
    case PilotWithProofKey => EmptyPatch.(pilotWithProof := Some(b))
    case LocalDominanceKey => EmptyPatch.(localDominance := Some(b))
    case EcomSprintKey => EmptyPatch.(ecomSprint := Some(b))
    case MeasurementMakeoverKey => EmptyPatch.(measurementMakeover := Some(b))
    case SocialMediaMgmtKey => EmptyPatch.(socialMediaMgmt := Some(b))
    case AnalyticsReportingKey => EmptyPatch.(analyticsReporting := Some(b))
    case SeoEssentialsKey => EmptyPatch.(seoEssentials := Some(b))
    case EcomFunnelsLiteKey => EmptyPatch.(ecomFunnelsLite := Some(b))
    case WebDesignKey => EmptyPatch.(webDesign := Some(b))
    case BrandingStrategyKey => EmptyPatch.(brandingStrategy := Some(b))
  }

  /** A switch the patch holds takes the patch's value; a switch it lacks keeps its value. */
  lemma MergeSwitch(s: Selection, p: Patch, k: ServiceKey)
    ensures PatchGet(p, k).Some? ==> Get(Merge(s, p), k) == PatchGet(p, k).value
    ensures PatchGet(p, k).None? ==> Get(Merge(s, p), k) == Get(s, k)
  {
    match k
    case PilotWithProofKey =>
    case LocalDominanceKey =>
    case EcomSprintKey =>
    case MeasurementMakeoverKey =>
    case SocialMediaMgmtKey =>
    case AnalyticsReportingKey =>
    case SeoEssentialsKey =>
    case EcomFunnelsLiteKey =>
    case WebDesignKey =>
    case BrandingStrategyKey =>
  }

  /** The state with switch `k` set to `b` and nothing else changed. */
  function With(s: Selection, k: ServiceKey, b: bool): Selection
  {
    match k
    case PilotWithProofKey => s.(pilotWithProof := b)
    case LocalDominanceKey => s.(localDominance := b)
    case EcomSprintKey => s.(ecomSprint := b)
    case MeasurementMakeoverKey => s.(measurementMakeover := b)
    case SocialMediaMgmtKey => s.(socialMediaMgmt := b)
    case AnalyticsReportingKey => s.(analyticsReporting := b)
    case SeoEssentialsKey => s.(seoEssentials := b)
    case EcomFunnelsLiteKey => s.(ecomFunnelsLite := b)
    case WebDesignKey => s.(webDesign := b)
    case BrandingStrategyKey => s.(brandingStrategy := b)
  }

  /** Merging the one-switch patch `{ [k]: b }` is exactly writing that switch. */
  lemma MergeSwitchPatch(s: Selection, k: ServiceKey, b: bool)
    ensures Merge(s, SwitchPatch(k, b)) == With(s, k, b)
  {
    match k
    case PilotWithProofKey =>
    case LocalDominanceKey =>
    case EcomSprintKey =>
    case MeasurementMakeoverKey =>
    case SocialMediaMgmtKey =>
    case AnalyticsReportingKey =>
    case SeoEssentialsKey =>
    case EcomFunnelsLiteKey =>
    case WebDesignKey =>
    case BrandingStrategyKey =>
  }

  /** A written switch reads back as written. */
  lemma WithReadsBack(s: Selection, k: ServiceKey, b: bool)
    ensures Get(With(s, k, b), k) == b
  {
    match k
    case PilotWithProofKey =>
    case LocalDominanceKey =>
    case EcomSprintKey =>
    case MeasurementMakeoverKey =>
    case SocialMediaMgmtKey =>
    case AnalyticsReportingKey =>
    case SeoEssentialsKey =>
    case EcomFunnelsLiteKey =>
    case WebDesignKey =>
    case BrandingStrategyKey =>
  }

  /** Writing one switch leaves any other switch as it was. */
  lemma WithKeepsOtherSwitch(s: Selection, k: ServiceKey, j: ServiceKey, b: bool)
    requires j != k
    ensures Get(With(s, k, b), j) == Get(s, j)
  {
    match k
    case PilotWithProofKey =>
    case LocalDominanceKey =>
    case EcomSprintKey =>
    case MeasurementMakeoverKey =>
    case SocialMediaMgmtKey =>
    case AnalyticsReportingKey =>
    case SeoEssentialsKey =>
    case EcomFunnelsLiteKey =>
    case WebDesignKey =>
    case BrandingStrategyKey =>
  }

  /** Writing a switch leaves the quantities and the band as they were. */
  lemma WithKeepsQuantities(s: Selection, k: ServiceKey, b: bool)
    ensures With(s, k, b).locations == s.locations
    ensures With(s, k, b).landingPages == s.landingPages
    ensures With(s, k, b).leadGenCampaigns == s.leadGenCampaigns
    ensures With(s, k, b).adTier == s.adTier
  {
    match k
    case PilotWithProofKey =>
    case LocalDominanceKey =>
    case EcomSprintKey =>
    case MeasurementMakeoverKey =>
    case SocialMediaMgmtKey =>
    case AnalyticsReportingKey =>
    case SeoEssentialsKey =>
    case EcomFunnelsLiteKey =>
    case WebDesignKey =>
    case BrandingStrategyKey =>
  }

  /**
   * Writing one switch: that switch reads back as written, every other
   * switch keeps its value, and the quantities and band are untouched.
   */
  lemma WithOnlyChangesKey(s: Selection, k: ServiceKey, b: bool)
    ensures Get(With(s, k, b), k) == b
    ensures forall j :: j != k ==> Get(With(s, k, b), j) == Get(s, j)
    ensures With(s, k, b).locations == s.locations
    ensures With(s, k, b).landingPages == s.landingPages
    ensures With(s, k, b).leadGenCampaigns == s.leadGenCampaigns
    ensures With(s, k, b).adTier == s.adTier
  {
    WithReadsBack(s, k, b);
    forall j | j != k
      ensures Get(With(s, k, b), j) == Get(s, j)
    {
      WithKeepsOtherSwitch(s, k, j, b);
    }
    WithKeepsQuantities(s, k, b);
  }

  /** Writing a switch back to its original value undoes any earlier write of it. */
  lemma WithRestores(s: Selection, k: ServiceKey, b: bool)
    ensures With(With(s, k, b), k, Get(s, k)) == s
  {
    match k
    case PilotWithProofKey =>
    case LocalDominanceKey =>
    case EcomSprintKey =>
    case MeasurementMakeoverKey =>
    case SocialMediaMgmtKey =>
    case AnalyticsReportingKey =>
    case SeoEssentialsKey =>
    case EcomFunnelsLiteKey =>
    case WebDesignKey =>
    case BrandingStrategyKey =>
  }
}
