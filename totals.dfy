/**
 * The pricing engine: sanitising the three quantities and adding up the
 * selected line items into a monthly and a one-time total.
 */
module Totals {
  import opened Pricing
  import opened Selection

  function Max(a: int, b: int): int
  {
    if a >= b then a else b
  }

  /** `Number(q) || d`: zero and NaN are falsy and give the default. */
  function OrElse(q: Quantity, d: int): int
  {
    match q
    case Count(n) => if n != 0 then n else d
    case Malformed => d
  }

  /** Locations as the engine uses them: at least one; malformed, zero or negative input counts as one. */
  function SanitizedLocations(q: Quantity): (r: int)
    ensures r >= 1
    ensures q.Count? && q.n >= 1 ==> r == q.n
    ensures q.Malformed? || q.n < 1 ==> r == 1
  {
    Max(1, OrElse(q, 1))
  }

  /** Landing pages and campaigns as the engine uses them: malformed or negative input counts as zero. */
  function SanitizedCount(q: Quantity): (r: int)
    ensures r >= 0
    ensures q.Count? && q.n >= 0 ==> r == q.n
    ensures q.Malformed? || q.n < 0 ==> r == 0
  {
    Max(0, OrElse(q, 0))
  }

  /** The two figures the engine reports. */
  datatype Totals = Totals(monthlyTotal: int, oneTimeTotal: int)

  function Charge(on: bool, price: int): int
  {
    if on then price else 0
  }

  /** Packages whose delivery includes running paid ads. */
  predicate RunsAds(s: Selection)
  {
    s.localDominance || s.ecomSprint || s.pilotWithProof
  }

  /** Local Dominance: the base price covers the first location, each further one is surcharged. */
  function LocalDominanceCharge(s: Selection): int
  {
    Charge(s.localDominance,
           LocalDominanceBase + (SanitizedLocations(s.locations) - 1) * ExtraLocation)
  }

  /** The ad-management fee of the chosen band, billed once per account. */
  function AdMgmtCharge(s: Selection): int
  {
    Charge(RunsAds(s), AdMgmt(s.adTier))
  }

  /** Monthly charges of the core packages, the ad fee included. */
  function PackagesMonthly(s: Selection): int
  {
    LocalDominanceCharge(s) + Charge(s.ecomSprint, EcomSprintBase) + AdMgmtCharge(s)
  }

  /** Monthly charges of the four recurring add-ons. */
  function AddOnsMonthly(s: Selection): int
  {
    Charge(s.socialMediaMgmt, SocialMediaMgmt)
    + Charge(s.analyticsReporting, AnalyticsReporting)
    + Charge(s.seoEssentials, SeoEssentials)
    + Charge(s.ecomFunnelsLite, EcomFunnelsLite)
  }

  /** One-time charges of the core packages and the landing pages. */
  function PackagesOneTime(s: Selection): int
  {
    Charge(s.pilotWithProof, PilotWithProof)
    + Charge(s.measurementMakeover, MeasurementMakeover)
    + SanitizedCount(s.landingPages) * LandingPage
  }

  /** One-time charges of the two one-time add-ons and the lead-generation campaigns. */
  function AddOnsOneTime(s: Selection): int
  {
    Charge(s.webDesign, WebDesignBase)
    + Charge(s.brandingStrategy, BrandingStrategy)
    + SanitizedCount(s.leadGenCampaigns) * LeadGenCampaign
  }

  /** The monthly bill: the sum of its line items, never negative. */
  function MonthlyTotal(s: Selection): (r: int)
    ensures r >= 0
  {
    PackagesMonthly(s) + AddOnsMonthly(s)
  }

  /** The one-time bill: the sum of its line items, never negative. */
  function OneTimeTotal(s: Selection): (r: int)
    ensures r >= 0
  {
    PackagesOneTime(s) + AddOnsOneTime(s)
  }

  /**
   * The package part of computeTotals: Local Dominance with its location
   * surcharge, the sprint, the ad fee, then the one-time packages and the
   * landing pages, each added onto the running totals.
   */
  method AddPackages(s: Selection, monthly0: int, oneTime0: int) returns (monthly: int, oneTime: int)
    ensures monthly == monthly0 + PackagesMonthly(s)
    ensures oneTime == oneTime0 + PackagesOneTime(s)
  {
    var locations := SanitizedLocations(s.locations);
    var landingPages := SanitizedCount(s.landingPages);
    monthly, oneTime := monthly0, oneTime0;

    if s.localDominance {
      var extras := Max(0, locations - 1) * ExtraLocation;
      monthly := monthly + LocalDominanceBase + extras;
    }
    if s.ecomSprint {
      monthly := monthly + EcomSprintBase;
    }
    var runningAds := s.localDominance || s.ecomSprint || s.pilotWithProof;
    if runningAds {
      monthly := monthly + AdMgmt(s.adTier);
    }

    if s.pilotWithProof {
      oneTime := oneTime + PilotWithProof;
    }
    if s.measurementMakeover {
      oneTime := oneTime + MeasurementMakeover;
    }
    if landingPages > 0 {
      oneTime := oneTime + landingPages * LandingPage;
    }
  }

  /** The add-on part of computeTotals: four monthly add-ons, two one-time add-ons and the campaigns. */
  method AddALaCarte(s: Selection, monthly0: int, oneTime0: int) returns (monthly: int, oneTime: int)
    ensures monthly == monthly0 + AddOnsMonthly(s)
    ensures oneTime == oneTime0 + AddOnsOneTime(s)
  {
    var leadGenCampaigns := SanitizedCount(s.leadGenCampaigns);
    monthly, oneTime := monthly0, oneTime0;

    if s.socialMediaMgmt { monthly := monthly + SocialMediaMgmt; }
    if s.analyticsReporting { monthly := monthly + AnalyticsReporting; }
    if s.seoEssentials { monthly := monthly + SeoEssentials; }
    if s.ecomFunnelsLite { monthly := monthly + EcomFunnelsLite; }

    if s.webDesign { oneTime := oneTime + WebDesignBase; }
    if s.brandingStrategy { oneTime := oneTime + BrandingStrategy; }
    if leadGenCampaigns > 0 {
      oneTime := oneTime + leadGenCampaigns * LeadGenCampaign;
    }
  }

  /**
   * computeTotals: starts both totals at zero and accumulates the package
   * and add-on line items. Any state, however malformed its quantities,
   * yields the two line-item sums, so two non-negative totals.
   */
  method ComputeTotals(s: Selection) returns (t: Totals)
    ensures t == Totals(MonthlyTotal(s), OneTimeTotal(s))
    ensures t.monthlyTotal >= 0 && t.oneTimeTotal >= 0
  {
    var monthly := 0;
    var oneTime := 0;
    monthly, oneTime := AddPackages(s, monthly, oneTime);
    monthly, oneTime := AddALaCarte(s, monthly, oneTime);
    t := Totals(monthly, oneTime);
  }

  /** The defaults price at zero on both bills. */
  lemma InitialTotals()
    ensures MonthlyTotal(Initial) == 0 && OneTimeTotal(Initial) == 0
  {
  }

  /** The state with every quantity replaced by the value the engine actually uses. */
  function Sanitize(s: Selection): (r: Selection)
    ensures r.locations.Count? && r.locations.n >= 1
    ensures r.landingPages.Count? && r.landingPages.n >= 0
    ensures r.leadGenCampaigns.Count? && r.leadGenCampaigns.n >= 0
  {
    s.(locations := Count(SanitizedLocations(s.locations)),
       landingPages := Count(SanitizedCount(s.landingPages)),
       leadGenCampaigns := Count(SanitizedCount(s.leadGenCampaigns)))
  }

  /** Malformed input is never an error: the totals are those of the sanitised state. */
  lemma TotalsSeeOnlySanitized(s: Selection)
    ensures MonthlyTotal(Sanitize(s)) == MonthlyTotal(s)
    ensures OneTimeTotal(Sanitize(s)) == OneTimeTotal(s)
  {
  }

  /** Sanitising a sanitised state changes nothing. */
  lemma SanitizeIdempotent(s: Selection)
    ensures Sanitize(Sanitize(s)) == Sanitize(s)
  {
  }

  /** Examples of the coercion: -5 locations price as 1, NaN landing pages as 0. */
  lemma SanitizationExamples(s: Selection)
    ensures MonthlyTotal(s.(locations := Count(-5))) == MonthlyTotal(s.(locations := Count(1)))
    ensures OneTimeTotal(s.(landingPages := Malformed)) == OneTimeTotal(s.(landingPages := Count(0)))
  {
  }

  /**
   * With Local Dominance on, the first location carries no surcharge
   * (a count of 0, a negative count or NaN prices like 1) and each further
   * location adds exactly the extra-location price.
   */
  lemma LocationSurcharge(s: Selection, n: int)
    requires s.localDominance && n >= 1
    ensures MonthlyTotal(s.(locations := Count(n + 1)))
            == MonthlyTotal(s.(locations := Count(n))) + ExtraLocation
    ensures MonthlyTotal(s.(locations := Count(0))) == MonthlyTotal(s.(locations := Count(1)))
    ensures MonthlyTotal(s.(locations := Malformed)) == MonthlyTotal(s.(locations := Count(1)))
  {
    LocationsOnlyAddSurcharge(s, Count(n + 1));
    LocationsOnlyAddSurcharge(s, Count(n));
    LocationsOnlyAddSurcharge(s, Count(0));
    LocationsOnlyAddSurcharge(s, Malformed);
  }

  /**
   * Locations reach the monthly bill only through Local Dominance's
   * surcharge: any count is priced as one location plus the extra-location
   * price for each sanitised location beyond the first.
   */
  lemma LocationsOnlyAddSurcharge(s: Selection, q: Quantity)
    ensures MonthlyTotal(s.(locations := q))
            == MonthlyTotal(s.(locations := Count(1)))
               + (if s.localDominance then ExtraLocation * (SanitizedLocations(q) - 1) else 0)
  {
  }

  /**
   * Switching Local Dominance on adds 900 plus 250 per location beyond the
   * first, plus the ad fee if no other ad-running package was already on.
   */
  lemma LocalDominanceAdds(s: Selection)
    ensures MonthlyTotal(s.(localDominance := true))
            == MonthlyTotal(s.(localDominance := false))
               + 900 + 250 * (SanitizedLocations(s.locations) - 1)
               + (if s.ecomSprint || s.pilotWithProof then 0 else AdMgmt(s.adTier))
    ensures OneTimeTotal(s.(localDominance := true)) == OneTimeTotal(s.(localDominance := false))
  {
  }

  /**
   * The band's fee enters the monthly total exactly once when some
   * ad-running package is on, and not at all otherwise: changing the band
   * moves the total by exactly the difference of the two fees, or not at all.
   */
  lemma AdFeeChargedOnce(s: Selection, a: AdTier, b: AdTier)
    ensures MonthlyTotal(s.(adTier := a)) - MonthlyTotal(s.(adTier := b))
            == (if RunsAds(s) then AdMgmt(a) - AdMgmt(b) else 0)
    ensures OneTimeTotal(s.(adTier := a)) == OneTimeTotal(s.(adTier := b))
  {
  }

  /** Once one ad-running package is on, adding another never adds a second ad fee. */
  lemma NoSecondAdFee(s: Selection)
    requires RunsAds(s)
    ensures MonthlyTotal(s.(pilotWithProof := true)) == MonthlyTotal(s)
    ensures !s.ecomSprint ==>
              MonthlyTotal(s.(ecomSprint := true)) == MonthlyTotal(s) + EcomSprintBase
    ensures !s.localDominance ==>
              MonthlyTotal(s.(localDominance := true))
              == MonthlyTotal(s) + 900 + 250 * (SanitizedLocations(s.locations) - 1)
  {
    assert AdMgmtCharge(s.(pilotWithProof := true)) == AdMgmtCharge(s);
    assert AdMgmtCharge(s.(ecomSprint := true)) == AdMgmtCharge(s);
    assert AdMgmtCharge(s.(localDominance := true)) == AdMgmtCharge(s);
  }

  /** The fields the one-time bill reads. */
  predicate SameOneTimeInputs(s: Selection, t: Selection)
  {
    && s.pilotWithProof == t.pilotWithProof
    && s.measurementMakeover == t.measurementMakeover
    && s.landingPages == t.landingPages
    && s.webDesign == t.webDesign
    && s.brandingStrategy == t.brandingStrategy
    && s.leadGenCampaigns == t.leadGenCampaigns
  }

  /**
   * The one-time bill ignores the band, the locations, Local Dominance,
   * the sprint and the four monthly add-ons.
   */
  lemma OneTimeIndependentOfMonthlyInputs(s: Selection, t: Selection)
    requires SameOneTimeInputs(s, t)
    ensures OneTimeTotal(s) == OneTimeTotal(t)
  {
  }

  /** Switching any package or add-on on never lowers the monthly bill. */
  lemma MonthlyMonotoneInSwitches(s: Selection, k: ServiceKey)
    ensures MonthlyTotal(With(s, k, false)) <= MonthlyTotal(With(s, k, true))
  {
    match k
    case PilotWithProofKey =>
    case LocalDominanceKey =>
    case EcomSprintKey =>
    case MeasurementMakeoverKey =>
    case SocialMediaMgmtKey =>
    case AnalyticsReportingKey =>
    case SeoEssentialsKey =>
    case EcomFunnelsLiteKey =>
    case WebDesignKey =>
    case BrandingStrategyKey =>
  }

  /** Switching any package or add-on on never lowers the one-time bill. */
  lemma OneTimeMonotoneInSwitches(s: Selection, k: ServiceKey)
    ensures OneTimeTotal(With(s, k, false)) <= OneTimeTotal(With(s, k, true))
  {
    match k
    case PilotWithProofKey =>
    case LocalDominanceKey =>
    case EcomSprintKey =>
    case MeasurementMakeoverKey =>
    case SocialMediaMgmtKey =>
    case AnalyticsReportingKey =>
    case SeoEssentialsKey =>
    case EcomFunnelsLiteKey =>
    case WebDesignKey =>
    case BrandingStrategyKey =>
  }

  /** More (sanitised) locations never lower the monthly bill and leave the one-time bill alone. */
  lemma MonotoneInLocations(s: Selection, a: Quantity, b: Quantity)
    requires SanitizedLocations(a) <= SanitizedLocations(b)
    ensures MonthlyTotal(s.(locations := a)) <= MonthlyTotal(s.(locations := b))
    ensures OneTimeTotal(s.(locations := a)) == OneTimeTotal(s.(locations := b))
  {
  }

  /** More (sanitised) landing pages never lower the one-time bill and leave the monthly bill alone. */
  lemma MonotoneInLandingPages(s: Selection, a: Quantity, b: Quantity)
    requires SanitizedCount(a) <= SanitizedCount(b)
    ensures OneTimeTotal(s.(landingPages := a)) <= OneTimeTotal(s.(landingPages := b))
    ensures MonthlyTotal(s.(landingPages := a)) == MonthlyTotal(s.(landingPages := b))
  {
  }

  /** More (sanitised) campaigns never lower the one-time bill and leave the monthly bill alone. */
  lemma MonotoneInCampaigns(s: Selection, a: Quantity, b: Quantity)
    requires SanitizedCount(a) <= SanitizedCount(b)
    ensures OneTimeTotal(s.(leadGenCampaigns := a)) <= OneTimeTotal(s.(leadGenCampaigns := b))
    ensures MonthlyTotal(s.(leadGenCampaigns := a)) == MonthlyTotal(s.(leadGenCampaigns := b))
  {
  }

  /** A higher spend band never lowers the monthly bill. */
  lemma MonotoneInTier(s: Selection, a: AdTier, b: AdTier)
    requires TierRank(a) <= TierRank(b)
    ensures MonthlyTotal(s.(adTier := a)) <= MonthlyTotal(s.(adTier := b))
  {
    AdFeeChargedOnce(s, b, a);
    if TierRank(a) < TierRank(b) {
      AdMgmtStrictlyIncreasing(a, b);
    }
  }

  /** Pilot with Proof alone at the lowest band: 3500 once, 300 a month. */
  lemma PilotOnlyScenario()
    ensures MonthlyTotal(Initial.(pilotWithProof := true)) == 300
    ensures OneTimeTotal(Initial.(pilotWithProof := true)) == 3500
  {
  }

  /** Local Dominance and the sprint, two locations, band $2k-$5k: 900 + 250 + 1200 + 600. */
  lemma TwoAdPackagesScenario()
    ensures MonthlyTotal(Initial.(localDominance := true, ecomSprint := true,
                                  locations := Count(2), adTier := From2To5)) == 2950
  {
  }
}
