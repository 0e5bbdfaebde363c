/**
 * The rate-calculator view: the input clamps its controls apply before
 * writing to the shared store, the lead-generation dropdown, and the
 * one-time total it displays at a different per-campaign price than the
 * catalog's.
 */
module CalculatorView {
  import opened Wrappers
  import opened Pricing
  import opened Selection
  import opened Totals
  import opened Store

  /** The per-campaign price the view advertises and displays. */
  const LeadGenDisplayPrice: int := 499

  /** The locations box: NaN stores 1, any parsed integer is raised to at least 1. */
  function LocationsInput(parsed: Quantity): (r: int)
    ensures r >= 1
    ensures parsed.Count? && parsed.n >= 1 ==> r == parsed.n
    ensures parsed.Malformed? || parsed.n < 1 ==> r == 1
  {
    Max(1, if parsed.Malformed? then 1 else parsed.n)
  }

  /** The landing-pages box: NaN stores 0, any parsed integer is raised to at least 0. */
  function LandingPagesInput(parsed: Quantity): (r: int)
    ensures r >= 0
    ensures parsed.Count? && parsed.n >= 0 ==> r == parsed.n
    ensures parsed.Malformed? || parsed.n < 0 ==> r == 0
  {
    Max(0, if parsed.Malformed? then 0 else parsed.n)
  }

  /**
   * The view's clamps and the engine's sanitisation agree: the engine
   * prices what the boxes store exactly as the boxes stored it.
   */
  lemma InputClampsAgreeWithEngine(parsed: Quantity)
    ensures LocationsInput(parsed) == SanitizedLocations(parsed)
    ensures SanitizedLocations(Count(LocationsInput(parsed))) == LocationsInput(parsed)
    ensures LandingPagesInput(parsed) == SanitizedCount(parsed)
    ensures SanitizedCount(Count(LandingPagesInput(parsed))) == LandingPagesInput(parsed)
  {
  }

  /** The campaign types offered by the dropdown; `NoLeadGen` is the 'None' entry. */
  datatype LeadGenType =
    | NoLeadGen
    | GoogleAds
    | MetaAds
    | LinkedInOutreach
    | EmailOutreach
    | LeadMagnetLandingPage

  /** The campaign count the dropdown writes: 0 for 'None', 1 for any campaign type. */
  function CampaignsFor(t: LeadGenType): (r: int)
    ensures r == 0 || r == 1
    ensures r == 0 <==> t == NoLeadGen
  {
    if t == NoLeadGen then 0 else 1
  }

  /** A stored count that the engine prices as at least one campaign. */
  predicate HasCampaigns(q: Quantity)
  {
    q.Count? && q.n > 0
  }

  /** The dropdown's entry when the view mounts: 'None' unless the stored count is positive. */
  function InitialLeadGenType(q: Quantity): (r: LeadGenType)
    ensures r == NoLeadGen <==> !HasCampaigns(q)
  {
    if HasCampaigns(q) then GoogleAds else NoLeadGen
  }

  /** The dropdown and the stored count tell the same story. */
  predicate DropdownAgrees(t: LeadGenType, s: Selection)
  {
    t == NoLeadGen <==> !HasCampaigns(s.leadGenCampaigns)
  }

  /** Choosing a type and remounting the view shows 'None' again exactly when 'None' was chosen. */
  lemma LeadGenRoundTrip(t: LeadGenType)
    ensures (InitialLeadGenType(Count(CampaignsFor(t))) == NoLeadGen) == (t == NoLeadGen)
    ensures DropdownAgrees(t, Initial.(leadGenCampaigns := Count(CampaignsFor(t))))
  {
  }

  /**
   * The displayed one-time total: the engine's total moved by the price
   * difference for each stored campaign. The stored count is used as is,
   * so a NaN count displays NaN.
   */
  function DisplayOneTimeTotal(oneTimeTotal: int, leadGenCampaigns: Quantity): (r: Quantity)
    ensures leadGenCampaigns.Malformed? <==> r.Malformed?
    ensures leadGenCampaigns == Count(0) ==> r == Count(oneTimeTotal)
  {
    match leadGenCampaigns
    case Count(n) => Count(oneTimeTotal + (LeadGenDisplayPrice - LeadGenCampaign) * n)
    case Malformed => Malformed
  }

  /** What the controls can leave in the store: quantities already clamped, a campaign count of 0 or 1. */
  predicate WrittenByControls(s: Selection)
  {
    && s.locations.Count? && s.locations.n >= 1
    && s.landingPages.Count? && s.landingPages.n >= 0
    && (s.leadGenCampaigns == Count(0) || s.leadGenCampaigns == Count(1))
  }

  /** The defaults, and every write of the calculator's controls and the service cards, keep that shape. */
  lemma ControlsKeepShape(s: Selection, parsed: Quantity, t: LeadGenType, k: ServiceKey, b: bool, tier: AdTier)
    requires WrittenByControls(s)
    ensures WrittenByControls(Initial)
    ensures WrittenByControls(s.(locations := Count(LocationsInput(parsed))))
    ensures WrittenByControls(s.(landingPages := Count(LandingPagesInput(parsed))))
    ensures WrittenByControls(s.(leadGenCampaigns := Count(CampaignsFor(t))))
    ensures WrittenByControls(s.(adTier := tier))
    ensures WrittenByControls(With(s, k, b))
  {
    WithOnlyChangesKey(s, k, b);
  }

  /**
   * For any state the controls can produce, the displayed one-time total
   * is the engine's one-time total with every campaign priced at 499
   * instead of 349; it is never below the engine's figure, and equal to it
   * when no campaign is selected.
   */
  lemma DisplayChargesAdvertisedPrice(s: Selection)
    ensures WrittenByControls(s) ==>
              DisplayOneTimeTotal(OneTimeTotal(s), s.leadGenCampaigns)
              == Count(OneTimeTotal(s.(leadGenCampaigns := Count(0)))
                       + LeadGenDisplayPrice * s.leadGenCampaigns.n)
    ensures WrittenByControls(s) ==>
              DisplayOneTimeTotal(OneTimeTotal(s), s.leadGenCampaigns).n >= OneTimeTotal(s)
  {
  }

  /** The monthly figure is shown as the engine computes it; only the one-time figure is adjusted. */
  function DisplayedTotals(s: Selection): (r: (int, Quantity))
    ensures r.0 == MonthlyTotal(s)
    ensures s.leadGenCampaigns == Count(0) ==> r.1 == Count(OneTimeTotal(s))
  {
    (MonthlyTotal(s), DisplayOneTimeTotal(OneTimeTotal(s), s.leadGenCampaigns))
  }

  /** Reset as the view wires it: the store returns to the defaults, the dropdown keeps its entry. */
  function ResetAsWritten(t: LeadGenType, s: Selection): (r: (LeadGenType, Selection))
    ensures r.0 == t && r.1 == Initial
    ensures DropdownAgrees(r.0, r.1) <==> t == NoLeadGen
  {
    (t, Initial)
  }

  /** After a campaign was chosen, Reset leaves the dropdown showing it while the store holds no campaign. */
  lemma ResetAsWrittenLeavesStaleDropdown(s: Selection)
    requires DropdownAgrees(GoogleAds, s)
    ensures !DropdownAgrees(ResetAsWritten(GoogleAds, s).0, ResetAsWritten(GoogleAds, s).1)
  {
  }

  /** Reset that also returns the dropdown to 'None'. */
  function ResetCorrected(t: LeadGenType, s: Selection): (r: (LeadGenType, Selection))
    ensures r.1 == Initial
  {
    (NoLeadGen, Initial)
  }

  /** The corrected reset always leaves the dropdown agreeing with the store. */
  lemma ResetCorrectedAgrees(t: LeadGenType, s: Selection)
    ensures DropdownAgrees(ResetCorrected(t, s).0, ResetCorrected(t, s).1)
  {
  }

  /**
   * The calculator view: the shared store it writes through, and the
   * dropdown's own entry.
   */
  class RateCalculatorView {
    const store: RateCalculatorStore
    var leadGenType: LeadGenType

    /** The dropdown agrees with the stored campaign count. */
    predicate Consistent()
      reads this, store
    {
      DropdownAgrees(leadGenType, store.state)
    }

    constructor (store: RateCalculatorStore)
      ensures this.store == store
      ensures leadGenType == InitialLeadGenType(store.state.leadGenCampaigns)
      ensures Consistent()
    {
      this.store := store;
      leadGenType := InitialLeadGenType(store.state.leadGenCampaigns);
    }

    /** The figures in the summary bar. */
    function Shown(): (r: (int, Quantity))
      reads this, store
      ensures r.0 == MonthlyTotal(store.state)
      ensures r.1.Malformed? <==> store.state.leadGenCampaigns.Malformed?
      ensures WrittenByControls(store.state) ==>
                r.1 == Count(OneTimeTotal(store.state.(leadGenCampaigns := Count(0)))
                             + LeadGenDisplayPrice * store.state.leadGenCampaigns.n)
    {
      DisplayChargesAdvertisedPrice(store.state);
      DisplayedTotals(store.state)
    }

    /** A package or add-on checkbox writes its own switch. */
    method OnCheckbox(k: ServiceKey, checked: bool)
      modifies store
      ensures store.state == With(old(store.state), k, checked)
      ensures Consistent() <==> old(Consistent())
    {
      MergeSwitchPatch(store.state, k, checked);
      WithOnlyChangesKey(store.state, k, checked);
      store.Set(SwitchPatch(k, checked));
    }

    /** The locations box writes its clamped value. */
    method OnLocationsChange(parsed: Quantity)
      modifies store
      ensures store.state == old(store.state).(locations := Count(LocationsInput(parsed)))
      ensures Consistent() <==> old(Consistent())
    {
      store.Set(EmptyPatch.(locations := Some(Count(LocationsInput(parsed)))));
    }

    /** The landing-pages box writes its clamped value. */
    method OnLandingPagesChange(parsed: Quantity)
      modifies store
      ensures store.state == old(store.state).(landingPages := Count(LandingPagesInput(parsed)))
      ensures Consistent() <==> old(Consistent())
    {
      store.Set(EmptyPatch.(landingPages := Some(Count(LandingPagesInput(parsed)))));
    }

    /**
     * The band selector writes the band whose code it delivers; it only
     * offers the four band codes as options.
     */
    method OnTierChange(code: string)
      requires ParseTier(code).Some?
      modifies store
      ensures store.state == old(store.state).(adTier := ParseTier(code).value)
      ensures TierCode(store.state.adTier) == code
      ensures Consistent() <==> old(Consistent())
    {
      store.Set(EmptyPatch.(adTier := ParseTier(code)));
    }

    /** The dropdown records its entry and writes 0 or 1 campaigns. */
    method OnLeadGenChange(next: LeadGenType)
      modifies this, store
      ensures leadGenType == next
      ensures store.state == old(store.state).(leadGenCampaigns := Count(CampaignsFor(next)))
      ensures Consistent()
    {
      leadGenType := next;
      store.Set(EmptyPatch.(leadGenCampaigns := Some(Count(CampaignsFor(next)))));
    }

    /** The Reset button as wired: the store is reset, the dropdown keeps its entry. */
    method OnResetAsWritten()
      modifies store
      ensures (leadGenType, store.state) == ResetAsWritten(old(leadGenType), old(store.state))
      ensures Consistent() <==> leadGenType == NoLeadGen
    {
      store.Reset();
    }

    /** The Reset button, with the dropdown returned to 'None' as well. */
    method OnReset()
      modifies this, store
      ensures (leadGenType, store.state) == ResetCorrected(old(leadGenType), old(store.state))
      ensures Consistent()
    {
      store.Reset();
      leadGenType := NoLeadGen;
    }
  }
}
