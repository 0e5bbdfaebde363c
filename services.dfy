/**
 * The services grid: package and add-on cards whose buttons switch one
 * field of the shared store on or off.
 */
module Services {
  import opened Selection
  import opened Store

  /** The core-package cards, in display order. */
  const Packages: seq<ServiceKey> :=
    [PilotWithProofKey, LocalDominanceKey, EcomSprintKey, MeasurementMakeoverKey]

  /** The add-on cards, in display order. */
  const ALaCarte: seq<ServiceKey> :=
    [WebDesignKey, SeoEssentialsKey, SocialMediaMgmtKey, AnalyticsReportingKey,
     EcomFunnelsLiteKey, BrandingStrategyKey]

  /** The two card lists name ten distinct keys between them, and every key has a card. */
  lemma CardsCoverEveryKeyOnce()
    ensures |Packages| == 4 && |ALaCarte| == 6
    ensures forall i, j :: 0 <= i < j < |Packages + ALaCarte| ==> (Packages + ALaCarte)[i] != (Packages + ALaCarte)[j]
    ensures forall k: ServiceKey :: k in Packages + ALaCarte
  {
    forall k: ServiceKey
      ensures k in Packages + ALaCarte
    {
      match k
      case PilotWithProofKey =>
      case LocalDominanceKey =>
      case EcomSprintKey =>
      case MeasurementMakeoverKey =>
      case SocialMediaMgmtKey =>
      case AnalyticsReportingKey =>
      case SeoEssentialsKey =>
      case EcomFunnelsLiteKey =>
      case WebDesignKey =>
      case BrandingStrategyKey =>
    }
  }

  /** The patch a card's button sends: its own key, negated. */
  function TogglePatch(s: Selection, k: ServiceKey): Patch
  {
    SwitchPatch(k, !Get(s, k))
  }

  /** The selection after the button of card `k` is pressed. */
  function Toggled(s: Selection, k: ServiceKey): (r: Selection)
    ensures r == With(s, k, !Get(s, k))
    ensures Get(r, k) == !Get(s, k)
  {
    MergeSwitchPatch(s, k, !Get(s, k));
    WithReadsBack(s, k, !Get(s, k));
    Merge(s, TogglePatch(s, k))
  }

  /**
   * Pressing a card's button negates that card's switch and leaves every
   * other switch, the quantities and the band as they were.
   */
  lemma ToggleFlipsOnlyItsKey(s: Selection, k: ServiceKey)
    ensures Get(Toggled(s, k), k) == !Get(s, k)
    ensures forall j :: j != k ==> Get(Toggled(s, k), j) == Get(s, j)
    ensures Toggled(s, k).locations == s.locations && Toggled(s, k).landingPages == s.landingPages
    ensures Toggled(s, k).leadGenCampaigns == s.leadGenCampaigns && Toggled(s, k).adTier == s.adTier
  {
    MergeSwitchPatch(s, k, !Get(s, k));
    WithOnlyChangesKey(s, k, !Get(s, k));
  }

  /** Pressing the same button twice restores the selection. */
  lemma ToggleTwice(s: Selection, k: ServiceKey)
    ensures Toggled(Toggled(s, k), k) == s
  {
    var t := Toggled(s, k);
    MergeSwitchPatch(s, k, !Get(s, k));
    WithReadsBack(s, k, !Get(s, k));
    MergeSwitchPatch(t, k, !Get(t, k));
    WithRestores(s, k, !Get(s, k));
  }

  /** `toggle(key)`: writes the negation of the card's current value into the store. */
  method Toggle(store: RateCalculatorStore, k: ServiceKey)
    modifies store
    ensures store.state == Toggled(old(store.state), k)
  {
    store.Set(TogglePatch(store.state, k));
  }

  /** The caption of a card's button. */
  function ButtonLabel(s: Selection, k: ServiceKey): (r: string)
    ensures r == "Remove from estimate" <==> Get(s, k)
    ensures r == "Add to estimate" <==> !Get(s, k)
  {
    if Get(s, k) then "Remove from estimate" else "Add to estimate"
  }

  /**
   * The button offers removal exactly when the card is selected, and
   * pressing it turns the caption to the other one.
   */
  lemma ButtonLabelTracksSelection(s: Selection, k: ServiceKey)
    ensures ButtonLabel(s, k) == "Remove from estimate" <==> Get(s, k)
    ensures ButtonLabel(Toggled(s, k), k) != ButtonLabel(s, k)
  {
  }
}
