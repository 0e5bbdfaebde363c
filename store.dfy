/**
 * The shared selection store that the services grid and the calculator
 * both read and write: the state's fields, a patch operation and a reset.
 */
module Store {
  import opened Selection

  /**
   * The store keeps one immutable state object; `set` replaces it with a
   * shallow merge of the old object and the patch, as the store library does.
   */
  class RateCalculatorStore {
    var state: Selection

    /** The store is created holding the defaults. */
    constructor ()
      ensures state == Initial
    {
      state := Initial;
    }

    /** `set(patch)`: every field present in the patch is overwritten, every other field is kept. */
    method Set(patch: Patch)
      modifies this
      ensures state == Merge(old(state), patch)
    {
      state := Merge(state, patch);
    }

    /** `reset()`: sets a copy of the defaults, whatever the state was. */
    method Reset()
      modifies this
      ensures state == Initial
    {
      MergeFull(state, Initial);
      Set(FullPatch(Initial));
    }
  }
}
