# Rate calculator and site helpers, in Dafny

This project models the logic of a marketing site for a digital agency.

At its centre is the **rate calculator**:
- a catalog of whole-dollar prices (`Pricing`), including a four-band monthly ad-management fee;
- the shared selection store, with its `set` (shallow patch merge) and `reset` (`Selection`, `Store`);
- the pricing engine `computeTotals`, which sanitises three quantities and adds the selected line items into a monthly and a one-time total (`Totals`).

Around it sit the two views that write the store:
- the calculator view (`CalculatorView`), with its input clamps, the lead-generation dropdown that writes 0 or 1 campaigns, and the displayed one-time total that prices campaigns at $499 instead of the catalog's $349;
- the services grid (`Services`), whose card buttons toggle one switch each.

Smaller string logic of the site is modelled beside it:
- the hash-query split and clean-up of the QR landing page (`QrLanding`);
- the href classifier, CTA id default and event payload of the click analytics (`Analytics`);
- the pathname-to-hash redirect, the hash route table and the "start intake form" label test of the application shell (`App`).

`Strings` holds the JavaScript string operations these use (`indexOf`, `startsWith`, `includes`, `toLowerCase`, `trim`).

The modelling choices:
- **Quantities.** A quantity is `Count(n)` for an integer `n`, or `Malformed` for NaN. A patch's number fields admit NaN and negative values, so both can reach the engine, and the model keeps both.
- **The store** is a class with one `state` field. `Set` replaces it with the merge of the old state and the patch.
- **`computeTotals`** is a method that accumulates the line items step by step. It is proved equal to the specification functions `MonthlyTotal` and `OneTimeTotal`, and the engine's properties are lemmas about those functions.
- **The view** is a class holding the store and the dropdown's own entry.

## Model

| member | source | states |
|---|---|---|
| Pricing.ParseTierCode | src/lib/pricing.ts:6 | each of the four band codes reads back as its own band |
| Pricing.AdMgmt | src/lib/pricing.ts:19-24 | the fee is defined for every band, is positive, and is 300 times the band's rank plus one |
| Pricing.CatalogPositive | src/lib/pricing.ts:13-43 | every flat and per-unit catalog price is a positive whole-dollar amount |
| Pricing.AdMgmtStrictlyIncreasing | src/lib/pricing.ts:20-23 | one band's fee is below another's exactly when its spend band is lower |
| Selection.MergeEmpty | src/store/useRateCalculator.ts:71 | merging an empty patch leaves the state unchanged |
| Selection.Merge | src/store/useRateCalculator.ts:71 | a quantity or the band held by the patch takes the patch's value; one the patch lacks keeps its old value |
| Selection.MergeSwitch | src/store/useRateCalculator.ts:71 | a switch held by the patch takes the patch's value; a switch the patch lacks keeps its old value |
| Selection.MergeFull | src/store/useRateCalculator.ts:71-72 | a patch spelling out every field replaces the whole state, whatever it was |
| Selection.MergeIdempotent | src/store/useRateCalculator.ts:71 | applying the same patch twice is the same as applying it once |
| Selection.MergeSwitchPatch | src/store/useRateCalculator.ts:71 | merging a one-key patch is exactly writing that one switch |
| Selection.WithReadsBack | src/store/useRateCalculator.ts:71 | a written switch reads back as written |
| Selection.WithKeepsOtherSwitch | src/store/useRateCalculator.ts:71 | writing one switch leaves every other switch as it was |
| Selection.WithKeepsQuantities | src/store/useRateCalculator.ts:71 | writing a switch leaves the three quantities and the band as they were |
| Selection.WithOnlyChangesKey | src/store/useRateCalculator.ts:71 | a one-switch write changes that switch and nothing else |
| Selection.WithRestores | src/store/useRateCalculator.ts:71 | writing a switch back to its old value undoes any earlier write to it |
| Totals.SanitizedLocations | src/store/useRateCalculator.ts:82 | locations used for pricing are at least 1; a malformed, zero or negative count becomes 1, and a positive count is kept |
| Totals.SanitizedCount | src/store/useRateCalculator.ts:83-84 | landing pages and campaigns used for pricing are at least 0; a malformed or negative count becomes 0, and a non-negative count is kept |
| Totals.MonthlyTotal | src/store/useRateCalculator.ts:80-132 | the monthly total is non-negative for every state |
| Totals.OneTimeTotal | src/store/useRateCalculator.ts:80-132 | the one-time total is non-negative for every state |
| Totals.AddPackages | src/store/useRateCalculator.ts:86-117 | the package steps add exactly the package line items to both running totals |
| Totals.AddALaCarte | src/store/useRateCalculator.ts:119-130 | the add-on steps add exactly the add-on line items to both running totals |
| Totals.ComputeTotals | src/store/useRateCalculator.ts:80-132 | the accumulated totals equal the line-item sums, and both are non-negative for any state, malformed quantities included |
| Totals.InitialTotals | src/store/useRateCalculator.ts:43-63 | the defaults price at 0 monthly and 0 one-time |
| Totals.Sanitize | src/store/useRateCalculator.ts:82-84 | the sanitised state holds well-formed counts: at least 1 location, and at least 0 landing pages and campaigns |
| Totals.TotalsSeeOnlySanitized | src/store/useRateCalculator.ts:80-132 | both totals of a state equal those of its sanitised form, so malformed input is never an error |
| Totals.SanitizeIdempotent | src/store/useRateCalculator.ts:82-84 | sanitising twice is sanitising once |
| Totals.SanitizationExamples | src/store/useRateCalculator.ts:82-84 | -5 locations price like 1, and NaN landing pages price like 0 |
| Totals.LocationSurcharge | src/store/useRateCalculator.ts:90-93 | with Local Dominance on, each location past the first adds 250; 0 locations and NaN price like 1 |
| Totals.LocationsOnlyAddSurcharge | src/store/useRateCalculator.ts:90-93 | locations affect the monthly total only through Local Dominance's 250-per-extra-location surcharge |
| Totals.LocalDominanceAdds | src/store/useRateCalculator.ts:90-103 | turning Local Dominance on adds 900 + 250 × (locations − 1), plus the band's ad fee unless another ad package is already on; the one-time total is unchanged |
| Totals.AdFeeChargedOnce | src/store/useRateCalculator.ts:99-103 | the band's fee enters the monthly total exactly once when an ad-running package is on, and not at all otherwise; the band never affects the one-time total |
| Totals.NoSecondAdFee | src/store/useRateCalculator.ts:99-103 | once an ad-running package is on, adding another adds only its own base price, never a second ad fee |
| Totals.OneTimeIndependentOfMonthlyInputs | src/store/useRateCalculator.ts:105-130 | the one-time total depends only on the pilot, measurement, landing-page, web-design, branding and campaign fields |
| Totals.MonthlyMonotoneInSwitches | src/store/useRateCalculator.ts:89-123 | turning any package or add-on on never lowers the monthly total |
| Totals.OneTimeMonotoneInSwitches | src/store/useRateCalculator.ts:105-130 | turning any package or add-on on never lowers the one-time total |
| Totals.MonotoneInLocations | src/store/useRateCalculator.ts:90-93 | more sanitised locations never lower the monthly total and leave the one-time total alone |
| Totals.MonotoneInLandingPages | src/store/useRateCalculator.ts:115-117 | more sanitised landing pages never lower the one-time total and leave the monthly total alone |
| Totals.MonotoneInCampaigns | src/store/useRateCalculator.ts:128-130 | more sanitised campaigns never lower the one-time total and leave the monthly total alone |
| Totals.MonotoneInTier | src/store/useRateCalculator.ts:99-103 | a higher spend band never lowers the monthly total |
| Totals.PilotOnlyScenario | src/store/useRateCalculator.ts:99-110 | Pilot with Proof alone at the lowest band costs 3500 one-time and 300 a month |
| Totals.TwoAdPackagesScenario | src/store/useRateCalculator.ts:90-103 | Local Dominance and the sprint with 2 locations at the $2k-$5k band cost 2950 a month (900 + 250 + 1200 + 600, one ad fee) |
| Store.RateCalculatorStore.constructor | src/store/useRateCalculator.ts:69-73 | the store starts with the defaults |
| Store.RateCalculatorStore.Set | src/store/useRateCalculator.ts:71 | the new state is the old state with exactly the patched fields overwritten |
| Store.RateCalculatorStore.Reset | src/store/useRateCalculator.ts:72 | the new state is exactly the defaults, whatever the state was |
| Services.CardsCoverEveryKeyOnce | src/components/sections/Services.tsx:42-135 | there are 4 package cards and 6 add-on cards; their ten keys are distinct and cover every switch |
| Services.Toggled | src/components/sections/Services.tsx:144-146 | merging a card's toggle patch is the same as writing the negated value into that one switch |
| Services.ButtonLabel | src/components/sections/Services.tsx:158-183 | the caption is "Remove from estimate" exactly when the card is selected and "Add to estimate" exactly when it is not |
| Services.ToggleFlipsOnlyItsKey | src/components/sections/Services.tsx:144-146 | a card button negates its own switch and leaves every other switch, the quantities and the band unchanged |
| Services.ToggleTwice | src/components/sections/Services.tsx:144-146 | pressing the same card button twice restores the selection |
| Services.Toggle | src/components/sections/Services.tsx:144-146 | the store's new state is the old state with that card's switch negated |
| Services.ButtonLabelTracksSelection | src/components/sections/Services.tsx:158-183 | the button reads "Remove from estimate" exactly when its card is selected, and pressing it switches the caption |
| CalculatorView.LocationsInput | src/components/sections/RateCalculator.tsx:200-206 | the locations box stores 1 for NaN and max(1, n) otherwise, so never less than 1 |
| CalculatorView.LandingPagesInput | src/components/sections/RateCalculator.tsx:225-231 | the landing-pages box stores 0 for NaN and max(0, n) otherwise, so never less than 0 |
| CalculatorView.InputClampsAgreeWithEngine | src/components/sections/RateCalculator.tsx:200-231 | the boxes store exactly what the engine's sanitisation would use, and the engine prices the stored values unchanged |
| CalculatorView.CampaignsFor | src/components/sections/RateCalculator.tsx:360-364 | the dropdown writes 0 or 1, and writes 0 exactly for 'None' |
| CalculatorView.InitialLeadGenType | src/components/sections/RateCalculator.tsx:98-101 | the dropdown starts at 'None' exactly when the stored campaign count is not positive |
| CalculatorView.LeadGenRoundTrip | src/components/sections/RateCalculator.tsx:98-101 | after a choice is written, a remounted dropdown shows 'None' exactly when 'None' was chosen, and agrees with the store |
| CalculatorView.DisplayOneTimeTotal | src/components/sections/RateCalculator.tsx:103-108 | the displayed one-time total is NaN exactly when the campaign count is NaN, and equals the engine's total when there are no campaigns |
| CalculatorView.ControlsKeepShape | src/components/sections/RateCalculator.tsx:130-364 | the defaults and every write by a control or a card keep the quantities clamped and the campaign count at 0 or 1 |
| CalculatorView.DisplayChargesAdvertisedPrice | src/components/sections/RateCalculator.tsx:103-108 | for any state the controls produce, the displayed one-time total prices each campaign at 499 instead of 349, and is never below the engine's figure |
| CalculatorView.DisplayedTotals | src/components/sections/RateCalculator.tsx:59-108 | the monthly figure shown is the engine's unadjusted one; with no campaigns the one-time figure is the engine's too |
| CalculatorView.ResetAsWrittenLeavesStaleDropdown | src/components/sections/RateCalculator.tsx:413 | after a campaign is chosen, the Reset button leaves the dropdown showing it while the store holds no campaign |
| CalculatorView.ResetAsWritten | src/components/sections/RateCalculator.tsx:413 | Reset as wired returns the store to the defaults and keeps the dropdown's entry; afterwards the two agree exactly when the entry was 'None' |
| CalculatorView.ResetCorrected | src/components/sections/RateCalculator.tsx:413 | the corrected reset returns the store to the defaults |
| CalculatorView.ResetCorrectedAgrees | src/components/sections/RateCalculator.tsx:98-101 | the corrected reset always leaves the dropdown agreeing with the store |
| CalculatorView.RateCalculatorView.constructor | src/components/sections/RateCalculator.tsx:98-101 | a new view starts with the dropdown derived from the stored count, so the two agree |
| CalculatorView.RateCalculatorView.Shown | src/components/sections/RateCalculator.tsx:391-400 | the summary bar shows the engine's monthly total unadjusted; its one-time figure is NaN exactly when the stored campaign count is NaN, and for any state the controls produce it is the engine's zero-campaign total plus 499 per campaign |
| CalculatorView.RateCalculatorView.OnCheckbox | src/components/sections/RateCalculator.tsx:134 | a checkbox writes only its own switch, and the dropdown's agreement with the store is unchanged |
| CalculatorView.RateCalculatorView.OnLocationsChange | src/components/sections/RateCalculator.tsx:200-206 | the locations box writes only the clamped locations |
| CalculatorView.RateCalculatorView.OnLandingPagesChange | src/components/sections/RateCalculator.tsx:225-231 | the landing-pages box writes only the clamped landing pages |
| CalculatorView.RateCalculatorView.OnTierChange | src/components/sections/RateCalculator.tsx:244-251 | the band selector writes only the band, and the stored band's code is the option's value |
| CalculatorView.RateCalculatorView.OnLeadGenChange | src/components/sections/RateCalculator.tsx:360-364 | the dropdown records its entry and writes only the 0-or-1 campaign count, after which the two agree |
| CalculatorView.RateCalculatorView.OnResetAsWritten | src/components/sections/RateCalculator.tsx:413 | the Reset button as wired: the store holds the defaults and the dropdown keeps its entry, so the two agree exactly when that entry is 'None' |
| CalculatorView.RateCalculatorView.OnReset | src/components/sections/RateCalculator.tsx:413 | the corrected reset: the store holds the defaults, the dropdown shows 'None', and the two agree |
| Strings.IndexOf | src/pages/QrLanding.tsx:30 | the result is the first index holding the character, or -1 exactly when it does not occur |
| Strings.Contains | src/lib/analytics.ts:84 | `includes` holds exactly when the substring occurs at some position |
| Strings.StartsWith | src/lib/analytics.ts:82-83 | `startsWith` holds exactly when the string is the prefix followed by some rest |
| Strings.LowerChar | src/lib/analytics.ts:81 | lower-casing maps each ASCII capital to its small letter and leaves every other character alone |
| Strings.ToLower | src/lib/analytics.ts:81 | lower-casing keeps the length and lower-cases each character in place |
| Strings.ToLowerIdempotent | src/App.tsx:81 | lower-casing a second time changes nothing |
| Strings.ToLowerAppend | src/lib/analytics.ts:81 | lower-casing a concatenation lower-cases each piece |
| Strings.LeadingWhitespace | src/App.tsx:81 | the count covers exactly the whitespace run at the start of the string |
| Strings.TrailingWhitespace | src/App.tsx:81 | the count covers exactly the whitespace run at the end of the string |
| Strings.Trim | src/App.tsx:81 | the result is the slice of the input that begins right after its leading whitespace, is followed only by whitespace, and neither starts nor ends with whitespace |
| Strings.TrimFindsCore | src/App.tsx:81 | trimming whitespace + core + whitespace, where the core neither starts nor ends with whitespace, gives back the core |
| Strings.TrimIdempotent | src/App.tsx:81 | a trimmed string neither starts nor ends with whitespace, so trimming again changes nothing |
| Strings.TrimIgnoresPadding | src/App.tsx:81 | adding whitespace around a string does not change what trimming returns |
| QrLanding.GetHashQuery | src/pages/QrLanding.tsx:27-34 | there is no query outside a browser or when the hash has no '?'; otherwise the query is exactly what follows the first '?' |
| QrLanding.NoHashNoQuery | src/pages/QrLanding.tsx:29-31 | a missing or empty hash yields no query |
| QrLanding.HashQueryRoundTrip | src/pages/QrLanding.tsx:30-32 | for a prefix without '?', splitting prefix + '?' + query gives back the query, later '?'s included |
| QrLanding.GetParam | src/pages/QrLanding.tsx:56 | a parameter lookup finds nothing exactly when no pair has that name, and otherwise returns a value paired with that name |
| QrLanding.ShowsThanksToast | src/pages/QrLanding.tsx:56 | the toast shows exactly when the query's first `thanks` pair, wherever it stands, has value "1"; never without a query |
| QrLanding.ThanksToastOnlyForOne | src/pages/QrLanding.tsx:56 | after any pairs with other names, a `thanks` pair shows the toast exactly when its value is "1", whatever follows; a query without `thanks` or no query shows none |
| QrLanding.CleanHash | src/pages/QrLanding.tsx:66 | the cleaned hash is the prefix before the first '?', contains no '?', and is the whole hash when there is none |
| QrLanding.CleanHashSettles | src/pages/QrLanding.tsx:66 | cleaning is idempotent, and a cleaned hash carries no query |
| QrLanding.CleanHashAndQueryRebuild | src/pages/QrLanding.tsx:30-32 | the cleaned hash, a '?' and the extracted query rebuild the original hash |
| Analytics.TypeName | src/lib/analytics.ts:21 | each event type is recorded as one of the five declared names |
| Analytics.TypeNameInjective | src/lib/analytics.ts:21 | different types get different names |
| Analytics.Classify | src/lib/analytics.ts:79-86 | on the lower-cased href: a 'tel:' prefix gives tel; otherwise a 'mailto:' prefix gives mailto; otherwise 'calendly' anywhere gives calendly; anything else is a link, and never form |
| Analytics.ClassifyIgnoresCase | src/lib/analytics.ts:81 | letter case never changes the classification |
| Analytics.TelInAnyCase | src/lib/analytics.ts:82 | any letter case of 'tel:' in front gives tel, whatever follows |
| Analytics.MailtoInAnyCase | src/lib/analytics.ts:83 | any letter case of 'mailto:' in front gives mailto, whatever follows |
| Analytics.CalendlyAnywhere | src/lib/analytics.ts:84 | any letter case of 'calendly' anywhere gives calendly, unless a tel or mailto prefix takes precedence |
| Analytics.AnchorHref | src/lib/analytics.ts:80 | the href is the non-empty href attribute, or else the resolved href property |
| Analytics.CtaId | src/lib/analytics.ts:67 | the CTA id is never empty: a missing or empty `data-cta` becomes 'cta' |
| Analytics.FindLink | src/lib/analytics.ts:73-77 | the link is the element itself when it is a linked anchor, else the enclosing anchor, else the first anchor inside |
| Analytics.CtaParams | src/lib/analytics.ts:69-93 | the params carry exactly cta, href, type and hash; with no link, href is empty and type is 'link'; hash is undefined exactly when there is no window, and otherwise is the location's hash |
| Analytics.Payload | src/lib/analytics.ts:33 | the payload has the params' keys plus event and ts; ts is always the timestamp; every other param is kept |
| Analytics.OnCtaClick | src/lib/analytics.ts:60-93 | a click records an event exactly when a `data-cta` element encloses it; the event has exactly the six keys, is a cta_click, carries the timestamp, and its cta, href, type and hash are the click's params |
| Analytics.ClickRecordsOneCtaEvent | src/lib/analytics.ts:60-93 | a click records an event exactly when a `data-cta` element encloses it, and the event is a timestamped cta_click with a non-empty CTA id |
| App.RedirectHash | src/App.tsx:203-212 | the hash is assigned exactly when the pathname is '/qr', '/qr-code' or '/thank-you' and the hash does not already name it, and then it is set to the pathname |
| App.RedirectSettles | src/App.tsx:203-212 | after the assignment no further redirect is asked for, so at most one happens |
| App.RouteFrom | src/App.tsx:168-190 | a path matching no declared route shows Home, and any other page shown is declared at that path |
| App.Route | src/App.tsx:168-190 | Home is shown exactly when the path is none of '/qr', '/qr-code' and '/thank-you'; any other page is shown only at its own path |
| App.RouteTable | src/App.tsx:168-190 | each page is reached at its own path; any path other than the four declared ones shows Home |
| App.RedirectLandsOnItsPage | src/App.tsx:168-212 | a redirect always lands on the page its pathname names, never on the fallback |
| App.IntakeCaptionIsTrimmed | src/App.tsx:81-82 | a caption that lower-cases to the intake label has no whitespace to trim |
| App.IsIntakeButton | src/App.tsx:81-82 | an element without text or with empty text is never hidden; a hidden element's text, trimmed and lower-cased, is the label; any letter case of the label is hidden |
| App.IntakeButtonMatch | src/App.tsx:81-82 | surrounding whitespace never changes the decision; a button without text is never hidden; a caption in any letter case of the label is hidden |
| App.HiddenTextIsPaddedLabel | src/App.tsx:81-82 | a button is hidden exactly when its text is whitespace, a letter casing of the label, and whitespace |

## Left out

- `formatCurrency`: locale formatting through `Intl.NumberFormat`, a foreign library. Totals are whole-dollar integers.
- The store library and React machinery (`create`, hooks, `useMemo`, `useState`, rendering): the store is a plain class, and each view is a class holding a reference to it.
- Number precision: JavaScript numbers are doubles, so `parseInt`, `Number` and the totals lose integer precision past 2^53. The model's integers are unbounded.
- Fractional numbers: `Math.floor` in the sanitisation and `parseInt` of the input boxes work on JavaScript numbers. The model takes an already parsed integer, or `Malformed` for NaN. Non-integer values and infinities are not modelled.
- Unknown band strings: the band select's value is cast to a band unchecked (src/components/sections/RateCalculator.tsx:244). Its options are the four band codes, so `OnTierChange` takes only a code that `ParseTier` accepts, and an unknown string reaching the engine is not modelled.
- Letter case: `toLowerCase` is modelled for ASCII capitals only. Other Unicode case mappings are not modelled.
- String encoding: JavaScript strings are UTF-16, while the model's characters are code points. The whitespace set is the same.
- Query parsing: the model takes the query as already parsed name/value pairs. `URLSearchParams` decoding (percent-escapes, '+') is a browser API.
- `history.replaceState` and `new URL(...)`: browser APIs. `CleanHash` models only the string split applied to the hash.
- The toast, document title and CTA listener attachment on the QR page: presentation and DOM side effects.
- DOM queries: `closest`, `querySelector` and `dataset` are DOM queries. The model takes their answers as fields of `CtaElement`. `typeof link.href === 'string'` always holds for an anchor, so that test is not modelled.
- `gtag` and `dataLayer` dispatch, the `try` that swallows their errors, and console logging: foreign calls and I/O. The payload itself is modelled, with the clock as a parameter.
- `MutationObserver`, the style and attribute changes that hide a matched button, `CtaTextUpdater` and the injected CSS: DOM mutation. Only the label test is modelled.
- The window guard of the redirect: `typeof window !== 'undefined' && window.location` (src/App.tsx:203) is left out. `RedirectHash` takes the pathname and hash of a location that exists.
- Route matching: react-router's matching (parameters, trailing slashes, case) is reduced to exact path equality over the declared table.
- Lead-form submission, the QR code generator page, the navigation bar, the active-section hook, the favicon and all static content sections: network I/O, foreign libraries or presentation only.
- CalculatorView.DisplayOneTimeTotal: the displayed figure uses the raw stored campaign count. A negative count written through some other path would lower it. `DisplayChargesAdvertisedPrice` states the 499-per-campaign price only for states the controls can produce.

## Findings

| source | as written | input that shows it | evidently intended | confidence | as-written member | corrected member |
|---|---|---|---|---|---|---|
| src/components/sections/RateCalculator.tsx:413 | the Reset button calls the store's `reset` only; the dropdown's own `leadGenType` (lines 98-101) keeps its entry | choose 'Google Ads (Search/PMax)', then press Reset: the store holds 0 campaigns while the dropdown still shows Google Ads | Reset returns the dropdown to 'None' as well, so it agrees with the stored count | medium, not executed | CalculatorView.ResetAsWrittenLeavesStaleDropdown | CalculatorView.ResetCorrectedAgrees |

`RateCalculatorView.OnResetAsWritten` models the button as wired, and `RateCalculatorView.OnReset` performs the corrected reset.
