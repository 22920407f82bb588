# StrongPack storefront: pricing and coupon engine

A Dafny model of the logic inside the `Storefront` page of the StrongPack
single-page shop. The page sells one supplement bundle. Buyers can subscribe
monthly or buy once, pick a quantity and enter a coupon code. A `ref` link
parameter can attribute the sale to an affiliate. The logic has two parts.

- **Pure price derivations** (`pricing.dfy`, module `Pricing`). These compute the
  unit price for the purchase mode, the subtotal, the coupon discount, the total
  and the "you save" figure against the list price. They read the static tables
  in `catalog.dfy` (module `Catalog`): the product, the coupons `FIT10` (10 %) and
  `START5000` (5000 CLP off), and the affiliates `FITJUAN10` and `CROSSFITCARO`.
  Amounts are whole pesos.
- **The purchase selection and its handlers** (`storefront.dfy`, module `Store`).
  The page keeps five state variables: `subscribe`, `qty`, `couponInput`,
  `appliedCoupon` and `refCode`. They change through these handlers:
  - the startup effect, which reads the `ref` and `coupon` query parameters;
  - apply coupon and clear coupon;
  - typing in the coupon box;
  - the minus and plus buttons;
  - the purchase-mode toggle.

  The pure function `Selection -> Selection` for each handler states the next
  state. Lemmas about these functions prove idempotence, the invariant and the
  frame. The class `Store.Storefront` holds the same five fields and updates them
  in place. Each of its methods is proved to leave exactly the state that the
  matching function gives. `Checkout` returns the payload the page would submit.

The invariant `Store.Consistent` holds in every reachable state:
- `qty >= 1`;
- the applied coupon is absent or is a key of the coupon table.

The coupon badge needs the second part, because it reads the applied coupon's
terms from the table without a guard (page.tsx:191).

Code normalisation is in `text.dfy` (module `Text`). Manual entry trims and then
upper-cases the code. Startup upper-cases the code without trimming it.
`String.prototype.trim` is modelled exactly: it strips ECMAScript WhiteSpace and
LineTerminator code points from both ends. `toUpperCase` is modelled on ASCII
letters.

The source looks coupons and affiliates up by indexing a plain object. On such
an object, inherited names like `toString` or `constructor` would also be found.
Every code the page looks up has been upper-cased, however, and each inherited
name contains lower-case letters. The model can therefore treat a lookup as
membership in the table's keys.

The subtotal multiplies the unit price by `qty` without clamping the quantity;
the model proves instead that `qty >= 1` in every reachable state. Applying a
coupon only sets `appliedCoupon`; the discount is derived from it on every
render.

## Model

| member | source | states |
|---|---|---|
| Text.Upper | page.tsx:77 | upper-casing keeps the length and upper-cases each character on its own |
| Text.LeadingSpaces | page.tsx:77 | the count of leading whitespace: everything before it is whitespace and the next character is not |
| Text.TrailingSpaces | page.tsx:77 | the count of trailing whitespace: everything after it is whitespace and the character before is not |
| Text.Trim | page.tsx:77 | `trim` gives the slice that starts at the first non-whitespace character with only whitespace behind it; neither end of the result is whitespace |
| Text.TrimIdempotent | page.tsx:77 | trimming twice equals trimming once |
| Text.TrimEmptyIff | page.tsx:77-78 | trim gives the empty string exactly when every character is whitespace |
| Text.UpperIdempotent | page.tsx:77 | upper-casing twice equals upper-casing once |
| Text.TrimUpperCommute | page.tsx:77 | trim and upper-case commute |
| Text.Normalize | page.tsx:77 | the manual-entry normalisation `trim().toUpperCase()` yields a code that is trimmed, has no lower-case letter and is no longer than the input |
| Text.NormalizeIdempotent | page.tsx:77 | the manual-entry normalisation `trim().toUpperCase()` is idempotent |
| Text.NormalizeEmptyIff | page.tsx:77-78 | the `!code` guard fires exactly for whitespace-only input |
| Catalog.CouponTableWellFormed | page.tsx:31-34 | every coupon percentage is at most 100, and every coupon key is non-empty, trimmed and upper case |
| Pricing.UnitPrice | page.tsx:49 | the unit price is the monthly subscription price when subscribing and the one-time price otherwise |
| Pricing.Subtotal | page.tsx:64 | the subtotal plus one unit price is the price of one more pack, so the subtotal is exactly unit price × qty; from one pack up it is at least the unit price |
| Pricing.RoundPercent | page.tsx:70 | the percent discount is the integer nearest to subtotal × value / 100, with a half rounded up |
| Pricing.RoundPercentUnique | page.tsx:70 | only one integer satisfies that rounding condition |
| Pricing.PercentWithinSubtotal | page.tsx:70 | for a non-negative subtotal and a percentage of at most 100, the rounded discount is between 0 and the subtotal |
| Pricing.CouponDiscount | page.tsx:70 | percent coupon: nearest-integer percentage; amount coupon: the smaller of subtotal and value; a well-formed coupon gives a discount between 0 and a non-negative subtotal |
| Pricing.Discount | page.tsx:66-71 | no applied code, or a code missing from the table, gives 0; otherwise the discount is that coupon's discount, and it is between 0 and a non-negative subtotal |
| Pricing.Total | page.tsx:73 | the total is the subtotal less the discount, or 0 when that would be negative, and it never exceeds the subtotal |
| Pricing.YouSave | page.tsx:74 | the saving is list price minus unit price, or 0 when that is not positive |
| Pricing.Summarize | page.tsx:49-74 | unit price follows the subscription flag; subtotal = unit price × qty; discount is `Discount` of the applied coupon and the subtotal, between 0 and the subtotal; total is `Total` of subtotal and discount, i.e. subtotal − discount; no valid coupon means no discount |
| Pricing.TotalWithinSubtotal | page.tsx:73 | for every selection with qty ≥ 1, 0 ≤ total ≤ subtotal |
| Pricing.NoCouponTotal | page.tsx:64-73 | with no coupon, the total is exactly unit price × quantity |
| Pricing.SavingsByMode | page.tsx:74 | the saving depends on the purchase mode only: 11000 when subscribed, 5000 one-time |
| Pricing.ScenarioFit10 | page.tsx:70-73 | 58990 × 1 with FIT10: discount 5899, total 53091 |
| Pricing.ScenarioStart5000 | page.tsx:70-73 | 64990 × 2 with START5000: subtotal 129980, discount 5000, total 124980 |
| Store.Initial | page.tsx:44-48 | the first state satisfies the invariant and is priced at 58990 with no discount and a saving of 11000 |
| Store.Seed | page.tsx:51-62 | startup never touches mode or quantity. A present `ref` becomes the upper-cased referral code. A present `coupon` is upper-cased into the text box. The applied coupon becomes that upper-cased code exactly when the code is in the table, and is otherwise left as it was. The invariant is kept |
| Store.ApplyCode | page.tsx:76-85 | only the applied coupon can change. Whitespace-only input is ignored and changes nothing. A normalised code in the table is applied. Any other code is rejected and clears the applied coupon. The invariant is kept |
| Store.Cleared | page.tsx:87-90 | no applied coupon and an empty text box; mode, quantity and referral are kept |
| Store.Edited | page.tsx:186 | typing replaces the text box and nothing else |
| Store.Decremented | page.tsx:177 | only qty changes; it drops by one but never below 1 |
| Store.Incremented | page.tsx:179 | only qty changes; it grows, and a following decrement returns to the previous quantity |
| Store.Toggled | page.tsx:163 | only the purchase mode changes, and it flips |
| Store.Attribution | page.tsx:193-194 | an affiliate is shown exactly when the referral code is a key of the affiliate table, and it is that entry |
| Store.ToggleSwitchesPrice | page.tsx:49 | toggling twice restores the state, and each toggle switches the unit price to the other price |
| Store.ApplyIdempotent | page.tsx:76-85 | pressing apply twice gives the same state and outcome as pressing it once |
| Store.ApplyNormalizedInput | page.tsx:77 | applying the raw text or its normalised form has the same effect and outcome |
| Store.SeedThenApplyAgrees | page.tsx:57-59 | if startup applied a coupon, pressing apply next keeps that coupon |
| Store.SeedTrimAsymmetry | page.tsx:58-59 | startup leaves the parameter " fit10" unapplied, but a later apply applies FIT10 |
| Store.SeedIdempotent | page.tsx:51-62 | running the startup effect again changes nothing |
| Store.ReferralNeverAffectsPrice | page.tsx:55 | the referral code, whether set directly or at startup, changes no price figure |
| Store.ReferralCaseInsensitive | page.tsx:55 | a `ref` parameter in any letter case is attributed to the affiliate of its upper-cased form |
| Store.ClearRestoresFullPrice | page.tsx:87-90 | after clearing, the discount is 0 and the total equals the subtotal |
| Store.ScenarioBogus | page.tsx:79-84 | with FIT10 applied, applying BOGUS is rejected, clears the coupon and drops the discount from 5899 to 0 |
| Store.ScenarioDecrementAtOne | page.tsx:177 | minus at quantity 1 leaves the state unchanged |
| Store.Storefront.constructor | page.tsx:44-48 | the fields start as the initial selection, and the invariant holds |
| Store.Storefront.Startup | page.tsx:51-62 | the fields become `Seed` of their old values; the invariant is kept |
| Store.Storefront.ApplyCoupon | page.tsx:76-85 | the fields and returned outcome are `ApplyCode` of the old fields; the invariant is kept |
| Store.Storefront.ClearCoupon | page.tsx:87-90 | the fields become `Cleared` of their old values |
| Store.Storefront.EditCouponInput | page.tsx:186 | the fields become `Edited` of their old values |
| Store.Storefront.Decrement | page.tsx:177 | the fields become `Decremented` of their old values; qty stays ≥ 1 |
| Store.Storefront.Increment | page.tsx:179 | the fields become `Incremented` of their old values |
| Store.Storefront.ToggleSubscribe | page.tsx:163 | the fields become `Toggled` of their old values |
| Store.Storefront.Checkout | page.tsx:92-104 | the payload carries the product, mode, quantity, coupon and referral. Its subtotal is unit price × qty, its discount is the page's `Discount` of the applied coupon and subtotal (between 0 and the subtotal), and its total is the page's `Total`, i.e. subtotal − discount |

## Left out

- Rendering, layout, icons and copy in page.tsx: these are presentation. This includes the product's `bullets` and `perks` lists, which are display-only and absent from `Catalog.Product`.
- `CLP` currency formatting (page.tsx:41): a locale library call. The model's amounts are plain integers.
- The `alert` calls and `console.log`. An invalid code shows up as the `Rejected` outcome of `ApplyCoupon`. `Checkout` returns the payload it would log.
- `window.location.search` and `URLSearchParams`: the two query parameters are inputs to `Startup`. The `typeof window` guard is taken as true, since effects run only in the browser.
- The React `useState`, `useEffect` and `useMemo` machinery. Handlers are modelled as sequential updates, each seeing the state the previous one left.
- The toggle button component (app/components/ui/toggle.tsx) is not part of this model. Its only logic is calling `onPressedChange(!pressed)`, which is modelled as the flip in `Toggled`.
- layout.tsx: static metadata and the HTML shell.
- Text.Upper: maps only ASCII `a`-`z`. Other Unicode case mappings are not modelled. Some non-ASCII letters upper-case to ASCII (`ı` to `I`, `ſ` to `S`, `ß` to `SS`), so the real page would accept such a spelling of a coupon code and the model does not.
- Pricing.RoundPercent: rounds the exact rational subtotal × value / 100. The source computes `baseSubtotal * (c.value / 100)` in IEEE doubles. A product that is exactly a half in rationals may land just below it in doubles and round down.
- Pricing.Summarize: uses unbounded integers. JavaScript numbers lose integer precision above 2^53, which the quantity would reach only after about 10^11 presses of the plus button.
