/**
 * The pure price derivations of the storefront: unit price, subtotal, coupon
 * discount, total and the "you save" amount. Each is recomputed from the current
 * selection on every render; none of them changes anything.
 */
module Pricing {
  import opened Wrappers
  import opened Catalog

  /** `price`: which of the product's two prices applies. */
  function UnitPrice(p: Product, subscribe: bool): (price: nat)
    ensures subscribe ==> price == p.priceSubMonthly
    ensures !subscribe ==> price == p.priceOneTime
  {
    if subscribe then p.priceSubMonthly else p.priceOneTime
  }

  /** `baseSubtotal`: unit price times quantity. */
  function Subtotal(price: nat, qty: int): (s: int)
    ensures s + price == price * (qty + 1)
    ensures qty >= 1 ==> price <= s
  {
    price * qty
  }

  /** `Math.round(s * (pct / 100))` over exact rationals: the integer nearest to
      s*pct/100, a half going up (Dafny's `/` by a positive divisor is floor). */
  function RoundPercent(s: int, pct: nat): (r: int)
    ensures 100 * r - 50 <= s * pct < 100 * r + 50
  {
    (s * pct + 50) / 100
  }

  /** The rounding is determined by its contract: only one integer lies within
      half a unit of s*pct/100 with a half going up. */
  lemma RoundPercentUnique(s: int, pct: nat, r: int)
    requires 100 * r - 50 <= s * pct < 100 * r + 50
    ensures r == RoundPercent(s, pct)
  {
    var q := RoundPercent(s, pct);
    assert 100 * (r - q) < 100 && 100 * (q - r) < 100;
  }

  /** For a non-negative subtotal and a percentage of at most 100, the rounded
      percentage lies between 0 and the subtotal. */
  lemma PercentWithinSubtotal(s: int, pct: nat)
    requires 0 <= s && pct <= 100
    ensures 0 <= RoundPercent(s, pct) <= s
  {
    var m := s * pct;
    assert 0 <= m <= 100 * s by {
      assert s * (100 - pct) >= 0;
      assert s * (100 - pct) == 100 * s - m;
    }
    assert RoundPercent(s, pct) == (m + 50) / 100;
  }

  /** The discount one coupon gives on subtotal `s`. */
  function CouponDiscount(c: Coupon, s: int): (d: int)
    ensures c.kind == Percent ==> 100 * d - 50 <= s * c.value < 100 * d + 50
    ensures c.kind == Amount ==> d <= s && d <= c.value && (d == s || d == c.value)
    ensures 0 <= s && WellFormedCoupon(c) ==> 0 <= d <= s
  {
    if c.kind == Percent then
      if 0 <= s && c.value <= 100 then PercentWithinSubtotal(s, c.value); RoundPercent(s, c.value)
      else RoundPercent(s, c.value)
    else if s < c.value then s else c.value
  }

  /** `discount`: nothing without an applied coupon or for a code missing from
      the table; otherwise the coupon's discount. */
  function Discount(applied: Option<string>, s: int): (d: int)
    ensures applied.None? || applied.value !in COUPONS ==> d == 0
    ensures applied.Some? && applied.value in COUPONS ==> d == CouponDiscount(COUPONS[applied.value], s)
    ensures 0 <= s ==> 0 <= d <= s
  {
    if applied.None? || applied.value == "" then 0
    else if applied.value !in COUPONS then 0
    else CouponTableWellFormed(); CouponDiscount(COUPONS[applied.value], s)
  }

  /** `total`: the subtotal less the discount, never below zero. */
  function Total(s: int, d: int): (t: int)
    ensures t >= 0 && t >= s - d
    ensures t == 0 || t == s - d
    ensures 0 <= d ==> t <= (if s < 0 then 0 else s)
  {
    if s - d > 0 then s - d else 0
  }

  /** `youSave`: how far the list price is above the unit price, or zero. */
  function YouSave(p: Product, price: nat): (save: nat)
    ensures save >= p.compareAt - price
    ensures save == 0 || save == p.compareAt - price
  {
    if p.compareAt - price > 0 then p.compareAt - price else 0
  }

  /** The derived figures shown on the page and sent at checkout. */
  datatype Order = Order(unitPrice: nat, subtotal: int, discount: int, total: int, youSave: nat)

  /** All derivations together, for one purchase mode, quantity and applied coupon. */
  function Summarize(subscribe: bool, qty: int, applied: Option<string>): (o: Order)
    ensures o.unitPrice == if subscribe then PRODUCT.priceSubMonthly else PRODUCT.priceOneTime
    ensures o.subtotal == o.unitPrice * qty
    ensures 0 <= qty ==> 0 <= o.discount <= o.subtotal
    ensures 0 <= qty ==> o.total == o.subtotal - o.discount
    ensures o.discount == Discount(applied, o.subtotal)
    ensures o.total == Total(o.subtotal, o.discount)
    ensures applied.None? || applied.value !in COUPONS ==> o.discount == 0
    ensures o.youSave == YouSave(PRODUCT, o.unitPrice)
  {
    var price := UnitPrice(PRODUCT, subscribe);
    var s := Subtotal(price, qty);
    var d := Discount(applied, s);
    Order(price, s, d, Total(s, d), YouSave(PRODUCT, price))
  }

  /** Whatever the selection, the total lies between 0 and the subtotal. */
  lemma TotalWithinSubtotal(subscribe: bool, qty: int, applied: Option<string>)
    requires qty >= 1
    ensures var o := Summarize(subscribe, qty, applied); 0 <= o.total <= o.subtotal
  {
  }

  /** Without a discount the total is exactly unit price times quantity. */
  lemma NoCouponTotal(subscribe: bool, qty: int)
    requires qty >= 1
    ensures Summarize(subscribe, qty, None).total == UnitPrice(PRODUCT, subscribe) * qty
  {
  }

  /** The saving compares list price and unit price only: with this catalogue it
      is 11000 on subscription and 5000 on a one-time purchase. */
  lemma SavingsByMode(subscribe: bool, qty: int, applied: Option<string>)
    ensures Summarize(subscribe, qty, applied).youSave == if subscribe then 11000 else 5000
  {
  }

  /** Subscription, one pack, coupon FIT10 (10 %). */
  lemma ScenarioFit10()
    ensures Summarize(true, 1, Some("FIT10")) == Order(58990, 58990, 5899, 53091, 11000)
  {
  }

  /** One-time purchase, two packs, coupon START5000 (5000 off). */
  lemma ScenarioStart5000()
    ensures Summarize(false, 2, Some("START5000")) == Order(64990, 129980, 5000, 124980, 5000)
  {
  }
}
