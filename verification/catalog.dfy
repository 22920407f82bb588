/**
 * The storefront's static tables: the one product on sale, the coupon table and
 * the affiliate table. They are fixed when the page loads and never change.
 * All amounts are whole Chilean pesos (CLP has no minor unit).
 */
module Catalog {
  import opened Wrappers
  import opened Text

  datatype Product = Product(
    id: string,
    name: string,
    priceOneTime: nat,
    priceSubMonthly: nat,
    compareAt: nat)

  /** A coupon gives either a percentage off or a fixed amount off. */
  datatype CouponKind = Percent | Amount

  datatype Coupon = Coupon(kind: CouponKind, value: nat, note: Option<string>)

  datatype Affiliate = Affiliate(owner: string, commissionPct: nat)

  const PRODUCT: Product := Product(
    "pack-fitness-001",
    "Pack Fitness: Whey + Creatina + Omega-3 + Multivitam\U{ED}nico",
    64990,
    58990,
    69990)

  const COUPONS: map<string, Coupon> := map[
    "FIT10" := Coupon(Percent, 10, Some("C\U{F3}digo de entrenador")),
    "START5000" := Coupon(Amount, 5000, Some("Bienvenida"))
  ]

  const AFFILIATES: map<string, Affiliate> := map[
    "FITJUAN10" := Affiliate("Juan P\U{E9}rez", 10),
    "CROSSFITCARO" := Affiliate("Carolina Cross", 12)
  ]

  /** A coupon's value is meaningful: a percentage is at most 100. */
  predicate WellFormedCoupon(c: Coupon) {
    c.kind == Percent ==> c.value <= 100
  }

  /** A code is in normal form: not empty, no surrounding whitespace, no
      lower-case ASCII letter (what `trim().toUpperCase()` produces). */
  predicate NormalCode(k: string) {
    k != [] && IsTrimmed(k) && Upper(k) == k
  }

  lemma NormalLiteral(k: string)
    requires k != [] && !IsSpace(k[0]) && !IsSpace(k[|k| - 1])
    requires forall i :: 0 <= i < |k| ==> !IsLowerAscii(k[i])
    ensures NormalCode(k)
  {
    UpperOfNoLower(k);
  }

  /** Every coupon in the table is well formed and keyed by a normal code. */
  lemma CouponTableWellFormed()
    ensures forall k :: k in COUPONS ==> WellFormedCoupon(COUPONS[k]) && NormalCode(k)
  {
    assert COUPONS.Keys == {"FIT10", "START5000"};
    Fit10Normal();
    Start5000Normal();
  }

  lemma Fit10Normal()
    ensures NormalCode("FIT10")
  {
    NormalLiteral("FIT10");
  }

  lemma Start5000Normal()
    ensures NormalCode("START5000")
  {
    NormalLiteral("START5000");
  }
}
