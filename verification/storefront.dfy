/**
 * The purchase selection of the Storefront page and the handlers that change it.
 *
 * `Selection` is the page state as a value, and the functions `Seed`, `ApplyCode`,
 * `Cleared`, `Edited`, `Decremented`, `Incremented` and `Toggled` give the state
 * each handler leaves behind. The class `Storefront` holds the same five fields
 * and updates them in place; each of its methods is proved to leave exactly the
 * state the matching function gives.
 */
module Store {
  import opened Wrappers
  import opened Text
  import opened Catalog
  import opened Pricing

  /** The page state: purchase mode, quantity, the coupon text box, the coupon
      in force and the referral code seen at startup. */
  datatype Selection = Selection(
    subscribe: bool,
    qty: int,
    couponInput: string,
    appliedCoupon: Option<string>,
    refCode: Option<string>)

  /** What the page relies on: at least one pack, and an applied coupon that is
      a key of the coupon table (its terms are read from the table unguarded). */
  predicate Consistent(s: Selection) {
    s.qty >= 1 && (s.appliedCoupon.Some? ==> s.appliedCoupon.value in COUPONS)
  }

  /** JavaScript truthiness of a `string | null`: present and not empty. */
  predicate Present(o: Option<string>) {
    o.Some? && o.value != ""
  }

  /** The figures the page derives from a selection. */
  function Summary(s: Selection): Order {
    Summarize(s.subscribe, s.qty, s.appliedCoupon)
  }

  /** The state on first render: subscription, one pack, nothing typed or applied. */
  function Initial(): (s: Selection)
    ensures Consistent(s)
    ensures Summary(s) == Order(58990, 58990, 0, 58990, 11000)
    ensures s.couponInput == [] && s.refCode == None
  {
    Selection(true, 1, "", None, None)
  }

  /** The startup effect: a present `ref` parameter is upper-cased into the
      referral code; a present `coupon` parameter is upper-cased (not trimmed)
      into the text box, and applied only when it is a key of the coupon table. */
  function Seed(s: Selection, ref: Option<string>, coupon: Option<string>): (r: Selection)
    ensures r.subscribe == s.subscribe && r.qty == s.qty
    ensures r.refCode == if Present(ref) then Some(Upper(ref.value)) else s.refCode
    ensures r.couponInput == if Present(coupon) then Upper(coupon.value) else s.couponInput
    ensures r.appliedCoupon != s.appliedCoupon ==>
              Present(coupon) && Upper(coupon.value) in COUPONS && r.appliedCoupon == Some(Upper(coupon.value))
    ensures Present(coupon) && Upper(coupon.value) in COUPONS ==> r.appliedCoupon == Some(Upper(coupon.value))
    ensures Consistent(s) ==> Consistent(r)
  {
    var r1 := if Present(ref) then s.(refCode := Some(Upper(ref.value))) else s;
    if Present(coupon) then
      var code := Upper(coupon.value);
      var r2 := r1.(couponInput := code);
      if code in COUPONS then r2.(appliedCoupon := Some(code)) else r2
    else r1
  }

  /** What the apply button reports: empty input (nothing happens), the code
      now in force, or a code not in the table (the page alerts). */
  datatype ApplyOutcome = Ignored | Applied(code: string) | Rejected

  /** `applyCoupon`: the text box is trimmed and upper-cased; empty input is
      ignored, a known code is applied, an unknown one removes any applied coupon. */
  function ApplyCode(s: Selection): (r: (Selection, ApplyOutcome))
    ensures r.0 == s.(appliedCoupon := r.0.appliedCoupon)
    ensures r.1 == Ignored <==> AllSpace(s.couponInput)
    ensures r.1 == Ignored ==> r.0 == s
    ensures r.1.Applied? ==> r.1.code == Normalize(s.couponInput) && r.1.code in COUPONS
                             && r.0.appliedCoupon == Some(r.1.code)
    ensures r.1 == Rejected ==> Normalize(s.couponInput) !in COUPONS && r.0.appliedCoupon == None
    ensures Consistent(s) ==> Consistent(r.0)
  {
    NormalizeEmptyIff(s.couponInput);
    var code := Normalize(s.couponInput);
    if code == "" then (s, Ignored)
    else if code in COUPONS then (s.(appliedCoupon := Some(code)), Applied(code))
    else (s.(appliedCoupon := None), Rejected)
  }

  /** `clearCoupon`: no coupon in force and an empty text box; nothing else moves. */
  function Cleared(s: Selection): (r: Selection)
    ensures r.appliedCoupon == None && r.couponInput == []
    ensures r.subscribe == s.subscribe && r.qty == s.qty && r.refCode == s.refCode
    ensures Consistent(s) ==> Consistent(r)
  {
    s.(appliedCoupon := None, couponInput := "")
  }

  /** Typing in the coupon box replaces its text and nothing else: the coupon
      in force changes only when the apply button is pressed. */
  function Edited(s: Selection, text: string): (r: Selection)
    ensures r.couponInput == text
    ensures r.(couponInput := s.couponInput) == s
    ensures Consistent(s) ==> Consistent(r)
  {
    s.(couponInput := text)
  }

  /** The minus button: one pack fewer, but never below one. */
  function Decremented(s: Selection): (r: Selection)
    ensures r == s.(qty := r.qty)
    ensures r.qty >= 1
    ensures s.qty > 1 ==> r.qty == s.qty - 1
    ensures s.qty <= 1 ==> r.qty == 1
    ensures Consistent(s) ==> Consistent(r)
  {
    s.(qty := if 1 > s.qty - 1 then 1 else s.qty - 1)
  }

  /** The plus button: one pack more. */
  function Incremented(s: Selection): (r: Selection)
    ensures r == s.(qty := r.qty)
    ensures r.qty > s.qty && Decremented(r) == s.(qty := if s.qty < 1 then 1 else s.qty)
    ensures Consistent(s) ==> Consistent(r)
  {
    s.(qty := s.qty + 1)
  }

  /** The purchase-mode toggle: the button reports the opposite of what it shows. */
  function Toggled(s: Selection): (r: Selection)
    ensures r == s.(subscribe := r.subscribe) && r.subscribe != s.subscribe
    ensures Consistent(s) ==> Consistent(r)
  {
    s.(subscribe := !s.subscribe)
  }

  /** The affiliate shown for the referral code, if the table knows it. */
  function Attribution(refCode: Option<string>): (a: Option<Affiliate>)
    ensures a.Some? <==> refCode.Some? && refCode.value in AFFILIATES
    ensures a.Some? ==> a.value == AFFILIATES[refCode.value]
  {
    if refCode.Some? && refCode.value in AFFILIATES then Some(AFFILIATES[refCode.value]) else None
  }

  // ---------------------------------------------------------------------------
  // Properties of the transitions

  /** Toggling twice restores the selection; each toggle switches the unit
      price between the subscription and the one-time price. */
  lemma ToggleSwitchesPrice(s: Selection)
    ensures Toggled(Toggled(s)) == s
    ensures Summary(Toggled(s)).unitPrice
            == if s.subscribe then PRODUCT.priceOneTime else PRODUCT.priceSubMonthly
  {
  }

  /** Pressing apply twice leaves the same state and outcome as pressing it once. */
  lemma ApplyIdempotent(s: Selection)
    ensures ApplyCode(ApplyCode(s).0) == ApplyCode(s)
  {
  }

  /** Apply treats the text box and its normalised form alike: " fit10 " and
      "FIT10" put the same coupon in force with the same outcome. */
  lemma ApplyNormalizedInput(s: Selection)
    ensures var n := s.(couponInput := Normalize(s.couponInput));
            ApplyCode(n).0.appliedCoupon == ApplyCode(s).0.appliedCoupon && ApplyCode(n).1 == ApplyCode(s).1
  {
    var n := s.(couponInput := Normalize(s.couponInput));
    NormalizeIdempotent(s.couponInput);
    NormalizeEmptyIff(s.couponInput);
    NormalizeEmptyIff(n.couponInput);
  }

  /** A coupon the startup effect applied is kept if apply is pressed next:
      the text box then holds a normal code, which normalises to itself. */
  lemma SeedThenApplyAgrees(s: Selection, ref: Option<string>, coupon: Option<string>)
    requires Present(coupon) && Upper(coupon.value) in COUPONS
    ensures var seeded := Seed(s, ref, coupon);
            ApplyCode(seeded) == (seeded, Applied(Upper(coupon.value)))
  {
    var code := Upper(coupon.value);
    CouponTableWellFormed();
    assert NormalCode(code);
    TrimOfTrimmed(code);
    assert Normalize(code) == code;
  }

  /** Startup does not trim but apply does: a `coupon` parameter " fit10" is
      left unapplied at startup, yet pressing apply afterwards applies FIT10. */
  lemma SeedTrimAsymmetry()
    ensures Seed(Initial(), None, Some(" fit10")).appliedCoupon == None
    ensures ApplyCode(Seed(Initial(), None, Some(" fit10"))).1 == Applied("FIT10")
  {
    SeedPaddedFit10();
    ApplyPaddedFit10();
  }

  lemma SeedPaddedFit10()
    ensures Seed(Initial(), None, Some(" fit10")) == Selection(true, 1, " FIT10", None, None)
  {
    UpperPaddedFit10();
    PaddedUnknown();
  }

  lemma PaddedUnknown()
    ensures " FIT10" !in COUPONS
  {
    assert COUPONS.Keys == {"FIT10", "START5000"};
  }

  lemma ApplyPaddedFit10()
    ensures ApplyCode(Selection(true, 1, " FIT10", None, None)).1 == Applied("FIT10")
  {
    NormalizePaddedFit10();
    Fit10Known();
  }

  lemma Fit10Known()
    ensures "FIT10" in COUPONS
  {
  }

  lemma UpperPaddedFit10()
    ensures Upper(" fit10") == " FIT10"
  {
    var input := " fit10";
    assert forall i :: 0 <= i < |input| ==> Upper(input)[i] == " FIT10"[i];
  }

  lemma NormalizePaddedFit10()
    ensures Normalize(" FIT10") == "FIT10"
  {
    var padded := " FIT10";
    assert padded[1..] == "FIT10";
    assert LeadingSpaces("FIT10") == 0;
    assert LeadingSpaces(padded) == 1;
    assert TrimStart(padded) == "FIT10";
    assert TrailingSpaces("FIT10") == 0;
    assert TrimEnd("FIT10") == "FIT10";
    UpperOfNoLower("FIT10");
  }

  /** Running the startup effect a second time changes nothing. */
  lemma SeedIdempotent(s: Selection, ref: Option<string>, coupon: Option<string>)
    ensures Seed(Seed(s, ref, coupon), ref, coupon) == Seed(s, ref, coupon)
  {
  }

  /** A referral code affects no figure: not the unit price, subtotal,
      discount, total nor saving. */
  lemma ReferralNeverAffectsPrice(s: Selection, ref: Option<string>)
    ensures Summary(s.(refCode := ref)) == Summary(s)
    ensures Summary(Seed(s, ref, None)) == Summary(s)
  {
  }

  /** A referral parameter is matched whatever its letter case. */
  lemma ReferralCaseInsensitive(s: Selection, ref: string)
    requires Upper(ref) in AFFILIATES
    ensures Attribution(Seed(s, Some(ref), None).refCode) == Some(AFFILIATES[Upper(ref)])
  {
    assert ref != [] by { UpperEmptyIff(ref); }
  }

  /** Removing the coupon brings the total back to unit price times quantity. */
  lemma ClearRestoresFullPrice(s: Selection)
    requires Consistent(s)
    ensures Summary(Cleared(s)).total == Summary(s).subtotal
    ensures Summary(Cleared(s)).discount == 0
  {
  }

  /** An unknown code removes the coupon in force: with FIT10 applied, typing
      BOGUS and pressing apply is rejected and the discount drops to 0. */
  lemma ScenarioBogus()
    ensures var s := Selection(true, 1, "BOGUS", Some("FIT10"), None);
            var r := ApplyCode(s);
            r.1 == Rejected && r.0.appliedCoupon == None
            && Summary(s).discount == 5899 && Summary(r.0).discount == 0
  {
    var s := Selection(true, 1, "BOGUS", Some("FIT10"), None);
    BogusRejected(s);
    ScenarioFit10();
  }

  lemma BogusRejected(s: Selection)
    requires s.couponInput == "BOGUS"
    ensures ApplyCode(s) == (s.(appliedCoupon := None), Rejected)
  {
    NormalizeBogus();
    BogusUnknown();
    UnknownRejected(s);
  }

  lemma BogusUnknown()
    ensures "BOGUS" !in COUPONS
  {
    assert COUPONS.Keys == {"FIT10", "START5000"};
  }

  lemma UnknownRejected(s: Selection)
    requires Normalize(s.couponInput) != "" && Normalize(s.couponInput) !in COUPONS
    ensures ApplyCode(s) == (s.(appliedCoupon := None), Rejected)
  {
  }

  lemma NormalizeBogus()
    ensures Normalize("BOGUS") == "BOGUS"
  {
    TrimOfTrimmed("BOGUS");
    UpperOfNoLower("BOGUS");
  }

  /** One pack and the minus button: still one pack. */
  lemma ScenarioDecrementAtOne()
    ensures Decremented(Initial()) == Initial()
  {
  }

  // ---------------------------------------------------------------------------
  // The page component

  /** The line item the page sends to checkout. */
  datatype CheckoutLine = CheckoutLine(
    productId: string,
    name: string,
    subscribe: bool,
    qty: int,
    unitPrice: nat,
    subtotal: int,
    coupon: Option<string>,
    discount: int,
    total: int,
    ref: Option<string>)

  class Storefront {
    var subscribe: bool
    var qty: int
    var couponInput: string
    var appliedCoupon: Option<string>
    var refCode: Option<string>

    /** The fields as a selection value. */
    function Current(): Selection
      reads this
    {
      Selection(subscribe, qty, couponInput, appliedCoupon, refCode)
    }

    predicate Valid()
      reads this
    {
      Consistent(Current())
    }

    constructor ()
      ensures Valid() && Current() == Initial()
    {
      subscribe := true;
      qty := 1;
      couponInput := "";
      appliedCoupon := None;
      refCode := None;
    }

    /** The startup effect, with the two query parameters as inputs. */
    method Startup(ref: Option<string>, coupon: Option<string>)
      requires Valid()
      modifies this
      ensures Valid() && Current() == Seed(old(Current()), ref, coupon)
    {
      if Present(ref) {
        refCode := Some(Upper(ref.value));
      }
      if Present(coupon) {
        couponInput := Upper(coupon.value);
        if Upper(coupon.value) in COUPONS {
          appliedCoupon := Some(Upper(coupon.value));
        }
      }
    }

    method ApplyCoupon() returns (outcome: ApplyOutcome)
      requires Valid()
      modifies this
      ensures Valid() && (Current(), outcome) == ApplyCode(old(Current()))
    {
      var code := Upper(Trim(couponInput));
      if code == "" {
        outcome := Ignored;
        return;
      }
      if code in COUPONS {
        appliedCoupon := Some(code);
        outcome := Applied(code);
      } else {
        appliedCoupon := None;
        outcome := Rejected;
      }
    }

    method ClearCoupon()
      requires Valid()
      modifies this
      ensures Valid() && Current() == Cleared(old(Current()))
    {
      appliedCoupon := None;
      couponInput := "";
    }

    method EditCouponInput(text: string)
      requires Valid()
      modifies this
      ensures Valid() && Current() == Edited(old(Current()), text)
    {
      couponInput := text;
    }

    method Decrement()
      requires Valid()
      modifies this
      ensures Valid() && Current() == Decremented(old(Current()))
    {
      qty := if 1 > qty - 1 then 1 else qty - 1;
    }

    method Increment()
      requires Valid()
      modifies this
      ensures Valid() && Current() == Incremented(old(Current()))
    {
      qty := qty + 1;
    }

    method ToggleSubscribe()
      requires Valid()
      modifies this
      ensures Valid() && Current() == Toggled(old(Current()))
    {
      subscribe := !subscribe;
    }

    /** The checkout payload: the selection and the derived figures. */
    method Checkout() returns (line: CheckoutLine)
      requires Valid()
      ensures line.productId == PRODUCT.id && line.name == PRODUCT.name
      ensures line.subscribe == subscribe && line.qty == qty
      ensures line.coupon == appliedCoupon && line.ref == refCode
      ensures line.unitPrice == if subscribe then PRODUCT.priceSubMonthly else PRODUCT.priceOneTime
      ensures line.subtotal == line.unitPrice * line.qty
      ensures 0 <= line.discount <= line.subtotal
      ensures line.total == line.subtotal - line.discount
      ensures appliedCoupon.None? ==> line.discount == 0
      ensures line.discount == Discount(appliedCoupon, line.subtotal)
      ensures line.total == Total(line.subtotal, line.discount)
    {
      var order := Summarize(subscribe, qty, appliedCoupon);
      line := CheckoutLine(
        PRODUCT.id, PRODUCT.name, subscribe, qty, order.unitPrice,
        order.subtotal, appliedCoupon, order.discount, order.total, refCode);
    }
  }
}
