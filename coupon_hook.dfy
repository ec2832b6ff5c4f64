/**
 * src/basic/domain/coupon/hooks/useCoupons.ts: the coupon store, with the
 * coupon list, the admin form and whether the form is shown. The hook's own
 * copies of the coupon rules are functions of the store.
 */
module CouponHook {
  import opened Wrappers
  import opened Models
  import opened JsMath
  import Seqs
  import CouponCalculations

  /** No two coupons share a code. */
  ghost predicate UniqueCodes(coupons: seq<Coupon>)
  {
    forall i, j :: 0 <= i < j < |coupons| ==> coupons[i].code != coupons[j].code
  }

  /** Some coupon in the list has the code. */
  predicate HasCode(coupons: seq<Coupon>, code: string)
  {
    exists i :: 0 <= i < |coupons| && coupons[i].code == code
  }

  /** The form's starting value: empty, amount type, value 0. */
  const InitialCouponForm: Coupon := Coupon("", "", Amount, 0.0)

  /** What the form is reset to after a submit or a cancel: empty, percentage type, value 0. */
  const ClearedCouponForm: Coupon := Coupon("", "", Percentage, 0.0)

  /** The `filter` of deleteCoupon: drop every coupon with the code. */
  function RemoveCouponsWithCode(coupons: seq<Coupon>, code: string): (r: seq<Coupon>)
    ensures forall i :: 0 <= i < |r| ==> r[i] in coupons && r[i].code != code
    ensures forall i :: 0 <= i < |coupons| && coupons[i].code != code ==> coupons[i] in r
    ensures forall x :: multiset(r)[x] == if x.code != code then multiset(coupons)[x] else 0
  {
    Seqs.Filter(coupons, (c: Coupon) => c.code != code)
  }

  /** Deleting keeps the other coupons in order, and changes nothing when no coupon has the code. */
  lemma RemoveCouponsKeepsOrder(coupons: seq<Coupon>, code: string)
    ensures Seqs.IsSubsequence(RemoveCouponsWithCode(coupons, code), coupons)
    ensures !HasCode(coupons, code) ==> RemoveCouponsWithCode(coupons, code) == coupons
  {
    var p := (c: Coupon) => c.code != code;
    Seqs.FilterIsSubsequence(coupons, p);
    if !HasCode(coupons, code) {
      Seqs.FilterKeepsAll(coupons, p);
    }
  }

  /** The coupon handleCouponSubmit builds from the form: the form's code, or a generated one when it is empty. */
  function CouponFromForm(form: Coupon, now: nat): (c: Coupon)
    ensures c.name == form.name && c.discountType == form.discountType && c.discountValue == form.discountValue
    ensures form.code != "" ==> c.code == form.code
    ensures form.code == "" ==> c.code == CouponCalculations.GenerateCouponCode(form.name, now)
  {
    form.(code := if form.code != "" then form.code else CouponCalculations.GenerateCouponCode(form.name, now))
  }

  /** Appending a coupon whose code is new keeps the codes unique. */
  lemma AppendKeepsCodesUnique(coupons: seq<Coupon>, c: Coupon)
    requires UniqueCodes(coupons) && !HasCode(coupons, c.code)
    ensures UniqueCodes(coupons + [c])
  {
    var r := coupons + [c];
    forall i, j | 0 <= i < j < |r| ensures r[i].code != r[j].code {
      if j == |coupons| {
        assert r[i] == coupons[i];
      } else {
        assert r[i] == coupons[i] && r[j] == coupons[j];
      }
    }
  }

  /** The hook's state. */
  class CouponStore {
    var coupons: seq<Coupon>
    var showCouponForm: bool
    var couponForm: Coupon

    /** The list restored from storage (parsing is not modelled); the form empty and hidden. */
    constructor (saved: seq<Coupon>)
      ensures coupons == saved && !showCouponForm && couponForm == InitialCouponForm
    {
      coupons := saved;
      showCouponForm := false;
      couponForm := InitialCouponForm;
    }

    /** addCoupon: append the coupon under a generated code, with no duplicate check; hide and clear the form. */
    method AddCoupon(newCoupon: Coupon, now: nat)
      modifies this
      ensures coupons == old(coupons) + [newCoupon.(code := CouponCalculations.GenerateCouponCode(newCoupon.name, now))]
      ensures !showCouponForm && couponForm == ClearedCouponForm
    {
      var coupon := newCoupon.(code := CouponCalculations.GenerateCouponCode(newCoupon.name, now));
      coupons := coupons + [coupon];
      showCouponForm := false;
      couponForm := ClearedCouponForm;
    }

    /** deleteCoupon: drop the coupons with the code; the form is untouched. */
    method DeleteCoupon(couponCode: string)
      modifies this
      ensures coupons == RemoveCouponsWithCode(old(coupons), couponCode)
      ensures showCouponForm == old(showCouponForm) && couponForm == old(couponForm)
    {
      coupons := RemoveCouponsWithCode(coupons, couponCode);
    }

    /** The hook's validateCoupon, over the current list. */
    function ValidateCoupon(couponCode: string): (r: Option<Coupon>)
      reads this
      ensures r == CouponCalculations.ValidateCoupon(coupons, couponCode)
    {
      Seqs.FindFirst(coupons, (c: Coupon) => c.code == couponCode)
    }

    /** The hook's canApplyCoupon, over the current list. */
    function CanApplyCoupon(couponCode: string, cartTotal: real): (ok: bool)
      reads this
      ensures ok == CouponCalculations.CanApplyCoupon(coupons, couponCode, cartTotal)
    {
      match ValidateCoupon(couponCode)
      case None => false
      case Some(coupon) => !(coupon.discountType == Percentage && cartTotal < 10000.0)
    }

    /** The hook's calculateDiscount. */
    function CalculateDiscount(coupon: Coupon, cartTotal: real): (d: real)
      ensures d == CouponCalculations.CalculateDiscount(coupon, cartTotal)
    {
      if coupon.discountType == Amount then Min(coupon.discountValue, cartTotal)
      else Round(CouponCalculations.PercentOf(cartTotal, coupon.discountValue)) as real
    }

    /** The hook's calculateFinalAmount. */
    function CalculateFinalAmount(coupon: Coupon, cartTotal: real): (r: real)
      ensures r == CouponCalculations.CalculateFinalAmount(coupon, cartTotal)
    {
      Max(0.0, cartTotal - CalculateDiscount(coupon, cartTotal))
    }

    /**
     * handleCouponSubmit: a form code already in the list is refused with an
     * error and nothing changes; otherwise the form's coupon is appended,
     * success is notified, and the form is cleared and hidden.
     */
    method HandleCouponSubmit(now: nat) returns (sent: seq<Notice>)
      modifies this
      ensures HasCode(old(coupons), old(couponForm).code) ==>
        && coupons == old(coupons) && couponForm == old(couponForm) && showCouponForm == old(showCouponForm)
        && sent == [Notice(DuplicateCouponCode, Error)]
      ensures !HasCode(old(coupons), old(couponForm).code) ==>
        && coupons == old(coupons) + [CouponFromForm(old(couponForm), now)]
        && couponForm == ClearedCouponForm && !showCouponForm
        && sent == [Notice(CouponAdded, Success)]
      ensures old(couponForm).code != "" && UniqueCodes(old(coupons)) ==> UniqueCodes(coupons)
    {
      var form := couponForm;
      var existingCoupon := Seqs.FindFirst(coupons, (c: Coupon) => c.code == form.code);
      if existingCoupon.Some? {
        sent := [Notice(DuplicateCouponCode, Error)];
        return;
      }
      var newCoupon := CouponFromForm(form, now);
      if form.code != "" && UniqueCodes(coupons) {
        AppendKeepsCodesUnique(coupons, newCoupon);
      }
      coupons := coupons + [newCoupon];
      sent := [Notice(CouponAdded, Success)];
      couponForm := ClearedCouponForm;
      showCouponForm := false;
    }

    /** resetCouponForm: clear and hide the form; the list is untouched. */
    method ResetCouponForm()
      modifies this
      ensures coupons == old(coupons) && couponForm == ClearedCouponForm && !showCouponForm
    {
      couponForm := ClearedCouponForm;
      showCouponForm := false;
    }
  }
}
