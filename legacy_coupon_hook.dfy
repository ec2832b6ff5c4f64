/**
 * src/basic/hooks/useCoupons.ts: the older coupon store. Here addCoupon
 * itself refuses a duplicate code, deleting a coupon clears the caller's
 * selection when it is the deleted one, and every reset goes back to the
 * amount type.
 */
module LegacyCouponHook {
  import opened Wrappers
  import opened Models
  import Seqs
  import CouponHook

  /** The two coupons the store starts with when nothing is saved. */
  const InitialCoupons: seq<Coupon> := [
    Coupon("5000원 할인", "AMOUNT5000", Amount, 5000.0),
    Coupon("10% 할인", "PERCENT10", Percentage, 10.0)
  ]

  /** The form's starting value, and what every reset returns it to: empty, amount type, value 0. */
  const EmptyCouponForm: Coupon := Coupon("", "", Amount, 0.0)

  /** The selection after deleting `couponCode`: cleared exactly when it is a coupon with that code. */
  function SelectionAfterDelete(selected: Option<Coupon>, couponCode: string): (r: Option<Coupon>)
    ensures selected.Some? && selected.value.code == couponCode ==> r == None
    ensures !(selected.Some? && selected.value.code == couponCode) ==> r == selected
  {
    if selected.Some? && selected.value.code == couponCode then None else selected
  }

  /** The initial list has no two coupons with one code. */
  lemma InitialCouponsUnique()
    ensures CouponHook.UniqueCodes(InitialCoupons)
  {
    assert InitialCoupons[0].code != InitialCoupons[1].code by {
      assert InitialCoupons[0].code[0] != InitialCoupons[1].code[0];
    }
  }

  /** The hook's state; the selected coupon belongs to the caller and is passed in. */
  class CouponStore {
    var coupons: seq<Coupon>
    var showCouponForm: bool
    var couponForm: Coupon

    /** The saved list when there is one that parses, otherwise the two initial coupons. */
    constructor (saved: Option<seq<Coupon>>)
      ensures coupons == saved.GetOr(InitialCoupons)
      ensures !showCouponForm && couponForm == EmptyCouponForm
    {
      coupons := saved.GetOr(InitialCoupons);
      showCouponForm := false;
      couponForm := EmptyCouponForm;
    }

    /** addCoupon: a code already in the list is refused with an error; otherwise the coupon is appended. */
    method AddCoupon(newCoupon: Coupon) returns (sent: seq<Notice>)
      modifies this
      ensures CouponHook.HasCode(old(coupons), newCoupon.code) ==>
        coupons == old(coupons) && sent == [Notice(DuplicateCouponCode, Error)]
      ensures !CouponHook.HasCode(old(coupons), newCoupon.code) ==>
        coupons == old(coupons) + [newCoupon] && sent == [Notice(CouponAdded, Success)]
      ensures CouponHook.UniqueCodes(old(coupons)) ==> CouponHook.UniqueCodes(coupons)
      ensures showCouponForm == old(showCouponForm) && couponForm == old(couponForm)
    {
      var existingCoupon := Seqs.FindFirst(coupons, (c: Coupon) => c.code == newCoupon.code);
      if existingCoupon.Some? {
        sent := [Notice(DuplicateCouponCode, Error)];
        return;
      }
      if CouponHook.UniqueCodes(coupons) {
        CouponHook.AppendKeepsCodesUnique(coupons, newCoupon);
      }
      coupons := coupons + [newCoupon];
      sent := [Notice(CouponAdded, Success)];
    }

    /**
     * deleteCoupon: drop the coupons with the code, return the caller's
     * selection cleared if it was one of them, and notify success.
     */
    method DeleteCoupon(couponCode: string, selectedCoupon: Option<Coupon>) returns (selection: Option<Coupon>, sent: seq<Notice>)
      modifies this
      ensures coupons == CouponHook.RemoveCouponsWithCode(old(coupons), couponCode)
      ensures selection == SelectionAfterDelete(selectedCoupon, couponCode)
      ensures sent == [Notice(CouponDeleted, Success)]
      ensures showCouponForm == old(showCouponForm) && couponForm == old(couponForm)
    {
      coupons := CouponHook.RemoveCouponsWithCode(coupons, couponCode);
      selection := selectedCoupon;
      if selectedCoupon.Some? && selectedCoupon.value.code == couponCode {
        selection := None;
      }
      sent := [Notice(CouponDeleted, Success)];
    }

    /** handleCouponSubmit: addCoupon on the form, then the form is reset and hidden whether or not the add succeeded. */
    method HandleCouponSubmit() returns (sent: seq<Notice>)
      modifies this
      ensures CouponHook.HasCode(old(coupons), old(couponForm).code) ==>
        coupons == old(coupons) && sent == [Notice(DuplicateCouponCode, Error)]
      ensures !CouponHook.HasCode(old(coupons), old(couponForm).code) ==>
        coupons == old(coupons) + [old(couponForm)] && sent == [Notice(CouponAdded, Success)]
      ensures couponForm == EmptyCouponForm && !showCouponForm
    {
      sent := AddCoupon(couponForm);
      couponForm := EmptyCouponForm;
      showCouponForm := false;
    }

    /** resetCouponForm: clear and hide the form. */
    method ResetCouponForm()
      modifies this
      ensures coupons == old(coupons) && couponForm == EmptyCouponForm && !showCouponForm
    {
      couponForm := EmptyCouponForm;
      showCouponForm := false;
    }
  }
}
