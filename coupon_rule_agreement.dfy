/**
 * The coupon rules exist twice: couponCalculations.ts takes the rounded
 * discount off the total, while useCart.ts rounds the discounted total.
 * These lemmas relate the two.
 */
module CouponRuleAgreement {
  import opened Wrappers
  import opened Models
  import opened JsMath
  import CouponCalculations
  import CartHook

  /** For an amount coupon the two rules always give the same total. */
  lemma AmountRulesAgree(c: Coupon, total: real)
    requires c.discountType == Amount
    ensures CouponCalculations.CalculateFinalAmount(c, total) == CartHook.ApplySelectedCoupon(total, Some(c))
  {
  }

  /**
   * For a percentage coupon between 0 and 100 on a whole non-negative total,
   * rounding the discounted total gives the same result or one unit more.
   */
  lemma PercentageRulesWithinOne(c: Coupon, total: real)
    requires c.discountType == Percentage && 0.0 <= c.discountValue <= 100.0
    requires 0.0 <= total && IsIntegral(total)
    ensures var utils := CouponCalculations.CalculateFinalAmount(c, total);
      var hook := CartHook.ApplySelectedCoupon(total, Some(c));
      utils <= hook <= utils + 1.0
  {
    var x := CouponCalculations.PercentOf(total, c.discountValue);
    SplitByShare(total, c.discountValue);
    assert 0.0 <= x <= total by { ShareBounds(total, c.discountValue); }
    RoundBetween(x, 0, total.Floor);
    RoundOfComplement(total.Floor, x);
  }

  lemma SplitByShare(total: real, percent: real)
    ensures CartHook.PercentOff(total, percent) == total - CouponCalculations.PercentOf(total, percent)
  {
  }

  lemma ShareBounds(total: real, percent: real)
    requires 0.0 <= total && 0.0 <= percent <= 100.0
    ensures 0.0 <= CouponCalculations.PercentOf(total, percent) <= total
  {
    ScaleDown(total, percent / 100.0);
  }

  /** Rounding `n - x` gives `n - Round(x)`, or one more when `x` lies exactly halfway. */
  lemma RoundOfComplement(n: int, x: real)
    ensures n - Round(x) <= Round(n as real - x) <= n - Round(x) + 1
  {
    RoundIsNearest(x);
    RoundIsNearest(n as real - x);
  }

  /** On a total of 10005 a 10% coupon leaves 9004 by one rule and 9005 by the other. */
  lemma PercentageRulesDifferAtHalf(c: Coupon)
    requires c.discountType == Percentage && c.discountValue == 10.0
    ensures CouponCalculations.CalculateFinalAmount(c, 10005.0) == 9004.0
    ensures CartHook.ApplySelectedCoupon(10005.0, Some(c)) == 9005.0
  {
    assert CouponCalculations.PercentOf(10005.0, 10.0) == 1000.5;
    assert Round(1000.5) == 1001;
    assert CartHook.PercentOff(10005.0, 10.0) == 9004.5;
    assert Round(9004.5) == 9005;
  }
}
