/** src/basic/domain/coupon/utils/couponCalculations.ts: coupon codes, lookup, eligibility and discounts. */
module CouponCalculations {
  import opened Wrappers
  import opened Models
  import opened JsMath
  import Seqs
  import Text

  /** A percentage coupon needs a cart total of at least this much. */
  const PercentageMinimumTotal: real := 10000.0

  /**
   * generateCouponCode: the name with its whitespace removed and upper-cased,
   * followed by the clock reading `now` in decimal.
   */
  function GenerateCouponCode(name: string, now: nat): (code: string)
    ensures |code| == |Text.StripWhitespace(name)| + |Text.DecimalString(now)|
    ensures forall i :: 0 <= i < |Text.StripWhitespace(name)| ==>
      code[i] == Text.UpperChar(Text.StripWhitespace(name)[i])
    ensures forall i :: 0 <= i < |Text.StripWhitespace(name)| ==>
      !Text.IsWhitespace(code[i]) && !Text.IsAsciiLower(code[i])
    ensures var suffix := code[|Text.StripWhitespace(name)|..];
      && (forall i :: 0 <= i < |suffix| ==> '0' <= suffix[i] <= '9')
      && Text.DecimalValue(suffix) == now
  {
    var prefix := Text.ToUpper(Text.StripWhitespace(name));
    var code := prefix + Text.DecimalString(now);
    assert code[|prefix|..] == Text.DecimalString(now);
    Text.DecimalRoundTrip(now);
    code
  }

  /** Every letter and symbol of the name that is not whitespace appears, upper-cased, in the code. */
  lemma GeneratedCodeKeepsName(name: string, now: nat, i: int)
    requires 0 <= i < |name| && !Text.IsWhitespace(name[i])
    ensures Text.UpperChar(name[i]) in GenerateCouponCode(name, now)
  {
    var stripped := Text.StripWhitespace(name);
    assert name[i] in stripped;
    var j :| 0 <= j < |stripped| && stripped[j] == name[i];
    assert GenerateCouponCode(name, now)[j] == Text.ToUpper(stripped)[j];
  }

  /** Two codes generated from the same name are equal only if the clock readings are. */
  lemma GeneratedCodesDiffer(name: string, m: nat, n: nat)
    requires GenerateCouponCode(name, m) == GenerateCouponCode(name, n)
    ensures m == n
  {
    var k := |Text.StripWhitespace(name)|;
    assert GenerateCouponCode(name, m)[k..] == GenerateCouponCode(name, n)[k..];
  }

  /** Index `k` holds the first coupon whose code is `code`. */
  predicate IsFirstWithCode(coupons: seq<Coupon>, code: string, k: int)
  {
    0 <= k < |coupons| && coupons[k].code == code && forall j :: 0 <= j < k ==> coupons[j].code != code
  }

  /** validateCoupon: the first coupon with the code, or nothing. */
  function ValidateCoupon(coupons: seq<Coupon>, couponCode: string): (r: Option<Coupon>)
    ensures r.None? <==> forall i :: 0 <= i < |coupons| ==> coupons[i].code != couponCode
    ensures forall k :: IsFirstWithCode(coupons, couponCode, k) ==> r == Some(coupons[k])
  {
    var p := (c: Coupon) => c.code == couponCode;
    assert forall k :: IsFirstWithCode(coupons, couponCode, k) ==> Seqs.IsFirst(coupons, p, k);
    forall k | IsFirstWithCode(coupons, couponCode, k) ensures Seqs.FindFirst(coupons, p) == Some(coupons[k]) {
      Seqs.FindFirstAt(coupons, p, k);
    }
    Seqs.FindFirst(coupons, p)
  }

  /** Some coupon has the code, so a first one exists. */
  lemma FirstWithCodeExists(coupons: seq<Coupon>, code: string, i: int)
    requires 0 <= i < |coupons| && coupons[i].code == code
    ensures exists k :: IsFirstWithCode(coupons, code, k)
    decreases i
  {
    if !IsFirstWithCode(coupons, code, i) {
      var j :| 0 <= j < i && coupons[j].code == code;
      FirstWithCodeExists(coupons, code, j);
    }
  }

  /**
   * canApplyCoupon: an unknown code cannot be applied; a percentage coupon
   * needs a total of at least 10000; any other known coupon can.
   */
  function CanApplyCoupon(coupons: seq<Coupon>, couponCode: string, cartTotal: real): (ok: bool)
    ensures (forall i :: 0 <= i < |coupons| ==> coupons[i].code != couponCode) ==> !ok
    ensures forall k :: IsFirstWithCode(coupons, couponCode, k) ==>
      (ok <==> (coupons[k].discountType == Percentage ==> cartTotal >= PercentageMinimumTotal))
  {
    match ValidateCoupon(coupons, couponCode)
    case None => false
    case Some(coupon) => !(coupon.discountType == Percentage && cartTotal < PercentageMinimumTotal)
  }

  /** `cartTotal * (discountValue / 100)`, the percentage part of a total, before rounding. */
  function PercentOf(total: real, percent: real): (share: real)
    ensures 0.0 <= total && 0.0 <= percent ==> 0.0 <= share
  {
    total * (percent / 100.0)
  }

  /** calculateDiscount: an amount coupon takes its value but never more than the total; a percentage one its rounded share. */
  function CalculateDiscount(coupon: Coupon, cartTotal: real): (d: real)
    ensures coupon.discountType == Amount ==>
      d <= coupon.discountValue && d <= cartTotal && (d == coupon.discountValue || d == cartTotal)
    ensures coupon.discountType == Percentage ==> IsIntegral(d)
    ensures coupon.discountType == Percentage ==>
      PercentOf(cartTotal, coupon.discountValue) - 0.5 < d <= PercentOf(cartTotal, coupon.discountValue) + 0.5
    ensures coupon.discountType == Percentage && 0.0 <= cartTotal && 0.0 <= coupon.discountValue ==> 0.0 <= d
  {
    if coupon.discountType == Amount then Min(coupon.discountValue, cartTotal)
    else
      RoundOfInt(Round(PercentOf(cartTotal, coupon.discountValue)));
      Round(PercentOf(cartTotal, coupon.discountValue)) as real
  }

  /** calculateFinalAmount: the total less the discount, never below 0. */
  function CalculateFinalAmount(coupon: Coupon, cartTotal: real): (r: real)
    ensures r >= 0.0
    ensures r >= cartTotal - CalculateDiscount(coupon, cartTotal)
    ensures r == 0.0 || r == cartTotal - CalculateDiscount(coupon, cartTotal)
  {
    Max(0.0, cartTotal - CalculateDiscount(coupon, cartTotal))
  }

  /** A coupon of non-negative value never raises a non-negative total. */
  lemma FinalAmountAtMostTotal(coupon: Coupon, cartTotal: real)
    requires cartTotal >= 0.0 && coupon.discountValue >= 0.0
    ensures 0.0 <= CalculateFinalAmount(coupon, cartTotal) <= cartTotal
  {
    if coupon.discountType == Percentage {
      var x := PercentOf(cartTotal, coupon.discountValue);
      RoundMonotone(0.0, x);
      RoundOfInt(0);
    }
  }

  /** An amount coupon worth no more than the total takes exactly its value off. */
  lemma AmountCouponExact(coupon: Coupon, cartTotal: real)
    requires coupon.discountType == Amount && 0.0 <= coupon.discountValue <= cartTotal
    ensures CalculateFinalAmount(coupon, cartTotal) == cartTotal - coupon.discountValue
  {
  }

  /** 10% of 20000 is 2000, leaving 18000. */
  lemma PercentageDiscountExample(coupon: Coupon)
    requires coupon.discountType == Percentage && coupon.discountValue == 10.0
    ensures CalculateDiscount(coupon, 20000.0) == 2000.0
    ensures CalculateFinalAmount(coupon, 20000.0) == 18000.0
  {
    assert PercentOf(20000.0, 10.0) == 2000 as real;
    RoundOfInt(2000);
  }
}
