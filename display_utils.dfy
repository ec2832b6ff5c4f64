/** src/advanced/domain/cart/utils/displayUtils.ts: what a cart line shows next to its total. */
module CartDisplay {
  import opened Models
  import opened JsMath
  import CartHook

  /** calculateOriginalPrice: the line before any discount. */
  function CalculateOriginalPrice(item: CartItem): real
  {
    item.product.price * item.quantity as real
  }

  /** The shown original price is the cart's undiscounted line price. */
  lemma OriginalPriceIsLinePrice(item: CartItem)
    ensures CalculateOriginalPrice(item) == CartHook.LinePrice(item)
  {
  }

  /** hasItemDiscount: the line costs less than its original price. */
  predicate HasItemDiscount(item: CartItem, itemTotal: real)
  {
    itemTotal < CalculateOriginalPrice(item)
  }

  /** `(1 - itemTotal / originalPrice) * 100`, the saving in percent, before rounding. */
  function SavingPercent(itemTotal: real, originalPrice: real): real
    requires originalPrice != 0.0
  {
    (1.0 - itemTotal / originalPrice) * 100.0
  }

  /** A total between 0 and below the original saves more than 0 and at most 100 percent. */
  lemma SavingPercentBounds(itemTotal: real, originalPrice: real)
    requires 0.0 <= itemTotal < originalPrice
    ensures 0.0 < SavingPercent(itemTotal, originalPrice) <= 100.0
  {
    var q := itemTotal / originalPrice;
    assert q * originalPrice == itemTotal;
    assert 0.0 <= q < 1.0;
  }

  /**
   * calculateDiscountRate: the rounded saving in percent when there is a
   * discount, otherwise 0. The division needs a non-zero original price,
   * which holds whenever the total is not negative.
   */
  function CalculateDiscountRate(item: CartItem, itemTotal: real): (rate: int)
    requires HasItemDiscount(item, itemTotal) ==> CalculateOriginalPrice(item) != 0.0
    ensures !HasItemDiscount(item, itemTotal) ==> rate == 0
    ensures HasItemDiscount(item, itemTotal) ==>
      var s := SavingPercent(itemTotal, CalculateOriginalPrice(item));
      s - 0.5 < rate as real <= s + 0.5
    ensures 0.0 <= itemTotal ==> 0 <= rate <= 100
  {
    if HasItemDiscount(item, itemTotal) then
      var saving := SavingPercent(itemTotal, CalculateOriginalPrice(item));
      if 0.0 <= itemTotal then
        SavingPercentBounds(itemTotal, CalculateOriginalPrice(item));
        RoundBetween(saving, 0, 100);
        Round(saving)
      else
        Round(saving)
    else 0
  }

  /** A saving below half a percent is shown as a discount with a rate of 0. */
  lemma SmallSavingShowsZeroRate(item: CartItem)
    requires item.product.price == 10000.0 && item.quantity == 1
    ensures HasItemDiscount(item, 9999.0) && CalculateDiscountRate(item, 9999.0) == 0
  {
    assert CalculateOriginalPrice(item) == 10000.0;
    assert SavingPercent(9999.0, 10000.0) == 0.01;
  }

  /** The four values a cart line shows. */
  datatype ItemDisplayInfo = ItemDisplayInfo(originalPrice: real, hasDiscount: bool, discountRate: int, itemTotal: real)

  /** calculateItemDisplayInfo: the three derived values, and the total passed through. */
  function CalculateItemDisplayInfo(item: CartItem, itemTotal: real): (info: ItemDisplayInfo)
    requires HasItemDiscount(item, itemTotal) ==> CalculateOriginalPrice(item) != 0.0
    ensures info.originalPrice == CalculateOriginalPrice(item)
    ensures info.hasDiscount == HasItemDiscount(item, itemTotal)
    ensures info.discountRate == CalculateDiscountRate(item, itemTotal)
    ensures !info.hasDiscount ==> info.discountRate == 0
    ensures info.hasDiscount ==>
      var s := SavingPercent(itemTotal, CalculateOriginalPrice(item));
      s - 0.5 < info.discountRate as real <= s + 0.5
    ensures info.itemTotal == itemTotal
    ensures 0.0 <= itemTotal ==> 0 <= info.discountRate <= 100
    ensures info.discountRate != 0 ==> info.hasDiscount
  {
    ItemDisplayInfo(CalculateOriginalPrice(item), HasItemDiscount(item, itemTotal),
                    CalculateDiscountRate(item, itemTotal), itemTotal)
  }

  /**
   * For a line the cart prices (non-negative price and quantity, tiers of at
   * most 1), the rate is defined and lies in [0, 100].
   */
  lemma CartLineRateInRange(cart: seq<CartItem>, item: CartItem)
    requires item.product.price >= 0.0 && item.quantity >= 0 && CartHook.RatesAtMostOne(item.product.discounts)
    ensures var t := CartHook.CalculateItemTotal(cart, item) as real;
      && (HasItemDiscount(item, t) ==> CalculateOriginalPrice(item) != 0.0)
      && 0 <= CalculateDiscountRate(item, t) <= 100
  {
  }
}
