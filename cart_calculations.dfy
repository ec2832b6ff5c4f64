/** src/basic/domain/cart/utils/calculations.ts: bulk bonus, line price and the bulk test. */
module CartCalculations {
  import opened Models
  import opened JsMath

  /** A line of at least this many units makes the whole cart a bulk purchase. */
  const BulkThreshold: int := 10

  /** The bonus a bulk purchase adds to every line's rate, and the cap on the combined rate. */
  const BulkBonus: real := 0.05
  const MaxBulkRate: real := 0.5

  /** applyBulkDiscount: a bulk purchase adds 0.05 to the rate, capped at 0.5. */
  function ApplyBulkDiscount(baseDiscount: real, hasBulkPurchase: bool): (r: real)
    ensures !hasBulkPurchase ==> r == baseDiscount
    ensures hasBulkPurchase ==> r <= MaxBulkRate && r <= baseDiscount + BulkBonus
    ensures hasBulkPurchase ==> r == baseDiscount + BulkBonus || r == MaxBulkRate
    ensures hasBulkPurchase && baseDiscount <= MaxBulkRate - BulkBonus ==> r == baseDiscount + BulkBonus
  {
    if hasBulkPurchase then Min(baseDiscount + BulkBonus, MaxBulkRate) else baseDiscount
  }

  /**
   * The cap applies to the combined rate, so on a tier above 0.5 a bulk
   * purchase lowers the rate: a 0.6 tier becomes 0.5.
   */
  lemma BulkCapCanLowerRate()
    ensures ApplyBulkDiscount(0.6, true) == 0.5 < 0.6
  {
  }

  /** calculateItemPrice: the discounted line price, rounded to the nearest unit. */
  function CalculateItemPrice(price: real, quantity: int, discountRate: real): int
  {
    Round(price * quantity as real * (1.0 - discountRate))
  }

  /** `price * quantity * (1 - discountRate)`, the discounted line price before rounding. */
  function ExactItemPrice(price: real, quantity: int, discountRate: real): real
  {
    price * quantity as real * (1.0 - discountRate)
  }

  /** The rounded line price is within half a unit of the exact discounted price. */
  lemma ItemPriceWindow(price: real, quantity: int, discountRate: real)
    ensures var x := ExactItemPrice(price, quantity, discountRate);
      x - 0.5 < CalculateItemPrice(price, quantity, discountRate) as real <= x + 0.5
  {
  }

  /** For a fixed non-negative price and quantity, a higher rate never gives a higher price. */
  lemma ItemPriceAntitone(price: real, quantity: int, r1: real, r2: real)
    requires price >= 0.0 && quantity >= 0 && r1 <= r2
    ensures CalculateItemPrice(price, quantity, r2) <= CalculateItemPrice(price, quantity, r1)
  {
    var pq := price * quantity as real;
    assert pq >= 0.0 by { NonNegativeProduct(price, quantity as real); }
    assert pq * (1.0 - r1) - pq * (1.0 - r2) == pq * (r2 - r1);
    NonNegativeProduct(pq, r2 - r1);
    RoundMonotone(pq * (1.0 - r2), pq * (1.0 - r1));
  }

  lemma NonNegativeProduct(a: real, b: real)
    requires a >= 0.0 && b >= 0.0
    ensures a * b >= 0.0
  {
  }

  /** Without a discount an integer price times an integer quantity is charged exactly. */
  lemma ItemPriceUndiscounted(price: int, quantity: int)
    ensures CalculateItemPrice(price as real, quantity, 0.0) == price * quantity
  {
    assert price as real * quantity as real * (1.0 - 0.0) == (price * quantity) as real;
    RoundOfInt(price * quantity);
  }

  /** 12 units at 1000 with a 15% rate cost 10200. */
  lemma ItemPriceExample()
    ensures CalculateItemPrice(1000.0, 12, 0.15) == 10200
  {
    assert 1000.0 * 12 as real * (1.0 - 0.15) == 10200 as real;
    RoundOfInt(10200);
  }

  /** hasBulkPurchase: some line has at least 10 units. */
  function HasBulkPurchase(cartItems: seq<CartItem>): (b: bool)
    ensures b <==> exists i :: 0 <= i < |cartItems| && cartItems[i].quantity >= BulkThreshold
  {
    if cartItems == [] then false
    else
      assert forall i :: 1 <= i < |cartItems| ==> cartItems[i] == cartItems[1..][i - 1];
      cartItems[0].quantity >= BulkThreshold || HasBulkPurchase(cartItems[1..])
  }
}
