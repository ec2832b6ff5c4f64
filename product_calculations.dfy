/** src/basic/domain/product/utils/calculations.ts: the best discount tier and the stock left. */
module ProductCalculations {
  import opened Models
  import opened JsMath

  /** The tier qualifies for an order of `quantity` units. */
  predicate Qualifies(d: Discount, quantity: int)
  {
    quantity >= d.quantity
  }

  /** One step of the `reduce`: take the tier's rate when it qualifies and beats the best so far. */
  function DiscountStep(maxDiscount: real, d: Discount, quantity: int): real
  {
    if Qualifies(d, quantity) && d.rate > maxDiscount then d.rate else maxDiscount
  }

  /** The `reduce` fold from the left, starting from `acc`. */
  function FoldDiscounts(ds: seq<Discount>, quantity: int, acc: real): (r: real)
    ensures r >= acc
    ensures forall i :: 0 <= i < |ds| && Qualifies(ds[i], quantity) ==> ds[i].rate <= r
    ensures r == acc || exists i :: 0 <= i < |ds| && Qualifies(ds[i], quantity) && ds[i].rate == r
    decreases |ds|
  {
    if ds == [] then acc
    else
      var r := FoldDiscounts(ds[1..], quantity, DiscountStep(acc, ds[0], quantity));
      assert forall i :: 1 <= i < |ds| ==> ds[i] == ds[1..][i - 1];
      r
  }

  /**
   * calculateProductDiscount: the largest rate among the tiers that qualify
   * for `quantity`, or 0 when none does.
   */
  function CalculateProductDiscount(discounts: seq<Discount>, quantity: int): (r: real)
    ensures r >= 0.0
    ensures forall i :: 0 <= i < |discounts| && Qualifies(discounts[i], quantity) ==> discounts[i].rate <= r
    ensures r == 0.0 || exists i :: 0 <= i < |discounts| && Qualifies(discounts[i], quantity) && discounts[i].rate == r
    ensures discounts == [] ==> r == 0.0
  {
    FoldDiscounts(discounts, quantity, 0.0)
  }

  /** The three facts above pin the result down: any value with them is the discount. */
  lemma DiscountIsUnique(discounts: seq<Discount>, quantity: int, r: real)
    requires r >= 0.0
    requires forall i :: 0 <= i < |discounts| && Qualifies(discounts[i], quantity) ==> discounts[i].rate <= r
    requires r == 0.0 || exists i :: 0 <= i < |discounts| && Qualifies(discounts[i], quantity) && discounts[i].rate == r
    ensures CalculateProductDiscount(discounts, quantity) == r
  {
  }

  /** An independent definition: the maximum of 0 and every qualifying rate, taken from the right. */
  function BestQualifyingRate(ds: seq<Discount>, quantity: int): real
  {
    if ds == [] then 0.0
    else Max(if Qualifies(ds[0], quantity) then ds[0].rate else 0.0, BestQualifyingRate(ds[1..], quantity))
  }

  lemma {:induction false} BestQualifyingRateFacts(ds: seq<Discount>, quantity: int)
    ensures BestQualifyingRate(ds, quantity) >= 0.0
    ensures forall i :: 0 <= i < |ds| && Qualifies(ds[i], quantity) ==> ds[i].rate <= BestQualifyingRate(ds, quantity)
    ensures BestQualifyingRate(ds, quantity) == 0.0
            || exists i :: 0 <= i < |ds| && Qualifies(ds[i], quantity) && ds[i].rate == BestQualifyingRate(ds, quantity)
  {
    if ds != [] {
      BestQualifyingRateFacts(ds[1..], quantity);
      assert forall i :: 1 <= i < |ds| ==> ds[i] == ds[1..][i - 1];
    }
  }

  /** The left fold of the source computes the best qualifying rate. */
  lemma ProductDiscountIsBestRate(ds: seq<Discount>, quantity: int)
    ensures CalculateProductDiscount(ds, quantity) == BestQualifyingRate(ds, quantity)
  {
    BestQualifyingRateFacts(ds, quantity);
    DiscountIsUnique(ds, quantity, BestQualifyingRate(ds, quantity));
  }

  /** Ordering more units never lowers the discount: the qualifying tiers only grow. */
  lemma ProductDiscountMonotone(ds: seq<Discount>, q1: int, q2: int)
    requires q1 <= q2
    ensures CalculateProductDiscount(ds, q1) <= CalculateProductDiscount(ds, q2)
  {
    var r1 := CalculateProductDiscount(ds, q1);
    if r1 != 0.0 {
      var i :| 0 <= i < |ds| && Qualifies(ds[i], q1) && ds[i].rate == r1;
      assert Qualifies(ds[i], q2);
    }
  }

  /** The order of the tiers does not matter. */
  lemma ProductDiscountPermutation(ds: seq<Discount>, es: seq<Discount>, quantity: int)
    requires multiset(ds) == multiset(es)
    ensures CalculateProductDiscount(ds, quantity) == CalculateProductDiscount(es, quantity)
  {
    var r := CalculateProductDiscount(ds, quantity);
    forall j | 0 <= j < |es| && Qualifies(es[j], quantity)
      ensures es[j].rate <= r
    {
      assert es[j] in multiset(ds);
      var i :| 0 <= i < |ds| && ds[i] == es[j];
    }
    if r != 0.0 {
      var i :| 0 <= i < |ds| && Qualifies(ds[i], quantity) && ds[i].rate == r;
      assert ds[i] in multiset(es);
      var j :| 0 <= j < |es| && es[j] == ds[i];
    }
    DiscountIsUnique(es, quantity, r);
  }

  /** calculateRemainingStock: the stock not yet used; nothing is left exactly when `usedStock >= totalStock`. */
  function CalculateRemainingStock(totalStock: int, usedStock: int): (r: int)
    ensures r + usedStock == totalStock
    ensures r <= 0 <==> usedStock >= totalStock
  {
    totalStock - usedStock
  }
}
