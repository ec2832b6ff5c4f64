/** src/basic/utils/validators.ts: older copies of the bulk test and the stock subtraction. */
module Validators {
  import opened Models
  import CartCalculations
  import ProductCalculations

  /** hasBulkPurchase (the copy here), written as the same `some`. */
  function HasBulkPurchase(cartItems: seq<CartItem>): bool
  {
    cartItems != [] && (cartItems[0].quantity >= 10 || HasBulkPurchase(cartItems[1..]))
  }

  /** calculateRemainingStock (the copy here). */
  function CalculateRemainingStock(totalStock: int, usedStock: int): int
  {
    totalStock - usedStock
  }

  /** Both copies of hasBulkPurchase give the same answer on every cart. */
  lemma {:induction false} BulkPurchaseCopiesAgree(cartItems: seq<CartItem>)
    ensures HasBulkPurchase(cartItems) == CartCalculations.HasBulkPurchase(cartItems)
  {
    if cartItems != [] {
      BulkPurchaseCopiesAgree(cartItems[1..]);
    }
  }

  /** This copy is true exactly when some line has at least 10 units; an empty cart has none. */
  lemma BulkPurchaseMeaning(cartItems: seq<CartItem>)
    ensures HasBulkPurchase(cartItems) <==> exists i :: 0 <= i < |cartItems| && cartItems[i].quantity >= 10
    ensures !HasBulkPurchase([])
  {
    BulkPurchaseCopiesAgree(cartItems);
  }

  /** Both copies of calculateRemainingStock agree, and the stock left is total minus used. */
  lemma RemainingStockCopiesAgree(totalStock: int, usedStock: int)
    ensures CalculateRemainingStock(totalStock, usedStock) == ProductCalculations.CalculateRemainingStock(totalStock, usedStock)
    ensures CalculateRemainingStock(totalStock, usedStock) + usedStock == totalStock
  {
  }
}
