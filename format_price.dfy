/**
 * src/basic/shared/hooks/useFormatPrice.ts: the price label. A known product
 * with nothing left shows the sold-out text; otherwise the admin or the user
 * formatter is used. The formatters and the remaining-stock callback are
 * parameters, as the hook receives them.
 */
module FormatPrice {
  import opened Wrappers
  import opened Models

  /** `SOLD_OUT_TEXT` (src/advanced/shared/utils/formatters.ts). */
  const SoldOutText: string := "SOLD OUT"

  /**
   * The sold-out branch is taken: an id is given and non-empty, and the first
   * product with it has no remaining stock.
   */
  predicate SoldOut(products: seq<Product>, getRemainingStock: Product -> int, productId: Option<string>)
  {
    productId.Some? && productId.value != ""
    && exists k :: 0 <= k < |products| && IsFirstProduct(products, productId.value, k) && getRemainingStock(products[k]) <= 0
  }

  /** formatPrice: the sold-out text, the admin format or the user format. */
  function FormatPrice(products: seq<Product>, isAdmin: bool, getRemainingStock: Product -> int,
                       formatAdminPrice: real -> string, formatUserPrice: real -> string,
                       price: real, productId: Option<string>): (shown: string)
    ensures SoldOut(products, getRemainingStock, productId) ==> shown == SoldOutText
    ensures !SoldOut(products, getRemainingStock, productId) && isAdmin ==> shown == formatAdminPrice(price)
    ensures !SoldOut(products, getRemainingStock, productId) && !isAdmin ==> shown == formatUserPrice(price)
  {
    var soldOut :=
      if productId.Some? && productId.value != "" then
        var product := FindProduct(products, productId.value);
        product.Some? && getRemainingStock(product.value) <= 0
      else false;
    if soldOut then SoldOutText
    else if isAdmin then formatAdminPrice(price)
    else formatUserPrice(price)
  }

  /** Without an id, or with one no product has, the stock is never looked at: the label is the formatter's. */
  lemma NoProductNoStockCheck(products: seq<Product>, isAdmin: bool, getRemainingStock: Product -> int,
                              formatAdminPrice: real -> string, formatUserPrice: real -> string,
                              price: real, productId: Option<string>)
    requires productId.None? || forall i :: 0 <= i < |products| ==> products[i].id != productId.value
    ensures FormatPrice(products, isAdmin, getRemainingStock, formatAdminPrice, formatUserPrice, price, productId)
            == (if isAdmin then formatAdminPrice(price) else formatUserPrice(price))
  {
  }
}
