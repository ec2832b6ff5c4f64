# Storefront pricing, cart, coupon and product stores in Dafny

This project models the business rules of a React shopping-cart storefront
with an admin page:

- **Pricing engine.** It picks the best discount tier a line qualifies for.
  A bulk purchase (any line of 10 or more units) adds 0.05 to every line's
  rate, capped at 0.5. Line totals are rounded. The cart totals are taken
  before and after an amount or percentage coupon. Coupons are checked for
  eligibility: a percentage coupon needs a total of at least 10000. The
  discount and final amount of a coupon are computed. The line display shows
  a discount percentage. Remaining stock is stock minus what the cart holds.
- **Stores.** The cart store, two coupon stores (the domain hook and the
  older hook) and three product stores (the basic domain hook, the advanced
  hook and the older hook).
  - Each store is a Dafny `class` whose fields are the hook's state values.
  - Each action is a `method` that reassigns those fields through pure
    functions.
  - The `addNotification` callback is modelled as the list of notices a
    method returns, each a kind with a severity.
- **Helpers.** The case-insensitive product search and the price label
  (sold out, admin format or user format).

Modelling conventions:

- Money and rates are `real`; quantities and stock are `int`.
- `Math.round(x)` is `Floor(x + 1/2)` (module `JsMath`).
- `Date.now()` is a `now: nat` parameter rendered in decimal (module `Text`).
- `find` and `filter` are the generic `Seqs.FindFirst` and `Seqs.Filter`.

The rules exist in more than one copy, and lemmas relate the copies:

- `Validators` agrees with `CartCalculations` and `ProductCalculations`.
- The domain coupon hook agrees with `CouponCalculations`.
- `CouponRuleAgreement` compares the coupon utilities with the cart hook:
  - the two agree on amount coupons;
  - on percentage coupons they can differ by one unit. The utilities round
    the discount and subtract it, while the cart hook rounds the discounted
    total. A 10% coupon on 10005 gives 9004 in the utilities but 9005 in the
    cart.

Facts about the source that the proofs bring out:

- The stock guard inside `addToCart`'s updater can never fire on the cart
  that the remaining-stock check has just passed (`AddUpdateGuardUnreachable`).
- `addToCart` notifies success even when that guard rejected. The model
  keeps both notices.
- The 0.5 bulk cap lowers a tier rate above 0.5 (`BulkCapCanLowerRate`).
- A saving below half a percent is shown as a discount with rate 0
  (`SmallSavingShowsZeroRate`).

## Model

| member | source | states |
|---|---|---|
| ProductCalculations.FoldDiscounts | src/basic/domain/product/utils/calculations.ts:10-14 | the left fold never falls below its start, bounds every qualifying tier's rate, and is its start or the rate of some qualifying tier |
| ProductCalculations.CalculateProductDiscount | src/basic/domain/product/utils/calculations.ts:6-15 | the rate is at least 0 and at least every qualifying tier's rate; it is 0 or some qualifying tier's rate; an empty list gives 0 |
| ProductCalculations.DiscountIsUnique | src/basic/domain/product/utils/calculations.ts:10-14 | any value with those three properties is the computed discount |
| ProductCalculations.BestQualifyingRateFacts | src/basic/domain/product/utils/calculations.ts:10-14 | the independent maximum over the qualifying tiers has the same three properties |
| ProductCalculations.ProductDiscountIsBestRate | src/basic/domain/product/utils/calculations.ts:10-14 | the fold of the source equals the maximum of 0 and the qualifying rates |
| ProductCalculations.ProductDiscountMonotone | src/basic/domain/product/utils/calculations.ts:10-14 | ordering more units never lowers the discount |
| ProductCalculations.ProductDiscountPermutation | src/basic/domain/product/utils/calculations.ts:10-14 | reordering the tiers does not change the discount |
| ProductCalculations.CalculateRemainingStock | src/basic/domain/product/utils/calculations.ts:20-25 | remaining plus used is the total; nothing is left exactly when used >= total |
| JsMath.Round | src/basic/domain/cart/utils/calculations.ts:22 | `Math.round` gives an integer within half a unit of its argument, halves going up |
| CartCalculations.ApplyBulkDiscount | src/basic/domain/cart/utils/calculations.ts:4-12 | without a bulk purchase the rate is unchanged; with one it is base + 0.05 or 0.5, never above either, and exactly base + 0.05 when base <= 0.45 |
| CartCalculations.BulkCapCanLowerRate | src/basic/domain/cart/utils/calculations.ts:9 | the cap applies to the combined rate, so a 0.6 tier drops to 0.5 |
| CartCalculations.CalculateItemPrice | src/basic/domain/cart/utils/calculations.ts:17-23 | computes only; its properties are carried by ItemPriceAntitone, ItemPriceUndiscounted, ItemPriceExample and CartHook.BulkTierLineExample |
| CartCalculations.ItemPriceWindow | src/basic/domain/cart/utils/calculations.ts:22 | the rounded line price is within half a unit of price × quantity × (1 - rate) |
| CartCalculations.ItemPriceAntitone | src/basic/domain/cart/utils/calculations.ts:17-23 | for a non-negative price and quantity, a higher rate never gives a higher line price |
| CartCalculations.ItemPriceUndiscounted | src/basic/domain/cart/utils/calculations.ts:22 | at rate 0 an integer price times an integer quantity is charged exactly |
| CartCalculations.ItemPriceExample | src/basic/domain/cart/utils/calculations.ts:22 | 12 units at 1000 with rate 0.15 cost 10200 |
| CartCalculations.HasBulkPurchase | src/basic/domain/cart/utils/calculations.ts:28-32 | true exactly when some line has at least 10 units |
| Validators.HasBulkPurchase | src/basic/utils/validators.ts:4-8 | computes only; BulkPurchaseCopiesAgree and BulkPurchaseMeaning carry its properties |
| Validators.CalculateRemainingStock | src/basic/utils/validators.ts:13-18 | computes only; RemainingStockCopiesAgree carries its properties |
| Validators.BulkPurchaseCopiesAgree | src/basic/utils/validators.ts:4-8 | the validators copy of hasBulkPurchase agrees with the cart utilities copy on every cart |
| Validators.BulkPurchaseMeaning | src/basic/utils/validators.ts:7 | the copy is true exactly when some line has at least 10 units, and false on an empty cart |
| Validators.RemainingStockCopiesAgree | src/basic/utils/validators.ts:13-18 | the copy of calculateRemainingStock agrees with the product utilities copy and is total minus used |
| Models.FindProduct | src/basic/domain/cart/hooks/useCart.ts:183 | nothing exactly when no product has the id; otherwise the first product with it |
| CartHook.FindLine | src/basic/domain/cart/hooks/useCart.ts:49 | nothing exactly when no line is for the id; otherwise the first such line |
| CartHook.LineQuantity | src/basic/domain/cart/hooks/useCart.ts:49-50 | the first matching line's quantity, or 0 without a line |
| CartHook.GetRemainingStock | src/basic/domain/cart/hooks/useCart.ts:47-53 | the product's stock minus its first line's quantity, or the whole stock without a line |
| CartHook.GetMaxApplicableDiscount | src/basic/domain/cart/hooks/useCart.ts:56-67 | the rate is non-negative; it is the product discount when the cart is not a bulk purchase; when it is, it is the product discount plus 0.05 or the cap 0.5, never above either, and exactly discount + 0.05 when the discount is at most 0.45; at most 1 when every tier is |
| CartHook.BulkTierLineExample | src/basic/domain/cart/hooks/useCart.ts:56-79 | a one-line cart of 12 units at 1000 with a 10% tier from 10 units gets the bulk bonus, rate 0.15, and a line total of 10200 |
| CartHook.CalculateItemTotal | src/basic/domain/cart/hooks/useCart.ts:70-79 | the line total is within half a unit of price × quantity × (1 - rate) at the line's applicable rate; for a non-negative price and quantity it is at most the undiscounted price, and at least 0 when every tier rate is at most 1 |
| CartHook.ApplySelectedCoupon | src/basic/domain/cart/hooks/useCart.ts:95-106 | computes only; CartTotalsAmountCoupon, CartTotalsPercentageCoupon, CouponShrinks and the CouponRuleAgreement lemmas carry its properties |
| CartHook.CartTotals | src/basic/domain/cart/hooks/useCart.ts:82-112 | computes only; CartStore.CalculateCartTotal is proved equal to it, and CartTotalsEmpty, CartTotalsWithoutCoupon, CartTotalsAmountCoupon, CartTotalsPercentageCoupon and CartTotalsBounds carry its properties |
| CartHook.CouponShrinks | src/basic/domain/cart/hooks/useCart.ts:95-106 | a coupon of non-negative value, at most 100 when a percentage, keeps a non-negative whole sum between 0 and itself |
| CartHook.CartTotalsEmpty | src/basic/domain/cart/hooks/useCart.ts:82-112 | an empty cart totals {0, 0} with no coupon or any coupon of non-negative value |
| CartHook.CartTotalsWithoutCoupon | src/basic/domain/cart/hooks/useCart.ts:89-93 | without a coupon the after-discount total is the sum of the line totals |
| CartHook.CartTotalsAmountCoupon | src/basic/domain/cart/hooks/useCart.ts:96-100 | an amount coupon gives round(max(0, sum - value)), never negative |
| CartHook.CartTotalsPercentageCoupon | src/basic/domain/cart/hooks/useCart.ts:101-105 | a percentage coupon gives round(sum * (1 - value/100)) |
| CartHook.PercentageCouponExample | src/basic/domain/cart/hooks/useCart.ts:102-104 | 10% off 20000 leaves 18000 |
| CartHook.CartTotalsBounds | src/basic/domain/cart/hooks/useCart.ts:82-112 | for integer non-negative prices, non-negative quantities, tiers of at most 1 and a coupon that only takes money off: 0 <= after <= before |
| CartHook.ItemCount | src/basic/domain/cart/hooks/useCart.ts:42 | computes only; ItemCountAppend, ItemCountReplace, SetLineQuantityUnique and AddAddsOneUnit carry its properties, and CartStore.Valid keeps totalItemCount equal to it |
| CartHook.ItemCountAppend | src/basic/domain/cart/hooks/useCart.ts:42 | the item count of two carts joined is the sum of their counts |
| CartHook.ItemCountReplace | src/basic/domain/cart/hooks/useCart.ts:42 | replacing one line changes the count by the difference of the quantities |
| CartHook.SetLineQuantity | src/basic/domain/cart/hooks/useCart.ts:192-198 | the length is kept; lines for the id get the new quantity and every other line is unchanged |
| CartHook.SetLineQuantityAbsent | src/basic/domain/cart/hooks/useCart.ts:192-198 | setting the quantity of a product with no line changes nothing |
| CartHook.SetLineQuantityUnique | src/basic/domain/cart/hooks/useCart.ts:145-149 | with one line per product, exactly that line changes, ids stay unique, and the count moves by the difference |
| CartHook.RemoveLines | src/basic/domain/cart/hooks/useCart.ts:161-165 | every line not for the id is kept as many times as the cart holds it, and no line for the id is kept |
| CartHook.RemoveLinesUnique | src/basic/domain/cart/hooks/useCart.ts:163 | removing lines keeps one line per product |
| CartHook.RemoveLinesKeepsOrder | src/basic/domain/cart/hooks/useCart.ts:163 | the kept lines are in their original order, and a cart without the id is unchanged |
| CartHook.AddToCartUpdate | src/basic/domain/cart/hooks/useCart.ts:129-153 | computes only; AddToCartNewProduct, AddToCartExistingLine, AddKeepsIdsUnique, AddAddsOneUnit and AddUpdateGuardUnreachable carry its properties |
| CartHook.AddToCartNewProduct | src/basic/domain/cart/hooks/useCart.ts:152 | a product with no line is appended as one unit and nothing is rejected |
| CartHook.AddToCartExistingLine | src/basic/domain/cart/hooks/useCart.ts:134-149 | an existing line is rejected exactly when one more unit passes the stock, leaving the cart as it was; otherwise it goes up by one |
| CartHook.FirstLineExists | src/basic/domain/cart/hooks/useCart.ts:130-132 | when some line is for the id, a first such line exists |
| CartHook.AddKeepsIdsUnique | src/basic/domain/cart/hooks/useCart.ts:129-153 | adding keeps one line per product |
| CartHook.AddAddsOneUnit | src/basic/domain/cart/hooks/useCart.ts:129-153 | a successful add raises the item count and the product's quantity by exactly one |
| CartHook.AddUpdateGuardUnreachable | src/basic/domain/cart/hooks/useCart.ts:123-143 | with remaining stock above 0 the updater never rejects, and the product's quantity stays within its stock |
| CartHook.CartStore.constructor | src/basic/domain/cart/hooks/useCart.ts:16-29 | the saved cart, no coupon, and an item count that matches the cart |
| CartHook.CartStore.CalculateCartTotal | src/basic/domain/cart/hooks/useCart.ts:82-112 | the loop computes exactly the before and after totals of the cart and the selected coupon |
| CartHook.CartStore.AddToCart | src/basic/domain/cart/hooks/useCart.ts:115-158 | no stock left: cart unchanged and an out-of-stock error; otherwise the updater's cart, its stock error if it rejected, then always the success notice; ids stay unique and the item count stays in step |
| CartHook.CartStore.RemoveFromCart | src/basic/domain/cart/hooks/useCart.ts:161-165 | the cart loses exactly the lines for the id; the coupon is kept; unique line ids stay unique |
| CartHook.CartStore.UpdateQuantity | src/basic/domain/cart/hooks/useCart.ts:168-201 | a quantity <= 0 removes the lines; an unknown product changes nothing; more than the stock is refused with an error; otherwise the lines get the quantity; unique line ids stay unique |
| CartHook.CartStore.ApplyCoupon | src/basic/domain/cart/hooks/useCart.ts:204-226 | a percentage coupon on a current total below 10000 is refused with an error and the selection kept; otherwise it is selected with a success notice |
| CartHook.CartStore.CompleteOrder | src/basic/domain/cart/hooks/useCart.ts:229-245 | one success notice carrying "ORD-" and the clock reading; then the cart is empty, no coupon is selected and the count is 0 |
| CartDisplay.CalculateOriginalPrice | src/advanced/domain/cart/utils/displayUtils.ts:6-8 | computes only; OriginalPriceIsLinePrice ties it to the cart's line price |
| CartDisplay.HasItemDiscount | src/advanced/domain/cart/utils/displayUtils.ts:13-16 | computes only; CalculateDiscountRate, CalculateItemDisplayInfo and SmallSavingShowsZeroRate carry its properties |
| CartDisplay.OriginalPriceIsLinePrice | src/advanced/domain/cart/utils/displayUtils.ts:6-8 | the shown original price is the line's price times quantity, as the cart total uses it |
| CartDisplay.SavingPercentBounds | src/advanced/domain/cart/utils/displayUtils.ts:28 | a total in [0, original) saves more than 0 and at most 100 percent |
| CartDisplay.CalculateDiscountRate | src/advanced/domain/cart/utils/displayUtils.ts:21-29 | no discount shows 0; a discounted line shows the integer within half a unit of (1 - total / original) × 100, which is `Math.round` of it; a non-negative total shows a rate in [0, 100] |
| CartDisplay.SmallSavingShowsZeroRate | src/advanced/domain/cart/utils/displayUtils.ts:28 | 9999 against 10000 is a discount shown with rate 0 |
| CartDisplay.CalculateItemDisplayInfo | src/advanced/domain/cart/utils/displayUtils.ts:34-45 | the original price, the discount flag and the rate as defined, the total passed through; no discount shows rate 0, a discounted line the integer within half a unit of (1 - total / original) × 100; a non-zero rate implies a discount |
| CartDisplay.CartLineRateInRange | src/advanced/domain/cart/utils/displayUtils.ts:21-29 | for a line the cart prices, the division is defined and the rate lies in [0, 100] |
| Text.StripWhitespace | src/basic/domain/coupon/utils/couponCalculations.ts:7 | no whitespace is left, and every other character is kept as many times as the name holds it |
| Text.StripKeepsOrder | src/basic/domain/coupon/utils/couponCalculations.ts:7 | the kept characters are in their original order |
| CouponCalculations.GenerateCouponCode | src/basic/domain/coupon/utils/couponCalculations.ts:6-8 | the code is the name with whitespace removed, upper-cased character by character, followed by digits that read back as the clock value |
| CouponCalculations.GeneratedCodeKeepsName | src/basic/domain/coupon/utils/couponCalculations.ts:7 | every non-whitespace character of the name appears upper-cased in the code |
| CouponCalculations.GeneratedCodesDiffer | src/basic/domain/coupon/utils/couponCalculations.ts:7 | codes from the same name are equal only for equal clock values |
| CouponCalculations.ValidateCoupon | src/basic/domain/coupon/utils/couponCalculations.ts:13-19 | nothing exactly when no coupon has the code; otherwise the first coupon with it |
| CouponCalculations.FirstWithCodeExists | src/basic/domain/coupon/utils/couponCalculations.ts:17 | when some coupon has the code, a first one exists |
| CouponCalculations.CanApplyCoupon | src/basic/domain/coupon/utils/couponCalculations.ts:24-38 | an unknown code is refused; a known coupon can be applied exactly when it is not a percentage coupon or the total is at least 10000 |
| CouponCalculations.CalculateDiscount | src/basic/domain/coupon/utils/couponCalculations.ts:43-52 | an amount coupon takes the smaller of its value and the total; a percentage one a whole number within half a unit of total * value / 100, not negative for a non-negative total and value |
| CouponCalculations.CalculateFinalAmount | src/basic/domain/coupon/utils/couponCalculations.ts:57-63 | at least 0 and at least total minus discount, and equal to one of them |
| CouponCalculations.FinalAmountAtMostTotal | src/basic/domain/coupon/utils/couponCalculations.ts:57-63 | a coupon of non-negative value never raises a non-negative total |
| CouponCalculations.AmountCouponExact | src/basic/domain/coupon/utils/couponCalculations.ts:48 | an amount coupon worth at most the total takes exactly its value off |
| CouponCalculations.PercentageDiscountExample | src/basic/domain/coupon/utils/couponCalculations.ts:50 | 10% of 20000 is 2000, leaving 18000 |
| CouponRuleAgreement.AmountRulesAgree | src/basic/domain/cart/hooks/useCart.ts:96-100 | for an amount coupon the utilities' final amount equals the cart hook's adjusted total |
| CouponRuleAgreement.PercentageRulesWithinOne | src/basic/domain/cart/hooks/useCart.ts:101-105 | for a percentage in [0, 100] on a whole non-negative total, the cart's result is the utilities' result or one more |
| CouponRuleAgreement.RoundOfComplement | src/basic/domain/coupon/utils/couponCalculations.ts:50 | rounding n - x gives n - round(x), or one more |
| CouponRuleAgreement.PercentageRulesDifferAtHalf | src/basic/domain/coupon/utils/couponCalculations.ts:50 | 10% of 10005 leaves 9004 by the utilities and 9005 by the cart hook |
| CouponHook.RemoveCouponsWithCode | src/basic/domain/coupon/hooks/useCoupons.ts:50 | every coupon without the code is kept as many times as the list holds it, and none with the code is kept |
| CouponHook.RemoveCouponsKeepsOrder | src/basic/domain/coupon/hooks/useCoupons.ts:49-51 | the kept coupons are in their original order; a list without the code is unchanged |
| CouponHook.CouponFromForm | src/basic/domain/coupon/hooks/useCoupons.ts:115-122 | the form's fields, with its code, or a generated code when it is empty |
| CouponHook.AppendKeepsCodesUnique | src/basic/domain/coupon/hooks/useCoupons.ts:109-124 | appending a coupon whose code is new keeps the codes unique |
| CouponHook.CouponStore.constructor | src/basic/domain/coupon/hooks/useCoupons.ts:6-25 | the saved list, the form hidden and at its initial amount-type value |
| CouponHook.CouponStore.AddCoupon | src/basic/domain/coupon/hooks/useCoupons.ts:33-46 | one coupon appended under a generated code with no duplicate check; the form hidden and reset to percentage type |
| CouponHook.CouponStore.DeleteCoupon | src/basic/domain/coupon/hooks/useCoupons.ts:49-51 | the list loses exactly the coupons with the code; the form is untouched |
| CouponHook.CouponStore.ValidateCoupon | src/basic/domain/coupon/hooks/useCoupons.ts:54-60 | agrees with the utilities' validateCoupon on the current list |
| CouponHook.CouponStore.CanApplyCoupon | src/basic/domain/coupon/hooks/useCoupons.ts:63-76 | agrees with the utilities' canApplyCoupon on the current list |
| CouponHook.CouponStore.CalculateDiscount | src/basic/domain/coupon/hooks/useCoupons.ts:79-88 | agrees with the utilities' calculateDiscount |
| CouponHook.CouponStore.CalculateFinalAmount | src/basic/domain/coupon/hooks/useCoupons.ts:91-97 | agrees with the utilities' calculateFinalAmount |
| CouponHook.CouponStore.HandleCouponSubmit | src/basic/domain/coupon/hooks/useCoupons.ts:100-135 | a duplicate code changes nothing and gives an error; otherwise one coupon from the form is appended, success notified, the form reset to percentage type and hidden; a non-empty form code keeps the codes unique |
| CouponHook.CouponStore.ResetCouponForm | src/basic/domain/coupon/hooks/useCoupons.ts:138-146 | the form reset to percentage type and hidden; the list untouched |
| LegacyCouponHook.SelectionAfterDelete | src/basic/hooks/useCoupons.ts:78-80 | the selection is cleared exactly when it has the deleted code, and kept otherwise |
| LegacyCouponHook.InitialCouponsUnique | src/basic/hooks/useCoupons.ts:4-17 | the two initial coupons have different codes |
| LegacyCouponHook.CouponStore.constructor | src/basic/hooks/useCoupons.ts:20-39 | the saved list or the two initial coupons; the form hidden and of amount type |
| LegacyCouponHook.CouponStore.AddCoupon | src/basic/hooks/useCoupons.ts:47-64 | an existing code is refused with an error and the list kept; otherwise the coupon is appended with a success notice; unique codes stay unique |
| LegacyCouponHook.CouponStore.DeleteCoupon | src/basic/hooks/useCoupons.ts:67-84 | the list loses the coupons with the code, the selection is cleared exactly when it was one of them, and success is notified |
| LegacyCouponHook.CouponStore.HandleCouponSubmit | src/basic/hooks/useCoupons.ts:87-106 | addCoupon on the form, then the form reset to amount type and hidden whether or not the add succeeded |
| LegacyCouponHook.CouponStore.ResetCouponForm | src/basic/hooks/useCoupons.ts:109-117 | the form reset to amount type and hidden; the list untouched |
| ProductUtils.GenerateProductId | src/basic/domain/product/utils/productUtils.ts:14-16 | the id is a non-empty string of decimal digits that reads back as the clock value |
| ProductUtils.CreateProduct | src/basic/domain/product/utils/productUtils.ts:21-28 | the product carries the generated id and exactly the given data |
| ProductUtils.CreateProductRoundTrip | src/basic/domain/product/utils/productUtils.ts:21-28 | a product is rebuilt exactly from its data and the clock reading of its id |
| ProductUtils.AddProductToList | src/basic/domain/product/utils/productUtils.ts:33-38 | one longer, the old list as prefix and the product last |
| ProductUtils.Merge | src/basic/domain/product/utils/productUtils.ts:49 | every field the update sets replaces the product's, the others are kept |
| ProductUtils.MergeIdempotent | src/basic/domain/product/utils/productUtils.ts:49 | merging the same update twice is merging it once |
| ProductUtils.MergeNothing | src/basic/domain/product/utils/productUtils.ts:49 | the empty update changes nothing |
| ProductUtils.UpdateProductInList | src/basic/domain/product/utils/productUtils.ts:43-51 | the length and order are kept; products with the id get the update merged in and the others are untouched |
| ProductUtils.UpdateAbsentIsIdentity | src/basic/domain/product/utils/productUtils.ts:48-50 | updating an id no product has leaves the list identical |
| ProductUtils.UpdateIdempotent | src/basic/domain/product/utils/productUtils.ts:43-51 | applying the same update twice is applying it once |
| ProductUtils.RemoveProductFromList | src/basic/domain/product/utils/productUtils.ts:56-61 | every product without the id is kept as many times as the list holds it, and none with the id is kept |
| ProductUtils.RemoveKeepsOrder | src/basic/domain/product/utils/productUtils.ts:60 | the kept products are in their original order; an absent id leaves the list unchanged |
| ProductUtils.EditFormFor | src/basic/domain/product/hooks/useProducts.ts:72-78 | the form copies name, price, stock and tiers, with a missing description shown as "" |
| ProductUtils.MergeFormKeepsId | src/basic/domain/product/hooks/useProducts.ts:44-46 | merging a form keeps the product's id and takes every other field from the form |
| ProductUtils.EditFormRoundTrip | src/basic/domain/product/hooks/useProducts.ts:70-80 | saving an unchanged edit form gives the product back, except that a missing description becomes "" |
| ProductHook.EditDiscount | src/basic/domain/product/hooks/useProducts.ts:104 | the edit sets the named field of the tier and keeps the other |
| ProductHook.UpdateDiscountAt | src/basic/domain/product/hooks/useProducts.ts:103-105 | the length is kept, only tier index changes, and it gets the edit |
| ProductHook.UpdateDiscountOutOfRange | src/basic/domain/product/hooks/useProducts.ts:103-105 | an index outside the list changes nothing |
| ProductHook.ProductStore.constructor | src/basic/domain/product/hooks/useProducts.ts:7-18 | the saved list, nothing edited, the form empty and hidden |
| ProductHook.ProductStore.AddProduct | src/basic/domain/product/hooks/useProducts.ts:21-38 | one product appended under the clock's id with the given data; the form hidden and emptied |
| ProductHook.ProductStore.UpdateProduct | src/basic/domain/product/hooks/useProducts.ts:41-59 | the update merged into the products with the id; editing stopped, the form hidden and emptied |
| ProductHook.ProductStore.DeleteProduct | src/basic/domain/product/hooks/useProducts.ts:62-67 | the list loses exactly the products with the id; the form state is untouched |
| ProductHook.ProductStore.StartEditProduct | src/basic/domain/product/hooks/useProducts.ts:70-80 | editing the product, its fields in the form with a missing description as "", the form shown |
| ProductHook.ProductStore.AddDiscount | src/basic/domain/product/hooks/useProducts.ts:83-88 | exactly one tier {0, 0} appended to the draft; nothing else changes |
| ProductHook.ProductStore.RemoveDiscount | src/basic/domain/product/hooks/useProducts.ts:91-96 | the draft loses only tier index; an index outside the list changes nothing |
| ProductHook.ProductStore.UpdateDiscount | src/basic/domain/product/hooks/useProducts.ts:99-109 | only the named field of tier index changes; nothing else does |
| ProductHook.ProductStore.ResetProductForm | src/basic/domain/product/hooks/useProducts.ts:112-122 | the form emptied, editing stopped, the form hidden; the list untouched |
| AdvancedProductHook.ProductStore.constructor | src/advanced/domain/product/hooks/useProducts.ts:17-21 | the saved list, nothing edited, the form empty and hidden |
| AdvancedProductHook.ProductStore.AddProduct | src/advanced/domain/product/hooks/useProducts.ts:24-42 | addProductToList with the created product; the form hidden and emptied |
| AdvancedProductHook.ProductStore.UpdateProduct | src/advanced/domain/product/hooks/useProducts.ts:45-59 | updateProductInList with the update; editing stopped, the form hidden and emptied |
| AdvancedProductHook.ProductStore.DeleteProduct | src/advanced/domain/product/hooks/useProducts.ts:62-67 | removeProductFromList with the id; the form state is untouched |
| AdvancedProductHook.ProductStore.StartEditProduct | src/advanced/domain/product/hooks/useProducts.ts:70-83 | editing the product, its fields in the form with the same defaults, the form shown |
| AdvancedProductHook.ProductStore.HandleProductSubmit | src/advanced/domain/product/hooks/useProducts.ts:86-117 | an edit of a set id other than "new" updates that product from the form; otherwise one product built from the form is added; then editing stops and the form is emptied and hidden |
| AdvancedProductHook.SubmitChangesCountByOne | src/advanced/domain/product/hooks/useProducts.ts:89-97 | an edit keeps the number of products; a new-product submit adds exactly one, last, carrying the form's data |
| LegacyProductHook.NewProduct | src/basic/hooks/useProducts.ts:29-32 | the new product is createProduct of the form's fields under the clock's id |
| LegacyProductHook.ReplaceFields | src/basic/hooks/useProducts.ts:50-54 | the map is updateProductInList with every field of the form but the id |
| LegacyProductHook.ProductStore.constructor | src/basic/hooks/useProducts.ts:7-18 | the saved list, nothing edited, the form empty and hidden |
| LegacyProductHook.ProductStore.AddProduct | src/basic/hooks/useProducts.ts:21-36 | one product with the given fields and a new id appended; the form state untouched |
| LegacyProductHook.ProductStore.UpdateProduct | src/basic/hooks/useProducts.ts:39-57 | the matching products take every given field and keep their id; the others and the form state untouched |
| LegacyProductHook.ProductStore.DeleteProduct | src/basic/hooks/useProducts.ts:60-65 | the list loses exactly the products with the id |
| LegacyProductHook.ProductStore.StartEditProduct | src/basic/hooks/useProducts.ts:68-78 | editing the product, its fields in the form with the defaults, the form shown |
| LegacyProductHook.ProductStore.ResetProductForm | src/basic/hooks/useProducts.ts:81-91 | the form emptied, editing stopped, the form hidden |
| Search.FilteredProducts | src/advanced/shared/hooks/useSearch.ts:18-36 | an empty term returns the list; otherwise every matching product is kept as many times as the list holds it, and no other product is kept |
| Search.FilteredKeepsOrder | src/advanced/shared/hooks/useSearch.ts:23 | the result is an order-preserving subsequence of the products |
| Search.MatchesMeaning | src/advanced/shared/hooks/useSearch.ts:24-34 | a product matches exactly when the lower-cased term occurs in its lower-cased name, or in its present, non-empty lower-cased description |
| Search.CaseInsensitive | src/advanced/shared/hooks/useSearch.ts:26 | terms that lower-case alike give the same result |
| Search.UpperCaseTermFindsTheSame | src/advanced/shared/hooks/useSearch.ts:26 | the upper-cased term finds the same products as the term |
| FormatPrice.FormatPrice | src/basic/shared/hooks/useFormatPrice.ts:15-31 | a given id whose first product has no remaining stock shows the sold-out text; otherwise the admin format in admin mode and the user format elsewhere |
| FormatPrice.NoProductNoStockCheck | src/basic/shared/hooks/useFormatPrice.ts:17-19 | with no id or an unknown one, the label is the formatter's and never depends on the stock |

## Left out

- Persistence: reading and writing localStorage and JSON parsing are left
  out. The stores' constructors take the list that would have been restored.
  The older coupon store gets `None` when nothing parses.
- The clock: `Date.now()` is passed in as `now`. Nothing is claimed about
  ids or codes being unique across calls.
- The search debounce timer and the `searchTerm` state are left out. Only
  the filter over the debounced term is modelled.
- The `toLocaleString` price formatters are left uninterpreted. They are
  function parameters of `FormatPrice.FormatPrice`.
- Text.ToLower and Text.ToUpper map ASCII letters only; Unicode case mapping
  is not modelled.
- Floating point: arithmetic is on exact reals, so IEEE-754 rounding effects
  (0.1 + 0.05 != 0.15) are not modelled.
- CartHook.CartStore.AddToCart: the `setCart` updater runs on the cart that
  the remaining-stock check read. React may later hand it a newer cart, and
  that scheduling is not modelled.
- The order of notices relative to state updates is not modelled.
- CartHook.CartStore.Valid: the `useEffect` that recomputes totalItemCount
  is modelled as an invariant the methods keep, not as a separate step after
  each render.
- The `setSelectedCoupon`, `setCoupons`, `setProducts`, `setShowXForm` and
  `setXForm` setters the hooks return are plain assignments; they are left
  out as operations.
- ProductUtils.ProductPatch: a `Partial` key that is present but holds
  `undefined` overwrites the field in the source. The model has only
  "absent" and "a value".
- Models.Product: it carries only the fields the rules read (id, name,
  price, stock, description, discounts). Other fields of a product with UI
  data are left out.
- The `product.discounts \|\| []` default in startEditProduct is not
  modelled, because a product's tiers are always a list here.
- AdvancedProductHook: the advanced form atom is declared with a shape
  different from the hook's use (category and image, no tiers). The model
  follows what the hook code does with the form.
- ProductHook.ProductStore.UpdateDiscount: a field name other than
  `quantity` or `rate` adds a key that nothing reads, modelled as no change
  (`SetOther`). A non-integer quantity value cannot be expressed, since
  quantities are `int`.
- CartDisplay.CalculateDiscountRate: requires a non-zero original price when
  there is a discount. JS divides by zero and gives a non-finite rate only
  for a negative item total on a line whose price times quantity is 0.
- CartHook.CalculateItemTotal: the bounds are stated only for a non-negative
  price and quantity (and tier rates of at most 1 for the lower bound).
- UI components, the notification toast, the app wiring (including the
  duplicate price-label branch in the app component) and the barrel and atom
  declaration files are left out. They hold no rules beyond those modelled.
