/**
 * src/basic/domain/cart/hooks/useCart.ts: the cart store. The helpers that
 * only read the cart are functions of the cart; the `setCart` updaters are
 * functions from the previous cart to the next; the hook itself is the class
 * `CartStore`, whose fields are its `useState` values.
 */
module CartHook {
  import opened Wrappers
  import opened Models
  import opened JsMath
  import Text
  import Seqs
  import opened ProductCalculations
  import opened CartCalculations

  /** A percentage coupon needs an after-discount total of at least this much. */
  const MinimumForPercentageCoupon: int := 10000

  /** Index `k` holds the first line for product `id`. */
  predicate IsFirstLine(cart: seq<CartItem>, id: string, k: int)
  {
    0 <= k < |cart| && cart[k].product.id == id && forall j :: 0 <= j < k ==> cart[j].product.id != id
  }

  /** No product has two lines. */
  ghost predicate UniqueIds(cart: seq<CartItem>)
  {
    forall i, j :: 0 <= i < j < |cart| ==> cart[i].product.id != cart[j].product.id
  }

  /** `cart.find(item => item.product.id === id)`. */
  function FindLine(cart: seq<CartItem>, id: string): (r: Option<CartItem>)
    ensures r.None? <==> forall i :: 0 <= i < |cart| ==> cart[i].product.id != id
    ensures forall k :: IsFirstLine(cart, id, k) ==> r == Some(cart[k])
  {
    var p := (item: CartItem) => item.product.id == id;
    var r := Seqs.FindFirst(cart, p);
    assert forall k :: IsFirstLine(cart, id, k) ==> Seqs.IsFirst(cart, p, k);
    forall k | IsFirstLine(cart, id, k) ensures r == Some(cart[k]) {
      Seqs.FindFirstAt(cart, p, k);
    }
    r
  }

  /** `cartItem?.quantity || 0`: the quantity of the product's line, or 0 without one. */
  function LineQuantity(cart: seq<CartItem>, id: string): (q: int)
    ensures (forall i :: 0 <= i < |cart| ==> cart[i].product.id != id) ==> q == 0
    ensures forall k :: IsFirstLine(cart, id, k) ==> q == cart[k].quantity
  {
    match FindLine(cart, id)
    case Some(item) => item.quantity
    case None => 0
  }

  /** getRemainingStock: the stock minus what the product's line already holds. */
  function GetRemainingStock(cart: seq<CartItem>, product: Product): (r: int)
    ensures (forall i :: 0 <= i < |cart| ==> cart[i].product.id != product.id) ==> r == product.stock
    ensures forall k :: IsFirstLine(cart, product.id, k) ==> r == product.stock - cart[k].quantity
  {
    CalculateRemainingStock(product.stock, LineQuantity(cart, product.id))
  }

  /** Every tier's rate is at most 1 (no tier makes a line cost less than nothing). */
  predicate RatesAtMostOne(ds: seq<Discount>)
  {
    forall i :: 0 <= i < |ds| ==> ds[i].rate <= 1.0
  }

  /** getMaxApplicableDiscount: the line's best tier, with the bulk bonus when the cart is a bulk purchase. */
  function GetMaxApplicableDiscount(cart: seq<CartItem>, item: CartItem): (r: real)
    ensures r >= 0.0
    ensures !HasBulkPurchase(cart) ==> r == CalculateProductDiscount(item.product.discounts, item.quantity)
    ensures HasBulkPurchase(cart) ==> r <= MaxBulkRate
    ensures HasBulkPurchase(cart) ==>
      var b := CalculateProductDiscount(item.product.discounts, item.quantity);
      && (r == b + BulkBonus || r == MaxBulkRate)
      && r <= b + BulkBonus
      && (b <= MaxBulkRate - BulkBonus ==> r == b + BulkBonus)
    ensures RatesAtMostOne(item.product.discounts) ==> r <= 1.0
  {
    ApplyBulkDiscount(CalculateProductDiscount(item.product.discounts, item.quantity), HasBulkPurchase(cart))
  }

  /** calculateItemTotal: the line's price after its rate, never above its undiscounted price. */
  function CalculateItemTotal(cart: seq<CartItem>, item: CartItem): (r: int)
    ensures var x := ExactItemPrice(item.product.price, item.quantity, GetMaxApplicableDiscount(cart, item));
      x - 0.5 < r as real <= x + 0.5
    ensures item.product.price >= 0.0 && item.quantity >= 0 ==>
      r <= CalculateItemPrice(item.product.price, item.quantity, 0.0)
    ensures item.product.price >= 0.0 && item.quantity >= 0 && RatesAtMostOne(item.product.discounts) ==> r >= 0
  {
    var rate := GetMaxApplicableDiscount(cart, item);
    ItemPriceWindow(item.product.price, item.quantity, rate);
    if item.product.price >= 0.0 && item.quantity >= 0 then
      ItemPriceAntitone(item.product.price, item.quantity, 0.0, rate);
      if rate <= 1.0 then
        ItemPriceAntitone(item.product.price, item.quantity, rate, 1.0);
        assert CalculateItemPrice(item.product.price, item.quantity, 1.0) == 0;
        CalculateItemPrice(item.product.price, item.quantity, rate)
      else
        CalculateItemPrice(item.product.price, item.quantity, rate)
    else
      CalculateItemPrice(item.product.price, item.quantity, rate)
  }

  /** `price * quantity`, the line before any discount. */
  function LinePrice(item: CartItem): real
  {
    item.product.price * item.quantity as real
  }

  /** The `forEach` sum of the undiscounted line prices over `items`, from the left. */
  function SumBeforeDiscount(items: seq<CartItem>): real
  {
    if items == [] then 0.0 else SumBeforeDiscount(items[..|items| - 1]) + LinePrice(items[|items| - 1])
  }

  /** The `forEach` sum of the line totals over `items`; the bulk test looks at the whole `cart`. */
  function SumItemTotals(items: seq<CartItem>, cart: seq<CartItem>): int
  {
    if items == [] then 0 else SumItemTotals(items[..|items| - 1], cart) + CalculateItemTotal(cart, items[|items| - 1])
  }

  /** What a percentage coupon leaves of a sum: `total * (1 - percent / 100)`, before rounding. */
  function PercentOff(total: real, percent: real): real
  {
    total * (1.0 - percent / 100.0)
  }

  /** A percentage between 0 and 100 leaves between nothing and all of a non-negative sum. */
  lemma PercentOffBounds(total: real, percent: real)
    requires 0.0 <= total && 0.0 <= percent <= 100.0
    ensures 0.0 <= PercentOff(total, percent) <= total
  {
    ScaleDown(total, 1.0 - percent / 100.0);
  }

  /** The selected coupon applied to the discounted sum: amount off (not below 0) or percent off (rounded). */
  function ApplySelectedCoupon(total: real, coupon: Option<Coupon>): real
  {
    match coupon
    case None => total
    case Some(c) =>
      if c.discountType == Amount then Max(0.0, total - c.discountValue)
      else Round(PercentOff(total, c.discountValue)) as real
  }

  datatype CartTotal = CartTotal(totalBeforeDiscount: int, totalAfterDiscount: int)

  /** What calculateCartTotal returns for a cart and a selected coupon. */
  function CartTotals(cart: seq<CartItem>, coupon: Option<Coupon>): CartTotal
  {
    CartTotal(Round(SumBeforeDiscount(cart)), Round(ApplySelectedCoupon(SumItemTotals(cart, cart) as real, coupon)))
  }

  /** An empty cart totals {0, 0} under no coupon or any coupon of non-negative value. */
  lemma CartTotalsEmpty(coupon: Option<Coupon>)
    requires coupon.None? || coupon.value.discountValue >= 0.0
    ensures CartTotals([], coupon) == CartTotal(0, 0)
  {
    RoundOfInt(0);
  }

  /** Without a coupon the after-discount total is exactly the sum of the line totals. */
  lemma CartTotalsWithoutCoupon(cart: seq<CartItem>)
    ensures CartTotals(cart, None).totalAfterDiscount == SumItemTotals(cart, cart)
  {
    RoundOfInt(SumItemTotals(cart, cart));
  }

  /** An amount coupon takes its value off the sum and never leaves a negative total. */
  lemma CartTotalsAmountCoupon(cart: seq<CartItem>, c: Coupon)
    requires c.discountType == Amount
    ensures CartTotals(cart, Some(c)).totalAfterDiscount == Round(Max(0.0, SumItemTotals(cart, cart) as real - c.discountValue))
    ensures CartTotals(cart, Some(c)).totalAfterDiscount >= 0
  {
    RoundMonotone(0.0, Max(0.0, SumItemTotals(cart, cart) as real - c.discountValue));
    RoundOfInt(0);
  }

  /** A percentage coupon scales the sum by (1 - value/100) and rounds. */
  lemma CartTotalsPercentageCoupon(cart: seq<CartItem>, c: Coupon)
    requires c.discountType == Percentage
    ensures CartTotals(cart, Some(c)).totalAfterDiscount == Round(PercentOff(SumItemTotals(cart, cart) as real, c.discountValue))
  {
    RoundOfInt(Round(PercentOff(SumItemTotals(cart, cart) as real, c.discountValue)));
  }

  /** 10% off a sum of 20000 leaves 18000. */
  lemma PercentageCouponExample(c: Coupon)
    requires c.discountType == Percentage && c.discountValue == 10.0
    ensures Round(ApplySelectedCoupon(20000.0, Some(c))) == 18000
  {
    assert PercentOff(20000.0, 10.0) == 18000 as real;
    RoundOfInt(18000);
  }

  /**
   * A tier of 10% from 10 units, 12 units at 1000, and the bulk bonus that
   * the same line triggers: the rate is 0.15 and the line costs 10200.
   */
  lemma BulkTierLineExample(p: Product)
    requires p.price == 1000.0 && p.discounts == [Discount(10, 0.1)]
    ensures var cart := [CartItem(p, 12)];
      && GetMaxApplicableDiscount(cart, cart[0]) == 0.15
      && CalculateItemTotal(cart, cart[0]) == 10200
  {
    var cart := [CartItem(p, 12)];
    assert Qualifies(p.discounts[0], 12);
    assert CalculateProductDiscount(p.discounts, 12) == 0.1;
    assert HasBulkPurchase(cart) by { assert cart[0].quantity >= BulkThreshold; }
    ItemPriceExample();
  }

  /** A coupon that can only take money off: a non-negative value, at most 100 if a percentage. */
  predicate SaneCoupon(coupon: Option<Coupon>)
  {
    coupon.Some? ==> coupon.value.discountValue >= 0.0
                     && (coupon.value.discountType == Percentage ==> coupon.value.discountValue <= 100.0)
  }

  /** Integer non-negative prices, non-negative quantities and tier rates of at most 1. */
  predicate SaneLines(items: seq<CartItem>)
  {
    forall i :: 0 <= i < |items| ==>
      && items[i].product.price >= 0.0 && IsIntegral(items[i].product.price)
      && items[i].quantity >= 0 && RatesAtMostOne(items[i].product.discounts)
  }

  lemma {:induction false} SumsBounded(items: seq<CartItem>, cart: seq<CartItem>)
    requires SaneLines(items)
    ensures IsIntegral(SumBeforeDiscount(items))
    ensures 0 <= SumItemTotals(items, cart)
    ensures SumItemTotals(items, cart) as real <= SumBeforeDiscount(items)
  {
    if items != [] {
      var init, last := items[..|items| - 1], items[|items| - 1];
      assert SaneLines(init) by {
        forall i | 0 <= i < |init| ensures init[i] == items[i] { }
      }
      SumsBounded(init, cart);
      var n := last.product.price.Floor;
      assert last.product.price == n as real;
      assert LinePrice(last) == (n * last.quantity) as real;
      ItemPriceUndiscounted(n, last.quantity);
      var before := SumBeforeDiscount(init);
      assert before == before.Floor as real;
      assert SumBeforeDiscount(items) == (before.Floor + n * last.quantity) as real;
    }
  }

  /** A sane coupon never raises a non-negative integer sum, nor takes it below 0. */
  lemma CouponShrinks(sum: int, coupon: Option<Coupon>)
    requires 0 <= sum && SaneCoupon(coupon)
    ensures 0.0 <= ApplySelectedCoupon(sum as real, coupon) <= sum as real
  {
    if coupon.Some? && coupon.value.discountType == Percentage {
      var x := PercentOff(sum as real, coupon.value.discountValue);
      PercentOffBounds(sum as real, coupon.value.discountValue);
      RoundBetween(x, 0, sum);
    }
  }

  /** For sane lines and a sane coupon the totals satisfy 0 <= after <= before. */
  lemma CartTotalsBounds(cart: seq<CartItem>, coupon: Option<Coupon>)
    requires SaneLines(cart) && SaneCoupon(coupon)
    ensures 0 <= CartTotals(cart, coupon).totalAfterDiscount <= CartTotals(cart, coupon).totalBeforeDiscount
  {
    SumsBounded(cart, cart);
    var sum := SumItemTotals(cart, cart);
    var adjusted := ApplySelectedCoupon(sum as real, coupon);
    CouponShrinks(sum, coupon);
    RoundMonotone(0.0, adjusted);
    RoundMonotone(adjusted, SumBeforeDiscount(cart));
    RoundOfInt(0);
    RoundOfIntegral(SumBeforeDiscount(cart));
  }

  /** The `reduce` that computes totalItemCount: the sum of the quantities, from the left. */
  function ItemCount(cart: seq<CartItem>): int
  {
    if cart == [] then 0 else ItemCount(cart[..|cart| - 1]) + cart[|cart| - 1].quantity
  }

  lemma {:induction false} ItemCountAppend(a: seq<CartItem>, b: seq<CartItem>)
    ensures ItemCount(a + b) == ItemCount(a) + ItemCount(b)
    decreases |b|
  {
    if b != [] {
      assert (a + b)[..|a + b| - 1] == a + b[..|b| - 1];
      assert (a + b)[|a + b| - 1] == b[|b| - 1];
      ItemCountAppend(a, b[..|b| - 1]);
      assert ItemCount(a + b) == ItemCount(a + b[..|b| - 1]) + b[|b| - 1].quantity;
    } else {
      assert a + b == a;
    }
  }

  /** Replacing one line changes the count by the difference of the two quantities. */
  lemma ItemCountReplace(cart: seq<CartItem>, k: int, item: CartItem)
    requires 0 <= k < |cart|
    ensures ItemCount(cart[k := item]) == ItemCount(cart) - cart[k].quantity + item.quantity
  {
    assert cart == cart[..k] + [cart[k]] + cart[k + 1..];
    assert cart[k := item] == cart[..k] + [item] + cart[k + 1..];
    ItemCountAppend(cart[..k] + [cart[k]], cart[k + 1..]);
    ItemCountAppend(cart[..k], [cart[k]]);
    ItemCountAppend(cart[..k] + [item], cart[k + 1..]);
    ItemCountAppend(cart[..k], [item]);
    assert ItemCount([cart[k]]) == cart[k].quantity by { assert [cart[k]][..0] == []; }
    assert ItemCount([item]) == item.quantity by { assert [item][..0] == []; }
  }

  /** The `map` in updateQuantity and addToCart: every line for `id` gets `quantity`. */
  function SetLineQuantity(cart: seq<CartItem>, id: string, quantity: int): (r: seq<CartItem>)
    ensures |r| == |cart|
    ensures forall i :: 0 <= i < |cart| && cart[i].product.id != id ==> r[i] == cart[i]
    ensures forall i :: 0 <= i < |cart| && cart[i].product.id == id ==> r[i] == cart[i].(quantity := quantity)
  {
    seq(|cart|, i requires 0 <= i < |cart| => if cart[i].product.id == id then cart[i].(quantity := quantity) else cart[i])
  }

  /** Setting the quantity of a product with no line changes nothing. */
  lemma SetLineQuantityAbsent(cart: seq<CartItem>, id: string, quantity: int)
    requires forall i :: 0 <= i < |cart| ==> cart[i].product.id != id
    ensures SetLineQuantity(cart, id, quantity) == cart
  {
  }

  /** With unique ids, setting a line's quantity replaces that one line. */
  lemma SetLineQuantityUnique(cart: seq<CartItem>, id: string, quantity: int, k: int)
    requires UniqueIds(cart) && 0 <= k < |cart| && cart[k].product.id == id
    ensures SetLineQuantity(cart, id, quantity) == cart[k := cart[k].(quantity := quantity)]
    ensures UniqueIds(SetLineQuantity(cart, id, quantity))
    ensures ItemCount(SetLineQuantity(cart, id, quantity)) == ItemCount(cart) - cart[k].quantity + quantity
  {
    var r := SetLineQuantity(cart, id, quantity);
    var replaced := cart[k := cart[k].(quantity := quantity)];
    forall i | 0 <= i < |cart| ensures r[i] == replaced[i] {
      if i != k {
        assert cart[i].product.id != id;
      }
    }
    assert r == replaced;
    ItemCountReplace(cart, k, cart[k].(quantity := quantity));
  }

  /** The `filter` in removeFromCart: drop every line for `id`. */
  function RemoveLines(cart: seq<CartItem>, id: string): (r: seq<CartItem>)
    ensures forall i :: 0 <= i < |r| ==> r[i] in cart && r[i].product.id != id
    ensures forall i :: 0 <= i < |cart| && cart[i].product.id != id ==> cart[i] in r
    ensures forall x :: multiset(r)[x] == if x.product.id != id then multiset(cart)[x] else 0
  {
    Seqs.Filter(cart, (item: CartItem) => item.product.id != id)
  }

  /** Removing lines keeps line ids unique. */
  lemma RemoveLinesUnique(cart: seq<CartItem>, id: string)
    requires UniqueIds(cart)
    ensures UniqueIds(RemoveLines(cart, id))
  {
    var keep := (item: CartItem) => item.product.id != id;
    var key := (item: CartItem) => item.product.id;
    forall i, j | 0 <= i < j < |cart| ensures key(cart[i]) != key(cart[j]) {
      assert cart[i].product.id != cart[j].product.id;
    }
    Seqs.FilterKeepsDistinctKeys(cart, keep, key);
    var r := RemoveLines(cart, id);
    assert r == Seqs.Filter(cart, keep);
    forall i, j | 0 <= i < j < |r| ensures r[i].product.id != r[j].product.id {
      assert key(r[i]) != key(r[j]);
    }
  }

  /** Removing keeps the other lines in their order, and changes nothing when there is no such line. */
  lemma RemoveLinesKeepsOrder(cart: seq<CartItem>, id: string)
    ensures Seqs.IsSubsequence(RemoveLines(cart, id), cart)
    ensures (forall i :: 0 <= i < |cart| ==> cart[i].product.id != id) ==> RemoveLines(cart, id) == cart
  {
    var p := (item: CartItem) => item.product.id != id;
    Seqs.FilterIsSubsequence(cart, p);
    if forall i :: 0 <= i < |cart| ==> cart[i].product.id != id {
      Seqs.FilterKeepsAll(cart, p);
    }
  }

  /** What the `setCart` updater of addToCart returns, and whether it hit its stock guard. */
  datatype AddOutcome = AddOutcome(cart: seq<CartItem>, rejected: bool)

  /** The updater of addToCart (lines 129-153) applied to the cart it is handed. */
  function AddToCartUpdate(prevCart: seq<CartItem>, product: Product): AddOutcome
  {
    match FindLine(prevCart, product.id)
    case Some(existingItem) =>
      var newQuantity := existingItem.quantity + 1;
      if newQuantity > product.stock then AddOutcome(prevCart, true)
      else AddOutcome(SetLineQuantity(prevCart, product.id, newQuantity), false)
    case None => AddOutcome(prevCart + [CartItem(product, 1)], false)
  }

  /** A product with no line yet is appended as one unit. */
  lemma AddToCartNewProduct(prevCart: seq<CartItem>, product: Product)
    requires forall i :: 0 <= i < |prevCart| ==> prevCart[i].product.id != product.id
    ensures AddToCartUpdate(prevCart, product) == AddOutcome(prevCart + [CartItem(product, 1)], false)
  {
  }

  /** A product with a line goes up by one unit, unless that passes the stock, which changes nothing. */
  lemma AddToCartExistingLine(prevCart: seq<CartItem>, product: Product, k: int)
    requires IsFirstLine(prevCart, product.id, k)
    ensures var r := AddToCartUpdate(prevCart, product);
      && (r.rejected <==> prevCart[k].quantity + 1 > product.stock)
      && (r.rejected ==> r.cart == prevCart)
      && (!r.rejected ==> r.cart == SetLineQuantity(prevCart, product.id, prevCart[k].quantity + 1))
  {
    assert FindLine(prevCart, product.id) == Some(prevCart[k]);
  }

  /** Some line is for product `id`, so a first one exists. */
  lemma FirstLineExists(cart: seq<CartItem>, id: string, i: int)
    requires 0 <= i < |cart| && cart[i].product.id == id
    ensures exists k :: IsFirstLine(cart, id, k)
    decreases i
  {
    if !IsFirstLine(cart, id, i) {
      var j :| 0 <= j < i && cart[j].product.id == id;
      FirstLineExists(cart, id, j);
    }
  }

  /** Adding to the cart keeps one line per product. */
  lemma AddKeepsIdsUnique(prevCart: seq<CartItem>, product: Product)
    requires UniqueIds(prevCart)
    ensures UniqueIds(AddToCartUpdate(prevCart, product).cart)
  {
    if exists i :: 0 <= i < |prevCart| && prevCart[i].product.id == product.id {
      var i :| 0 <= i < |prevCart| && prevCart[i].product.id == product.id;
      FirstLineExists(prevCart, product.id, i);
      var k :| IsFirstLine(prevCart, product.id, k);
      SetLineQuantityUnique(prevCart, product.id, prevCart[k].quantity + 1, k);
    }
  }

  /** A successful add puts exactly one more unit in the cart. */
  lemma AddAddsOneUnit(prevCart: seq<CartItem>, product: Product)
    requires UniqueIds(prevCart) && !AddToCartUpdate(prevCart, product).rejected
    ensures ItemCount(AddToCartUpdate(prevCart, product).cart) == ItemCount(prevCart) + 1
    ensures LineQuantity(AddToCartUpdate(prevCart, product).cart, product.id) == LineQuantity(prevCart, product.id) + 1
  {
    if exists i :: 0 <= i < |prevCart| && prevCart[i].product.id == product.id {
      var i :| 0 <= i < |prevCart| && prevCart[i].product.id == product.id;
      FirstLineExists(prevCart, product.id, i);
      var k :| IsFirstLine(prevCart, product.id, k);
      AddToExistingLine(prevCart, product, k);
    } else {
      AddNewLine(prevCart, product);
    }
  }

  lemma AddToExistingLine(prevCart: seq<CartItem>, product: Product, k: int)
    requires UniqueIds(prevCart) && IsFirstLine(prevCart, product.id, k)
    requires !AddToCartUpdate(prevCart, product).rejected
    ensures ItemCount(AddToCartUpdate(prevCart, product).cart) == ItemCount(prevCart) + 1
    ensures LineQuantity(AddToCartUpdate(prevCart, product).cart, product.id) == prevCart[k].quantity + 1
  {
    AddToCartExistingLine(prevCart, product, k);
    var next := SetLineQuantity(prevCart, product.id, prevCart[k].quantity + 1);
    SetLineQuantityUnique(prevCart, product.id, prevCart[k].quantity + 1, k);
    assert IsFirstLine(next, product.id, k);
  }

  lemma AddNewLine(prevCart: seq<CartItem>, product: Product)
    requires forall i :: 0 <= i < |prevCart| ==> prevCart[i].product.id != product.id
    ensures ItemCount(AddToCartUpdate(prevCart, product).cart) == ItemCount(prevCart) + 1
    ensures LineQuantity(AddToCartUpdate(prevCart, product).cart, product.id) == 1
  {
    AddToCartNewProduct(prevCart, product);
    var next := prevCart + [CartItem(product, 1)];
    ItemCountAppend(prevCart, [CartItem(product, 1)]);
    assert ItemCount([CartItem(product, 1)]) == 1 by { assert [CartItem(product, 1)][..0] == []; }
    assert IsFirstLine(next, product.id, |prevCart|);
  }

  /**
   * Once the remaining-stock check at line 124 has passed, the updater's own
   * stock guard (lines 137-143) cannot fire on the same cart: it matters only
   * when React hands the updater a newer cart than the one checked.
   */
  lemma AddUpdateGuardUnreachable(cart: seq<CartItem>, product: Product)
    requires GetRemainingStock(cart, product) > 0
    ensures !AddToCartUpdate(cart, product).rejected
    ensures LineQuantity(AddToCartUpdate(cart, product).cart, product.id) <= product.stock
  {
    var r := AddToCartUpdate(cart, product);
    if exists i :: 0 <= i < |cart| && cart[i].product.id == product.id {
      var i :| 0 <= i < |cart| && cart[i].product.id == product.id;
      FirstLineExists(cart, product.id, i);
      var k :| IsFirstLine(cart, product.id, k);
      AddToCartExistingLine(cart, product, k);
      assert r.cart == SetLineQuantity(cart, product.id, cart[k].quantity + 1);
      assert IsFirstLine(r.cart, product.id, k);
    } else {
      AddToCartNewProduct(cart, product);
      assert IsFirstLine(r.cart, product.id, |cart|);
    }
  }

  /** The cart hook's state. */
  class CartStore {
    var cart: seq<CartItem>
    var selectedCoupon: Option<Coupon>
    var totalItemCount: int

    /** The effect at lines 41-44 keeps totalItemCount equal to the item count. */
    ghost predicate Valid()
      reads this
    {
      totalItemCount == ItemCount(cart)
    }

    /** The cart restored from storage (parsing is not modelled), no coupon selected. */
    constructor (saved: seq<CartItem>)
      ensures Valid() && cart == saved && selectedCoupon == None
    {
      cart := saved;
      selectedCoupon := None;
      totalItemCount := ItemCount(saved);
    }

    /** calculateCartTotal: the `forEach` loop and the coupon adjustment. */
    method CalculateCartTotal() returns (totals: CartTotal)
      ensures totals == CartTotals(cart, selectedCoupon)
    {
      var totalBeforeDiscount: real := 0.0;
      var totalAfterDiscount: int := 0;
      var i := 0;
      while i < |cart|
        invariant 0 <= i <= |cart|
        invariant totalBeforeDiscount == SumBeforeDiscount(cart[..i])
        invariant totalAfterDiscount == SumItemTotals(cart[..i], cart)
      {
        var item := cart[i];
        assert cart[..i + 1][..i] == cart[..i];
        totalBeforeDiscount := totalBeforeDiscount + LinePrice(item);
        totalAfterDiscount := totalAfterDiscount + CalculateItemTotal(cart, item);
        i := i + 1;
      }
      assert cart[..i] == cart;
      var after: real := totalAfterDiscount as real;
      if selectedCoupon.Some? {
        if selectedCoupon.value.discountType == Amount {
          after := Max(0.0, after - selectedCoupon.value.discountValue);
        } else {
          after := Round(PercentOff(after, selectedCoupon.value.discountValue)) as real;
        }
      }
      totals := CartTotal(Round(totalBeforeDiscount), Round(after));
    }

    /** addToCart: rejected when nothing is left, otherwise the updater runs and success is always notified. */
    method AddToCart(product: Product) returns (sent: seq<Notice>)
      requires Valid()
      modifies this
      ensures Valid() && selectedCoupon == old(selectedCoupon)
      ensures GetRemainingStock(old(cart), product) <= 0 ==>
        cart == old(cart) && sent == [Notice(OutOfStock, Error)]
      ensures GetRemainingStock(old(cart), product) > 0 ==>
        var update := AddToCartUpdate(old(cart), product);
        && cart == update.cart
        && sent == (if update.rejected then [Notice(StockLimit(product.stock), Error)] else [])
                   + [Notice(AddedToCart, Success)]
      ensures UniqueIds(old(cart)) ==> UniqueIds(cart)
    {
      var remainingStock := GetRemainingStock(cart, product);
      if remainingStock <= 0 {
        sent := [Notice(OutOfStock, Error)];
        return;
      }
      var update := AddToCartUpdate(cart, product);
      sent := if update.rejected then [Notice(StockLimit(product.stock), Error)] else [];
      if UniqueIds(cart) {
        AddKeepsIdsUnique(cart, product);
      }
      cart := update.cart;
      totalItemCount := ItemCount(cart);
      sent := sent + [Notice(AddedToCart, Success)];
    }

    /** removeFromCart: every line for the product goes; no notice. */
    method RemoveFromCart(productId: string)
      requires Valid()
      modifies this
      ensures Valid() && selectedCoupon == old(selectedCoupon)
      ensures cart == RemoveLines(old(cart), productId)
      ensures UniqueIds(old(cart)) ==> UniqueIds(cart)
    {
      if UniqueIds(cart) {
        RemoveLinesUnique(cart, productId);
      }
      cart := RemoveLines(cart, productId);
      totalItemCount := ItemCount(cart);
    }

    /** updateQuantity: remove at 0 or below; ignore unknown products; refuse more than the stock. */
    method UpdateQuantity(productId: string, newQuantity: int, products: seq<Product>) returns (sent: seq<Notice>)
      requires Valid()
      modifies this
      ensures Valid() && selectedCoupon == old(selectedCoupon)
      ensures newQuantity <= 0 ==> cart == RemoveLines(old(cart), productId) && sent == []
      ensures newQuantity > 0 && FindProduct(products, productId).None? ==> cart == old(cart) && sent == []
      ensures newQuantity > 0 && FindProduct(products, productId).Some? ==>
        var stock := FindProduct(products, productId).value.stock;
        if newQuantity > stock then cart == old(cart) && sent == [Notice(StockLimit(stock), Error)]
        else cart == SetLineQuantity(old(cart), productId, newQuantity) && sent == []
      ensures UniqueIds(old(cart)) ==> UniqueIds(cart)
    {
      if newQuantity <= 0 {
        RemoveFromCart(productId);
        sent := [];
        return;
      }
      var product := FindProduct(products, productId);
      if product.None? {
        sent := [];
        return;
      }
      var maxStock := product.value.stock;
      if newQuantity > maxStock {
        sent := [Notice(StockLimit(maxStock), Error)];
        return;
      }
      cart := SetLineQuantity(cart, productId, newQuantity);
      totalItemCount := ItemCount(cart);
      sent := [];
    }

    /** applyCoupon: a percentage coupon is refused below a total of 10000; otherwise it becomes the selection. */
    method ApplyCoupon(coupon: Coupon) returns (sent: seq<Notice>)
      requires Valid()
      modifies this
      ensures Valid() && cart == old(cart)
      ensures var currentTotal := CartTotals(old(cart), old(selectedCoupon)).totalAfterDiscount;
        if currentTotal < MinimumForPercentageCoupon && coupon.discountType == Percentage
        then selectedCoupon == old(selectedCoupon) && sent == [Notice(PercentageCouponMinimum, Error)]
        else selectedCoupon == Some(coupon) && sent == [Notice(CouponApplied, Success)]
    {
      var totals := CalculateCartTotal();
      var currentTotal := totals.totalAfterDiscount;
      if currentTotal < MinimumForPercentageCoupon && coupon.discountType == Percentage {
        sent := [Notice(PercentageCouponMinimum, Error)];
        return;
      }
      selectedCoupon := Some(coupon);
      sent := [Notice(CouponApplied, Success)];
    }

    /** completeOrder: notify the order number "ORD-<now>", then empty the cart and drop the coupon. */
    method CompleteOrder(now: nat) returns (sent: seq<Notice>)
      requires Valid()
      modifies this
      ensures Valid() && cart == [] && selectedCoupon == None && totalItemCount == 0
      ensures sent == [Notice(OrderCompleted("ORD-" + Text.DecimalString(now)), Success)]
    {
      sent := [Notice(OrderCompleted("ORD-" + Text.DecimalString(now)), Success)];
      cart := [];
      selectedCoupon := None;
      totalItemCount := 0;
    }
  }
}
