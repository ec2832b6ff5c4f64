/** The storefront's entities: products with discount tiers, cart lines, coupons and notices. */
module Models {
  import opened Wrappers
  import Seqs

  /** A discount tier: buying at least `quantity` units earns `rate` (0.1 is 10%). */
  datatype Discount = Discount(quantity: int, rate: real)

  /** `ProductWithUI`: a catalogue entry; the description is optional. */
  datatype Product = Product(
    id: string,
    name: string,
    price: real,
    stock: int,
    description: Option<string>,
    discounts: seq<Discount>)

  /** A cart line: a snapshot of the product and the quantity ordered. */
  datatype CartItem = CartItem(product: Product, quantity: int)

  datatype DiscountType = Amount | Percentage

  /** A coupon: a flat amount off, or `discountValue` percent off. */
  datatype Coupon = Coupon(name: string, code: string, discountType: DiscountType, discountValue: real)

  datatype Severity = Success | Error | Warning

  /** What a notification tells the user. */
  datatype NoticeKind =
    | OutOfStock                    // nothing of the product is left to add
    | StockLimit(stock: int)        // only `stock` units exist
    | AddedToCart                   // the product went into the cart
    | PercentageCouponMinimum       // percentage coupons need a total of 10,000
    | CouponApplied                 // the coupon is now selected
    | OrderCompleted(orderNumber: string)
    | DuplicateCouponCode           // a coupon with this code already exists
    | CouponAdded                   // the coupon was added to the list
    | CouponDeleted                 // the coupon was deleted

  /** One call of the `addNotification(message, type)` callback. */
  datatype Notice = Notice(kind: NoticeKind, severity: Severity)

  /** Index `k` holds the first product with the id. */
  predicate IsFirstProduct(products: seq<Product>, id: string, k: int)
  {
    0 <= k < |products| && products[k].id == id && forall j :: 0 <= j < k ==> products[j].id != id
  }

  /** `products.find(p => p.id === id)`: the first product with the id, or nothing. */
  function FindProduct(products: seq<Product>, id: string): (r: Option<Product>)
    ensures r.None? <==> forall i :: 0 <= i < |products| ==> products[i].id != id
    ensures forall k :: IsFirstProduct(products, id, k) ==> r == Some(products[k])
  {
    var p := (product: Product) => product.id == id;
    assert forall k :: IsFirstProduct(products, id, k) ==> Seqs.IsFirst(products, p, k);
    forall k | IsFirstProduct(products, id, k) ensures Seqs.FindFirst(products, p) == Some(products[k]) {
      Seqs.FindFirstAt(products, p, k);
    }
    Seqs.FindFirst(products, p)
  }

  /** Some product has the id, so a first one exists. */
  lemma FirstProductExists(products: seq<Product>, id: string, i: int)
    requires 0 <= i < |products| && products[i].id == id
    ensures exists k :: IsFirstProduct(products, id, k)
    decreases i
  {
    if !IsFirstProduct(products, id, i) {
      var j :| 0 <= j < i && products[j].id == id;
      FirstProductExists(products, id, j);
    }
  }
}
