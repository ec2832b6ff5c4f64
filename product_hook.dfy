/**
 * src/basic/domain/product/hooks/useProducts.ts: the product store, with
 * the product list, the id being edited, whether the form is shown, and the
 * draft form together with its list of discount tiers.
 */
module ProductHook {
  import opened Wrappers
  import opened Models
  import Seqs
  import opened ProductUtils

  /** updateDiscount's `[field]: value`: which field of the tier is set, and to what. */
  datatype DiscountEdit =
    | SetQuantity(quantity: int)
    | SetRate(rate: real)
    | SetOther   // any other field name adds a key that no reader of the tier uses

  /** One tier with the edit applied. */
  function EditDiscount(d: Discount, edit: DiscountEdit): (r: Discount)
    ensures edit.SetQuantity? ==> r == Discount(edit.quantity, d.rate)
    ensures edit.SetRate? ==> r == Discount(d.quantity, edit.rate)
    ensures edit.SetOther? ==> r == d
  {
    match edit
    case SetQuantity(q) => d.(quantity := q)
    case SetRate(v) => d.(rate := v)
    case SetOther => d
  }

  /** The `map` of updateDiscount: tier `index` gets the edit, every other tier stays. */
  function UpdateDiscountAt(discounts: seq<Discount>, index: int, edit: DiscountEdit): (r: seq<Discount>)
    ensures |r| == |discounts|
    ensures forall i :: 0 <= i < |discounts| && i != index ==> r[i] == discounts[i]
    ensures 0 <= index < |discounts| ==> r[index] == EditDiscount(discounts[index], edit)
  {
    seq(|discounts|, i requires 0 <= i < |discounts| =>
      if i == index then EditDiscount(discounts[i], edit) else discounts[i])
  }

  /** An index outside the list changes nothing. */
  lemma UpdateDiscountOutOfRange(discounts: seq<Discount>, index: int, edit: DiscountEdit)
    requires !(0 <= index < |discounts|)
    ensures UpdateDiscountAt(discounts, index, edit) == discounts
  {
  }

  /** The tier addDiscount appends: quantity 0, rate 0. */
  const NewDiscount: Discount := Discount(0, 0.0)

  /** The hook's state. */
  class ProductStore {
    var products: seq<Product>
    var editingProduct: Option<string>
    var showProductForm: bool
    var productForm: ProductForm

    /** The list restored from storage (parsing is not modelled); nothing edited, the form empty and hidden. */
    constructor (saved: seq<Product>)
      ensures products == saved && editingProduct == None && !showProductForm && productForm == EmptyProductForm
    {
      products := saved;
      editingProduct := None;
      showProductForm := false;
      productForm := EmptyProductForm;
    }

    /** addProduct: append the product under an id made from the clock; hide and empty the form. */
    method AddProduct(newProduct: ProductData, now: nat)
      modifies this
      ensures products == AddProductToList(old(products), CreateProduct(newProduct, now))
      ensures |products| == |old(products)| + 1 && products[|products| - 1].id == GenerateProductId(now)
      ensures editingProduct == old(editingProduct) && !showProductForm && productForm == EmptyProductForm
    {
      var product := CreateProduct(newProduct, now);
      products := products + [product];
      showProductForm := false;
      productForm := EmptyProductForm;
    }

    /** updateProduct: merge the updates into the products with the id; stop editing; hide and empty the form. */
    method UpdateProduct(productId: string, updates: ProductPatch)
      modifies this
      ensures products == UpdateProductInList(old(products), productId, updates)
      ensures editingProduct == None && !showProductForm && productForm == EmptyProductForm
    {
      products := UpdateProductInList(products, productId, updates);
      editingProduct := None;
      showProductForm := false;
      productForm := EmptyProductForm;
    }

    /** deleteProduct: drop the products with the id; the form is untouched. */
    method DeleteProduct(productId: string)
      modifies this
      ensures products == RemoveProductFromList(old(products), productId)
      ensures editingProduct == old(editingProduct) && showProductForm == old(showProductForm)
      ensures productForm == old(productForm)
    {
      products := RemoveProductFromList(products, productId);
    }

    /** startEditProduct: edit this product, load its fields into the form, and show the form. */
    method StartEditProduct(product: Product)
      modifies this
      ensures editingProduct == Some(product.id) && productForm == EditFormFor(product) && showProductForm
      ensures products == old(products)
    {
      editingProduct := Some(product.id);
      productForm := ProductForm(product.name, product.price, product.stock,
                                 product.description.GetOr(""), product.discounts);
      showProductForm := true;
    }

    /** addDiscount: one more tier, of quantity 0 and rate 0, at the end of the draft's tiers. */
    method AddDiscount()
      modifies this
      ensures productForm == old(productForm).(discounts := old(productForm).discounts + [NewDiscount])
      ensures products == old(products) && editingProduct == old(editingProduct)
      ensures showProductForm == old(showProductForm)
    {
      productForm := productForm.(discounts := productForm.discounts + [NewDiscount]);
    }

    /** removeDiscount: the draft loses tier `index`, and nothing when there is no such tier. */
    method RemoveDiscount(index: int)
      modifies this
      ensures 0 <= index < |old(productForm).discounts| ==>
        productForm == old(productForm).(discounts := old(productForm).discounts[..index] + old(productForm).discounts[index + 1..])
      ensures !(0 <= index < |old(productForm).discounts|) ==> productForm == old(productForm)
      ensures products == old(products) && editingProduct == old(editingProduct)
      ensures showProductForm == old(showProductForm)
    {
      Seqs.FilterOutIndexSlices(productForm.discounts, index);
      productForm := productForm.(discounts := Seqs.FilterOutIndex(productForm.discounts, index));
    }

    /** updateDiscount: only tier `index` of the draft changes, in the one field the edit names. */
    method UpdateDiscount(index: int, edit: DiscountEdit)
      modifies this
      ensures productForm == old(productForm).(discounts := UpdateDiscountAt(old(productForm).discounts, index, edit))
      ensures products == old(products) && editingProduct == old(editingProduct)
      ensures showProductForm == old(showProductForm)
    {
      productForm := productForm.(discounts := UpdateDiscountAt(productForm.discounts, index, edit));
    }

    /** resetProductForm: empty the form, stop editing, hide the form. */
    method ResetProductForm()
      modifies this
      ensures productForm == EmptyProductForm && editingProduct == None && !showProductForm
      ensures products == old(products)
    {
      productForm := EmptyProductForm;
      editingProduct := None;
      showProductForm := false;
    }
  }
}
