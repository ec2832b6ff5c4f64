/**
 * src/basic/hooks/useProducts.ts: the older product store. Adding and
 * updating take a whole form's worth of fields and leave the form state
 * alone; only startEditProduct and resetProductForm touch it.
 */
module LegacyProductHook {
  import opened Wrappers
  import opened Models
  import opened ProductUtils

  /** `{ id, ...product }`: the form's fields under an id made from the clock. */
  function NewProduct(product: ProductForm, now: nat): (p: Product)
    ensures p == CreateProduct(FormData(product), now)
  {
    Product(GenerateProductId(now), product.name, product.price, product.stock, Some(product.description), product.discounts)
  }

  /** The `map` of updateProduct: each product with the id takes all the form's fields and keeps its id. */
  function ReplaceFields(products: seq<Product>, id: string, updatedProduct: ProductForm): (r: seq<Product>)
    ensures r == UpdateProductInList(products, id, FormPatch(updatedProduct))
  {
    seq(|products|, i requires 0 <= i < |products| =>
      if products[i].id == id
      then Product(products[i].id, updatedProduct.name, updatedProduct.price, updatedProduct.stock,
                   Some(updatedProduct.description), updatedProduct.discounts)
      else products[i])
  }

  /** The hook's state. */
  class ProductStore {
    var products: seq<Product>
    var editingProduct: Option<string>
    var showProductForm: bool
    var productForm: ProductForm

    constructor (saved: seq<Product>)
      ensures products == saved && editingProduct == None && !showProductForm && productForm == EmptyProductForm
    {
      products := saved;
      editingProduct := None;
      showProductForm := false;
      productForm := EmptyProductForm;
    }

    /** addProduct: append the product under an id from the clock; the form state is untouched. */
    method AddProduct(product: ProductForm, now: nat)
      modifies this
      ensures products == old(products) + [NewProduct(product, now)]
      ensures editingProduct == old(editingProduct) && showProductForm == old(showProductForm)
      ensures productForm == old(productForm)
    {
      products := products + [NewProduct(product, now)];
    }

    /** updateProduct: each product with the id takes the given fields and keeps its id; the form state is untouched. */
    method UpdateProduct(id: string, updatedProduct: ProductForm)
      modifies this
      ensures products == ReplaceFields(old(products), id, updatedProduct)
      ensures |products| == |old(products)|
      ensures forall i :: 0 <= i < |products| && old(products)[i].id != id ==> products[i] == old(products)[i]
      ensures forall i :: 0 <= i < |products| && old(products)[i].id == id ==>
        products[i] == Product(id, updatedProduct.name, updatedProduct.price, updatedProduct.stock,
                               Some(updatedProduct.description), updatedProduct.discounts)
      ensures editingProduct == old(editingProduct) && showProductForm == old(showProductForm)
      ensures productForm == old(productForm)
    {
      products := ReplaceFields(products, id, updatedProduct);
    }

    /** deleteProduct: drop the products with the id. */
    method DeleteProduct(id: string)
      modifies this
      ensures products == RemoveProductFromList(old(products), id)
      ensures editingProduct == old(editingProduct) && showProductForm == old(showProductForm)
      ensures productForm == old(productForm)
    {
      products := RemoveProductFromList(products, id);
    }

    /** startEditProduct: edit this product, load its fields into the form, and show the form. */
    method StartEditProduct(product: Product)
      modifies this
      ensures editingProduct == Some(product.id) && productForm == EditFormFor(product) && showProductForm
      ensures products == old(products)
    {
      editingProduct := Some(product.id);
      productForm := EditFormFor(product);
      showProductForm := true;
    }

    /** resetProductForm: empty the form, stop editing, hide the form. */
    method ResetProductForm()
      modifies this
      ensures productForm == EmptyProductForm && editingProduct == None && !showProductForm
      ensures products == old(products)
    {
      productForm := EmptyProductForm;
      editingProduct := None;
      showProductForm := false;
    }
  }
}
