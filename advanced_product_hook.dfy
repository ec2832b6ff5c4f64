/**
 * src/advanced/domain/product/hooks/useProducts.ts: the product store of
 * the advanced app. Its list changes go through the productUtils helpers,
 * and the form submit chooses between updating the edited product and
 * adding a new one.
 */
module AdvancedProductHook {
  import opened Wrappers
  import opened Models
  import opened ProductUtils

  /** The edit session names a product to update: an id that is set, non-empty and not "new". */
  predicate EditsExisting(editingProduct: Option<string>)
  {
    editingProduct.Some? && editingProduct.value != "" && editingProduct.value != "new"
  }

  /** The hook's state (its atoms and stored list). */
  class ProductStore {
    var products: seq<Product>
    var editingProduct: Option<string>
    var showProductForm: bool
    var productForm: ProductForm

    constructor (saved: seq<Product>)
      ensures products == saved && editingProduct == None && !showProductForm && productForm == EmptyProductForm
    {
      products := saved;
      editingProduct := None;
      showProductForm := false;
      productForm := EmptyProductForm;
    }

    /** addProduct: addProductToList with the product under an id from the clock; hide and empty the form. */
    method AddProduct(newProduct: ProductData, now: nat)
      modifies this
      ensures products == AddProductToList(old(products), CreateProduct(newProduct, now))
      ensures editingProduct == old(editingProduct) && !showProductForm && productForm == EmptyProductForm
    {
      var product := CreateProduct(newProduct, now);
      products := AddProductToList(products, product);
      showProductForm := false;
      productForm := EmptyProductForm;
    }

    /** updateProduct: updateProductInList; stop editing; hide and empty the form. */
    method UpdateProduct(productId: string, updates: ProductPatch)
      modifies this
      ensures products == UpdateProductInList(old(products), productId, updates)
      ensures editingProduct == None && !showProductForm && productForm == EmptyProductForm
    {
      products := UpdateProductInList(products, productId, updates);
      editingProduct := None;
      showProductForm := false;
      productForm := EmptyProductForm;
    }

    /** deleteProduct: removeProductFromList; the form is untouched. */
    method DeleteProduct(productId: string)
      modifies this
      ensures products == RemoveProductFromList(old(products), productId)
      ensures editingProduct == old(editingProduct) && showProductForm == old(showProductForm)
      ensures productForm == old(productForm)
    {
      products := RemoveProductFromList(products, productId);
    }

    /** startEditProduct: edit this product, load its fields into the form, and show the form. */
    method StartEditProduct(product: Product)
      modifies this
      ensures editingProduct == Some(product.id) && productForm == EditFormFor(product) && showProductForm
      ensures products == old(products)
    {
      editingProduct := Some(product.id);
      productForm := EditFormFor(product);
      showProductForm := true;
    }

    /**
     * handleProductSubmit: while an existing product is edited the form is
     * merged into it and nothing is added; otherwise the form becomes one new
     * product. Either way editing stops and the form is emptied and hidden.
     */
    method HandleProductSubmit(now: nat)
      modifies this
      ensures EditsExisting(old(editingProduct)) ==>
        products == UpdateProductInList(old(products), old(editingProduct).value, FormPatch(old(productForm)))
      ensures !EditsExisting(old(editingProduct)) ==>
        products == AddProductToList(old(products), CreateProduct(FormData(old(productForm)), now))
      ensures editingProduct == None && !showProductForm && productForm == EmptyProductForm
    {
      if EditsExisting(editingProduct) {
        UpdateProduct(editingProduct.value, FormPatch(productForm));
        editingProduct := None;
      } else {
        AddProduct(FormData(productForm), now);
      }
      productForm := EmptyProductForm;
      editingProduct := None;
      showProductForm := false;
    }
  }

  /** An edit submit keeps the number of products; a new-product submit adds exactly one. */
  lemma SubmitChangesCountByOne(products: seq<Product>, editingProduct: Option<string>, form: ProductForm, now: nat)
    ensures EditsExisting(editingProduct) ==>
      |UpdateProductInList(products, editingProduct.value, FormPatch(form))| == |products|
    ensures !EditsExisting(editingProduct) ==>
      var r := AddProductToList(products, CreateProduct(FormData(form), now));
      |r| == |products| + 1 && r[..|products|] == products && DataOf(r[|products|]) == FormData(form)
  {
  }
}
