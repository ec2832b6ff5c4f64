/**
 * src/basic/domain/product/utils/productUtils.ts: building a product and
 * the list operations the product stores are made of, plus the admin form
 * the stores edit products through.
 */
module ProductUtils {
  import opened Wrappers
  import opened Models
  import Seqs
  import Text

  /** `Omit<ProductWithUI, "id">`: everything a product has except its id. */
  datatype ProductData = ProductData(
    name: string,
    price: real,
    stock: int,
    description: Option<string>,
    discounts: seq<Discount>)

  /** `Partial<ProductWithUI>`: the fields an update sets; an absent field keeps its old value. */
  datatype ProductPatch = ProductPatch(
    id: Option<string>,
    name: Option<string>,
    price: Option<real>,
    stock: Option<int>,
    description: Option<string>,
    discounts: Option<seq<Discount>>)

  /** The fields of a product other than its id. */
  function DataOf(p: Product): ProductData
  {
    ProductData(p.name, p.price, p.stock, p.description, p.discounts)
  }

  /** The product id generateProductId makes from the clock reading `now`. */
  function GenerateProductId(now: nat): (id: string)
    ensures id != "" && forall i :: 0 <= i < |id| ==> '0' <= id[i] <= '9'
    ensures Text.DecimalValue(id) == now
  {
    Text.DecimalRoundTrip(now);
    Text.DecimalString(now)
  }

  /** createProduct: the data under a new id made from the clock. */
  function CreateProduct(productData: ProductData, now: nat): (p: Product)
    ensures p.id == GenerateProductId(now)
    ensures DataOf(p) == productData
  {
    Product(GenerateProductId(now), productData.name, productData.price, productData.stock,
            productData.description, productData.discounts)
  }

  /** A product is rebuilt exactly from its data and the clock reading its id came from. */
  lemma CreateProductRoundTrip(p: Product, now: nat)
    requires p.id == GenerateProductId(now)
    ensures CreateProduct(DataOf(p), now) == p
  {
  }

  /** addProductToList: the product goes at the end and the others stay as they were. */
  function AddProductToList(products: seq<Product>, product: Product): (r: seq<Product>)
    ensures |r| == |products| + 1
    ensures r[..|products|] == products && r[|products|] == product
  {
    products + [product]
  }

  /** `{ ...product, ...updates }`: every field the patch sets replaces the product's. */
  function Merge(p: Product, updates: ProductPatch): (r: Product)
    ensures r.id == updates.id.GetOr(p.id) && r.name == updates.name.GetOr(p.name)
    ensures r.price == updates.price.GetOr(p.price) && r.stock == updates.stock.GetOr(p.stock)
    ensures r.description == (if updates.description.Some? then updates.description else p.description)
    ensures r.discounts == updates.discounts.GetOr(p.discounts)
  {
    Product(
      updates.id.GetOr(p.id),
      updates.name.GetOr(p.name),
      updates.price.GetOr(p.price),
      updates.stock.GetOr(p.stock),
      if updates.description.Some? then updates.description else p.description,
      updates.discounts.GetOr(p.discounts))
  }

  /** Merging the same patch twice is merging it once. */
  lemma MergeIdempotent(p: Product, updates: ProductPatch)
    ensures Merge(Merge(p, updates), updates) == Merge(p, updates)
  {
  }

  /** The empty patch changes nothing. */
  lemma MergeNothing(p: Product)
    ensures Merge(p, ProductPatch(None, None, None, None, None, None)) == p
  {
  }

  /** updateProductInList: the products with the id get the patch merged in; the rest are untouched. */
  function UpdateProductInList(products: seq<Product>, productId: string, updates: ProductPatch): (r: seq<Product>)
    ensures |r| == |products|
    ensures forall i :: 0 <= i < |products| && products[i].id != productId ==> r[i] == products[i]
    ensures forall i :: 0 <= i < |products| && products[i].id == productId ==> r[i] == Merge(products[i], updates)
  {
    seq(|products|, i requires 0 <= i < |products| =>
      if products[i].id == productId then Merge(products[i], updates) else products[i])
  }

  /** Updating an id no product has leaves the list as it is. */
  lemma UpdateAbsentIsIdentity(products: seq<Product>, productId: string, updates: ProductPatch)
    requires forall i :: 0 <= i < |products| ==> products[i].id != productId
    ensures UpdateProductInList(products, productId, updates) == products
  {
  }

  /** Applying the same update twice is applying it once. */
  lemma UpdateIdempotent(products: seq<Product>, productId: string, updates: ProductPatch)
    ensures var once := UpdateProductInList(products, productId, updates);
      UpdateProductInList(once, productId, updates) == once
  {
    var once := UpdateProductInList(products, productId, updates);
    var twice := UpdateProductInList(once, productId, updates);
    forall i | 0 <= i < |products| ensures twice[i] == once[i] {
      if products[i].id == productId {
        MergeIdempotent(products[i], updates);
      }
    }
  }

  /** removeProductFromList: drop every product with the id. */
  function RemoveProductFromList(products: seq<Product>, productId: string): (r: seq<Product>)
    ensures forall i :: 0 <= i < |r| ==> r[i] in products && r[i].id != productId
    ensures forall i :: 0 <= i < |products| && products[i].id != productId ==> products[i] in r
    ensures forall x :: multiset(r)[x] == if x.id != productId then multiset(products)[x] else 0
  {
    Seqs.Filter(products, (p: Product) => p.id != productId)
  }

  /** Removing keeps the other products in order, and changes nothing when no product has the id. */
  lemma RemoveKeepsOrder(products: seq<Product>, productId: string)
    ensures Seqs.IsSubsequence(RemoveProductFromList(products, productId), products)
    ensures (forall i :: 0 <= i < |products| ==> products[i].id != productId) ==>
      RemoveProductFromList(products, productId) == products
  {
    var p := (p: Product) => p.id != productId;
    Seqs.FilterIsSubsequence(products, p);
    if forall i :: 0 <= i < |products| ==> products[i].id != productId {
      Seqs.FilterKeepsAll(products, p);
    }
  }

  /** The admin product form; its description is always a string. */
  datatype ProductForm = ProductForm(
    name: string,
    price: real,
    stock: int,
    description: string,
    discounts: seq<Discount>)

  /** The empty form every store starts with and resets to. */
  const EmptyProductForm: ProductForm := ProductForm("", 0.0, 0, "", [])

  /** startEditProduct's form for `p`: its fields, with a missing description shown as "". */
  function EditFormFor(p: Product): (f: ProductForm)
    ensures f.name == p.name && f.price == p.price && f.stock == p.stock && f.discounts == p.discounts
    ensures f.description == p.description.GetOr("")
  {
    ProductForm(p.name, p.price, p.stock, p.description.GetOr(""), p.discounts)
  }

  /** The form as the data of a new product. */
  function FormData(form: ProductForm): ProductData
  {
    ProductData(form.name, form.price, form.stock, Some(form.description), form.discounts)
  }

  /** The form as an update: it sets every field but the id. */
  function FormPatch(form: ProductForm): ProductPatch
  {
    ProductPatch(None, Some(form.name), Some(form.price), Some(form.stock), Some(form.description), Some(form.discounts))
  }

  /** Merging the form keeps the product's id and takes every other field from the form. */
  lemma MergeFormKeepsId(p: Product, form: ProductForm)
    ensures Merge(p, FormPatch(form)) == Product(p.id, form.name, form.price, form.stock, Some(form.description), form.discounts)
  {
  }

  /** Saving an unchanged edit form gives the product back, except that a missing description becomes "". */
  lemma EditFormRoundTrip(p: Product)
    ensures Merge(p, FormPatch(EditFormFor(p))) == p.(description := Some(p.description.GetOr("")))
    ensures p.description.Some? ==> Merge(p, FormPatch(EditFormFor(p))) == p
  {
  }
}
