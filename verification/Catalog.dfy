/**
 * The product catalog service: the product list with add, update, delete
 * and lookup by id, keeping `inStock` derived from `stock`.
 */
module Catalog {
  import opened Wrappers
  import opened Lists

  /** A product; the optional fields may be absent. */
  datatype Product = Product(
    id: int,
    name: string,
    price: real,
    originalPrice: Option<real>,
    stock: int,
    category: string,
    image: string,
    images: Option<seq<string>>,
    status: string,
    rating: Option<real>,
    reviews: Option<int>,
    badge: Option<string>,
    inStock: Option<bool>,
    description: Option<string>,
    sizes: Option<seq<string>>,
    colors: Option<seq<string>>,
    weight: Option<real>,
    isNew: Option<bool>,
    isOnSale: Option<bool>,
    isFeatured: Option<bool>)

  /**
   * A partial product: the fields an update carries. For an optional field,
   * `Some(None)` is an update that carries it as `undefined`.
   */
  datatype ProductPatch = ProductPatch(
    id: Option<int>,
    name: Option<string>,
    price: Option<real>,
    originalPrice: Option<Option<real>>,
    stock: Option<int>,
    category: Option<string>,
    image: Option<string>,
    images: Option<Option<seq<string>>>,
    status: Option<string>,
    rating: Option<Option<real>>,
    reviews: Option<Option<int>>,
    badge: Option<Option<string>>,
    inStock: Option<Option<bool>>,
    description: Option<Option<string>>,
    sizes: Option<Option<seq<string>>>,
    colors: Option<Option<seq<string>>>,
    weight: Option<Option<real>>,
    isNew: Option<Option<bool>>,
    isOnSale: Option<Option<bool>>,
    isFeatured: Option<Option<bool>>)

  /** `inStock` agrees with `stock`. */
  predicate StockConsistent(p: Product) {
    p.inStock == Some(p.stock > 0)
  }

  /**
   * The product `addProduct` stores for `data` with identifier `id` (the
   * clock reading): active, in stock iff it has stock, rated 4.5 with no
   * reviews unless the data says otherwise; every other field from `data`.
   */
  function NewProduct(data: Product, id: int): (p: Product)
    ensures p.id == id && p.status == "active" && StockConsistent(p)
    ensures p.rating == Some(data.rating.GetOr(4.5)) && p.reviews == Some(data.reviews.GetOr(0))
    ensures p.(id := data.id, status := data.status, inStock := data.inStock,
               rating := data.rating, reviews := data.reviews) == data
  {
    data.(id := id, status := "active", inStock := Some(data.stock > 0),
          rating := Some(data.rating.GetOr(4.5)), reviews := Some(data.reviews.GetOr(0)))
  }

  /** `{ ...p, ...patch }`: each field the patch carries replaces the old one. */
  function MergeProduct(p: Product, patch: ProductPatch): (r: Product)
    ensures Spread(patch.id, p.id, r.id)
    ensures Spread(patch.name, p.name, r.name)
    ensures Spread(patch.price, p.price, r.price)
    ensures Spread(patch.originalPrice, p.originalPrice, r.originalPrice)
    ensures Spread(patch.stock, p.stock, r.stock)
    ensures Spread(patch.category, p.category, r.category)
    ensures Spread(patch.image, p.image, r.image)
    ensures Spread(patch.images, p.images, r.images)
    ensures Spread(patch.status, p.status, r.status)
    ensures Spread(patch.rating, p.rating, r.rating)
    ensures Spread(patch.reviews, p.reviews, r.reviews)
    ensures Spread(patch.badge, p.badge, r.badge)
    ensures Spread(patch.inStock, p.inStock, r.inStock)
    ensures Spread(patch.description, p.description, r.description)
    ensures Spread(patch.sizes, p.sizes, r.sizes)
    ensures Spread(patch.colors, p.colors, r.colors)
    ensures Spread(patch.weight, p.weight, r.weight)
    ensures Spread(patch.isNew, p.isNew, r.isNew)
    ensures Spread(patch.isOnSale, p.isOnSale, r.isOnSale)
    ensures Spread(patch.isFeatured, p.isFeatured, r.isFeatured)
  {
    Product(
      patch.id.GetOr(p.id),
      patch.name.GetOr(p.name),
      patch.price.GetOr(p.price),
      patch.originalPrice.GetOr(p.originalPrice),
      patch.stock.GetOr(p.stock),
      patch.category.GetOr(p.category),
      patch.image.GetOr(p.image),
      patch.images.GetOr(p.images),
      patch.status.GetOr(p.status),
      patch.rating.GetOr(p.rating),
      patch.reviews.GetOr(p.reviews),
      patch.badge.GetOr(p.badge),
      patch.inStock.GetOr(p.inStock),
      patch.description.GetOr(p.description),
      patch.sizes.GetOr(p.sizes),
      patch.colors.GetOr(p.colors),
      patch.weight.GetOr(p.weight),
      patch.isNew.GetOr(p.isNew),
      patch.isOnSale.GetOr(p.isOnSale),
      patch.isFeatured.GetOr(p.isFeatured))
  }

  /**
   * One product after an update: the patch merged in, then `inStock`
   * recomputed from the patch's stock if it has one, else the old stock.
   */
  function UpdatedProduct(p: Product, patch: ProductPatch): (r: Product)
    ensures StockConsistent(r)
    ensures r.stock == patch.stock.GetOr(p.stock)
    ensures r.(inStock := None) == MergeProduct(p, patch).(inStock := None)
  {
    MergeProduct(p, patch).(inStock := Some(patch.stock.GetOr(p.stock) > 0))
  }

  function IdIs(id: int): Product -> bool {
    (p: Product) => p.id == id
  }

  function IdIsNot(id: int): Product -> bool {
    (p: Product) => p.id != id
  }

  function Updater(patch: ProductPatch): Product -> Product {
    (p: Product) => UpdatedProduct(p, patch)
  }

  /** `updateProduct`'s list: every product with the id updated, the rest untouched, in place. */
  function UpdateProducts(products: seq<Product>, id: int, patch: ProductPatch): (r: seq<Product>)
    ensures |r| == |products|
    ensures forall i :: 0 <= i < |products| ==>
              r[i] == if products[i].id == id then UpdatedProduct(products[i], patch) else products[i]
  {
    MapWhere(products, IdIs(id), Updater(patch))
  }

  /** `deleteProduct`'s list: every product with the id dropped. */
  function DeleteProducts(products: seq<Product>, id: int): (r: seq<Product>)
    ensures forall p :: p in r ==> p in products && p.id != id
  {
    Filter(products, IdIsNot(id))
  }

  /** Deleting keeps every other product, as often as it occurred, in its original order. */
  lemma DeleteKeepsOtherProducts(products: seq<Product>, id: int)
    ensures forall p :: p in products && p.id != id ==> multiset(DeleteProducts(products, id))[p] == multiset(products)[p]
    ensures IsSubsequence(DeleteProducts(products, id), products)
  {
    FilterMultiset(products, IdIsNot(id));
    FilterIsSubsequence(products, IdIsNot(id));
  }

  /** `getProductById`: the first product with the id, if any. */
  function FindProduct(products: seq<Product>, id: int): (r: Option<Product>)
    ensures r.Some? ==> r.value in products && r.value.id == id
    ensures r.None? <==> forall i :: 0 <= i < |products| ==> products[i].id != id
  {
    Find(products, IdIs(id))
  }

  /** Of several products with the same id, the lookup returns the first. */
  lemma FindProductReturnsFirst(products: seq<Product>, id: int, i: nat)
    requires i < |products| && products[i].id == id
    requires forall j :: 0 <= j < i ==> products[j].id != id
    ensures FindProduct(products, id) == Some(products[i])
  {
    FindIsFirst(products, IdIs(id), i);
  }

  /** A product just added under a fresh id is found by that id. */
  lemma AddedProductIsFound(products: seq<Product>, data: Product, id: int)
    requires forall i :: 0 <= i < |products| ==> products[i].id != id
    ensures FindProduct(products + [NewProduct(data, id)], id) == Some(NewProduct(data, id))
  {
    FindProductReturnsFirst(products + [NewProduct(data, id)], id, |products|);
  }

  /** After a delete, the id is no longer found. */
  lemma DeletedProductIsGone(products: seq<Product>, id: int)
    ensures FindProduct(DeleteProducts(products, id), id).None?
  {
  }

  /** Every product's `inStock` agrees with its stock. */
  predicate AllStockConsistent(products: seq<Product>) {
    forall i :: 0 <= i < |products| ==> StockConsistent(products[i])
  }

  /** Adding, updating and deleting all keep `inStock` in step with `stock`. */
  lemma OperationsKeepStockConsistent(products: seq<Product>, data: Product, id: int, patch: ProductPatch)
    requires AllStockConsistent(products)
    ensures AllStockConsistent(products + [NewProduct(data, id)])
    ensures AllStockConsistent(UpdateProducts(products, id, patch))
    ensures AllStockConsistent(DeleteProducts(products, id))
  {
    var d := DeleteProducts(products, id);
    forall i | 0 <= i < |d| ensures StockConsistent(d[i]) {
      assert d[i] in d;
    }
  }

  /** The catalog held by the product service. */
  class ProductCatalog {
    var products: seq<Product>

    /** Start-up: the saved list when there is one, else `initial`. */
    constructor (saved: Option<seq<Product>>, initial: seq<Product>)
      ensures products == saved.GetOr(initial)
    {
      products := saved.GetOr(initial);
    }

    /** `addProduct` at clock reading `id`: appends exactly one product at the end. */
    method AddProduct(data: Product, id: int)
      modifies this
      ensures products == old(products) + [NewProduct(data, id)]
    {
      products := products + [NewProduct(data, id)];
    }

    /** `updateProduct` */
    method UpdateProduct(id: int, patch: ProductPatch)
      modifies this
      ensures products == UpdateProducts(old(products), id, patch)
    {
      products := UpdateProducts(products, id, patch);
    }

    /** `deleteProduct` */
    method DeleteProduct(id: int)
      modifies this
      ensures products == DeleteProducts(old(products), id)
    {
      products := DeleteProducts(products, id);
    }

    /** `getProductById` */
    function GetProductById(id: int): Option<Product>
      reads this
    {
      FindProduct(products, id)
    }
  }
}
