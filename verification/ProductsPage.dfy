/**
 * The admin products page: the search filter, the stock statistics and the
 * handlers that open the dialog and save what it returns.
 */
module ProductsPage {
  import opened Wrappers
  import opened Lists
  import opened Text
  import opened Catalog
  import opened ProductModal
  import ProductCard

  /** The name or the category contains the search term, ignoring letter case. */
  predicate MatchesTerm(p: Product, searchTerm: string) {
    Contains(Lower(p.name), Lower(searchTerm)) || Contains(Lower(p.category), Lower(searchTerm))
  }

  function TermFilter(searchTerm: string): Product -> bool {
    (p: Product) => MatchesTerm(p, searchTerm)
  }

  /** `filteredProducts` */
  function AdminFilteredProducts(products: seq<Product>, searchTerm: string): (r: seq<Product>)
    ensures forall p :: p in r ==> p in products && MatchesTerm(p, searchTerm)
  {
    Filter(products, TermFilter(searchTerm))
  }

  /** The filter keeps every matching product in its original order and drops the rest. */
  lemma AdminFilterKeepsOrder(products: seq<Product>, searchTerm: string)
    ensures IsSubsequence(AdminFilteredProducts(products, searchTerm), products)
    ensures forall p :: p in products ==>
              multiset(AdminFilteredProducts(products, searchTerm))[p]
              == if MatchesTerm(p, searchTerm) then multiset(products)[p] else 0
  {
    FilterIsSubsequence(products, TermFilter(searchTerm));
    FilterMultiset(products, TermFilter(searchTerm));
  }

  /** An empty search lists every product. */
  lemma EmptyTermListsAll(products: seq<Product>)
    ensures AdminFilteredProducts(products, "") == products
  {
    forall p: Product ensures MatchesTerm(p, "") {
      assert Contains(Lower(p.name), "");
    }
    FilterKeepsAll(products, TermFilter(""));
  }

  // ---------------------------------------------------------------------
  // Statistics

  function IsActive(p: Product): bool { p.status == "active" }

  function IsOutOfStock(p: Product): bool { p.stock == 0 }

  function IsLowStock(p: Product): bool { p.stock < 10 && p.stock > 0 }

  /** The four figures at the top of the page. */
  datatype Stats = Stats(total: nat, active: nat, outOfStock: nat, lowStock: nat)

  function ProductStats(products: seq<Product>): (s: Stats)
    ensures s.total == |products|
    ensures s.active == Count(products, IsActive)
    ensures s.outOfStock == Count(products, IsOutOfStock) && s.lowStock == Count(products, IsLowStock)
    ensures s.active <= s.total && s.outOfStock <= s.total && s.lowStock <= s.total
    ensures s.outOfStock + s.lowStock <= s.total
  {
    CountDisjoint(products, IsOutOfStock, IsLowStock);
    Stats(|products|, Count(products, IsActive), Count(products, IsOutOfStock), Count(products, IsLowStock))
  }

  /** One indicator per figure: 1 when the product falls under it, else 0. */
  function Indicator(b: bool): nat { if b then 1 else 0 }

  /**
   * The figures start at zero, and one more product raises the total by one
   * and each other figure by one exactly when the product falls under it.
   */
  lemma StatsOfAppend(products: seq<Product>, p: Product)
    ensures ProductStats([]) == Stats(0, 0, 0, 0)
    ensures ProductStats(products + [p])
         == Stats(|products| + 1,
                  ProductStats(products).active + Indicator(IsActive(p)),
                  ProductStats(products).outOfStock + Indicator(IsOutOfStock(p)),
                  ProductStats(products).lowStock + Indicator(IsLowStock(p)))
  {
    CountAppendOne(products, p, IsActive);
    CountAppendOne(products, p, IsOutOfStock);
    CountAppendOne(products, p, IsLowStock);
  }

  /**
   * For a product with non-negative stock, the card's status text and the
   * statistics put it in the same bucket.
   */
  lemma CardAgreesWithStats(p: Product)
    requires p.stock >= 0
    ensures ProductCard.StatusText(p.status, p.stock) == "Out of Stock" <==> IsOutOfStock(p)
    ensures ProductCard.StatusText(p.status, p.stock) == "Low Stock" <==> IsLowStock(p)
  {
  }

  /**
   * A product with negative stock reads "Low Stock" on its card but counts
   * as neither out of stock nor low stock in the statistics.
   */
  lemma NegativeStockUncounted(p: Product)
    requires p.stock < 0
    ensures ProductCard.StatusText(p.status, p.stock) == "Low Stock"
    ensures !IsOutOfStock(p) && !IsLowStock(p)
  {
  }

  // ---------------------------------------------------------------------
  // Saving from the dialog

  /** The dialog's record as an update: it carries exactly the fields it has. */
  function SubmissionPatch(s: Submission): ProductPatch {
    ProductPatch(None, Some(s.name), Some(s.price), None, Some(s.stock), Some(s.category), Some(s.image),
                 Some(Some(s.images)), None, None, None, None, None, Some(Some(s.description)),
                 None, None, None, None, None, None)
  }

  /** The dialog's record as new-product data (id, status and stock flag are set by the add). */
  function SubmissionProduct(s: Submission): Product {
    Product(0, s.name, s.price, None, s.stock, s.category, s.image, Some(s.images), "", None, None, None,
            None, Some(s.description), None, None, None, None, None, None)
  }

  /** An edit keeps the product's id, status, rating and flags, and takes the dialog's values for the rest. */
  lemma EditKeepsUnsubmittedFields(p: Product, s: Submission)
    ensures var q := UpdatedProduct(p, SubmissionPatch(s));
            && q.id == p.id && q.status == p.status && q.rating == p.rating && q.reviews == p.reviews
            && q.isNew == p.isNew && q.isOnSale == p.isOnSale && q.isFeatured == p.isFeatured
            && q.name == s.name && q.price == s.price && q.stock == s.stock && q.category == s.category
            && q.image == s.image && q.images == Some(s.images) && q.description == Some(s.description)
            && q.inStock == Some(s.stock > 0)
  {
  }

  /** A product added from the dialog is active, rated 4.5 with no reviews, and flagged by its stock. */
  lemma AddFromDialog(s: Submission, id: int)
    ensures var q := NewProduct(SubmissionProduct(s), id);
            && q.id == id && q.status == "active" && q.rating == Some(4.5) && q.reviews == Some(0)
            && q.inStock == Some(s.stock > 0) && q.name == s.name && q.images == Some(s.images)
  {
  }

  /**
   * The products page. The dialog (`modal`) is always mounted and is handed
   * `editingProduct` on every render; `Valid` says it has loaded that product.
   */
  class ProductsPage {
    const catalog: ProductCatalog
    const modal: ProductFormState
    var isModalOpen: bool
    var editingProduct: Option<Product>

    ghost predicate Valid()
      reads this, modal
    {
      modal.shownProduct == editingProduct
    }

    constructor (catalog: ProductCatalog)
      ensures this.catalog == catalog && fresh(modal) && !isModalOpen && editingProduct == None
      ensures modal.form == EmptyForm && Valid()
    {
      this.catalog := catalog;
      modal := new ProductFormState();
      isModalOpen := false;
      editingProduct := None;
    }

    /**
     * `handleAddProduct`: opens the dialog with no product. The dialog is
     * emptied only when it last showed a product; reopened after adding,
     * it still holds what was typed for the previous new product.
     */
    method HandleAddProduct()
      requires Valid()
      modifies this, modal
      ensures editingProduct == None && isModalOpen && Valid()
      ensures old(editingProduct).Some? ==> modal.form == EmptyForm
      ensures old(editingProduct).None? ==> modal.form == old(modal.form)
    {
      editingProduct := None;
      isModalOpen := true;
      modal.ReceiveProduct(editingProduct, "", "");
    }

    /**
     * `handleEditProduct` on `p`, whose price and stock print as `priceText`
     * and `stockText`: opens the dialog on that product. The form is loaded
     * from `p` unless `p` is the product already loaded, in which case it
     * keeps the edits left from the last time the dialog was closed.
     */
    method HandleEditProduct(p: Product, priceText: string, stockText: string)
      requires Valid()
      modifies this, modal
      ensures editingProduct == Some(p) && isModalOpen && Valid()
      ensures old(editingProduct) != Some(p) ==> modal.form == FormFor(Some(p), priceText, stockText)
      ensures old(editingProduct) == Some(p) ==> modal.form == old(modal.form)
    {
      editingProduct := Some(p);
      isModalOpen := true;
      modal.ReceiveProduct(editingProduct, priceText, stockText);
    }

    /** The dialog's close button. */
    method CloseModal()
      requires Valid()
      modifies this
      ensures !isModalOpen && editingProduct == old(editingProduct) && Valid()
    {
      isModalOpen := false;
    }

    /** `handleDeleteProduct` */
    method HandleDeleteProduct(id: int)
      modifies catalog
      ensures catalog.products == DeleteProducts(old(catalog.products), id)
    {
      catalog.DeleteProduct(id);
    }

    /**
     * `handleSaveProduct` with the dialog's record, at clock reading `now`:
     * updates the product being edited, or adds a new one; closes the
     * dialog either way. The edited product stays selected.
     */
    method HandleSaveProduct(s: Submission, now: int)
      modifies this, catalog
      ensures old(editingProduct).Some? ==>
                catalog.products == UpdateProducts(old(catalog.products), old(editingProduct).value.id, SubmissionPatch(s))
      ensures old(editingProduct).None? ==>
                catalog.products == old(catalog.products) + [NewProduct(SubmissionProduct(s), now)]
      ensures !isModalOpen && editingProduct == old(editingProduct)
      ensures old(Valid()) ==> Valid()
    {
      if editingProduct.Some? {
        catalog.UpdateProduct(editingProduct.value.id, SubmissionPatch(s));
      } else {
        catalog.AddProduct(SubmissionProduct(s), now);
      }
      isModalOpen := false;
    }
  }
}
