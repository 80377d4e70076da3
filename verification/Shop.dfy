/**
 * The shop page's product list: the search / category / badge filter and
 * the sort the shopper picks.
 */
module Shop {
  import opened Wrappers
  import opened Lists
  import opened Text
  import opened Catalog

  /** The name contains the search text, ignoring letter case. */
  predicate MatchesSearch(p: Product, searchTerm: string) {
    Contains(Lower(p.name), Lower(searchTerm))
  }

  /** Category `all`, or the product's own category. */
  predicate MatchesCategory(p: Product, selectedCategory: string) {
    selectedCategory == "all" || p.category == selectedCategory
  }

  /** Filter `all`, or `new` / `sale` / `featured` with the matching flag set; any other filter matches nothing. */
  predicate MatchesFilter(p: Product, filterType: string) {
    || filterType == "all"
    || (filterType == "new" && p.isNew.GetOr(false))
    || (filterType == "sale" && p.isOnSale.GetOr(false))
    || (filterType == "featured" && p.isFeatured.GetOr(false))
  }

  predicate Shown(p: Product, searchTerm: string, selectedCategory: string, filterType: string) {
    MatchesSearch(p, searchTerm) && MatchesCategory(p, selectedCategory) && MatchesFilter(p, filterType)
  }

  function ShopFilter(searchTerm: string, selectedCategory: string, filterType: string): Product -> bool {
    (p: Product) => Shown(p, searchTerm, selectedCategory, filterType)
  }

  /** `filteredProducts`: the products meeting all three conditions. */
  function FilteredProducts(products: seq<Product>, searchTerm: string, selectedCategory: string,
                            filterType: string): (r: seq<Product>)
    ensures forall p :: p in r ==> p in products && Shown(p, searchTerm, selectedCategory, filterType)
  {
    Filter(products, ShopFilter(searchTerm, selectedCategory, filterType))
  }

  /**
   * The filter keeps every matching product, as often as it occurs, in its
   * original order, and drops every other one.
   */
  lemma FilteredKeepsOrder(products: seq<Product>, searchTerm: string, selectedCategory: string, filterType: string)
    ensures IsSubsequence(FilteredProducts(products, searchTerm, selectedCategory, filterType), products)
    ensures forall p :: p in products ==>
              multiset(FilteredProducts(products, searchTerm, selectedCategory, filterType))[p]
              == if Shown(p, searchTerm, selectedCategory, filterType) then multiset(products)[p] else 0
  {
    FilterIsSubsequence(products, ShopFilter(searchTerm, selectedCategory, filterType));
    FilterMultiset(products, ShopFilter(searchTerm, selectedCategory, filterType));
  }

  /** An empty search matches every name, so with no other filter the whole catalog is listed. */
  lemma EmptySearchListsEverything(products: seq<Product>)
    ensures forall p :: MatchesSearch(p, "")
    ensures FilteredProducts(products, "", "all", "all") == products
  {
    forall p: Product ensures MatchesSearch(p, "") {
      assert Contains(Lower(p.name), "");
    }
    FilterKeepsAll(products, ShopFilter("", "all", "all"));
  }

  // ---------------------------------------------------------------------
  // Sorting

  function PriceKey(p: Product): real { p.price }

  function NegatedPriceKey(p: Product): real { -p.price }

  /** Ratings are present whenever the rating sort is used. */
  function NegatedRatingKey(p: Product): real { -p.rating.GetOr(0.0) }

  function NoKey(p: Product): real { 0.0 }

  /**
   * The comparator of `sortBy` as a key: `price-low` orders by price,
   * `price-high` and `rating` by the negated price and rating, and any other
   * value compares every pair as equal.
   */
  function SortKey(sortBy: string): Product -> real {
    if sortBy == "price-low" then PriceKey
    else if sortBy == "price-high" then NegatedPriceKey
    else if sortBy == "rating" then NegatedRatingKey
    else NoKey
  }

  predicate AllRated(products: seq<Product>) {
    forall i :: 0 <= i < |products| ==> products[i].rating.Some?
  }

  /**
   * `sortedProducts`: the filtered list sorted on a copy, stably. Sorting by
   * name is not modelled, and sorting by rating needs every product rated.
   */
  function SortedProducts(filtered: seq<Product>, sortBy: string): (r: seq<Product>)
    requires sortBy != "name"
    requires sortBy == "rating" ==> AllRated(filtered)
    ensures multiset(r) == multiset(filtered)
    ensures sortBy == "price-low" ==> forall i, j :: 0 <= i < j < |r| ==> r[i].price <= r[j].price
    ensures sortBy == "price-high" ==> forall i, j :: 0 <= i < j < |r| ==> r[i].price >= r[j].price
    ensures sortBy == "rating" ==> AllRated(r) && forall i, j :: 0 <= i < j < |r| ==> r[i].rating.value >= r[j].rating.value
  {
    var r := SortByKey(filtered, SortKey(sortBy));
    assert forall i :: 0 <= i < |r| ==> r[i] in filtered by {
      forall i | 0 <= i < |r| ensures r[i] in filtered {
        assert r[i] in multiset(r);
      }
    }
    r
  }

  /** Products the chosen sort considers equal stay in their filtered order. */
  lemma SortIsStable(filtered: seq<Product>, sortBy: string, k: real)
    requires sortBy != "name"
    requires sortBy == "rating" ==> AllRated(filtered)
    ensures Filter(SortedProducts(filtered, sortBy), KeyIs(SortKey(sortBy), k))
         == Filter(filtered, KeyIs(SortKey(sortBy), k))
  {
    SortByKeyStable(filtered, SortKey(sortBy), k);
  }

  /** `featured`, and any value the comparator does not know, keeps the filtered order. */
  lemma DefaultSortKeepsOrder(filtered: seq<Product>, sortBy: string)
    requires sortBy !in {"price-low", "price-high", "rating", "name"}
    ensures SortedProducts(filtered, sortBy) == filtered
  {
    SortByConstantKeyIsIdentity(filtered, SortKey(sortBy), 0.0);
  }
}
