/**
 * The filtering part of the hw4 product list page. It is the hw5 filter on
 * the hw4 model: the stock field is `quantity` and a product's `category`
 * may be missing. The `currentPage` state is `Pagination.PageCursor`.
 */
module ListPageHw4 {
  import opened Common
  import opened Seqs
  import opened Criteria
  import opened Pagination
  import opened StoreHw4

  /** The `filter` callback, on the `quantity` field. */
  function Keeps(f: FilterValues): Product -> bool
  {
    (p: Product) => Matches(f, p.name, p.quantity, p.category)
  }

  /** `filteredProducts`. */
  function Filtered(products: seq<Product>, f: FilterValues): (r: seq<Product>)
    ensures |r| <= |products|
    ensures forall i :: 0 <= i < |r| ==> r[i] in products && Keeps(f)(r[i])
    ensures forall i :: 0 <= i < |products| && Keeps(f)(products[i]) ==> products[i] in r
  {
    Filter(products, Keeps(f))
  }

  /** Without criteria the page lists every product, in store order. */
  lemma NoFiltersListEverything(products: seq<Product>)
    ensures Filtered(products, NoFilters) == products
  {
    FilterKeepsAll(products, Keeps(NoFilters));
  }

  /**
   * A product is listed exactly when it is in the store and passes every
   * active criterion; the flag keeps exactly the products with `quantity > 0`,
   * and a product without a category never passes a category criterion.
   */
  lemma FilteredExactly(products: seq<Product>, f: FilterValues, p: Product)
    ensures p in Filtered(products, f) <==>
      && p in products
      && (f.productName == "" || Text.NameMatches(f.productName, p.name))
      && (!f.nonZero || p.quantity > 0)
      && (f.category == "" || p.category == Some(f.category))
    ensures IsSubsequence(Filtered(products, f), products)
  {
    FilterIsSubsequence(products, Keeps(f));
    if p in products && Keeps(f)(p) {
      var i :| 0 <= i < |products| && products[i] == p;
    }
  }

  /** `totalPages = Math.max(1, Math.ceil(filteredProducts.length / 6))`. */
  function ListTotalPages(products: seq<Product>, f: FilterValues): (r: nat)
    ensures r >= 1
    ensures r * ItemsPerPage >= |Filtered(products, f)|
    ensures Filtered(products, f) == [] ==> r == 1
    ensures Filtered(products, f) != [] ==> (r - 1) * ItemsPerPage < |Filtered(products, f)|
  {
    TotalPages(|Filtered(products, f)|, ItemsPerPage)
  }

  /**
   * `currentProducts`: the slice from `indexOfFirstProduct` to
   * `indexOfLastProduct`; it is the same page as the hw5 slice.
   */
  function CurrentProducts(filtered: seq<Product>, currentPage: int): (r: seq<Product>)
    ensures r == PageItems(filtered, currentPage, ItemsPerPage)
    ensures |r| <= ItemsPerPage
  {
    var indexOfFirstProduct := (currentPage - 1) * ItemsPerPage;
    var indexOfLastProduct := indexOfFirstProduct + ItemsPerPage;
    Slice(filtered, indexOfFirstProduct, indexOfLastProduct)
  }

  /** `handleDelete`: dispatches `removeProduct` with the card's numeric id. */
  method HandleDelete(store: ProductsSlice, id: int)
    modifies store
    ensures store.products == Filter(old(store.products), ProductIdIsNot(id))
  {
    store.RemoveProduct(id);
  }
}
