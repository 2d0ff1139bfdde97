/**
 * The filtering part of the hw5 product list page: which products the grid
 * lists for the sidebar's criteria. The page arithmetic and the
 * `currentPage` state are in `Pagination`.
 */
module ListPageHw5 {
  import opened Common
  import opened Seqs
  import opened Criteria
  import opened Catalog
  import opened Pagination

  /** The `filter` callback, on the `stock` field. */
  function Keeps(f: FilterValues): Product -> bool
  {
    (p: Product) => Matches(f, p.name, p.stock, Some(p.category))
  }

  /** `filteredProducts`. */
  function Filtered(products: seq<Product>, f: FilterValues): (r: seq<Product>)
    ensures |r| <= |products|
    ensures forall i :: 0 <= i < |r| ==> r[i] in products && Keeps(f)(r[i])
    ensures forall i :: 0 <= i < |products| && Keeps(f)(products[i]) ==> products[i] in r
  {
    Filter(products, Keeps(f))
  }

  /** Without criteria the page lists every product, in store order. */
  lemma NoFiltersListEverything(products: seq<Product>)
    ensures Filtered(products, NoFilters) == products
  {
    FilterKeepsAll(products, Keeps(NoFilters));
  }

  /**
   * A product is listed exactly when it is in the store and passes every
   * active criterion, and the listed products keep their store order.
   */
  lemma FilteredExactly(products: seq<Product>, f: FilterValues, p: Product)
    ensures p in Filtered(products, f) <==>
      && p in products
      && (f.productName == "" || Text.NameMatches(f.productName, p.name))
      && (!f.nonZero || p.stock > 0)
      && (f.category == "" || p.category == f.category)
    ensures IsSubsequence(Filtered(products, f), products)
  {
    FilterIsSubsequence(products, Keeps(f));
    if p in products && Keeps(f)(p) {
      var i :| 0 <= i < |products| && products[i] == p;
    }
  }

  /** `totalPages`: one page for an empty list, otherwise enough pages of six. */
  function ListTotalPages(products: seq<Product>, f: FilterValues): (r: nat)
    ensures r >= 1
    ensures r * ItemsPerPage >= |Filtered(products, f)|
    ensures Filtered(products, f) == [] ==> r == 1
    ensures Filtered(products, f) != [] ==> (r - 1) * ItemsPerPage < |Filtered(products, f)|
  {
    TotalPages(|Filtered(products, f)|, ItemsPerPage)
  }

  /** `totalPages > 1 &&`: the page controls appear exactly when more than six products pass the filters. */
  lemma ControlsShown(products: seq<Product>, f: FilterValues)
    ensures ShowControls(ListTotalPages(products, f)) <==> |Filtered(products, f)| > ItemsPerPage
  {
    ControlsShownIff(|Filtered(products, f)|, ItemsPerPage);
  }

  /** The grid's products: `filteredProducts.slice((currentPage - 1) * 6, currentPage * 6)`. */
  function Shown(products: seq<Product>, f: FilterValues, currentPage: int): (r: seq<Product>)
    ensures |r| <= ItemsPerPage
  {
    PageItems(Filtered(products, f), currentPage, ItemsPerPage)
  }

  /** The `j`-th card of page `currentPage` is filtered product `(currentPage - 1) * 6 + j`. */
  lemma ShownAt(products: seq<Product>, f: FilterValues, currentPage: int, j: nat)
    requires currentPage >= 1 && j < |Shown(products, f, currentPage)|
    ensures (currentPage - 1) * ItemsPerPage + j < |Filtered(products, f)|
    ensures Shown(products, f, currentPage)[j] == Filtered(products, f)[(currentPage - 1) * ItemsPerPage + j]
  {
    PageItemsAt(Filtered(products, f), currentPage, ItemsPerPage, j);
  }

  /** Pages 1 to `totalPages`, laid end to end, are exactly the filtered list. */
  lemma ShownPagesCoverFiltered(products: seq<Product>, f: FilterValues)
    ensures PagesUpTo(Filtered(products, f), ItemsPerPage, ListTotalPages(products, f)) == Filtered(products, f)
  {
    PagesPartition(Filtered(products, f), ItemsPerPage);
  }

  /** What the delete button of a card asks the store to do. */
  datatype Request = RemoveProduct(id: string)

  /** `handleDelete(product._id)`: dispatches `removeProduct` with the card's own id. */
  function HandleDelete(product: Product): (r: Request)
    ensures r.id == product.id
  {
    RemoveProduct(product.id)
  }

  /**
   * Once the store has carried out a card's delete request, the page no
   * longer lists that product, and still lists every other product it
   * listed before.
   */
  lemma DeletedProductNotListed(products: seq<Product>, f: FilterValues, product: Product)
    ensures product !in Filtered(Filter(products, ProductIdIsNot(HandleDelete(product).id)), f)
    ensures forall q :: q in Filtered(products, f) && q.id != product.id ==>
      q in Filtered(Filter(products, ProductIdIsNot(HandleDelete(product).id)), f)
  {
    var remaining := Filter(products, ProductIdIsNot(product.id));
    forall q | q in Filtered(products, f) && q.id != product.id
      ensures q in Filtered(remaining, f)
    {
      FilteredExactly(products, f, q);
      var i :| 0 <= i < |products| && products[i] == q;
      FilteredExactly(remaining, f, q);
    }
  }
}
