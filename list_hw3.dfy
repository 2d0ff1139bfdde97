/**
 * The hw3-1 product list: a fixed list of three products, filtered step by
 * step whenever the `filters` prop changes, and shown two per page. Unlike
 * the later list pages, the page count has no lower bound of one and the
 * current page is neither reset nor clamped.
 */
module ProductListHw3 {
  import opened Seqs
  import opened Text
  import opened Pagination

  /** The inline `Product` type of this component: every field is present. */
  datatype Product = Product(
    id: int, name: string, description: string, category: string,
    quantity: int, unit: string, image: string)

  /** The `filters` prop: `productName`, `inStock`, `category`. */
  datatype Filters = Filters(productName: string, inStock: bool, category: string)

  /** `{ productName: '', inStock: false, category: '' }`. */
  const EmptyFilters := Filters("", false, "")

  /** The fixed list every filtering starts from. */
  const Seed: seq<Product> := [
    Product(1, "Товар 1", "Описание товара 1", "Категория 1", 10, "шт.", "https://via.placeholder.com/150"),
    Product(2, "Товар 2", "Описание товара 2", "Категория 2", 20, "шт.", "https://via.placeholder.com/150"),
    Product(3, "MacBook 16",
      "MacBook — ультратонкие ноутбуки от Apple, которые отличаются стильным дизайном и высокой производительностью.",
      "Ноутбуки", 20, "шт.", "https://via.placeholder.com/150")
  ]

  /** `itemsPerPage`. */
  const PageSize: nat := 2

  /** Each step of `applyFilters` as a predicate that passes everything when the step is skipped. */
  function NameStep(f: Filters): Product -> bool
  {
    (p: Product) => f.productName == "" || NameMatches(f.productName, p.name)
  }

  function StockStep(f: Filters): Product -> bool
  {
    (p: Product) => !f.inStock || p.quantity > 0
  }

  function CategoryStep(f: Filters): Product -> bool
  {
    (p: Product) => f.category == "" || p.category == f.category
  }

  /** A product passes the filters when it passes all three steps. */
  function Passes(f: Filters): Product -> bool
  {
    (p: Product) => NameStep(f)(p) && StockStep(f)(p) && CategoryStep(f)(p)
  }

  /** The three steps in sequence keep exactly what one filter on their conjunction keeps. */
  lemma StepsAreOneFilter(s: seq<Product>, f: Filters)
    ensures Filter(Filter(Filter(s, NameStep(f)), StockStep(f)), CategoryStep(f)) == Filter(s, Passes(f))
  {
    var nameAndStock := (p: Product) => NameStep(f)(p) && StockStep(f)(p);
    FilterTwice(s, NameStep(f), StockStep(f), nameAndStock);
    FilterTwice(s, nameAndStock, CategoryStep(f), Passes(f));
  }

  /** A skipped step keeps the list as it is; a taken step is the step's filter. */
  lemma OptionalStep(s: seq<Product>, taken: bool, p: Product -> bool, step: Product -> bool)
    requires forall x :: step(x) == (!taken || p(x))
    ensures (if taken then Filter(s, p) else s) == Filter(s, step)
  {
    if taken {
      FilterSame(s, p, step);
    } else {
      FilterKeepsAll(s, step);
    }
  }

  /**
   * The body of `applyFilters`: starting from `products`, each active
   * criterion in turn replaces the list with its filtered copy.
   */
  method FilterInSteps(products: seq<Product>, filters: Filters) returns (updatedProducts: seq<Product>)
    ensures updatedProducts == Filter(products, Passes(filters))
  {
    updatedProducts := products;

    var byName := (p: Product) => NameMatches(filters.productName, p.name);
    OptionalStep(updatedProducts, filters.productName != "", byName, NameStep(filters));
    if filters.productName != "" {
      updatedProducts := Filter(updatedProducts, byName);
    }
    ghost var afterName := updatedProducts;

    var inStock := (p: Product) => p.quantity > 0;
    OptionalStep(updatedProducts, filters.inStock, inStock, StockStep(filters));
    if filters.inStock {
      updatedProducts := Filter(updatedProducts, inStock);
    }
    ghost var afterStock := updatedProducts;

    var inCategory := (p: Product) => p.category == filters.category;
    OptionalStep(updatedProducts, filters.category != "", inCategory, CategoryStep(filters));
    if filters.category != "" {
      updatedProducts := Filter(updatedProducts, inCategory);
    }

    assert afterName == Filter(products, NameStep(filters));
    assert afterStock == Filter(afterName, StockStep(filters));
    assert updatedProducts == Filter(afterStock, CategoryStep(filters));
    StepsAreOneFilter(products, filters);
  }

  /** With no criteria the list shows all three seed products. */
  lemma EmptyFiltersShowSeed()
    ensures Filter(Seed, Passes(EmptyFilters)) == Seed
    ensures |Seed| == 3
  {
    forall x: Product
      ensures Passes(EmptyFilters)(x)
    {
      assert NameStep(EmptyFilters)(x) && StockStep(EmptyFilters)(x) && CategoryStep(EmptyFilters)(x);
    }
    FilterKeepsAll(Seed, Passes(EmptyFilters));
  }

  /** The component's state: `currentPage` and `filteredProducts`. */
  class ProductList {
    var currentPage: int
    var filteredProducts: seq<Product>

    /** `useState(1)` and `useState(products)`. */
    constructor ()
      ensures currentPage == 1 && filteredProducts == Seed
    {
      currentPage := 1;
      filteredProducts := Seed;
    }

    /**
     * The `[filters]` effect: `applyFilters` restarts from the seed list,
     * applies each active step in turn and stores the result. The page is
     * left alone, and the result depends on `filters` only, so applying the
     * same filters twice gives the same list.
     */
    method ApplyFilters(filters: Filters)
      modifies this
      ensures filteredProducts == Filter(Seed, Passes(filters))
      ensures currentPage == old(currentPage)
    {
      var updatedProducts := FilterInSteps(Seed, filters);
      filteredProducts := updatedProducts;
    }

    /** `handlePageChange`: the page becomes the selected value; the list is untouched. */
    method HandlePageChange(value: int)
      modifies this
      ensures currentPage == value
      ensures filteredProducts == old(filteredProducts)
    {
      currentPage := value;
    }

    /** `currentProducts`: the slice from `lastIndex - itemsPerPage` to `lastIndex`. */
    function CurrentProducts(): (r: seq<Product>)
      reads this
      ensures r == PageItems(filteredProducts, currentPage, PageSize)
      ensures |r| <= PageSize
      ensures currentPage > PageCount(|filteredProducts|, PageSize) ==> r == []
    {
      assert currentPage > PageCount(|filteredProducts|, PageSize) ==> PageItems(filteredProducts, currentPage, PageSize) == [] by {
        if currentPage > PageCount(|filteredProducts|, PageSize) {
          PageBeyondEndEmpty(filteredProducts, PageSize, currentPage);
        }
      }
      var lastIndex := currentPage * PageSize;
      var firstIndex := lastIndex - PageSize;
      Slice(filteredProducts, firstIndex, lastIndex)
    }

    /** The `count` given to the pagination control: `Math.ceil(filteredProducts.length / 2)`, zero for an empty list. */
    function PaginationCount(): (r: nat)
      reads this
      ensures r * PageSize >= |filteredProducts|
      ensures r > 0 ==> (r - 1) * PageSize < |filteredProducts|
      ensures r == 0 <==> filteredProducts == []
    {
      PageCount(|filteredProducts|, PageSize)
    }
  }
}
