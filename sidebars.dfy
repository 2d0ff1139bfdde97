/**
 * The filter-criteria state holders: the hw6 `App` (sidebar flag and the
 * applied filters), the hw4 `SidebarMenu` (the criteria being edited), and
 * the hw3-1 `Sidebar` and `App`. The callbacks a component calls are
 * returned, in call order, as a sequence of events.
 */
module AppHw6 {
  import opened Criteria

  /** `App`'s two state fields. */
  class App {
    var isSidebarOpen: bool
    var filters: FilterValues

    /** The sidebar starts open and no criterion is applied. */
    constructor ()
      ensures isSidebarOpen && filters == NoFilters
    {
      isSidebarOpen := true;
      filters := NoFilters;
    }

    /** `toggleSidebar`: flips the flag, so two toggles restore it; the filters stay. */
    method ToggleSidebar()
      modifies this
      ensures isSidebarOpen == !old(isSidebarOpen)
      ensures filters == old(filters)
    {
      isSidebarOpen := !isSidebarOpen;
    }

    /** `handleApplyFilters`: the argument replaces the filters and the sidebar closes. */
    method HandleApplyFilters(newFilters: FilterValues)
      modifies this
      ensures filters == newFilters && !isSidebarOpen
    {
      filters := newFilters;
      isSidebarOpen := false;
    }

    /** `handleResetFilters`: back to the empty filters; the sidebar flag stays. */
    method HandleResetFilters()
      modifies this
      ensures filters == NoFilters
      ensures isSidebarOpen == old(isSidebarOpen)
    {
      filters := FilterValues("", false, "");
    }

    /** `handleCloseSidebar`: closes the sidebar; the filters stay. */
    method HandleCloseSidebar()
      modifies this
      ensures !isSidebarOpen
      ensures filters == old(filters)
    {
      isSidebarOpen := false;
    }
  }
}

module SideBarMenuHw4 {
  import opened Seqs
  import opened Criteria
  import StoreHw4

  /** The callbacks the menu calls. */
  datatype Event = OnApplyFilters(filters: FilterValues) | OnResetFilters | OnCloseSidebar

  /** The menu's three local fields. */
  class SidebarMenu {
    var productName: string
    var nonZero: bool
    var category: string

    /** The fields start as `''`, `false`, `''`. */
    constructor ()
      ensures productName == "" && !nonZero && category == ""
    {
      productName, nonZero, category := "", false, "";
    }

    /** `applyFilters`: hands over exactly the current three values, then asks to close. */
    method ApplyFilters() returns (events: seq<Event>)
      ensures events == [OnApplyFilters(FilterValues(productName, nonZero, category)), OnCloseSidebar]
    {
      events := [OnApplyFilters(FilterValues(productName, nonZero, category))];
      events := events + [OnCloseSidebar];
    }

    /** `handleResetFilters`: clears the three fields, then reports the reset. */
    method HandleResetFilters() returns (events: seq<Event>)
      modifies this
      ensures productName == "" && !nonZero && category == ""
      ensures events == [OnResetFilters]
    {
      productName := "";
      nonZero := false;
      category := "";
      events := [OnResetFilters];
    }

    /** The clear button beside the name field empties the name only. */
    method ClearProductName()
      modifies this
      ensures productName == ""
      ensures nonZero == old(nonZero) && category == old(category)
    {
      productName := "";
    }
  }

  /** The category select: `''` for "all categories", then the name of every category in store order. */
  function CategoryOptions(categories: seq<StoreHw4.Category>): (r: seq<string>)
    ensures |r| == |categories| + 1
    ensures r[0] == ""
    ensures forall i :: 0 <= i < |categories| ==> r[i + 1] == categories[i].name
  {
    [""] + Map(categories, (c: StoreHw4.Category) => c.name)
  }

  /**
   * Any option chosen from the select is either "all categories" or the
   * name of a loaded category.
   */
  lemma ChosenOptionIsCategoryName(categories: seq<StoreHw4.Category>, k: nat)
    requires k < |CategoryOptions(categories)|
    ensures CategoryOptions(categories)[k] == "" || exists i :: 0 <= i < |categories| && CategoryOptions(categories)[k] == categories[i].name
  {
    if k > 0 {
      assert CategoryOptions(categories)[k] == categories[k - 1].name;
    }
  }
}

module SidebarHw3 {
  import opened ProductListHw3

  /** The callbacks the sidebar calls. */
  datatype Event = ApplyFilters(filters: Filters) | ToggleSidebar

  /** The category select's values: all categories, then the three fixed names. */
  const CategoryOptions: seq<string> := ["", "Категория 1", "Категория 2", "Ноутбуки"]

  /** Every seed product's category can be chosen, and "all categories" is the first option. */
  lemma SeedCategoriesSelectable()
    ensures CategoryOptions[0] == ""
    ensures forall p :: p in Seed ==> p.category in CategoryOptions[1..]
  {
  }

  /** The sidebar's three local fields. */
  class Sidebar {
    var productName: string
    var inStock: bool
    var category: string

    /** The fields start as `''`, `false`, `''`. */
    constructor ()
      ensures productName == "" && !inStock && category == ""
    {
      productName, inStock, category := "", false, "";
    }

    /** `handleSearch`: applies exactly the current values, then toggles (not closes) the sidebar. */
    method HandleSearch() returns (events: seq<Event>)
      ensures events == [ApplyFilters(Filters(productName, inStock, category)), ToggleSidebar]
    {
      var filters := Filters(productName, inStock, category);
      events := [ApplyFilters(filters)];
      events := events + [ToggleSidebar];
    }

    /** `handleReset`: clears the fields and applies the empty filters, without toggling. */
    method HandleReset() returns (events: seq<Event>)
      modifies this
      ensures productName == "" && !inStock && category == ""
      ensures events == [ApplyFilters(EmptyFilters)]
    {
      productName := "";
      inStock := false;
      category := "";
      events := [ApplyFilters(Filters("", false, ""))];
    }
  }
}

module AppHw3 {
  import opened Seqs
  import opened ProductListHw3

  /** `App`'s two state fields. */
  class App {
    var isSidebarOpen: bool
    var filters: Filters

    /** The sidebar starts closed and no criterion is applied. */
    constructor ()
      ensures !isSidebarOpen && filters == EmptyFilters
    {
      isSidebarOpen := false;
      filters := EmptyFilters;
    }

    /** `toggleSidebar`: negates the flag; the filters stay. */
    method ToggleSidebar()
      modifies this
      ensures isSidebarOpen == !old(isSidebarOpen)
      ensures filters == old(filters)
    {
      isSidebarOpen := !isSidebarOpen;
    }

    /**
     * `applyFilters`: the argument replaces the filters wholesale; the
     * product list receives them unchanged as its `filters` prop and its
     * effect refilters the seed list with them.
     */
    method ApplyFilters(newFilters: Filters, list: ProductList)
      modifies this, list
      ensures filters == newFilters
      ensures isSidebarOpen == old(isSidebarOpen)
      ensures list.filteredProducts == Filter(Seed, Passes(filters))
      ensures list.currentPage == old(list.currentPage)
    {
      filters := newFilters;
      list.ApplyFilters(filters);
    }
  }
}
