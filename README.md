# Storefront core, modelled in Dafny

The repository is a series of course assignments that build a product-catalogue
storefront: a React client that lists, filters and pages products, Redux
slices that cache products and categories, modal forms that create and edit
them, and an Express/MongoDB REST server (hw5 without authentication, hw6
behind a JWT cookie gate with login and logout). The first assignment (hw1) is
a set of TypeScript type-level utilities.

This project models that core and proves properties of it.

- **Filter and pagination engine** (`pagination.dfy`, `criteria.dfy`,
  `list_hw5.dfy`, `list_hw4.dfy`, `list_hw3.dfy`). The product filter is a
  sequence filter and the page arithmetic works on whole numbers. The
  `currentPage` state is a class stepped by the two page effects and the
  previous/next buttons.
- **Filter-criteria state holders** (`sidebars.dfy`). The hw6 `App`, the hw4
  `SidebarMenu`, and the hw3-1 `Sidebar` and `App` are classes. The callbacks
  they call come back as a sequence of events.
- **Redux slices** (`store_hw4.dfy`, `slices_async.dfy`). Each slice is a
  class whose reducers reassign a `seq` field. The asynchronous slices take
  one thunk outcome per step.
- **REST gateway** (`store.dfy`, `server_hw5.dfy`, `auth.dfy`). The MongoDB
  collections are maps in a `Database` class. The route handlers, the error
  handler, `authenticateJWT`, `login` and `logout` are methods that return the
  reply and change the maps.
- **Form validators and small string functions** (`forms.dfy`, `cards.dfy`,
  `text.dfy`). These cover the `handleSave` checks and records of the four
  product dialogs, the category slug, the card's category label and the
  description truncation.
- **hw1 type utilities** (`type_utils.dfy`). TypeScript types are values of a
  datatype `Ty`, and each utility is a function over those values.

`seqs.dfy` holds the JavaScript array operations (`filter`, `slice`,
`findIndex`, `find`, `map`), and `common.dfy` holds `Option`, `Max` and `Min`.

Two behaviours of the code are easy to miss:
- The page reset on a filter change is overridden in one case (see Findings).
- In hw6 the category routes are gated as well as the product routes
  (hw6/market-app/src/server.js:129-178).

## Model

| member | source | states |
|---|---|---|
| Seqs.Filter | hw5/market-app/src/pages/ProductListPage.tsx:73-86 | `filter` keeps only passing elements, and every passing element of the input is kept |
| Seqs.FilterConcat | hw5/market-app/src/pages/ProductListPage.tsx:73-86 | filtering distributes over concatenation, so relative order is preserved |
| Seqs.FilterSame | hw3-1/hw3-1-project/src/components/ProductList/ProductList.tsx:60-75 | predicates that agree everywhere filter alike |
| Seqs.FilterKeepsAll | hw5/market-app/src/pages/ProductListPage.tsx:73-86 | when every element passes, `filter` returns its input unchanged |
| Seqs.FilterDropsAll | hw5/market-app/src/pages/ProductListPage.tsx:73-86 | when nothing passes, the result is empty |
| Seqs.FilterTwice | hw3-1/hw3-1-project/src/components/ProductList/ProductList.tsx:60-75 | two filters in sequence equal one filter on the conjunction |
| Seqs.FilterIdempotent | hw3-1/hw3-1-project/src/components/ProductList/ProductList.tsx:61 | filtering again with the same predicate changes nothing |
| Seqs.FilterIsSubsequence | hw5/market-app/src/pages/ProductListPage.tsx:73-86 | the filtered list is a subsequence of the input (order kept) |
| Seqs.SliceIndex | hw5/market-app/src/pages/ProductListPage.tsx:146 | a `slice` bound is clamped into `[0, len]`, and an in-range bound is kept |
| Seqs.Slice | hw5/market-app/src/pages/ProductListPage.tsx:146 | for `0 <= start <= end`, `slice` is the subsequence between the clamped bounds, of length at most `end - start` |
| Seqs.FindIndex | hw4/src/features/products/productSlice.ts:83 | the index found is the first match; `None` (-1) only when nothing matches |
| Seqs.Find | hw5/market-app/src/components/ProductCard/ProductCard.tsx:52 | `find` returns the first matching element, or `None` when nothing matches |
| Seqs.ReplaceFirst | hw4/src/features/products/productSlice.ts:82-87 | only the first match is replaced; length and all other elements are unchanged; no match leaves the list as it is |
| Seqs.Map | hw6/market-app/src/features/products/productSlice.ts:28-34 | `map` keeps length and applies the function at each index |
| Text.UpperChar | hw1/hw1_Tasks/medium.ts:8 | a lower-case letter becomes the corresponding capital, 32 code points below it; other characters stay |
| Text.LowerChar | hw5/market-app/src/components/CategoryModal.tsx:67 | a capital becomes the corresponding lower-case letter, 32 code points above it; other characters stay |
| Text.CaseInverse | hw5/market-app/src/components/CategoryModal.tsx:67 | upper- and lower-casing undo each other on the letters they change |
| Text.Lower | hw5/market-app/src/components/CategoryModal.tsx:67 | `toLowerCase` keeps length, maps each character, leaves no capital, and fixes a string without capitals |
| Text.LowerKeepsSpace | hw5/market-app/src/components/CategoryModal.tsx:67 | lower-casing neither creates nor removes whitespace |
| Text.IsSpace | hw5/market-app/src/components/CategoryModal.tsx:60-67 | the ECMAScript WhiteSpace and LineTerminator code points that `trim` strips and `\s` matches |
| Text.TrimStart | hw5/market-app/src/components/CategoryModal.tsx:60 | drops exactly the leading whitespace: a suffix that does not start with whitespace |
| Text.TrimEnd | hw5/market-app/src/components/CategoryModal.tsx:60 | drops exactly the trailing whitespace: a prefix that does not end with whitespace |
| Text.Trim | hw5/market-app/src/components/CategoryModal.tsx:60 | `trim` is an infix with only whitespace cut on either side, and it neither starts nor ends with whitespace |
| Text.TrimStartThenEnd | hw5/market-app/src/components/CategoryModal.tsx:60 | trimming the start and then the end cuts only whitespace on both sides |
| Text.TrimEmpty | hw5/market-app/src/components/CategoryModal.tsx:60 | the trim is empty exactly when the input is all whitespace |
| Text.TrimIdempotent | hw5/market-app/src/components/CategoryModal.tsx:66-67 | trimming a trimmed string changes nothing |
| Text.TrimNoSpace | hw5/market-app/src/components/CategoryModal.tsx:67 | a string without whitespace is its own trim |
| Text.LowerConcat | hw5/market-app/src/components/CategoryModal.tsx:67 | `toLowerCase` of a concatenation is the concatenation of the lower-cased parts |
| Text.LowerKeepsSpaces | hw5/market-app/src/components/CategoryModal.tsx:67 | lower-casing keeps a string without whitespace without it, and an all-whitespace string all whitespace |
| Text.TrimKeepsWord | hw5/market-app/src/components/CategoryModal.tsx:60 | a string that starts and ends with non-whitespace is its own trim |
| Text.DashRuns | hw5/market-app/src/components/CategoryModal.tsx:67 | `replace(/\s+/g, '-')` leaves no whitespace, never lengthens, and fixes a string without whitespace; the lemmas below pin each run to one '-' |
| Text.DashRunsNoUpper | hw5/market-app/src/components/CategoryModal.tsx:67 | replacing whitespace runs by dashes keeps a lower-cased string lower-cased |
| Text.DashRunsOfRun | hw5/market-app/src/components/CategoryModal.tsx:67 | a non-empty whitespace run becomes exactly one '-' |
| Text.DashRunsConcat | hw5/market-app/src/components/CategoryModal.tsx:67 | cut anywhere that does not split a whitespace run, the two sides are replaced independently: `DashRuns(a + b) == DashRuns(a) + DashRuns(b)` |
| Text.DashRunsJoin | hw5/market-app/src/components/CategoryModal.tsx:67 | two words with a whitespace run between them become the words joined by one '-' |
| Text.NameMatchesBasics | hw5/market-app/src/pages/ProductListPage.tsx:75-77 | the empty pattern matches every name, and every name matches itself |
| Text.NameMatches | hw5/market-app/src/pages/ProductListPage.tsx:75-77 | `new RegExp(productName, 'i').test(name)` read as: the lower-cased name contains the lower-cased pattern as a contiguous piece |
| Pagination.PageCount | hw3-1/hw3-1-project/src/components/ProductList/ProductList.tsx:118 | `ceil(n / size)`: the pages cover `n`, the last one is not empty, and it is 0 exactly for `n == 0` |
| Pagination.TotalPages | hw5/market-app/src/pages/ProductListPage.tsx:88 | `max(1, ceil(n / size))` is at least 1, covers `n`, is exactly 1 for an empty list, and has no empty last page otherwise |
| Pagination.PageItems | hw5/market-app/src/pages/ProductListPage.tsx:145-146 | a page holds at most `size` items |
| Pagination.PageBounds | hw5/market-app/src/pages/ProductListPage.tsx:146 | page `p >= 1` starts at a non-negative offset and ends `size` items later |
| Pagination.PageItemsAt | hw5/market-app/src/pages/ProductListPage.tsx:145-146 | item `j` of page `p` is item `(p - 1) * size + j` of the list |
| Pagination.PagesUpToPrefix | hw5/market-app/src/pages/ProductListPage.tsx:145-146 | pages 1 to `k` laid end to end are the first `k * size` items |
| Pagination.PagesPartition | hw5/market-app/src/pages/ProductListPage.tsx:145-146 | pages 1 to `totalPages` concatenate to the whole list: nothing is lost or shown twice |
| Pagination.FullPagesBeforeLast | hw5/market-app/src/pages/ProductListPage.tsx:145-146 | every page before the last is full |
| Pagination.LastPageNonEmpty | hw5/market-app/src/pages/ProductListPage.tsx:145-146 | the last page of a non-empty list is not empty |
| Pagination.PageBeyondEndEmpty | hw3-1/hw3-1-project/src/components/ProductList/ProductList.tsx:81-83 | a page past the page count shows nothing |
| Pagination.ClampedPage | hw5/market-app/src/pages/ProductListPage.tsx:94-98 | a page beyond `totalPages` becomes `totalPages`; otherwise it is untouched; the result stays in `[1, totalPages]` |
| Pagination.PreviousPage | hw5/market-app/src/pages/ProductListPage.tsx:163 | "previous" goes back one page and never below 1 |
| Pagination.NextPage | hw5/market-app/src/pages/ProductListPage.tsx:174 | "next" goes forward one page and never past `totalPages` |
| Pagination.ButtonsStayInRange | hw5/market-app/src/pages/ProductListPage.tsx:161-177 | from any page in range both buttons stay in `[1, totalPages]`, and an enabled button moves exactly one page |
| Pagination.ButtonsDisabledAtBounds | hw5/market-app/src/pages/ProductListPage.tsx:161-175 | within range, "previous" is disabled exactly on page 1 and "next" exactly on the last page, and a button is disabled exactly when its handler would leave the page unchanged |
| Pagination.PreviousDisabled | hw5/market-app/src/pages/ProductListPage.tsx:162 | the "previous" button is disabled on page 1 (its properties are in `ButtonsDisabledAtBounds`) |
| Pagination.NextDisabled | hw5/market-app/src/pages/ProductListPage.tsx:173 | the "next" button is disabled from the last page on (its properties are in `ButtonsDisabledAtBounds`) |
| Pagination.ShowControls | hw5/market-app/src/pages/ProductListPage.tsx:159 | the controls render when there is more than one page (tied to the item count by `ControlsShownIff`) |
| Pagination.ControlsShownIff | hw5/market-app/src/pages/ProductListPage.tsx:88-159 | with `totalPages = max(1, ceil(n / size))`, the controls show exactly when `n > size` |
| Pagination.SettledPageAsWritten | hw5/market-app/src/pages/ProductListPage.tsx:90-98 | after one commit of both effects, a stale page past the end becomes `totalPages` even when the filters changed; otherwise a filter change gives 1 |
| Pagination.StaleClampOverridesReset | hw5/market-app/src/pages/ProductListPage.tsx:90-98 | on page 3 of 3, filters that leave 7 matches settle on page 2, not 1 |
| Pagination.SettledPage | hw5/market-app/src/pages/ProductListPage.tsx:90-98 | the intended page: 1 after any filter change; otherwise the page itself when in range and `totalPages` beyond it; always in `[1, totalPages]` |
| Pagination.AsWrittenDiffersOnlyWhenStale | hw5/market-app/src/pages/ProductListPage.tsx:90-98 | the written effects differ from the intended page exactly when the filters change on a page past a new last page other than 1 |
| Pagination.PageCursor.constructor | hw5/market-app/src/pages/ProductListPage.tsx:65 | `currentPage` starts at 1 |
| Pagination.PageCursor.Commit | hw4/src/pages/ProductListPage.tsx:84-92 | one commit of the reset and clamp effects sets the page as the written effects do, and it never exceeds `totalPages` |
| Pagination.PageCursor.Previous | hw4/src/pages/ProductListPage.tsx:145 | the "previous" handler steps back as `PreviousPage` does, keeping the page at least 1 |
| Pagination.PageCursor.Next | hw4/src/pages/ProductListPage.tsx:156 | the "next" handler steps forward as `NextPage` does |
| Pagination.PageCursor.Visible | hw5/market-app/src/pages/ProductListPage.tsx:145-146 | the grid shows at most six items |
| Criteria.Matches | hw5/market-app/src/pages/ProductListPage.tsx:73-86 | a product passes exactly when every active criterion holds: name pattern, `stock > 0` under the flag, category equality |
| ListPageHw5.Filtered | hw5/market-app/src/pages/ProductListPage.tsx:73-86 | every listed product is in the store and passes; every passing product is listed |
| ListPageHw5.NoFiltersListEverything | hw5/market-app/src/pages/ProductListPage.tsx:73-86 | empty criteria list every product, in store order |
| ListPageHw5.FilteredExactly | hw5/market-app/src/pages/ProductListPage.tsx:73-86 | a product is listed if and only if it is in the store and passes every active criterion; the store order is kept |
| ListPageHw5.ListTotalPages | hw5/market-app/src/pages/ProductListPage.tsx:67-88 | `totalPages` is at least 1, covers the filtered list, and is exactly 1 when nothing matches |
| ListPageHw5.ControlsShown | hw5/market-app/src/pages/ProductListPage.tsx:159 | the page controls appear exactly when more than six products pass the filters |
| ListPageHw5.Shown | hw5/market-app/src/pages/ProductListPage.tsx:145-146 | the grid shows at most six cards |
| ListPageHw5.ShownAt | hw5/market-app/src/pages/ProductListPage.tsx:145-146 | card `j` of page `p` is filtered product `(p - 1) * 6 + j` |
| ListPageHw5.ShownPagesCoverFiltered | hw5/market-app/src/pages/ProductListPage.tsx:145-146 | pages 1 to `totalPages` concatenate to the filtered list |
| ListPageHw5.HandleDelete | hw5/market-app/src/pages/ProductListPage.tsx:100-102 | a card's delete request carries that card's own `_id` |
| ListPageHw5.DeletedProductNotListed | hw5/market-app/src/pages/ProductListPage.tsx:100-102 | once the store drops the card's id, that product is no longer listed and every other listed product still is |
| ListPageHw4.Filtered | hw4/src/pages/ProductListPage.tsx:67-80 | every listed product is in the store and passes; every passing product is listed |
| ListPageHw4.NoFiltersListEverything | hw4/src/pages/ProductListPage.tsx:67-80 | empty criteria keep every product, in order |
| ListPageHw4.FilteredExactly | hw4/src/pages/ProductListPage.tsx:67-80 | listed if and only if in the store and passing; the flag keeps exactly `quantity > 0`; a product without a category fails a category criterion; order kept |
| ListPageHw4.ListTotalPages | hw4/src/pages/ProductListPage.tsx:65-82 | `totalPages` is at least 1, covers the filtered list, is exactly 1 when nothing matches, and otherwise has no empty last page, so it is exactly `ceil(n / 6)` |
| ListPageHw4.CurrentProducts | hw4/src/pages/ProductListPage.tsx:94-96 | the `indexOfFirstProduct`/`indexOfLastProduct` slice is the same page as the hw5 slice, with at most six products |
| ListPageHw4.HandleDelete | hw4/src/pages/ProductListPage.tsx:105-107 | delete removes from the store exactly the products with the card's numeric id |
| ProductListHw3.StepsAreOneFilter | hw3-1/hw3-1-project/src/components/ProductList/ProductList.tsx:60-75 | name, stock and category steps in sequence keep exactly what one filter on their conjunction keeps |
| ProductListHw3.OptionalStep | hw3-1/hw3-1-project/src/components/ProductList/ProductList.tsx:62-73 | a skipped step keeps the list; a taken step is that step's filter |
| ProductListHw3.FilterInSteps | hw3-1/hw3-1-project/src/components/ProductList/ProductList.tsx:60-75 | the step-by-step reassignment ends with exactly the products that pass all three criteria, in order |
| ProductListHw3.EmptyFiltersShowSeed | hw3-1/hw3-1-project/src/components/ProductList/ProductList.tsx:23-56 | empty criteria show all three seed products |
| ProductListHw3.ProductList.constructor | hw3-1/hw3-1-project/src/components/ProductList/ProductList.tsx:55-56 | the page starts at 1 and the list is the seed list |
| ProductListHw3.ProductList.ApplyFilters | hw3-1/hw3-1-project/src/components/ProductList/ProductList.tsx:58-79 | the effect restarts from the seed list (so the same filters give the same list) and neither resets nor clamps the page |
| ProductListHw3.ProductList.HandlePageChange | hw3-1/hw3-1-project/src/components/ProductList/ProductList.tsx:85-87 | the page becomes the selected value and nothing else changes |
| ProductListHw3.ProductList.CurrentProducts | hw3-1/hw3-1-project/src/components/ProductList/ProductList.tsx:81-83 | the slice is page `currentPage` of two items, at most two, and empty past the page count |
| ProductListHw3.ProductList.PaginationCount | hw3-1/hw3-1-project/src/components/ProductList/ProductList.tsx:118 | `ceil(n / 2)` with no lower bound: it covers the list and is 0 exactly for an empty list |
| StoreHw4.SeedProductIds | hw4/src/features/products/productSlice.ts:9-70 | the seed holds six products with ids 1 to 6, pairwise distinct |
| StoreHw4.SeedCategoryIds | hw4/src/features/categories/categorySlice.ts:12-18 | the seed holds three categories with distinct ids |
| StoreHw4.CountId | hw4/src/features/products/productSlice.ts:76-81 | the count of products with an id is 0 exactly when no product carries it |
| StoreHw4.CountIdAppend | hw4/src/features/products/productSlice.ts:76-78 | appending a product adds one to the count of its id |
| StoreHw4.ProductsSlice.constructor | hw4/src/features/products/productSlice.ts:9-70 | the slice starts with the seed products |
| StoreHw4.ProductsSlice.AddProduct | hw4/src/features/products/productSlice.ts:76-78 | `push` appends the payload at the end and leaves the rest as it was |
| StoreHw4.ProductsSlice.RemoveProduct | hw4/src/features/products/productSlice.ts:79-81 | the list becomes the products whose id differs, and no product with that id remains |
| StoreHw4.ProductsSlice.UpdateProduct | hw4/src/features/products/productSlice.ts:82-87 | only the first product with the payload's id is replaced |
| StoreHw4.AddDoesNotDeduplicate | hw4/src/features/products/productSlice.ts:76-78 | adding an id that is already present leaves two entries with that id |
| StoreHw4.RemoveProductKeepsOthers | hw4/src/features/products/productSlice.ts:79-81 | removal keeps every other product in order, and an absent id changes nothing |
| StoreHw4.CategoriesSlice.constructor | hw4/src/features/categories/categorySlice.ts:12-18 | the slice starts with the three seed categories |
| StoreHw4.CategoriesSlice.AddCategory | hw4/src/features/categories/categorySlice.ts:24-26 | appends the payload and leaves earlier entries as they were |
| StoreHw4.CategoriesSlice.RemoveCategory | hw4/src/features/categories/categorySlice.ts:27-31 | the list becomes the categories whose id differs |
| StoreHw4.CategoriesSlice.UpdateCategory | hw4/src/features/categories/categorySlice.ts:32-39 | only the first category with the payload's id is replaced |
| StoreHw4.RemoveCategoryKeepsOthers | hw4/src/features/categories/categorySlice.ts:27-31 | removal drops every entry with the id, keeps the rest in order, and an absent id changes nothing |
| AppHw6.App.constructor | hw6/market-app/src/App.tsx:8-13 | the sidebar starts open and no criterion is applied |
| AppHw6.App.ToggleSidebar | hw6/market-app/src/App.tsx:15-17 | the flag is negated, so two toggles restore it; the filters stay |
| AppHw6.App.HandleApplyFilters | hw6/market-app/src/App.tsx:19-22 | the argument replaces the filters wholesale and the sidebar closes |
| AppHw6.App.HandleResetFilters | hw6/market-app/src/App.tsx:24-26 | the filters become empty; the sidebar flag stays |
| AppHw6.App.HandleCloseSidebar | hw6/market-app/src/App.tsx:28-30 | the sidebar closes; the filters stay |
| SideBarMenuHw4.SidebarMenu.constructor | hw4/src/components/SidebarMenu/SideBarMenu.tsx:57-59 | the fields start as `''`, false, `''` |
| SideBarMenuHw4.SidebarMenu.ApplyFilters | hw4/src/components/SidebarMenu/SideBarMenu.tsx:63-66 | hands over exactly the three current values, then asks to close the sidebar |
| SideBarMenuHw4.SidebarMenu.HandleResetFilters | hw4/src/components/SidebarMenu/SideBarMenu.tsx:68-73 | clears all three fields, then reports the reset |
| SideBarMenuHw4.SidebarMenu.ClearProductName | hw4/src/components/SidebarMenu/SideBarMenu.tsx:101-103 | the clear button empties the name only |
| SideBarMenuHw4.CategoryOptions | hw4/src/components/SidebarMenu/SideBarMenu.tsx:152-159 | the options are `''` (all categories) followed by every category name, in store order |
| SideBarMenuHw4.ChosenOptionIsCategoryName | hw4/src/components/SidebarMenu/SideBarMenu.tsx:152-159 | any chosen option is "all categories" or the name of a loaded category |
| SidebarHw3.SeedCategoriesSelectable | hw3-1/hw3-1-project/src/components/Sidebar/Sidebar.tsx:78-83 | the first option is "all categories", and every seed product's category is one of the fixed options |
| SidebarHw3.Sidebar.constructor | hw3-1/hw3-1-project/src/components/Sidebar/Sidebar.tsx:18-20 | the fields start as `''`, false, `''` |
| SidebarHw3.Sidebar.HandleSearch | hw3-1/hw3-1-project/src/components/Sidebar/Sidebar.tsx:22-30 | applies exactly the current values, then toggles (does not close) the sidebar |
| SidebarHw3.Sidebar.HandleReset | hw3-1/hw3-1-project/src/components/Sidebar/Sidebar.tsx:32-37 | clears the fields and applies the empty filters, without toggling |
| AppHw3.App.constructor | hw3-1/hw3-1-project/src/App.tsx:10-11 | the sidebar starts closed and the filters empty |
| AppHw3.App.ToggleSidebar | hw3-1/hw3-1-project/src/App.tsx:13-15 | the flag is negated; the filters stay |
| AppHw3.App.ApplyFilters | hw3-1/hw3-1-project/src/App.tsx:17-26 | the argument replaces the filters, and the list receives them unchanged and refilters the seed list with them |
| CategorySliceHw5.RemoveCategoryThunk | hw5/market-app/src/features/categories/categorySlice.ts:51-58 | the thunk is fulfilled with the id exactly when the delete call resolved; a failure is rejected with its message |
| CategorySliceHw5.CategoriesState.constructor | hw5/market-app/src/features/categories/categorySlice.ts:15-19 | no categories, not loading, no error |
| CategorySliceHw5.CategoriesState.Reduce | hw5/market-app/src/features/categories/categorySlice.ts:64-90 | pending sets loading and clears the error; fulfilled load replaces the list; rejected load stores the payload; add appends; edit replaces the first match; remove filters the id out; rejected add, edit and remove change nothing |
| CategorySliceHw5.RemoveFulfilledDropsExactlyId | hw5/market-app/src/features/categories/categorySlice.ts:87-89 | removal drops every entry with the id, keeps the rest in order, and an absent id changes nothing |
| ProductSliceHw6.NormalizedCategory | hw6/market-app/src/features/products/productSlice.ts:30-33 | a category object becomes its `_id`; a string, `null` or `undefined` is kept; the result is never an object |
| ProductSliceHw6.Normalized | hw6/market-app/src/features/products/productSlice.ts:28-34 | only `category` changes |
| ProductSliceHw6.NormalizedIdempotent | hw6/market-app/src/features/products/productSlice.ts:28-34 | normalising twice is normalising once |
| ProductSliceHw6.LoadedProducts | hw6/market-app/src/features/products/productSlice.ts:26-36 | order and length are kept, each product is normalised, products without a category object are unchanged, and no object category remains |
| ProductSliceHw6.LoadedProductsIdempotent | hw6/market-app/src/features/products/productSlice.ts:26-36 | loading an already loaded list changes nothing |
| ProductSliceHw6.LoadErrorText | hw6/market-app/src/features/products/productSlice.ts:76 | the error is the message, or the default text when the message is missing or empty; never empty |
| ProductSliceHw6.EditedProduct | hw6/market-app/src/features/products/productSlice.ts:47-59 | an object `category` becomes its `_id` (or `undefined` without one), any other category stays, and every other field of the server's record is kept |
| ProductSliceHw6.ProductsState.constructor | hw6/market-app/src/features/products/productSlice.ts:20-24 | no products, not loading, no error |
| ProductSliceHw6.ProductsState.Reduce | hw6/market-app/src/features/products/productSlice.ts:66-89 | pending sets loading but keeps an old error; fulfilled load replaces the list; rejected load stores `LoadErrorText`; add appends; edit replaces the first match; remove filters the id out; other rejections change nothing |
| ProductSliceHw6.RemoveFulfilledDropsExactlyId | hw6/market-app/src/features/products/productSlice.ts:87-89 | removal drops every product with the id and keeps the others in order; an absent id changes nothing |
| Store.Database.constructor | hw5/market-app/src/server.js:26-39 | the collections start empty apart from the given users |
| Store.Populate | hw5/market-app/src/server.js:130 | `populate('category')` attaches the referenced category exactly when it still exists |
| Store.PopulateAll | hw5/market-app/src/server.js:121 | every product is listed once, populated |
| Store.Falsy | hw5/market-app/src/server.js:97 | JavaScript falsiness of a string body field: absent, `null` or `''` |
| ServerHw5.ErrorHandler | hw5/market-app/src/server.js:172-178 | a `ValidationError` answers 400, and anything else answers 500 'Internal Server Error' |
| ServerHw5.MissingField | hw5/market-app/src/server.js:97 | a falsy name, description or category, or an undefined stock or price (used by `ProductBodyCheck`) |
| ServerHw5.NumbersPresent | hw5/market-app/src/server.js:35-36 | the schema's `required` on `stock` and `price`: both are given and not `null`; a body that fails it is the 400 validation error of `PostProduct` and `PutProduct` |
| ServerHw5.ProductBodyCheck | hw5/market-app/src/server.js:96-103 | 400 'Все поля обязательны' exactly for a falsy name, description or category or an undefined stock or price; then 400 'Категория не найдена' exactly for an unknown category; otherwise the write proceeds |
| ServerHw5.ZeroStockAndPriceAccepted | hw5/market-app/src/server.js:97 | a stock or price of 0 passes the required-field check |
| ServerHw5.NewProduct | hw5/market-app/src/server.js:104-111 | the saved document carries the body's fields, and `image` is null exactly when it is falsy |
| ServerHw5.UpdatedProduct | hw5/market-app/src/server.js:148-152 | the five required fields are overwritten; an absent image keeps the stored one, `null` clears it, and a given string is stored |
| ServerHw5.PostCategory | hw5/market-app/src/server.js:43-55 | a falsy name answers 400 and stores nothing; otherwise 201 and exactly one new category |
| ServerHw5.GetCategories | hw5/market-app/src/server.js:57-64 | 200 with the whole collection |
| ServerHw5.PutCategory | hw5/market-app/src/server.js:66-82 | the name check runs before the lookup: 400, then 404 for an unknown id, else 200 with only that category renamed |
| ServerHw5.DeleteCategory | hw5/market-app/src/server.js:84-92 | 404 for an unknown id with nothing changed; otherwise exactly that category is removed and products that refer to it stay |
| ServerHw5.PostProduct | hw5/market-app/src/server.js:94-117 | the checks answer 400 and change nothing; a `null` number fails schema validation (400); otherwise 201 and exactly one new product |
| ServerHw5.GetProducts | hw5/market-app/src/server.js:119-126 | 200 with every product populated |
| ServerHw5.GetProduct | hw5/market-app/src/server.js:128-136 | 404 for an unknown id, otherwise 200 with the populated product |
| ServerHw5.PutProduct | hw5/market-app/src/server.js:138-158 | body and category checks run before the lookup (an unknown id with a bad body gives 400, with a good body 404); success overwrites only that product |
| ServerHw5.DeleteProduct | hw5/market-app/src/server.js:160-168 | 404 for an unknown id with nothing changed; otherwise exactly that product is removed |
| ServerHw5.Handle | hw5/market-app/src/server.js:43-170 | no route checks who calls; every route answers 200, 201, 400 or 404; reads change nothing; category routes leave products alone and product routes leave categories alone |
| JwtMiddleware.HttpRequest.constructor | hw6/market-app/src/auth/jwtMiddleware.js:4 | a request starts with its cookies and no user |
| JwtMiddleware.AccessToken | hw6/market-app/src/auth/jwtMiddleware.js:4 | the token is read only from the `accessToken` cookie, and an empty one counts as missing |
| JwtMiddleware.AuthenticateJWT | hw6/market-app/src/auth/jwtMiddleware.js:3-14 | no token answers 401 'Access denied'; a failed verification answers 401 'Invalid token'; in both cases `next` is not called and `req.user` stays; otherwise `req.user` is the payload and `next` runs exactly once |
| AuthController.Login | hw6/market-app/src/controllers/authController.js:6-24 | 400 'User not found' or 400 'Invalid password' store no token; success stores exactly one token record expiring 604800000 ms after now and sets both httpOnly cookies |
| AuthController.Logout | hw6/market-app/src/controllers/authController.js:26-36 | no refresh cookie answers 400 and changes nothing; otherwise at most that token's record is deleted, both cookies are cleared, and it succeeds even with no matching record |
| AuthController.LoginThenLogout | hw6/market-app/src/controllers/authController.js:6-36 | a successful login followed by a logout with its refresh token leaves the token collection as it was |
| ServerHw6.HandleGated | hw6/market-app/src/server.js:84-254 | a missing or invalid token answers 401 and changes nothing; otherwise the hw5 handler runs with the verified user set |
| CategoryModal.Slug | hw5/market-app/src/components/CategoryModal.tsx:67 | the generated `_id` has no whitespace and is no longer than the name; `SlugJoinsWords` gives its value on words and runs |
| CategoryModal.SlugEmpty | hw5/market-app/src/components/CategoryModal.tsx:60-67 | the slug is empty exactly when the name is blank |
| CategoryModal.SlugIdempotent | hw5/market-app/src/components/CategoryModal.tsx:67 | a generated `_id` is its own slug |
| CategoryModal.SlugJoinsWords | hw5/market-app/src/components/CategoryModal.tsx:67 | two words separated by a whitespace run slug to the lower-cased words joined by one '-' |
| CategoryModal.SlugExample | hw5/market-app/src/components/CategoryModal.tsx:67 | "Home  Goods" gets the `_id` "home-goods" |
| CategoryModal.SavedCategory | hw5/market-app/src/components/CategoryModal.tsx:60-67 | a blank name saves nothing; the saved name is the non-empty trim; an edit keeps `initialData` with only the name replaced; a new category gets a non-empty whitespace-free slug `_id` |
| CategoryModal.SavedIsStable | hw5/market-app/src/components/CategoryModal.tsx:49-67 | reopening a saved category and saving it unchanged gives back the same category |
| CategoryModal.CategoryDialog.constructor | hw5/market-app/src/components/CategoryModal.tsx:49 | the field starts as `initialData.name`, or `''` |
| CategoryModal.CategoryDialog.Reset | hw5/market-app/src/components/CategoryModal.tsx:51-57 | opening or a new `initialData` resets the field to its name, or `''` |
| CategoryModal.CategoryDialog.HandleSave | hw5/market-app/src/components/CategoryModal.tsx:59-71 | a blank name only alerts; otherwise `onSave` once with the saved category, then `onClose` |
| ProductModalHw6.SaveOutcome | hw6/market-app/src/components/ProductModal.tsx:74-93 | rejected exactly when one of the five fields is empty, then exactly when no category has the name; accepted exactly when the form is complete and some loaded category has the name, and then the record takes the first such category's `_id` and the parsed numbers, with no `unit` |
| ProductModalHw6.ZeroQuantityAccepted | hw6/market-app/src/components/ProductModal.tsx:74-93 | a quantity of "0" is accepted, and `unit` plays no part in the outcome |
| ProductModalHw6.ProductDialog.constructor | hw6/market-app/src/components/ProductModal.tsx:55-63 | every field starts empty, with no categories |
| ProductModalHw6.ProductDialog.LoadCategories | hw6/market-app/src/components/ProductModal.tsx:65-72 | on open, a category array replaces the categories; any other JSON answer (the gate's 401 `{error}`) is stored as well, so the state no longer holds an array and the next render fails; a failed request changes nothing |
| ProductModalHw6.ProductDialog.HandleSave | hw6/market-app/src/components/ProductModal.tsx:74-97 | a rejection only alerts; an accepted save calls `onSave` then `onClose`, and the fields are not reset |
| ProductEditModalHw6.CategoryNameOf | hw6/market-app/src/components/ProductEditModal.tsx:79-80 | the name of the first category with the product's `_id`, or `''` when there is none |
| ProductEditModalHw6.SaveOutcome | hw6/market-app/src/components/ProductEditModal.tsx:86-106 | rejected exactly when a field is empty, then exactly when no category has the name; accepted exactly when the form is complete and some loaded category has the name, and then the product keeps its `_id` and has six fields overwritten |
| ProductEditModalHw6.UntouchedSaveKeepsProduct | hw6/market-app/src/components/ProductEditModal.tsx:56-106 | opening and saving without typing gives back the product, when the numbers print and parse back and category names are distinct |
| ProductEditModalHw6.EditDialog.constructor | hw6/market-app/src/components/ProductEditModal.tsx:56-63 | the fields start from the product, with no category name and no categories |
| ProductEditModalHw6.EditDialog.Resync | hw6/market-app/src/components/ProductEditModal.tsx:65-71 | a new product re-copies the five fields, with `''` for a missing image |
| ProductEditModalHw6.EditDialog.LoadCategories | hw6/market-app/src/components/ProductEditModal.tsx:73-84 | on open, a category array replaces the categories and the name becomes that of the product's category, or `''`; a non-array answer is stored but `data.find` throws, so the name stays and the state no longer holds an array; a failed request changes nothing |
| ProductEditModalHw6.EditDialog.HandleSave | hw6/market-app/src/components/ProductEditModal.tsx:86-109 | a rejection only alerts; an accepted save calls `onSave` only and does not close the dialog |
| ProductModalHw4.ProductDialog.constructor | hw4/src/components/ProductModal.tsx:50-56 | the seven fields start empty |
| ProductModalHw4.NewRecord | hw4/src/components/ProductModal.tsx:63-72 | the new record's id is the clock value, and description, category and image are all set (the image to `''` at least) |
| ProductModalHw4.ProductDialog.HandleSave | hw4/src/components/ProductModal.tsx:58-83 | an empty field (including `unit`) only alerts and changes nothing; otherwise exactly one record with the clock's id is appended to the store, `onClose` runs, and all seven fields are cleared |
| ProductEditModalHw4.SaveOutcome | hw4/src/components/ProductEditModal.tsx:67-82 | nothing is saved exactly when one of six fields is empty; otherwise the product keeps its `id` and has seven fields overwritten |
| ProductEditModalHw4.UntouchedSaveKeepsProduct | hw4/src/components/ProductEditModal.tsx:49-82 | saving a freshly copied form gives back the product when its numbers print and parse back |
| ProductEditModalHw4.MissingOptionalBlocksUntouchedSave | hw4/src/components/ProductEditModal.tsx:49-71 | a product without description or category cannot be saved unedited |
| ProductEditModalHw4.NewRecordReopens | hw4/src/components/ProductEditModal.tsx:49-82 | a product made by the add dialog opens in the edit dialog with the fields it was made from, and an unedited save gives it back, when its numbers print and parse back |
| ProductEditModalHw4.EditDialog.constructor | hw4/src/components/ProductEditModal.tsx:49-55 | the fields start copied from the product |
| ProductEditModalHw4.EditDialog.Resync | hw4/src/components/ProductEditModal.tsx:57-65 | a new product re-copies all seven fields, with `''` for a missing description, category or image |
| ProductEditModalHw4.EditDialog.HandleSave | hw4/src/components/ProductEditModal.tsx:67-85 | an empty field only alerts; otherwise `onSave` once with the merged product and nothing else |
| ProductCardHw2.ShortenedDescription | hw2/hw2_project/src/components/ProductCard/ProductCard.tsx:14 | up to 100 characters are kept unchanged; a longer text becomes its first 100 characters and "..."; at most 103 characters, with the first min(len, 100) agreeing with the input |
| ProductCardHw2.ShortenedIdempotent | hw2/hw2_project/src/components/ProductCard/ProductCard.tsx:14 | shortening a shortened description changes nothing |
| ProductCardHw2.LongDescriptionsAgreeOnPrefix | hw2/hw2_project/src/components/ProductCard/ProductCard.tsx:14 | two long descriptions with the same first 100 characters show the same text |
| ProductCardHw2.ShownImage | hw2/hw2_project/src/components/ProductCard/ProductCard.tsx:19 | an image is shown exactly when the URL is present and non-empty, otherwise the placeholder |
| ProductCardHw5.CategoryLabel | hw5/market-app/src/components/ProductCard/ProductCard.tsx:51-52 | for the first category whose `_id` is the product's, its name, or the raw `_id` when that name is empty; the raw `_id` when no category has it |
| ProductCardHw5.Subheader | hw5/market-app/src/components/ProductCard/ProductCard.tsx:65 | `''` exactly when the product has no category; otherwise the prefix and the label |
| ProductCardHw5.LabelIsLoadedName | hw5/market-app/src/components/ProductCard/ProductCard.tsx:51-65 | a loaded category with a non-empty name labels the card with that name |
| ProductCardHw5.ShownImage | hw5/market-app/src/components/ProductCard/ProductCard.tsx:81 | an image is shown exactly when the product has a non-empty one |
| ProductCardHw5.Clicked | hw5/market-app/src/components/ProductCard/ProductCard.tsx:56-73 | the delete button calls only `onDelete(_id)`, since propagation is stopped; a card click calls only `onClick(product)` |
| TsTypes.UnionOf | hw1/hw1_Tasks/hard.ts:8-13 | a union drops `never`, a single member stands alone, and two or more members form a union |
| TsTypes.UnionOfOne | hw1/hw1_Tasks/hard.ts:8-13 | a union of one type is that type |
| TsTypes.Assignable | hw1/hw1_Tasks/easy.ts:13 | `x extends y` for equal types, `never`, string literals to `string`, union members and object types with every property of `y` |
| TypeUtilsEasy.MyPick | hw1/hw1_Tasks/easy.ts:2-4 | keeps exactly the keys in `K`, each with its original type |
| TypeUtilsEasy.MyPickLaws | hw1/hw1_Tasks/easy.ts:2-4 | picking every key gives the type back, and picking twice is picking the smaller set |
| TypeUtilsEasy.NOfArray | hw1/hw1_Tasks/easy.ts:7 | the element type at index `N` of the tuple |
| TypeUtilsEasy.Unshift | hw1/hw1_Tasks/easy.ts:10 | length grows by 1, the head is `Elem`, and the tail is the original tuple |
| TypeUtilsEasy.UnshiftMovesIndices | hw1/hw1_Tasks/easy.ts:7-10 | after `Unshift`, index 0 is `Elem` and every old index moves up by one |
| TypeUtilsEasy.MyExclude | hw1/hw1_Tasks/easy.ts:13 | keeps exactly the union members not assignable to `U` |
| TypeUtilsEasy.MyExcludeLaws | hw1/hw1_Tasks/easy.ts:13 | excluding twice is excluding once, and the kept and excluded parts together make the union |
| TypeUtilsEasy.EasyExamples | hw1/hw1_Tasks/easy.ts:16-35 | the four checks hold: the picked object, `boolean` at index 2, `[string, number, boolean]`, and `'b'` |
| TypeUtilsMedium.MyCapitalize | hw1/hw1_Tasks/medium.ts:7-9 | keeps length, upper-cases the first character and keeps the rest; the empty string stays empty |
| TypeUtilsMedium.MyCapitalizeIdempotent | hw1/hw1_Tasks/medium.ts:7-9 | capitalising twice is capitalising once |
| TypeUtilsMedium.MyCapitalizeExample | hw1/hw1_Tasks/medium.ts:29 | `MyCapitalize<'hello'>` is 'Hello' |
| TypeUtilsMedium.IndexOfChar | hw1/hw1_Tasks/medium.ts:18 | the first position of a character at or after `from` |
| TypeUtilsMedium.IndexOfCharIs | hw1/hw1_Tasks/medium.ts:18 | a position with no earlier occurrence is the one `IndexOfChar` finds |
| TypeUtilsMedium.IndexOf | hw1/hw1_Tasks/medium.ts:18 | the first position of a substring at or after `from` |
| TypeUtilsMedium.IndexOfIs | hw1/hw1_Tasks/medium.ts:18 | a position with no earlier occurrence is the one `IndexOf` finds |
| TypeUtilsMedium.AfterColon | hw1/hw1_Tasks/medium.ts:20-21 | the second rule gives everything after the first ':', and nothing when there is no ':' |
| TypeUtilsMedium.ParseURLParamsNeedColon | hw1/hw1_Tasks/medium.ts:17-22 | a path without ':' has no params |
| TypeUtilsMedium.ParseURLParams | hw1/hw1_Tasks/medium.ts:17-22 | the type as written: the text between the first '/:' and the next '/', then the params of the rest; otherwise everything after the first ':' (its results are in the lemmas around it) |
| TypeUtilsMedium.RouteParams | hw1/hw1_Tasks/medium.ts:42 | the corrected rules: the text after each ':' up to the next '/' (its properties are in `RouteParamsHaveNoSlash` and `RouteParamsExample`) |
| TypeUtilsMedium.ParseStep | hw1/hw1_Tasks/medium.ts:18-19 | after the first '/:' and the next '/', the param between them joins the params of the rest |
| TypeUtilsMedium.ParseFallback | hw1/hw1_Tasks/medium.ts:20-22 | when no '/' follows the first '/:', the second rule decides |
| TypeUtilsMedium.ParseURLParamsExample | hw1/hw1_Tasks/medium.ts:42 | 'posts/:id/:user/:comment' gives 'id' and 'user/:comment': 'id' is among the params, but one param holds a '/' |
| TypeUtilsMedium.RouteParamsHaveNoSlash | hw1/hw1_Tasks/medium.ts:42 | under the corrected rules no param holds a '/', and a path without ':' has none |
| TypeUtilsMedium.RouteStep | hw1/hw1_Tasks/medium.ts:42 | one corrected step: the param between a ':' and the next '/', then the params of the rest |
| TypeUtilsMedium.RouteParamsExample | hw1/hw1_Tasks/medium.ts:42 | under the corrected rules the route gives exactly 'id', 'user' and 'comment' |
| TypeUtilsHard.CamelCaseLaws | hw1/hw1_Tasks/hard.ts:2-5 | the result has no '_', its length is the input length minus the number of '_', and a name without '_' is unchanged |
| TypeUtilsHard.CamelCase | hw1/hw1_Tasks/hard.ts:2-5 | the text before the first '_', then the capitalised `CamelCase` of the rest (its properties are in `CamelCaseLaws`) |
| TypeUtilsHard.CamelCaseIdempotent | hw1/hw1_Tasks/hard.ts:2-5 | camel-casing a camel-cased name changes nothing |
| TypeUtilsHard.CamelCaseOneUnderscore | hw1/hw1_Tasks/hard.ts:2-5 | `a_b` becomes `a` followed by `b` capitalised |
| TypeUtilsHard.CamelCaseJoin | hw1/hw1_Tasks/hard.ts:2-5 | the same rule, stated for a given expected result |
| TypeUtilsHard.Camelize | hw1/hw1_Tasks/hard.ts:8-13 | an object type's keys are the camel-cased keys; a non-object type is unchanged |
| TypeUtilsHard.CamelizeRenames | hw1/hw1_Tasks/hard.ts:8-13 | a key nothing collides with keeps its camelized type under its camel-cased name |
| TypeUtilsHard.CamelizeAt | hw1/hw1_Tasks/hard.ts:8-13 | a camel-cased key holds the union of the camelized types of its source keys |
| TypeUtilsHard.CamelKeysOfTwo | hw1/hw1_Tasks/hard.ts:9 | the keys of a two-key object are the two camel-cased keys |
| TypeUtilsHard.CamelKeysOfThree | hw1/hw1_Tasks/hard.ts:9 | the keys of a three-key object are the three camel-cased keys |
| TypeUtilsHard.UnionOfTwo | hw1/hw1_Tasks/hard.ts:8-13 | two distinct types, neither `never`, form a two-member union |
| TypeUtilsHard.CamelizeMerges | hw1/hw1_Tasks/hard.ts:8-13 | two keys that camel-case alike merge into one key holding the union of their types |
| TypeUtilsHard.CamelizeCollision | hw1/hw1_Tasks/hard.ts:8-13 | `{a_b: string, aB: number}` becomes `{aB: string \| number}` |
| TypeUtilsHard.CollidingSources | hw1/hw1_Tasks/hard.ts:8-13 | two keys with one camel case leave one key, whose sources are both types |
| TypeUtilsHard.CamelizedSourcesOfTwo | hw1/hw1_Tasks/hard.ts:8-13 | a key with two source keys has both camelized types as sources |
| TypeUtilsHard.SourceIsMerged | hw1/hw1_Tasks/hard.ts:8-13 | every source key's camelized type is merged into its camel-cased key |
| TypeUtilsHard.MergedHasSource | hw1/hw1_Tasks/hard.ts:8-13 | every merged type comes from some source key |
| TypeUtilsHard.CollidingKeys | hw1/hw1_Tasks/hard.ts:2-5 | 'a_b' and 'aB' both camel-case to 'aB' |
| TypeUtilsHard.CamelCaseExamples | hw1/hw1_Tasks/hard.ts:30-48 | the five renamings of the check: `firstName`, `lastName`, `addressDetails`, `streetName`, `zipCode` |
| TypeUtilsHard.CamelizeTwoKeys | hw1/hw1_Tasks/hard.ts:8-13 | two keys that camel-case apart are renamed independently |
| TypeUtilsHard.CamelizeThreeKeys | hw1/hw1_Tasks/hard.ts:8-13 | three keys that camel-case apart are renamed independently |
| TypeUtilsHard.CamelizeAddressDetails | hw1/hw1_Tasks/hard.ts:33-47 | the nested `address_details` object becomes `{streetName, zipCode}` |
| TypeUtilsHard.CamelizeExample | hw1/hw1_Tasks/hard.ts:30-48 | `Camelize<SnakeCaseObj>` is the expected camel-case object, nested part included |
| TypeUtilsHard.KeyOf | hw1/hw1_Tasks/hard.ts:17 | the key of a path is its part before the first '.', or the whole path |
| TypeUtilsHard.PickValue | hw1/hw1_Tasks/hard.ts:18-26 | an undotted path gives the property's type when it exists, otherwise `never`; the dotted case is `PickValueDotted` |
| TypeUtilsHard.PickValueDotted | hw1/hw1_Tasks/hard.ts:18-23 | a path `k.rest` picks `rest` inside the object-typed property `k` and nests it under `rest`'s head key; a missing or non-object property gives `never` |
| TypeUtilsHard.DeepPick | hw1/hw1_Tasks/hard.ts:16-27 | the picked object has exactly the keys of the paths |
| TypeUtilsHard.DeepPickOnePath | hw1/hw1_Tasks/hard.ts:16-27 | with one path, `DeepPick` is one key holding that path's type |
| TypeUtilsHard.OnePathSources | hw1/hw1_Tasks/hard.ts:16-27 | one path gives one key, with that path's type as its only source |
| TypeUtilsHard.DeepPickPlainPath | hw1/hw1_Tasks/hard.ts:24-25 | an undotted path to an existing property keeps it with its type |
| TypeUtilsHard.DeepPickExample | hw1/hw1_Tasks/hard.ts:51-69 | picking 'user.details.name' keeps only that chain: `{user: {details: {name: string}}}` |

## Left out

- The servers' Express, Mongoose, cors and morgan setup, the database connection and `app.listen` are I/O plumbing. So are the hw5 and hw6 `store.ts`, `AppRoutes.tsx` and `routes/*.js` wiring.
- The collections are maps with abstract ids. The id a new document gets is a parameter, and the order in which a collection lists its documents is not modelled.
- A malformed id makes Mongoose raise a `CastError`, which reaches the error handler as a 500. That is driver behaviour and is not modelled, so `ServerHw5.Handle` never answers 500. Its `ErrorHandler` is modelled on its own.
- bcrypt, jsonwebtoken signing and verification, and `Date.now()` are not modelled. The password comparison, the token signers and the verifier are function parameters, and the clock is a number.
- `parseInt` and `parseFloat` are function parameters. A `NaN` they produce is whatever number the parameter returns, and prices are `real`.
- `new RegExp(pattern, 'i').test(name)` is modelled as a case-insensitive substring test. This is exact only for patterns without regular-expression metacharacters. An invalid pattern, which throws, is not modelled.
- Case mapping (`toLowerCase`, `Uppercase`) covers the ASCII letters only. The whitespace class of `trim` and `\s` is the ECMAScript one.
- `fetch` in hw6 `api.tsx` is network I/O. Each thunk's outcome is an input to the reducer. Because `deleteProduct` and `deleteCategory` do not check `response.ok`, a remove thunk is fulfilled even when the server answered 404. In the model that is a `Resolved` delete call.
- The hw6 product dialogs store whatever JSON `GET /categories` returns, unchecked. The route is gated (hw6/market-app/src/server.js:143), and the dialogs' `fetch` to `http://localhost:5000/api` sets no `credentials`, so a browser sends the `accessToken` cookie only under its own cookie rules, which are not modelled. A non-array answer is the `OtherJson` reply. After it, `categoriesIsArray` is false and the component's next render throws at `categories.map`. The crash itself, and the `handleSave` calls that can then no longer happen, are not modelled.
- Async interleavings, such as a double submit or thunks completing out of order, are not modelled: each thunk outcome is one atomic reducer step.
- The `onChange` setters of every form and sidebar are not modelled. They assign one field, and the model's fields are assigned directly.
- Presentation components are left out: the navigation panels, `theme.ts`, `Modal.tsx`, `UserProfile.tsx`, both `ProductDetails.tsx`, `CategoryManagementPage.tsx`, the hw2 App, Sidebar and ProductList, and the hw3-1 ProductCard.
- `DeepPartial` and `DeepMutable` (hw1/hw1_Tasks/medium.ts:2-14) only switch the optional and readonly modifiers, so they have no value to compute.
- TsTypes.Assignable: models `extends` for the types the hw1 checks use (equal types, `never`, literals to `string`, union members, object width subtyping), not TypeScript's full assignability.
- TypeUtilsHard.Camelize: `T[K] extends object` is read as "is an object type". Arrays, functions and other object-like types are not in the type model.
- TypeUtilsHard.DeepPick: a path into a missing key keeps the key with type `never`, and several paths sharing a head merge into a union of the picked types. The check uses one path only.
- ProductCardHw2.ShortenedDescription: counts characters as code points, while JavaScript's `length` and `slice` count UTF-16 units, so a description with characters outside the Basic Multilingual Plane is cut at a different place.
- TypeUtilsHard.CamelCase: it carries no contract of its own. Its properties are the lemma `CamelCaseLaws` and the examples.
- ServerHw6.HandleGated: after the gate lets a request through, its contract states only the status set and which collections stay unchanged. Each route's exact reply is the contract of the `ServerHw5` method it calls, since the hw6 handlers at hw6/market-app/src/server.js:129-254 are the hw5 handlers.
- ServerHw5.Handle: states only the status set and the frames. Each route's reply is in the contract of its own method.
- The inline `authenticateJWT`, login and logout of hw6/market-app/src/server.js:84-127 are the same code as `jwtMiddleware.js` and `authController.js`, and are modelled once.
- The refresh-token collection's unique index is modelled as in the schema. A login whose refresh token is already stored gets no answer, because the failed insert is not caught.

## Findings

| source | as written | input that shows it | evidently intended | confidence | as-written member | corrected member |
|---|---|---|---|---|---|---|
| hw5/market-app/src/pages/ProductListPage.tsx:90-98 | the reset effect and the clamp effect run in the same commit; the clamp tests the page of the render being committed, so its `setCurrentPage(totalPages)` lands after the reset's `setCurrentPage(1)` | on page 3 of 3, apply filters that leave 7 matches: the page settles on 2 | any filter change shows page 1 | medium, not executed | Pagination.StaleClampOverridesReset | Pagination.SettledPage |
| hw1/hw1_Tasks/medium.ts:17-22 | the first rule infers `Param` up to the first '/' after the first '/:', and only the remainder after that '/' is parsed again | 'posts/:id/:user/:comment' gives 'id' and 'user/:comment' | 'id', 'user' and 'comment', as the comment at line 42 says | high, not executed | TypeUtilsMedium.ParseURLParamsExample | TypeUtilsMedium.RouteParamsExample |

The hw4 list page has the same two effects at hw4/src/pages/ProductListPage.tsx:84-92. In the first row, `Pagination.SettledPageAsWritten` is the written behaviour and `Pagination.AsWrittenDiffersOnlyWhenStale` gives the exact set of inputs where it departs from the intended page. `Pagination.PageCursor.Commit` models the page as the code sets it. In the second row, `TypeUtilsMedium.ParseURLParams` is the type as written, and `TypeUtilsMedium.RouteParams` holds the corrected rules. `TypeUtilsMedium.RouteParamsHaveNoSlash` proves the intended property of `RouteParams` for every path.
