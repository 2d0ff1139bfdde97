/**
 * The filter criteria the hw4, hw5 and hw6 sidebars hand to the product
 * list (`FilterValues`), and the test the list pages' `products.filter`
 * callback applies to one product.
 */
module Criteria {
  import opened Common
  import opened Text

  /** `FilterValues`: a name pattern, the "non-zero stock only" flag and a category. */
  datatype FilterValues = FilterValues(productName: string, nonZero: bool, category: string)

  /** `{ productName: '', nonZero: false, category: '' }`. */
  const NoFilters := FilterValues("", false, "")

  /**
   * The `filter` callback of the hw4 and hw5 list pages: `matches` starts
   * true and every active criterion (a non-empty string, a set flag) is
   * and-ed into it. `category` is `None` for a product without one.
   */
  function Matches(f: FilterValues, name: string, stock: int, category: Option<string>): (r: bool)
    ensures r <==>
      && (f.productName == "" || NameMatches(f.productName, name))
      && (!f.nonZero || stock > 0)
      && (f.category == "" || category == Some(f.category))
  {
    var matches := true;
    var matches := if f.productName != "" then matches && NameMatches(f.productName, name) else matches;
    var matches := if f.nonZero then matches && stock > 0 else matches;
    if f.category != "" then matches && category == Some(f.category) else matches
  }
}
