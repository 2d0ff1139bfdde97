/**
 * The records the hw5 and hw6 clients and servers exchange: a product whose
 * `category` holds a category `_id`, and a category.
 */
module Catalog {
  import opened Common

  /** A product (`_id`, `name`, `description`, `category`, `stock`, `price`, optional `image`). */
  datatype Product = Product(
    id: string, name: string, description: string, category: string,
    stock: int, price: real, image: Option<string>)

  /** A category (`_id`, `name`). */
  datatype Category = Category(id: string, name: string)

  /** The `find` and `filter` callbacks that test a category's `_id`. */
  function CategoryIdIs(id: string): Category -> bool
  {
    (c: Category) => c.id == id
  }

  function CategoryIdIsNot(id: string): Category -> bool
  {
    (c: Category) => c.id != id
  }

  /** The `filter` callback that drops the products with an `_id`. */
  function ProductIdIsNot(id: string): Product -> bool
  {
    (p: Product) => p.id != id
  }
}
