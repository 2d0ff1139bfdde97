/**
 * The MongoDB collections behind the hw5 and hw6 servers, held in memory:
 * categories, products, users and refresh tokens, each a map from its key
 * to its document. The replies the route handlers send are values.
 */
module Store {
  import opened Common

  /** A document id (`_id`); ids are opaque. */
  type Id = string

  /** A category document (`name`). */
  datatype CategoryDoc = CategoryDoc(name: string)

  /** A product document; `category` is the id of a category document. */
  datatype ProductDoc = ProductDoc(
    name: string, description: string, category: Id,
    stock: real, price: real, image: Option<string>)

  /** A product with its `category` reference populated: `None` when the category document is gone. */
  datatype Populated = Populated(product: ProductDoc, category: Option<CategoryDoc>)

  /** A user document; the password is stored hashed and only compared. */
  datatype UserDoc = UserDoc(id: Id, email: string, passwordHash: string, group: string, avatar: Option<string>)

  /** A refresh-token document (`user`, `expiresAt` in milliseconds). */
  datatype TokenDoc = TokenDoc(user: Id, expiresAt: int)

  /** A request-body field: absent, `null`, or a value. */
  datatype Field<T> = Undefined | Null | Given(value: T)

  /** JavaScript falsiness of a string field. */
  predicate Falsy(f: Field<string>)
  {
    !f.Given? || f.value == ""
  }

  /** The JSON a handler answers with. */
  datatype Body =
    | Error(error: string)
    | Message(message: string)
    | ValidationErrorMessage
    | CategoryJson(id: Id, category: CategoryDoc)
    | CategoryListJson(categories: map<Id, CategoryDoc>)
    | ProductJson(id: Id, product: ProductDoc)
    | PopulatedJson(id: Id, populated: Populated)
    | ProductListJson(products: map<Id, Populated>)

  /** A status code and a JSON body. */
  datatype Reply = Reply(status: int, body: Body)

  /** The collections. */
  class Database {
    var categories: map<Id, CategoryDoc>
    var products: map<Id, ProductDoc>
    var users: map<string, UserDoc>
    var refreshTokens: map<string, TokenDoc>

    constructor (users: map<string, UserDoc>)
      ensures categories == map[] && products == map[] && this.users == users && refreshTokens == map[]
    {
      categories := map[];
      products := map[];
      this.users := users;
      refreshTokens := map[];
    }
  }

  /** `populate('category')`: the product with the category it refers to, if that still exists. */
  function Populate(categories: map<Id, CategoryDoc>, p: ProductDoc): (r: Populated)
    ensures r.product == p
    ensures r.category.Some? <==> p.category in categories
    ensures r.category.Some? ==> r.category.value == categories[p.category]
  {
    Populated(p, if p.category in categories then Some(categories[p.category]) else None)
  }

  /** Every product of the collection, populated. */
  function PopulateAll(categories: map<Id, CategoryDoc>, products: map<Id, ProductDoc>): (r: map<Id, Populated>)
    ensures r.Keys == products.Keys
    ensures forall id :: id in r ==> r[id] == Populate(categories, products[id])
  {
    map id | id in products :: Populate(categories, products[id])
  }
}
