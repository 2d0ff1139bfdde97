/**
 * The route handlers of the hw5 server, none of which checks who is
 * calling. Each handler runs its checks in order and returns at the first
 * that fails, before anything is written. Faults raised while saving go
 * to the error handler.
 */
module ServerHw5 {
  import opened Common
  import opened Store

  const CategoryNameRequired := "Название категории обязательно для заполнения"
  const CategoryNotFound := "Category not found"
  const CategoryDeleted := "Category deleted"
  const AllFieldsRequired := "Все поля обязательны"
  const NoSuchCategory := "Категория не найдена"
  const ProductNotFound := "Товар не найден"
  const ProductDeleted := "Товар удалён"
  const InternalServerError := "Internal Server Error"

  /** The body of a product POST or PUT. */
  datatype ProductBody = ProductBody(
    name: Field<string>, description: Field<string>, category: Field<Id>,
    stock: Field<real>, price: Field<real>, image: Field<string>)

  /** What reaches the error handler: a schema `ValidationError`, or any other fault. */
  datatype Fault = ValidationError | OtherFault

  /** The error handler: a `ValidationError` answers 400 with its message, anything else 500. */
  function ErrorHandler(fault: Fault): (r: Reply)
    ensures r.status == 400 <==> fault.ValidationError?
    ensures fault.OtherFault? ==> r == Reply(500, Error(InternalServerError))
    ensures r.status == 400 || r.status == 500
  {
    if fault.ValidationError? then Reply(400, ValidationErrorMessage) else Reply(500, Error(InternalServerError))
  }

  /** `!name || !description || !category || stock === undefined || price === undefined`. */
  predicate MissingField(b: ProductBody)
  {
    Falsy(b.name) || Falsy(b.description) || Falsy(b.category) || b.stock.Undefined? || b.price.Undefined?
  }

  /**
   * The two checks before a product write: required fields first, then the
   * category lookup. `None` means both passed.
   */
  function ProductBodyCheck(categories: map<Id, CategoryDoc>, b: ProductBody): (r: Option<Reply>)
    ensures r == Some(Reply(400, Error(AllFieldsRequired))) <==> MissingField(b)
    ensures r == Some(Reply(400, Error(NoSuchCategory))) <==> !MissingField(b) && b.category.value !in categories
    ensures r.None? <==> !MissingField(b) && b.category.value in categories
  {
    assert AllFieldsRequired[0] != NoSuchCategory[0];
    if MissingField(b) then Some(Reply(400, Error(AllFieldsRequired)))
    else if b.category.value !in categories then Some(Reply(400, Error(NoSuchCategory)))
    else None
  }

  /** A stock or price of 0 passes the required-field check: only `undefined` fails it. */
  lemma ZeroStockAndPriceAccepted(categories: map<Id, CategoryDoc>, b: ProductBody)
    requires !Falsy(b.name) && !Falsy(b.description) && !Falsy(b.category) && b.category.value in categories
    requires b.stock == Given(0.0) && b.price == Given(0.0)
    ensures ProductBodyCheck(categories, b) == None
  {
  }

  /** The schema's `required` validator on `stock` and `price`: `null` fails it. */
  predicate NumbersPresent(b: ProductBody)
  {
    b.stock.Given? && b.price.Given?
  }

  /** The document a product POST saves: `image || null`. */
  function NewProduct(b: ProductBody): (r: ProductDoc)
    requires !MissingField(b) && NumbersPresent(b)
    ensures r.name == b.name.value && r.description == b.description.value && r.category == b.category.value
    ensures r.stock == b.stock.value && r.price == b.price.value
    ensures r.image.None? <==> Falsy(b.image)
    ensures r.image.Some? ==> b.image == Given(r.image.value)
  {
    ProductDoc(b.name.value, b.description.value, b.category.value, b.stock.value, b.price.value,
      if Falsy(b.image) then None else Some(b.image.value))
  }

  /**
   * The document after a product PUT: the five required fields are
   * overwritten; an absent `image` keeps the stored one, `null` clears it,
   * and a given string (even `''`) is stored as it is.
   */
  function UpdatedProduct(current: ProductDoc, b: ProductBody): (r: ProductDoc)
    requires !MissingField(b) && NumbersPresent(b)
    ensures r.name == b.name.value && r.description == b.description.value && r.category == b.category.value
    ensures r.stock == b.stock.value && r.price == b.price.value
    ensures b.image.Undefined? ==> r.image == current.image
    ensures b.image.Null? ==> r.image.None?
    ensures b.image.Given? ==> r.image == Some(b.image.value)
  {
    ProductDoc(b.name.value, b.description.value, b.category.value, b.stock.value, b.price.value,
      match b.image
      case Undefined => current.image
      case Null => None
      case Given(s) => Some(s))
  }

  /** POST /categories. `newId` is the id the database assigns. */
  method PostCategory(db: Database, name: Field<string>, newId: Id) returns (reply: Reply)
    requires newId !in db.categories
    modifies db`categories
    ensures Falsy(name) ==> reply == Reply(400, Error(CategoryNameRequired)) && db.categories == old(db.categories)
    ensures !Falsy(name) ==>
      && reply == Reply(201, CategoryJson(newId, CategoryDoc(name.value)))
      && db.categories == old(db.categories)[newId := CategoryDoc(name.value)]
  {
    if Falsy(name) {
      return Reply(400, Error(CategoryNameRequired));
    }
    var category := CategoryDoc(name.value);
    db.categories := db.categories[newId := category];
    reply := Reply(201, CategoryJson(newId, category));
  }

  /** GET /categories. */
  method GetCategories(db: Database) returns (reply: Reply)
    ensures reply == Reply(200, CategoryListJson(db.categories))
  {
    reply := Reply(200, CategoryListJson(db.categories));
  }

  /** PUT /categories/:id: the name check comes before the lookup. */
  method PutCategory(db: Database, id: Id, name: Field<string>) returns (reply: Reply)
    modifies db`categories
    ensures Falsy(name) ==> reply == Reply(400, Error(CategoryNameRequired)) && db.categories == old(db.categories)
    ensures !Falsy(name) && id !in old(db.categories) ==>
      reply == Reply(404, Error(CategoryNotFound)) && db.categories == old(db.categories)
    ensures !Falsy(name) && id in old(db.categories) ==>
      && db.categories == old(db.categories)[id := CategoryDoc(name.value)]
      && reply == Reply(200, CategoryJson(id, CategoryDoc(name.value)))
  {
    if Falsy(name) {
      return Reply(400, Error(CategoryNameRequired));
    }
    if id !in db.categories {
      return Reply(404, Error(CategoryNotFound));
    }
    db.categories := db.categories[id := CategoryDoc(name.value)];
    reply := Reply(200, CategoryJson(id, db.categories[id]));
  }

  /** DELETE /categories/:id: products that refer to the category are left as they are. */
  method DeleteCategory(db: Database, id: Id) returns (reply: Reply)
    modifies db`categories
    ensures id !in old(db.categories) ==> reply == Reply(404, Error(CategoryNotFound)) && db.categories == old(db.categories)
    ensures id in old(db.categories) ==>
      reply == Reply(200, Message(CategoryDeleted)) && db.categories == old(db.categories) - {id}
  {
    if id !in db.categories {
      return Reply(404, Error(CategoryNotFound));
    }
    db.categories := db.categories - {id};
    reply := Reply(200, Message(CategoryDeleted));
  }

  /** POST /products. */
  method PostProduct(db: Database, b: ProductBody, newId: Id) returns (reply: Reply)
    requires newId !in db.products
    modifies db`products
    ensures ProductBodyCheck(old(db.categories), b).Some? ==>
      reply == ProductBodyCheck(old(db.categories), b).value && db.products == old(db.products)
    ensures ProductBodyCheck(old(db.categories), b).None? && !NumbersPresent(b) ==>
      reply == ErrorHandler(ValidationError) && db.products == old(db.products)
    ensures ProductBodyCheck(old(db.categories), b).None? && NumbersPresent(b) ==>
      && db.products == old(db.products)[newId := NewProduct(b)]
      && reply == Reply(201, ProductJson(newId, NewProduct(b)))
  {
    var rejection := ProductBodyCheck(db.categories, b);
    if rejection.Some? {
      return rejection.value;
    }
    if !NumbersPresent(b) {
      return ErrorHandler(ValidationError);
    }
    var product := NewProduct(b);
    db.products := db.products[newId := product];
    reply := Reply(201, ProductJson(newId, product));
  }

  /** GET /products: every product with its category populated. */
  method GetProducts(db: Database) returns (reply: Reply)
    ensures reply == Reply(200, ProductListJson(PopulateAll(db.categories, db.products)))
  {
    reply := Reply(200, ProductListJson(PopulateAll(db.categories, db.products)));
  }

  /** GET /products/:id. */
  method GetProduct(db: Database, id: Id) returns (reply: Reply)
    ensures id !in db.products ==> reply == Reply(404, Error(ProductNotFound))
    ensures id in db.products ==> reply == Reply(200, PopulatedJson(id, Populate(db.categories, db.products[id])))
  {
    if id !in db.products {
      return Reply(404, Error(ProductNotFound));
    }
    reply := Reply(200, PopulatedJson(id, Populate(db.categories, db.products[id])));
  }

  /**
   * PUT /products/:id: the body and category checks, then the schema
   * validators, run before the product is looked up, so an unknown id with
   * a bad body answers 400 and with a good body 404.
   */
  method PutProduct(db: Database, id: Id, b: ProductBody) returns (reply: Reply)
    modifies db`products
    ensures ProductBodyCheck(old(db.categories), b).Some? ==>
      reply == ProductBodyCheck(old(db.categories), b).value && db.products == old(db.products)
    ensures ProductBodyCheck(old(db.categories), b).None? && !NumbersPresent(b) ==>
      reply == ErrorHandler(ValidationError) && db.products == old(db.products)
    ensures ProductBodyCheck(old(db.categories), b).None? && NumbersPresent(b) && id !in old(db.products) ==>
      reply == Reply(404, Error(ProductNotFound)) && db.products == old(db.products)
    ensures ProductBodyCheck(old(db.categories), b).None? && NumbersPresent(b) && id in old(db.products) ==>
      && db.products == old(db.products)[id := UpdatedProduct(old(db.products)[id], b)]
      && reply == Reply(200, PopulatedJson(id, Populate(db.categories, db.products[id])))
  {
    var rejection := ProductBodyCheck(db.categories, b);
    if rejection.Some? {
      return rejection.value;
    }
    if !NumbersPresent(b) {
      return ErrorHandler(ValidationError);
    }
    if id !in db.products {
      return Reply(404, Error(ProductNotFound));
    }
    var updated := UpdatedProduct(db.products[id], b);
    db.products := db.products[id := updated];
    reply := Reply(200, PopulatedJson(id, Populate(db.categories, updated)));
  }

  /** DELETE /products/:id. */
  method DeleteProduct(db: Database, id: Id) returns (reply: Reply)
    modifies db`products
    ensures id !in old(db.products) ==> reply == Reply(404, Error(ProductNotFound)) && db.products == old(db.products)
    ensures id in old(db.products) ==>
      reply == Reply(200, Message(ProductDeleted)) && db.products == old(db.products) - {id}
  {
    if id !in db.products {
      return Reply(404, Error(ProductNotFound));
    }
    db.products := db.products - {id};
    reply := Reply(200, Message(ProductDeleted));
  }

  /** A request to one of the `/api` routes. */
  datatype Request =
    | PostCategoryRequest(name: Field<string>)
    | GetCategoriesRequest
    | PutCategoryRequest(categoryId: Id, name: Field<string>)
    | DeleteCategoryRequest(categoryId: Id)
    | PostProductRequest(body: ProductBody)
    | GetProductsRequest
    | GetProductRequest(productId: Id)
    | PutProductRequest(productId: Id, body: ProductBody)
    | DeleteProductRequest(productId: Id)

  predicate IsRead(req: Request)
  {
    req.GetCategoriesRequest? || req.GetProductsRequest? || req.GetProductRequest?
  }

  predicate IsCategoryWrite(req: Request)
  {
    req.PostCategoryRequest? || req.PutCategoryRequest? || req.DeleteCategoryRequest?
  }

  /**
   * The router: every route answers 200, 201, 400 or 404; reads change
   * nothing, category routes never touch products and product routes never
   * touch categories.
   */
  method Handle(db: Database, req: Request, newId: Id) returns (reply: Reply)
    requires newId !in db.categories && newId !in db.products
    modifies db`categories, db`products
    ensures reply.status in {200, 201, 400, 404}
    ensures IsRead(req) ==> db.categories == old(db.categories) && db.products == old(db.products)
    ensures IsCategoryWrite(req) ==> db.products == old(db.products)
    ensures !IsRead(req) && !IsCategoryWrite(req) ==> db.categories == old(db.categories)
  {
    match req
    case PostCategoryRequest(name) => reply := PostCategory(db, name, newId);
    case GetCategoriesRequest => reply := GetCategories(db);
    case PutCategoryRequest(id, name) => reply := PutCategory(db, id, name);
    case DeleteCategoryRequest(id) => reply := DeleteCategory(db, id);
    case PostProductRequest(b) => reply := PostProduct(db, b, newId);
    case GetProductsRequest => reply := GetProducts(db);
    case GetProductRequest(id) => reply := GetProduct(db, id);
    case PutProductRequest(id, b) => reply := PutProduct(db, id, b);
    case DeleteProductRequest(id) => reply := DeleteProduct(db, id);
  }
}
