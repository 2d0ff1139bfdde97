/**
 * The hw4 client store: the `Product` model and the two synchronous slices
 * (`products`, `categories`), each an array in the store that the reducers
 * grow with `push`, replace with a filtered copy, or overwrite at one index.
 */
module StoreHw4 {
  import opened Common
  import opened Seqs

  /** `Product` of the hw4 models: a numeric `id`, optional `description`, `category` and `image`. */
  datatype Product = Product(
    id: int, name: string, description: Option<string>, category: Option<string>,
    quantity: int, unit: string, image: Option<string>, price: real)

  /** `Category` of the hw4 category slice. */
  datatype Category = Category(id: string, name: string)

  /** The products the store starts with. */
  const SeedProducts: seq<Product> := [
    Product(1, "Товар 1", Some("Очень длинное описание товара 1, которое может не помещаться в карточке и должно быть обрезано."),
      Some("Электроника"), 10, "шт.", Some("https://via.placeholder.com/300x200"), 100.0),
    Product(2, "Товар 2", Some("Описание товара 2."), Some("Одежда"), 5, "шт.", None, 200.0),
    Product(3, "Товар 3", Some("Описание товара 3 с длинным текстом, которое должно быть ограничено в карточке, но полное описание видно в модальном окне."),
      Some("Продукты питания"), 20, "кг", Some("https://via.placeholder.com/300x200"), 300.0),
    Product(4, "Товар 1", Some("Очень длинное описание товара 1, которое может не помещаться в карточке и должно быть обрезано."),
      Some("Электроника"), 10, "шт.", Some("https://via.placeholder.com/300x200"), 100.0),
    Product(5, "Товар 2", Some("Описание товара 2."), Some("Одежда"), 5, "шт.", None, 200.0),
    Product(6, "Товар 3", Some("Описание товара 3 с длинным текстом, которое должно быть ограничено в карточке, но полное описание видно в модальном окне."),
      Some("Продукты питания"), 20, "кг", Some("https://via.placeholder.com/300x200"), 300.0)
  ]

  /** The categories the store starts with. */
  const SeedCategories: seq<Category> := [
    Category("электроника", "Электроника"),
    Category("одежда", "Одежда"),
    Category("продукты питания", "Продукты питания")
  ]

  /** The seed products carry the ids 1 to 6 in order, so no id repeats. */
  lemma SeedProductIds()
    ensures |SeedProducts| == 6
    ensures forall i :: 0 <= i < |SeedProducts| ==> SeedProducts[i].id == i + 1
    ensures forall i, j :: 0 <= i < j < |SeedProducts| ==> SeedProducts[i].id != SeedProducts[j].id
  {
  }

  /** The three seed categories have pairwise distinct ids. */
  lemma SeedCategoryIds()
    ensures |SeedCategories| == 3
    ensures forall i, j :: 0 <= i < j < |SeedCategories| ==> SeedCategories[i].id != SeedCategories[j].id
  {
  }

  function ProductIdIsNot(id: int): Product -> bool
  {
    (p: Product) => p.id != id
  }

  function ProductIdIs(id: int): Product -> bool
  {
    (p: Product) => p.id == id
  }

  function CategoryIdIsNot(id: string): Category -> bool
  {
    (c: Category) => c.id != id
  }

  function CategoryIdIs(id: string): Category -> bool
  {
    (c: Category) => c.id == id
  }

  /** How many entries carry `id`. */
  function CountId(s: seq<Product>, id: int): (n: nat)
    ensures n <= |s|
    ensures n == 0 <==> forall i :: 0 <= i < |s| ==> s[i].id != id
  {
    if s == [] then 0 else (if s[0].id == id then 1 else 0) + CountId(s[1..], id)
  }

  lemma {:induction false} CountIdAppend(s: seq<Product>, p: Product)
    ensures CountId(s + [p], p.id) == CountId(s, p.id) + 1
  {
    if s == [] {
      assert [p][1..] == [];
    } else {
      assert (s + [p])[1..] == s[1..] + [p];
      CountIdAppend(s[1..], p);
    }
  }

  /** `products` state slice. */
  class ProductsSlice {
    var products: seq<Product>

    constructor ()
      ensures products == SeedProducts
    {
      products := SeedProducts;
    }

    /** `addProduct`: `state.products.push(action.payload)`. */
    method AddProduct(payload: Product)
      modifies this
      ensures products == old(products) + [payload]
      ensures CountId(products, payload.id) == CountId(old(products), payload.id) + 1
    {
      CountIdAppend(products, payload);
      products := products + [payload];
    }

    /** `removeProduct`: keep only the products whose id differs from the payload. */
    method RemoveProduct(id: int)
      modifies this
      ensures products == Filter(old(products), ProductIdIsNot(id))
      ensures CountId(products, id) == 0
    {
      products := Filter(products, ProductIdIsNot(id));
    }

    /** `updateProduct`: overwrite the first product with the payload's id, if there is one. */
    method UpdateProduct(payload: Product)
      modifies this
      ensures products == ReplaceFirst(old(products), ProductIdIs(payload.id), payload)
    {
      var index := FindIndex(products, ProductIdIs(payload.id));
      if index.Some? {
        products := products[index.value := payload];
      }
    }
  }

  /** Adding a product whose id is already present leaves two entries with that id. */
  lemma AddDoesNotDeduplicate(s: seq<Product>, p: Product)
    requires exists i :: 0 <= i < |s| && s[i].id == p.id
    ensures CountId(s + [p], p.id) >= 2
  {
    CountIdAppend(s, p);
  }

  /**
   * Removing an id keeps exactly the other products, in their order, and
   * removing an absent id changes nothing.
   */
  lemma RemoveProductKeepsOthers(s: seq<Product>, id: int)
    ensures IsSubsequence(Filter(s, ProductIdIsNot(id)), s)
    ensures forall i :: 0 <= i < |s| && s[i].id != id ==> s[i] in Filter(s, ProductIdIsNot(id))
    ensures (forall i :: 0 <= i < |s| ==> s[i].id != id) ==> Filter(s, ProductIdIsNot(id)) == s
  {
    FilterIsSubsequence(s, ProductIdIsNot(id));
    if forall i :: 0 <= i < |s| ==> s[i].id != id {
      FilterKeepsAll(s, ProductIdIsNot(id));
    }
  }

  /** `categories` state slice. */
  class CategoriesSlice {
    var categories: seq<Category>

    constructor ()
      ensures categories == SeedCategories
    {
      categories := SeedCategories;
    }

    /** `addCategory`: `state.categories.push(action.payload)`. */
    method AddCategory(payload: Category)
      modifies this
      ensures categories == old(categories) + [payload]
    {
      categories := categories + [payload];
    }

    /** `removeCategory`: keep only the categories whose id differs from the payload. */
    method RemoveCategory(id: string)
      modifies this
      ensures categories == Filter(old(categories), CategoryIdIsNot(id))
    {
      categories := Filter(categories, CategoryIdIsNot(id));
    }

    /** `updateCategory`: overwrite the first category with the payload's id, if there is one. */
    method UpdateCategory(payload: Category)
      modifies this
      ensures categories == ReplaceFirst(old(categories), CategoryIdIs(payload.id), payload)
    {
      var index := FindIndex(categories, CategoryIdIs(payload.id));
      if index.Some? {
        categories := categories[index.value := payload];
      }
    }
  }

  /**
   * Removing a category id keeps exactly the other categories, in their
   * order, and removing an absent id changes nothing.
   */
  lemma RemoveCategoryKeepsOthers(s: seq<Category>, id: string)
    ensures IsSubsequence(Filter(s, CategoryIdIsNot(id)), s)
    ensures forall i :: 0 <= i < |s| && s[i].id != id ==> s[i] in Filter(s, CategoryIdIsNot(id))
    ensures forall c :: c in Filter(s, CategoryIdIsNot(id)) ==> c.id != id
    ensures (forall i :: 0 <= i < |s| ==> s[i].id != id) ==> Filter(s, CategoryIdIsNot(id)) == s
  {
    FilterIsSubsequence(s, CategoryIdIsNot(id));
    if forall i :: 0 <= i < |s| ==> s[i].id != id {
      FilterKeepsAll(s, CategoryIdIsNot(id));
    }
  }
}
