/**
 * The hw5 category dialog: one `name` field, reset whenever the dialog opens
 * or its `initialData` changes, and a save handler that rejects a blank name,
 * keeps the `_id` of a category being edited and derives a slug `_id` for a
 * new one.
 */
module CategoryModal {
  import opened Common
  import opened Text
  import opened Catalog

  const NameRequired := "Название категории обязательно"

  /** What the dialog does, in order: browser alerts and calls of its callbacks. */
  datatype Event = Alert(message: string) | OnSave(category: Category) | OnClose

  /** `name.trim().toLowerCase().replace(/\s+/g, '-')`. */
  function Slug(name: string): (r: string)
    ensures NoSpace(r)
    ensures |r| <= |name|
  {
    DashRuns(Lower(Trim(name)))
  }

  /** The slug is empty exactly when the name is blank. */
  lemma SlugEmpty(name: string)
    ensures Slug(name) == [] <==> Trim(name) == []
  {
    var t := Trim(name);
    if t != [] {
      var l := Lower(t);
      LowerKeepsSpace(t[0]);
      assert !IsSpace(l[0]);
      assert DashRuns(l) == [l[0]] + DashRuns(l[1..]);
    }
  }

  /** A generated `_id` is its own slug: saving a new category under it yields the same `_id`. */
  lemma SlugIdempotent(name: string)
    ensures Slug(Slug(name)) == Slug(name)
  {
    var r := Slug(name);
    TrimNoSpace(r);
    DashRunsNoUpper(Lower(Trim(name)));
  }

  /**
   * Two words separated by a whitespace run slug to the lower-cased words
   * joined by a single '-'.
   */
  lemma SlugJoinsWords(a: string, w: string, b: string)
    requires a != [] && b != [] && NoSpace(a) && NoSpace(b)
    requires w != [] && AllSpace(w)
    ensures Slug(a + w + b) == Lower(a) + "-" + Lower(b)
  {
    var s := a + w + b;
    assert s[0] == a[0] && s[|s| - 1] == b[|b| - 1];
    TrimKeepsWord(s);
    LowerConcat(a + w, b);
    LowerConcat(a, w);
    LowerKeepsSpaces(a);
    LowerKeepsSpaces(w);
    LowerKeepsSpaces(b);
    DashRunsJoin(Lower(a), Lower(w), Lower(b));
  }

  /** The name "Home  Goods" gets the `_id` "home-goods". */
  lemma SlugExample(a: string, w: string, b: string)
    requires a == "Home" && w == "  " && b == "Goods"
    ensures Slug(a + w + b) == "home-goods"
  {
    ExampleWords(a, w, b);
    SlugJoinsWords(a, w, b);
    LowerWord(a, "home");
    LowerWord(b, "goods");
    assert "home" + "-" + "goods" == "home-goods";
  }

  lemma ExampleWords(a: string, w: string, b: string)
    requires a == "Home" && w == "  " && b == "Goods"
    ensures a != [] && NoSpace(a) && b != [] && NoSpace(b) && w != [] && AllSpace(w)
  {
    assert forall i :: 0 <= i < |a| ==> a[i] in "Home";
    assert forall i :: 0 <= i < |b| ==> b[i] in "Goods";
  }

  /** The literal words of the example, lower-cased. */
  lemma LowerWord(s: string, t: string)
    requires (s == "Home" && t == "home") || (s == "Goods" && t == "goods")
    ensures Lower(s) == t
  {
    assert |Lower(s)| == |t|;
    forall i | 0 <= i < |t| ensures Lower(s)[i] == t[i] {
      assert Lower(s)[i] == LowerChar(s[i]);
    }
  }

  /**
   * The category `handleSave` passes to `onSave`, or `None` when the trimmed
   * name is empty and the dialog only alerts.
   */
  function SavedCategory(name: string, initialData: Option<Category>): (r: Option<Category>)
    ensures r.None? <==> forall i :: 0 <= i < |name| ==> IsSpace(name[i])
    ensures r.Some? ==> r.value.name == Trim(name) && r.value.name != []
    ensures r.Some? && initialData.Some? ==> r.value == initialData.value.(name := Trim(name))
    ensures r.Some? && initialData.None? ==> r.value.id == Slug(name) && r.value.id != [] && NoSpace(r.value.id)
  {
    TrimEmpty(name);
    SlugEmpty(name);
    var trimmed := Trim(name);
    if trimmed == [] then None
    else match initialData
      case Some(c) => Some(c.(name := trimmed))
      case None => Some(Category(Slug(name), trimmed))
  }

  /** Saving a saved category again, unchanged, gives back the same category. */
  lemma SavedIsStable(name: string, initialData: Option<Category>)
    requires SavedCategory(name, initialData).Some?
    ensures var c := SavedCategory(name, initialData).value;
      SavedCategory(InitialName(Some(c)), Some(c)) == Some(c)
  {
    TrimIdempotent(name);
  }

  /** `initialData ? initialData.name : ''`. */
  function InitialName(initialData: Option<Category>): string
  {
    match initialData
    case Some(c) => c.name
    case None => ""
  }

  /** The dialog's `name` state. */
  class CategoryDialog {
    var name: string

    /** `useState(initialData ? initialData.name : '')`. */
    constructor (initialData: Option<Category>)
      ensures name == InitialName(initialData)
    {
      name := InitialName(initialData);
    }

    /** The effect on `[initialData, open]`. */
    method Reset(initialData: Option<Category>)
      modifies this
      ensures name == InitialName(initialData)
    {
      if initialData.Some? {
        name := initialData.value.name;
      } else {
        name := "";
      }
    }

    /** `handleSave`: alert on a blank name, otherwise `onSave` and then `onClose`. */
    method HandleSave(initialData: Option<Category>) returns (events: seq<Event>)
      ensures Trim(name) == [] ==> events == [Alert(NameRequired)]
      ensures Trim(name) != [] ==> events == [OnSave(SavedCategory(name, initialData).value), OnClose]
    {
      var trimmed := Trim(name);
      if trimmed == [] {
        return [Alert(NameRequired)];
      }
      var newCategory := if initialData.Some? then initialData.value.(name := trimmed)
        else Category(DashRuns(Lower(trimmed)), trimmed);
      events := [OnSave(newCategory), OnClose];
    }
  }
}

/**
 * The hw6 "add product" dialog: seven text fields, the category list fetched
 * when the dialog opens, and a save handler that resolves the chosen
 * category name to its `_id`.
 */
module ProductModalHw6 {
  import opened Common
  import opened Seqs
  import opened Catalog

  const AllFieldsRequired := "Все поля обязательны!"
  const InvalidCategory := "Выберите корректную категорию"

  /** The text the seven fields hold. */
  datatype Fields = Fields(
    name: string, description: string, categoryName: string,
    quantity: string, price: string, unit: string, image: string)

  /** `Omit<Product, "_id">`: the record handed to `onSave`. There is no `unit`. */
  datatype NewProduct = NewProduct(
    name: string, description: string, category: string, stock: int, price: real, image: string)

  datatype Event = Alert(message: string) | OnSave(product: NewProduct) | OnClose

  /** The result of `handleSave`: the alert shown, or the record saved. */
  datatype Outcome = Rejected(message: string) | Accepted(product: NewProduct)

  function NameIs(name: string): Category -> bool
  {
    (c: Category) => c.name == name
  }

  /** `categories[i]` is the first category called `name`. */
  predicate FirstNamed(categories: seq<Category>, name: string, i: int)
  {
    0 <= i < |categories| && categories[i].name == name
    && forall j :: 0 <= j < i ==> categories[j].name != name
  }

  /** One of the five checked fields is empty (`unit` is not checked). */
  predicate Incomplete(f: Fields)
  {
    f.name == "" || f.description == "" || f.categoryName == "" || f.quantity == "" || f.price == ""
  }

  /**
   * `handleSave`: empty fields are rejected first, then a category name that
   * no loaded category carries; otherwise the record takes the first such
   * category's `_id`, `parseInt(quantity, 10)` and `parseFloat(price)`.
   */
  function SaveOutcome(f: Fields, categories: seq<Category>,
                       parseInt: string -> int, parseFloat: string -> real): (r: Outcome)
    ensures r == Rejected(AllFieldsRequired) <==> Incomplete(f)
    ensures r == Rejected(InvalidCategory) <==>
      !Incomplete(f) && forall i :: 0 <= i < |categories| ==> categories[i].name != f.categoryName
    ensures r.Accepted? <==>
      !Incomplete(f) && exists i :: 0 <= i < |categories| && categories[i].name == f.categoryName
    ensures r.Accepted? ==>
      exists i :: FirstNamed(categories, f.categoryName, i) &&
        r.product == NewProduct(f.name, f.description, categories[i].id,
                                parseInt(f.quantity), parseFloat(f.price), f.image)
  {
    if Incomplete(f) then Rejected(AllFieldsRequired)
    else match Find(categories, NameIs(f.categoryName))
      case None => Rejected(InvalidCategory)
      case Some(selected) =>
        // `description || ""` and `image || ""` give back the field itself.
        Accepted(NewProduct(f.name, f.description, selected.id,
                            parseInt(f.quantity), parseFloat(f.price), f.image))
  }

  /** A quantity of "0" passes, since the check is on the text; and `unit` plays no part. */
  lemma ZeroQuantityAccepted(f: Fields, categories: seq<Category>,
                             parseInt: string -> int, parseFloat: string -> real)
    requires f.name != "" && f.description != "" && f.price != ""
    requires |categories| > 0 && categories[0].name == f.categoryName && f.categoryName != ""
    ensures SaveOutcome(f.(quantity := "0"), categories, parseInt, parseFloat)
      == Accepted(NewProduct(f.name, f.description, categories[0].id, parseInt("0"), parseFloat(f.price), f.image))
    ensures forall u :: (SaveOutcome(f.(unit := u), categories, parseInt, parseFloat)
      == SaveOutcome(f, categories, parseInt, parseFloat))
  {
    assert FirstNamed(categories, f.categoryName, 0);
  }

  /**
   * What the `.then` after `res.json()` receives for `GET /categories`: the
   * category array, some other JSON value (the gate's 401 `{error}`, a 500
   * `{error}`), or nothing at all when the request or the decoding fails.
   */
  datatype CategoriesReply = CategoryArray(list: seq<Category>) | OtherJson | NoReply

  /**
   * The dialog's state. `categoriesIsArray` is false once `setCategories`
   * has stored a value that is not an array: `categories` then no longer
   * holds what the component holds, and its next render throws at
   * `categories.map`.
   */
  class ProductDialog {
    var fields: Fields
    var categories: seq<Category>
    var categoriesIsArray: bool

    /** Seven `useState('')` and `useState<Category[]>([])`. */
    constructor ()
      ensures fields == Fields("", "", "", "", "", "", "") && categories == [] && categoriesIsArray
    {
      fields := Fields("", "", "", "", "", "", "");
      categories := [];
      categoriesIsArray := true;
    }

    /**
     * The effect on `[open]`: when the dialog opens, `GET /categories`, and
     * whatever JSON comes back is stored unchecked; a failed request changes
     * nothing.
     */
    method LoadCategories(open: bool, reply: CategoriesReply)
      modifies this`categories, this`categoriesIsArray
      ensures open && reply.CategoryArray? ==> categories == reply.list && categoriesIsArray
      ensures open && reply.OtherJson? ==> categories == old(categories) && !categoriesIsArray
      ensures !open || reply.NoReply? ==> categories == old(categories) && categoriesIsArray == old(categoriesIsArray)
    {
      if open {
        match reply {
          case CategoryArray(list) =>
            categories := list;
            categoriesIsArray := true;
          case OtherJson =>
            categoriesIsArray := false;
          case NoReply =>
        }
      }
    }

    /** `handleSave`. The fields are left as they are, also after a save. */
    method HandleSave(parseInt: string -> int, parseFloat: string -> real) returns (events: seq<Event>)
      ensures SaveOutcome(fields, categories, parseInt, parseFloat).Rejected? ==>
        events == [Alert(SaveOutcome(fields, categories, parseInt, parseFloat).message)]
      ensures SaveOutcome(fields, categories, parseInt, parseFloat).Accepted? ==>
        events == [OnSave(SaveOutcome(fields, categories, parseInt, parseFloat).product), OnClose]
    {
      var f := fields;
      if f.name == "" || f.description == "" || f.categoryName == "" || f.quantity == "" || f.price == "" {
        return [Alert(AllFieldsRequired)];
      }
      var selectedCategory := Find(categories, NameIs(f.categoryName));
      if selectedCategory.None? {
        return [Alert(InvalidCategory)];
      }
      var newProduct := NewProduct(f.name, f.description, selectedCategory.value.id,
                                   parseInt(f.quantity), parseFloat(f.price), f.image);
      events := [OnSave(newProduct), OnClose];
    }
  }
}

/**
 * The hw6 "edit product" dialog: the fields are copied from the product
 * whenever it changes, the category name is looked up by `_id` when the
 * dialog opens, and a save overwrites six fields of the product.
 */
module ProductEditModalHw6 {
  import opened Common
  import opened Seqs
  import opened Catalog
  import ProductModalHw6

  const AllFieldsRequired := "Все поля обязательны для заполнения!"
  const InvalidCategory := ProductModalHw6.InvalidCategory

  /** The text of the five fields copied from the product (`categoryName` is kept apart). */
  datatype Fields = Fields(name: string, description: string, stock: string, price: string, image: string)

  datatype Event = Alert(message: string) | OnSave(product: Product)

  datatype Outcome = Rejected(message: string) | Accepted(product: Product)

  /**
   * The fields as the product sets them: `String(stock)`, `String(price)`,
   * and `''` for a missing image. `showInt` and `showReal` are `String` on
   * numbers.
   */
  function FieldsOf(product: Product, showInt: int -> string, showReal: real -> string): Fields
  {
    Fields(product.name, product.description, showInt(product.stock),
           showReal(product.price), product.image.GetOr(""))
  }

  /** `cat ? cat.name : ''` for `cat` the first category whose `_id` is `id`. */
  function CategoryNameOf(categories: seq<Category>, id: string): (r: string)
    ensures (forall i :: 0 <= i < |categories| ==> categories[i].id != id) ==> r == ""
    ensures forall i :: (0 <= i < |categories| && categories[i].id == id
      && (forall j :: 0 <= j < i ==> categories[j].id != id)) ==> r == categories[i].name
  {
    match FindIndex(categories, CategoryIdIs(id))
    case None => ""
    case Some(i) => categories[i].name
  }

  predicate Incomplete(f: Fields, categoryName: string)
  {
    f.name == "" || f.description == "" || categoryName == "" || f.stock == "" || f.price == ""
  }

  /**
   * `handleSave`: the product with `name`, `description`, `category`,
   * `stock`, `price` and `image` overwritten and `_id` kept.
   */
  function SaveOutcome(product: Product, f: Fields, categoryName: string, categories: seq<Category>,
                       parseInt: string -> int, parseFloat: string -> real): (r: Outcome)
    ensures r == Rejected(AllFieldsRequired) <==> Incomplete(f, categoryName)
    ensures r == Rejected(InvalidCategory) <==>
      !Incomplete(f, categoryName) && forall i :: 0 <= i < |categories| ==> categories[i].name != categoryName
    ensures r.Accepted? <==>
      !Incomplete(f, categoryName) && exists i :: 0 <= i < |categories| && categories[i].name == categoryName
    ensures r.Accepted? ==>
      exists i :: ProductModalHw6.FirstNamed(categories, categoryName, i) &&
        r.product == Product(product.id, f.name, f.description, categories[i].id,
                             parseInt(f.stock), parseFloat(f.price), Some(f.image))
  {
    if Incomplete(f, categoryName) then Rejected(AllFieldsRequired)
    else match Find(categories, ProductModalHw6.NameIs(categoryName))
      case None => Rejected(InvalidCategory)
      case Some(selected) =>
        Accepted(product.(name := f.name, description := f.description, category := selected.id,
                          stock := parseInt(f.stock), price := parseFloat(f.price), image := Some(f.image)))
  }

  /**
   * Opening the dialog and saving without typing gives back the product
   * (a missing image comes back as `''`), provided the numbers print and
   * parse back, the product's category is loaded and category names are
   * distinct and non-empty.
   */
  lemma UntouchedSaveKeepsProduct(product: Product, categories: seq<Category>,
                                  showInt: int -> string, showReal: real -> string,
                                  parseInt: string -> int, parseFloat: string -> real)
    requires product.name != "" && product.description != ""
    requires showInt(product.stock) != "" && showReal(product.price) != ""
    requires parseInt(showInt(product.stock)) == product.stock
    requires parseFloat(showReal(product.price)) == product.price
    requires exists i :: 0 <= i < |categories| && categories[i].id == product.category
    requires forall i :: 0 <= i < |categories| ==> categories[i].name != ""
    requires forall i, j :: 0 <= i < j < |categories| ==> categories[i].name != categories[j].name
    ensures SaveOutcome(product, FieldsOf(product, showInt, showReal),
                        CategoryNameOf(categories, product.category), categories, parseInt, parseFloat)
      == Accepted(product.(image := Some(product.image.GetOr(""))))
  {
    var k :| 0 <= k < |categories| && categories[k].id == product.category;
    var i := FindIndex(categories, CategoryIdIs(product.category)).value;
    var name := CategoryNameOf(categories, product.category);
    assert name == categories[i].name;
    var r := SaveOutcome(product, FieldsOf(product, showInt, showReal), name, categories, parseInt, parseFloat);
    assert !Incomplete(FieldsOf(product, showInt, showReal), name);
    assert categories[i].name == name;
    assert r.Accepted?;
    var j :| ProductModalHw6.FirstNamed(categories, name, j)
      && r.product.category == categories[j].id;
    assert j == i;
  }

  /** The dialog's state. */
  class EditDialog {
    var fields: Fields
    var categoryName: string
    var categories: seq<Category>
    var categoriesIsArray: bool

    /** The `useState` initialisers: the fields from `product`, no category name, no categories. */
    constructor (product: Product, showInt: int -> string, showReal: real -> string)
      ensures fields == FieldsOf(product, showInt, showReal)
      ensures categoryName == "" && categories == [] && categoriesIsArray
    {
      fields := FieldsOf(product, showInt, showReal);
      categoryName := "";
      categories := [];
      categoriesIsArray := true;
    }

    /** The effect on `[product]`: the five fields are copied again. */
    method Resync(product: Product, showInt: int -> string, showReal: real -> string)
      modifies this`fields
      ensures fields == FieldsOf(product, showInt, showReal)
    {
      fields := Fields(product.name, product.description, showInt(product.stock),
                       showReal(product.price), product.image.GetOr(""));
    }

    /**
     * The effect on `[open, product]`: when open, `GET /categories`, the
     * answer stored unchecked, then the name of the product's category. A
     * non-array answer is stored before `data.find` throws, so the name is
     * left as it was and, as in the add dialog, the next render throws; a
     * failed request changes nothing.
     */
    method LoadCategories(open: bool, product: Product, reply: ProductModalHw6.CategoriesReply)
      modifies this`categories, this`categoryName, this`categoriesIsArray
      ensures open && reply.CategoryArray? ==>
        categories == reply.list && categoriesIsArray && categoryName == CategoryNameOf(reply.list, product.category)
      ensures open && reply.OtherJson? ==>
        categories == old(categories) && !categoriesIsArray && categoryName == old(categoryName)
      ensures !open || reply.NoReply? ==>
        categories == old(categories) && categoriesIsArray == old(categoriesIsArray) && categoryName == old(categoryName)
    {
      if open {
        match reply {
          case CategoryArray(data) =>
            categories := data;
            categoriesIsArray := true;
            var cat := FindIndex(data, CategoryIdIs(product.category));
            categoryName := if cat.Some? then data[cat.value].name else "";
          case OtherJson =>
            categoriesIsArray := false;
          case NoReply =>
        }
      }
    }

    /** `handleSave`: an alert, or `onSave` with the merged product (the dialog does not close itself). */
    method HandleSave(product: Product, parseInt: string -> int, parseFloat: string -> real)
      returns (events: seq<Event>)
      ensures var r := SaveOutcome(product, fields, categoryName, categories, parseInt, parseFloat);
        (r.Rejected? ==> events == [Alert(r.message)]) && (r.Accepted? ==> events == [OnSave(r.product)])
    {
      var f := fields;
      if f.name == "" || f.description == "" || categoryName == "" || f.stock == "" || f.price == "" {
        return [Alert(AllFieldsRequired)];
      }
      var selectedCategory := Find(categories, ProductModalHw6.NameIs(categoryName));
      if selectedCategory.None? {
        return [Alert(InvalidCategory)];
      }
      var updatedProduct := product.(name := f.name, description := f.description,
        category := selectedCategory.value.id, stock := parseInt(f.stock),
        price := parseFloat(f.price), image := Some(f.image));
      events := [OnSave(updatedProduct)];
    }
  }
}

/**
 * The hw4 "add product" dialog: a save that passes every check dispatches
 * `addProduct` to the store, closes the dialog and clears the seven fields.
 */
module ProductModalHw4 {
  import opened Common
  import opened StoreHw4

  const AllFieldsRequired := "Все поля обязательны для заполнения!"

  datatype Fields = Fields(
    name: string, description: string, category: string, quantity: string,
    price: string, unit: string, image: string)

  const Cleared := Fields("", "", "", "", "", "", "")

  datatype Event = Alert(message: string) | OnClose

  /** One of the six checked fields is empty (`image` is optional). */
  predicate Incomplete(f: Fields)
  {
    f.name == "" || f.description == "" || f.category == "" || f.quantity == "" || f.price == "" || f.unit == ""
  }

  /**
   * The record `handleSave` builds; `now` is `Date.now()`. Its id is the
   * timestamp and every optional field is set, the image to `''` at least.
   */
  function NewRecord(f: Fields, now: int, parseInt: string -> int, parseFloat: string -> real): (r: Product)
    ensures r.id == now
    ensures r.description == Some(f.description) && r.category == Some(f.category) && r.image == Some(f.image)
  {
    // `image || ''` gives back the field itself.
    Product(now, f.name, Some(f.description), Some(f.category), parseInt(f.quantity),
            f.unit, Some(f.image), parseFloat(f.price))
  }

  /** The dialog's state. */
  class ProductDialog {
    var fields: Fields

    constructor ()
      ensures fields == Cleared
    {
      fields := Cleared;
    }

    /**
     * `handleSave`: an alert and nothing else, or `dispatch(addProduct(...))`,
     * then `onClose`, then every field back to `''`.
     */
    method HandleSave(store: ProductsSlice, now: int, parseInt: string -> int, parseFloat: string -> real)
      returns (events: seq<Event>)
      modifies this, store
      ensures old(Incomplete(fields)) ==> (events == [Alert(AllFieldsRequired)]
        && fields == old(fields) && store.products == old(store.products))
      ensures !old(Incomplete(fields)) ==> (events == [OnClose] && fields == Cleared
        && store.products == old(store.products) + [NewRecord(old(fields), now, parseInt, parseFloat)])
      ensures !old(Incomplete(fields)) ==>
        CountId(store.products, now) == CountId(old(store.products), now) + 1
    {
      var f := fields;
      if f.name == "" || f.description == "" || f.category == "" || f.quantity == "" || f.price == "" || f.unit == "" {
        return [Alert(AllFieldsRequired)];
      }
      var newProduct := Product(now, f.name, Some(f.description), Some(f.category),
                                parseInt(f.quantity), f.unit, Some(f.image), parseFloat(f.price));
      store.AddProduct(newProduct);
      events := [OnClose];
      fields := fields.(name := "");
      fields := fields.(description := "");
      fields := fields.(category := "");
      fields := fields.(quantity := "");
      fields := fields.(price := "");
      fields := fields.(unit := "");
      fields := fields.(image := "");
    }
  }
}

/**
 * The hw4 "edit product" dialog: the seven fields are copied from the
 * product whenever it changes, and a save hands `onSave` the product with
 * those fields overwritten.
 */
module ProductEditModalHw4 {
  import opened Common
  import opened StoreHw4
  import ProductModalHw4

  const AllFieldsRequired := ProductModalHw4.AllFieldsRequired

  type Fields = ProductModalHw4.Fields

  datatype Event = Alert(message: string) | OnSave(product: Product)

  /**
   * The fields as the product sets them: `''` for a missing description,
   * category or image; `showInt` and `showReal` are `String` on numbers.
   */
  function FieldsOf(product: Product, showInt: int -> string, showReal: real -> string): Fields
  {
    ProductModalHw4.Fields(product.name, product.description.GetOr(""), product.category.GetOr(""),
      showInt(product.quantity), showReal(product.price), product.unit, product.image.GetOr(""))
  }

  /** `handleSave`: `None` when a field is empty, else the product with seven fields overwritten and `id` kept. */
  function SaveOutcome(product: Product, f: Fields, parseInt: string -> int, parseFloat: string -> real)
    : (r: Option<Product>)
    ensures r.None? <==> ProductModalHw4.Incomplete(f)
    ensures r.Some? ==> r.value == Product(product.id, f.name, Some(f.description), Some(f.category),
      parseInt(f.quantity), f.unit, Some(f.image), parseFloat(f.price))
  {
    if ProductModalHw4.Incomplete(f) then None
    else Some(product.(name := f.name, description := Some(f.description), category := Some(f.category),
                       quantity := parseInt(f.quantity), price := parseFloat(f.price), unit := f.unit,
                       image := Some(f.image)))
  }

  /**
   * Saving a freshly copied form gives back the product (a missing image
   * comes back as `''`) when its text fields are set and its numbers print
   * and parse back.
   */
  lemma UntouchedSaveKeepsProduct(product: Product, showInt: int -> string, showReal: real -> string,
                                  parseInt: string -> int, parseFloat: string -> real)
    requires product.name != "" && product.unit != ""
    requires product.description.Some? && product.description.value != ""
    requires product.category.Some? && product.category.value != ""
    requires showInt(product.quantity) != "" && showReal(product.price) != ""
    requires parseInt(showInt(product.quantity)) == product.quantity
    requires parseFloat(showReal(product.price)) == product.price
    ensures SaveOutcome(product, FieldsOf(product, showInt, showReal), parseInt, parseFloat)
      == Some(product.(image := Some(product.image.GetOr(""))))
  {
  }

  /**
   * A product created by the add dialog, opened in the edit dialog, shows the
   * fields it was created from, and saving it unedited gives it back, when
   * its numbers parse and print back.
   */
  lemma NewRecordReopens(f: Fields, now: int, showInt: int -> string, showReal: real -> string,
                         parseInt: string -> int, parseFloat: string -> real)
    requires !ProductModalHw4.Incomplete(f)
    requires showInt(parseInt(f.quantity)) == f.quantity && showReal(parseFloat(f.price)) == f.price
    ensures FieldsOf(ProductModalHw4.NewRecord(f, now, parseInt, parseFloat), showInt, showReal) == f
    ensures var p := ProductModalHw4.NewRecord(f, now, parseInt, parseFloat);
      SaveOutcome(p, FieldsOf(p, showInt, showReal), parseInt, parseFloat) == Some(p)
  {
  }

  /** A missing description or category fails the check, so such a product cannot be saved unedited. */
  lemma MissingOptionalBlocksUntouchedSave(product: Product, showInt: int -> string, showReal: real -> string,
                                           parseInt: string -> int, parseFloat: string -> real)
    requires product.description.None? || product.category.None?
    ensures SaveOutcome(product, FieldsOf(product, showInt, showReal), parseInt, parseFloat).None?
  {
  }

  /** The dialog's state. */
  class EditDialog {
    var fields: Fields

    /** The `useState` initialisers. */
    constructor (product: Product, showInt: int -> string, showReal: real -> string)
      ensures fields == FieldsOf(product, showInt, showReal)
    {
      fields := FieldsOf(product, showInt, showReal);
    }

    /** The effect on `[product]`: all seven fields are copied again. */
    method Resync(product: Product, showInt: int -> string, showReal: real -> string)
      modifies this
      ensures fields == FieldsOf(product, showInt, showReal)
    {
      fields := fields.(name := product.name);
      fields := fields.(description := product.description.GetOr(""));
      fields := fields.(category := product.category.GetOr(""));
      fields := fields.(quantity := showInt(product.quantity));
      fields := fields.(price := showReal(product.price));
      fields := fields.(unit := product.unit);
      fields := fields.(image := product.image.GetOr(""));
    }

    /** `handleSave`: an alert, or `onSave` with the merged product and nothing else. */
    method HandleSave(product: Product, parseInt: string -> int, parseFloat: string -> real)
      returns (events: seq<Event>)
      ensures SaveOutcome(product, fields, parseInt, parseFloat).None? ==> events == [Alert(AllFieldsRequired)]
      ensures SaveOutcome(product, fields, parseInt, parseFloat).Some? ==>
        events == [OnSave(SaveOutcome(product, fields, parseInt, parseFloat).value)]
    {
      var f := fields;
      if f.name == "" || f.description == "" || f.category == "" || f.quantity == "" || f.price == "" || f.unit == "" {
        return [Alert(AllFieldsRequired)];
      }
      var updatedProduct := product.(name := f.name, description := Some(f.description),
        category := Some(f.category), quantity := parseInt(f.quantity),
        price := parseFloat(f.price), unit := f.unit, image := Some(f.image));
      events := [OnSave(updatedProduct)];
    }
  }
}
