/**
 * The asynchronous client caches: the hw5 category slice and the hw6
 * product slice. Each thunk outcome is one atomic reducer step on the
 * slice's `loading`, `error` and list fields; an outcome without a case
 * leaves the state as it is.
 */
module CategorySliceHw5 {
  import opened Common
  import opened Seqs
  import opened Catalog

  /** What a settled request yields: the value, or the message it failed with. */
  datatype Outcome<T> = Resolved(value: T) | Failed(message: Option<string>)

  /** The actions the slice sees. */
  datatype Action =
    | LoadPending
    | LoadFulfilled(categories: seq<Category>)
    | LoadRejected(payload: Option<string>)
    | AddFulfilled(category: Category)
    | AddRejected(payload: Option<string>)
    | EditFulfilled(category: Category)
    | EditRejected(payload: Option<string>)
    | RemoveFulfilled(id: string)
    | RemoveRejected(payload: Option<string>)

  /**
   * The `removeCategory` thunk: it yields the id only after the delete call
   * resolved; a failed call becomes a rejection with the error's message.
   */
  function RemoveCategoryThunk(id: string, deleteCall: Outcome<()>): (r: Action)
    ensures r.RemoveFulfilled? <==> deleteCall.Resolved?
    ensures r.RemoveFulfilled? ==> r.id == id
    ensures deleteCall.Failed? ==> r == RemoveRejected(deleteCall.message)
  {
    match deleteCall
    case Resolved(_) => RemoveFulfilled(id)
    case Failed(message) => RemoveRejected(message)
  }

  /** The slice state. */
  class CategoriesState {
    var categories: seq<Category>
    var loading: bool
    var error: Option<string>

    /** No categories, not loading, no error. */
    constructor ()
      ensures categories == [] && !loading && error == None
    {
      categories := [];
      loading := false;
      error := None;
    }

    /** The `extraReducers` cases. */
    method Reduce(action: Action)
      modifies this
      ensures action.LoadPending? ==> loading && error == None && categories == old(categories)
      ensures action.LoadFulfilled? ==> !loading && categories == action.categories && error == old(error)
      ensures action.LoadRejected? ==> !loading && error == action.payload && categories == old(categories)
      ensures action.AddFulfilled? ==>
        categories == old(categories) + [action.category] && loading == old(loading) && error == old(error)
      ensures action.EditFulfilled? ==>
        categories == ReplaceFirst(old(categories), CategoryIdIs(action.category.id), action.category)
        && loading == old(loading) && error == old(error)
      ensures action.RemoveFulfilled? ==>
        categories == Filter(old(categories), CategoryIdIsNot(action.id)) && loading == old(loading) && error == old(error)
      ensures action.AddRejected? || action.EditRejected? || action.RemoveRejected? ==>
        categories == old(categories) && loading == old(loading) && error == old(error)
    {
      match action
      case LoadPending =>
        loading := true;
        error := None;
      case LoadFulfilled(payload) =>
        loading := false;
        categories := payload;
      case LoadRejected(payload) =>
        loading := false;
        error := payload;
      case AddFulfilled(payload) =>
        categories := categories + [payload];
      case EditFulfilled(payload) =>
        var index := FindIndex(categories, CategoryIdIs(payload.id));
        if index.Some? {
          categories := categories[index.value := payload];
        }
      case RemoveFulfilled(id) =>
        categories := Filter(categories, CategoryIdIsNot(id));
      case AddRejected(_) =>
      case EditRejected(_) =>
      case RemoveRejected(_) =>
    }
  }

  /**
   * A fulfilled removal keeps every other category in order and drops every
   * category with that id; removing an absent id changes nothing.
   */
  lemma RemoveFulfilledDropsExactlyId(s: seq<Category>, id: string)
    ensures forall c :: c in Filter(s, CategoryIdIsNot(id)) ==> c.id != id
    ensures forall i :: 0 <= i < |s| && s[i].id != id ==> s[i] in Filter(s, CategoryIdIsNot(id))
    ensures IsSubsequence(Filter(s, CategoryIdIsNot(id)), s)
    ensures (forall i :: 0 <= i < |s| ==> s[i].id != id) ==> Filter(s, CategoryIdIsNot(id)) == s
  {
    FilterIsSubsequence(s, CategoryIdIsNot(id));
    if forall i :: 0 <= i < |s| ==> s[i].id != id {
      FilterKeepsAll(s, CategoryIdIsNot(id));
    }
  }
}

module ProductSliceHw6 {
  import opened Common
  import opened Seqs

  /** What the server may send as a product's `category`: an id, a populated category object, `null`, or nothing. */
  datatype CategoryValue = Text(s: string) | Object(id: Option<string>) | Null | Undefined

  /** A product as it arrives from the server; every field but `category` is carried along unchanged. */
  datatype Product = Product(
    id: string, name: string, description: string, category: CategoryValue,
    stock: int, price: real, image: Option<string>)

  /**
   * `typeof c === "object" && c !== null ? c._id : c`: a category object
   * becomes its `_id` (nothing when it has none); anything else is kept.
   */
  function NormalizedCategory(c: CategoryValue): (r: CategoryValue)
    ensures !r.Object?
    ensures !c.Object? ==> r == c
    ensures c.Object? && c.id.Some? ==> r == Text(c.id.value)
    ensures c.Object? && c.id.None? ==> r == Undefined
  {
    match c
    case Object(id) => (match id case Some(s) => Text(s) case None => Undefined)
    case _ => c
  }

  /** `{ ...p, category: … }`: only `category` changes. */
  function Normalized(p: Product): (r: Product)
    ensures r.category == NormalizedCategory(p.category)
    ensures r.(category := p.category) == p
  {
    p.(category := NormalizedCategory(p.category))
  }

  /** Normalising a second time changes nothing. */
  lemma NormalizedIdempotent(p: Product)
    ensures Normalized(Normalized(p)) == Normalized(p)
  {
  }

  /**
   * `loadProducts`: the fetched list with every product normalised; order
   * and length are kept, and products whose category is not an object are
   * unchanged.
   */
  function LoadedProducts(fetched: seq<Product>): (r: seq<Product>)
    ensures |r| == |fetched|
    ensures forall i :: 0 <= i < |fetched| ==> r[i] == Normalized(fetched[i])
    ensures forall i :: 0 <= i < |fetched| && !fetched[i].category.Object? ==> r[i] == fetched[i]
    ensures forall i :: 0 <= i < |r| ==> !r[i].category.Object?
  {
    Map(fetched, Normalized)
  }

  /** Loading an already normalised list changes nothing. */
  lemma LoadedProductsIdempotent(fetched: seq<Product>)
    ensures LoadedProducts(LoadedProducts(fetched)) == LoadedProducts(fetched)
  {
    var once := LoadedProducts(fetched);
    assert forall i :: 0 <= i < |once| ==> Normalized(once[i]) == once[i];
  }

  /** The text the slice stores when a load fails without a message. */
  const LoadErrorDefault := "Ошибка загрузки товаров"

  /** `action.error.message || "Ошибка загрузки товаров"`. */
  function LoadErrorText(message: Option<string>): (r: string)
    ensures message.Some? && message.value != "" ==> r == message.value
    ensures message.None? || message == Some("") ==> r == LoadErrorDefault
    ensures r != ""
  {
    if message.Some? && message.value != "" then message.value else LoadErrorDefault
  }

  /** The actions the slice sees; the thunks have already normalised the payloads. */
  datatype Action =
    | LoadPending
    | LoadFulfilled(products: seq<Product>)
    | LoadRejected(message: Option<string>)
    | AddFulfilled(product: Product)
    | EditFulfilled(product: Product)
    | RemoveFulfilled(id: string)
    | OtherRejected

  /** The `findIndex` and `filter` callbacks that test a product's `_id`. */
  function ProductIdIs(id: string): Product -> bool
  {
    (p: Product) => p.id == id
  }

  function ProductIdIsNot(id: string): Product -> bool
  {
    (p: Product) => p.id != id
  }

  /** The slice state. */
  class ProductsState {
    var products: seq<Product>
    var loading: bool
    var error: Option<string>

    /** No products, not loading, no error. */
    constructor ()
      ensures products == [] && !loading && error == None
    {
      products := [];
      loading := false;
      error := None;
    }

    /** The `extraReducers` cases. */
    method Reduce(action: Action)
      modifies this
      ensures action.LoadPending? ==> loading && error == old(error) && products == old(products)
      ensures action.LoadFulfilled? ==> !loading && products == action.products && error == old(error)
      ensures action.LoadRejected? ==>
        !loading && error == Some(LoadErrorText(action.message)) && products == old(products)
      ensures action.AddFulfilled? ==>
        products == old(products) + [action.product] && loading == old(loading) && error == old(error)
      ensures action.EditFulfilled? ==>
        products == ReplaceFirst(old(products), ProductIdIs(action.product.id), action.product)
        && loading == old(loading) && error == old(error)
      ensures action.RemoveFulfilled? ==>
        products == Filter(old(products), ProductIdIsNot(action.id)) && loading == old(loading) && error == old(error)
      ensures action.OtherRejected? ==>
        products == old(products) && loading == old(loading) && error == old(error)
    {
      match action
      case LoadPending =>
        loading := true;
      case LoadFulfilled(payload) =>
        loading := false;
        products := payload;
      case LoadRejected(message) =>
        loading := false;
        error := Some(LoadErrorText(message));
      case AddFulfilled(payload) =>
        products := products + [payload];
      case EditFulfilled(payload) =>
        var index := FindIndex(products, ProductIdIs(payload.id));
        if index.Some? {
          products := products[index.value := payload];
        }
      case RemoveFulfilled(id) =>
        products := Filter(products, ProductIdIsNot(id));
      case OtherRejected =>
    }
  }

  /** The `editProduct` thunk's result: the server's record with its category normalised. */
  function EditedProduct(updated: Product): (r: Product)
    ensures r.id == updated.id
    ensures !r.category.Object?
    ensures !updated.category.Object? ==> r == updated
    ensures r.category == NormalizedCategory(updated.category)
    ensures r.(category := updated.category) == updated
  {
    Normalized(updated)
  }

  /**
   * A fulfilled removal drops every product with that id and keeps the
   * others in order; an absent id changes nothing.
   */
  lemma RemoveFulfilledDropsExactlyId(s: seq<Product>, id: string)
    ensures forall p :: p in Filter(s, ProductIdIsNot(id)) ==> p.id != id
    ensures forall i :: 0 <= i < |s| && s[i].id != id ==> s[i] in Filter(s, ProductIdIsNot(id))
    ensures IsSubsequence(Filter(s, ProductIdIsNot(id)), s)
    ensures (forall i :: 0 <= i < |s| ==> s[i].id != id) ==> Filter(s, ProductIdIsNot(id)) == s
  {
    FilterIsSubsequence(s, ProductIdIsNot(id));
    if forall i :: 0 <= i < |s| ==> s[i].id != id {
      FilterKeepsAll(s, ProductIdIsNot(id));
    }
  }
}
