/** The hw2 product card: the description cut to 100 characters and the image-or-placeholder choice. */
module ProductCardHw2 {
  import opened Common
  import opened Seqs

  const MaxDescription: nat := 100

  /** `description.length > 100 ? description.slice(0, 100) + '...' : description`. */
  function ShortenedDescription(description: string): (r: string)
    ensures |description| <= MaxDescription ==> r == description
    ensures |description| > MaxDescription ==> r == description[..MaxDescription] + "..."
    ensures |r| <= MaxDescription + 3
    ensures r[..Min(|description|, MaxDescription)] == description[..Min(|description|, MaxDescription)]
  {
    if |description| > MaxDescription then Slice(description, 0, MaxDescription) + "..." else description
  }

  /** A shortened description is shortened to itself. */
  lemma ShortenedIdempotent(description: string)
    ensures ShortenedDescription(ShortenedDescription(description)) == ShortenedDescription(description)
  {
    var r := ShortenedDescription(description);
    if |description| > MaxDescription {
      assert r[..MaxDescription] == description[..MaxDescription];
    }
  }

  /** Two long descriptions that agree on their first 100 characters show the same text. */
  lemma LongDescriptionsAgreeOnPrefix(a: string, b: string)
    requires |a| > MaxDescription && |b| > MaxDescription
    requires a[..MaxDescription] == b[..MaxDescription]
    ensures ShortenedDescription(a) == ShortenedDescription(b)
  {
  }

  /** The image shown for `imageUrl`: `None` (the placeholder) when it is missing or empty. */
  function ShownImage(imageUrl: Option<string>): (r: Option<string>)
    ensures r.Some? <==> imageUrl.Some? && imageUrl.value != ""
    ensures r.Some? ==> r == imageUrl
  {
    if imageUrl.Some? && imageUrl.value != "" then imageUrl else None
  }
}

/**
 * The hw5 product card: the category label looked up in the store's
 * categories, the subheader, the image-or-placeholder choice, and which
 * callback a click reaches.
 */
module ProductCardHw5 {
  import opened Common
  import opened Seqs
  import opened Catalog
  import ProductCardHw2

  const CategoryPrefix := "Категория: "

  /** `categories[i]` is the first category whose `_id` is `id`. */
  predicate FirstWithId(categories: seq<Category>, id: string, i: int)
  {
    0 <= i < |categories| && categories[i].id == id
    && forall j :: 0 <= j < i ==> categories[j].id != id
  }

  /**
   * `categories.find(cat => cat._id === product.category)?.name || product.category`:
   * the name of the first category with the product's `_id`, or the raw
   * `_id` when there is none or its name is empty.
   */
  function CategoryLabel(categories: seq<Category>, product: Product): (r: string)
    ensures forall i :: FirstWithId(categories, product.category, i) ==>
      r == if categories[i].name != "" then categories[i].name else product.category
    ensures r != "" <==> product.category != "" || exists i :: 0 <= i < |categories| && categories[i].id == product.category && categories[i].name != "" && forall j :: 0 <= j < i ==> categories[j].id != product.category
    ensures (forall i :: 0 <= i < |categories| ==> categories[i].id != product.category) ==> r == product.category
  {
    match Find(categories, CategoryIdIs(product.category))
    case Some(cat) => if cat.name != "" then cat.name else product.category
    case None => product.category
  }

  /** The subheader: `Категория: <label>`, or `''` when the product has no category. */
  function Subheader(categories: seq<Category>, product: Product): (r: string)
    ensures product.category == "" <==> r == ""
    ensures product.category != "" ==> r == CategoryPrefix + CategoryLabel(categories, product)
  {
    if product.category != "" then CategoryPrefix + CategoryLabel(categories, product) else ""
  }

  /** When the category is loaded under a non-empty name, the label is that name. */
  lemma LabelIsLoadedName(categories: seq<Category>, product: Product, i: nat)
    requires i < |categories| && categories[i].id == product.category && categories[i].name != ""
    requires forall j :: 0 <= j < |categories| && j != i ==> categories[j].id != product.category
    ensures CategoryLabel(categories, product) == categories[i].name
    ensures product.category != "" ==>
      Subheader(categories, product) == CategoryPrefix + categories[i].name
  {
    var k := FindIndex(categories, CategoryIdIs(product.category)).value;
    assert k == i;
  }

  /** Where a click lands on the card. */
  datatype Target = Card | DeleteButton

  /** The image shown: the same `image ? <img> : placeholder` test as the hw2 card. */
  function ShownImage(product: Product): (r: Option<string>)
    ensures r.Some? <==> product.image.Some? && product.image.value != ""
    ensures r.Some? ==> r == product.image
  {
    ProductCardHw2.ShownImage(product.image)
  }

  /** Which of the card's callbacks runs. */
  datatype Call = OnClick(product: Product) | OnDelete(id: string)

  /**
   * A click on the card calls `onClick(product)`. The delete button calls
   * `onDelete(product._id)` and stops the event there, so the card's own
   * handler does not run.
   */
  function Clicked(product: Product, target: Target): (r: seq<Call>)
    ensures |r| == 1
    ensures target == DeleteButton <==> r == [OnDelete(product.id)]
    ensures target == Card <==> r == [OnClick(product)]
  {
    match target
    case DeleteButton => [OnDelete(product.id)]
    case Card => [OnClick(product)]
  }
}
