/**
 * models/ProductsSchema.js: the product record, its required paths, the closed
 * status enumeration and the defaults a new product starts with.
 */
module ProductSchema {
  import opened Wrappers
  import opened Text

  /** The enumeration shared by `imageStatus` and `keywordStatus`. */
  datatype Status = Pending | Processing | Completed | Failed

  function StatusName(s: Status): string {
    match s
    case Pending => "pending"
    case Processing => "processing"
    case Completed => "completed"
    case Failed => "failed"
  }

  /** The enum validator: only the four names are accepted. */
  function ParseStatus(t: string): (r: Option<Status>)
    ensures r.Some? <==> t in ["pending", "processing", "completed", "failed"]
  {
    if t == "pending" then Some(Pending)
    else if t == "processing" then Some(Processing)
    else if t == "completed" then Some(Completed)
    else if t == "failed" then Some(Failed)
    else None
  }

  /** Names and the enum validator agree in both directions. */
  lemma StatusRoundTrip(s: Status, t: string)
    ensures ParseStatus(StatusName(s)) == Some(s)
    ensures ParseStatus(t) == Some(s) <==> t == StatusName(s)
  {
  }

  datatype Image = Image(url: string, publicId: string)

  /** A stored product document. Prices are in integer cents. */
  datatype Product = Product(
    id: ObjectId,
    name: string,
    description: string,
    price: int,
    category: string,
    image: Image,
    seller: ObjectId,
    tags: seq<string>,
    searchKeywords: seq<string>,
    semanticVector: seq<real>,
    imageStatus: Status,
    keywordStatus: Status,
    imageUploadedAt: Option<int>,
    keywordsGeneratedAt: Option<int>)

  /** The paths a caller supplies to `ProductsSchema.create`; `None` is an absent path. */
  datatype ProductFields = ProductFields(
    name: Option<string>,
    description: Option<string>,
    price: Option<int>,
    category: Option<string>,
    seller: Option<ObjectId>)

  /** Mongoose's `required` on a String path rejects both absence and "". */
  predicate TextPresent(o: Option<string>) {
    o.Some? && o.value != ""
  }

  /** The required paths that are missing, in schema order. */
  function MissingRequired(f: ProductFields): seq<string> {
    (if TextPresent(f.name) then [] else ["name"])
    + (if TextPresent(f.description) then [] else ["description"])
    + (if f.price.Some? then [] else ["price"])
    + (if TextPresent(f.category) then [] else ["category"])
    + (if f.seller.Some? then [] else ["seller"])
  }

  /** A path is reported missing exactly when it is required and absent. */
  lemma MissingRequiredExact(f: ProductFields)
    ensures "name" in MissingRequired(f) <==> !TextPresent(f.name)
    ensures "description" in MissingRequired(f) <==> !TextPresent(f.description)
    ensures "price" in MissingRequired(f) <==> f.price.None?
    ensures "category" in MissingRequired(f) <==> !TextPresent(f.category)
    ensures "seller" in MissingRequired(f) <==> f.seller.None?
    ensures MissingRequired(f) == [] <==>
      TextPresent(f.name) && TextPresent(f.description) && f.price.Some? && TextPresent(f.category) && f.seller.Some?
  {
    var a: seq<string> := if TextPresent(f.name) then [] else ["name"];
    var b: seq<string> := if TextPresent(f.description) then [] else ["description"];
    var c: seq<string> := if f.price.Some? then [] else ["price"];
    var d: seq<string> := if TextPresent(f.category) then [] else ["category"];
    var e: seq<string> := if f.seller.Some? then [] else ["seller"];
    assert MissingRequired(f) == a + b + c + d + e;
    assert forall x :: x in a + b + c + d + e <==> x in a || x in b || x in c || x in d || x in e;
    assert |"name"| == 4 && |"description"| == 11 && |"price"| == 5 && |"category"| == 8 && |"seller"| == 6;
  }

  /** A stored product satisfies the schema's required paths. */
  predicate Valid(p: Product) {
    p.name != "" && p.description != "" && p.category != ""
  }

  /** What a product looks like before any enrichment has run. */
  predicate IsSkeleton(p: Product) {
    && p.imageStatus == Pending && p.keywordStatus == Pending
    && p.image == Image("", "")
    && p.tags == [] && p.searchKeywords == [] && p.semanticVector == []
    && p.imageUploadedAt.None? && p.keywordsGeneratedAt.None?
  }

  /**
   * `ProductsSchema.create(fields)` with the document id `id`: a ValidationError listing
   * the missing required paths, or a valid skeleton product carrying the given fields.
   */
  function Create(id: ObjectId, f: ProductFields): (r: Result<Product, seq<string>>)
    ensures r.Success? <==> MissingRequired(f) == []
    ensures r.Failure? ==> r.error == MissingRequired(f) && r.error != []
    ensures r.Success? ==>
      && Valid(r.value) && IsSkeleton(r.value) && r.value.id == id
      && r.value.name == f.name.value && r.value.description == f.description.value
      && r.value.price == f.price.value && r.value.category == f.category.value
      && r.value.seller == f.seller.value
  {
    MissingRequiredExact(f);
    if MissingRequired(f) != [] then Failure(MissingRequired(f))
    else Success(Product(
      id, f.name.value, f.description.value, f.price.value, f.category.value,
      Image("", ""), f.seller.value, [], [], [], Pending, Pending, None, None))
  }
}
