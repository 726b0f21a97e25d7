/**
 * validations/productValidation.js: the request schemas of the product routes.
 * Each schema maps the raw fields to either the sanitised value (trimmed texts,
 * defaults filled in) or the issues of the failing fields, in schema order.
 * Prices are integer cents.
 */
module ProductValidation {
  import opened Wrappers
  import opened Text
  import opened Rules

  /** The fields of a create or update body; `None` is an absent key. */
  datatype ProductBody = ProductBody(
    name: Option<string>,
    description: Option<string>,
    price: Option<int>,
    category: Option<string>,
    tags: Option<string>)

  /** A body that passed `createProductSchema`. */
  datatype ProductInput = ProductInput(name: string, description: string, price: int, category: string, tags: Option<string>)

  /** A body that passed `updateProductSchema`: the keys present, sanitised. */
  datatype ProductUpdate = ProductUpdate(
    name: Option<string>,
    description: Option<string>,
    price: Option<int>,
    category: Option<string>,
    tags: Option<string>)

  /** A text whose trimmed form is between `lo` and `hi` UTF-16 code units long. */
  predicate TrimmedWithin(s: string, lo: nat, hi: nat)
    requires 1 <= lo
  {
    lo <= Utf16Length(Trim(s)) <= hi
  }

  function NameRule(v: Option<string>, required: bool): (r: Checked<string>)
    ensures r.Present? <==> v.Some? && TrimmedWithin(v.value, 1, 200)
    ensures r.Present? ==> r.value == Trim(v.value)
    ensures r.Absent? <==> v.None? && !required
  {
    TextRule("name", v, true, 1, Some(200), required, None)
  }

  function DescriptionRule(v: Option<string>, required: bool): (r: Checked<string>)
    ensures r.Present? <==> v.Some? && TrimmedWithin(v.value, 1, 2000)
    ensures r.Present? ==> r.value == Trim(v.value)
    ensures r.Absent? <==> v.None? && !required
  {
    TextRule("description", v, true, 1, Some(2000), required, None)
  }

  function PriceRule(v: Option<int>, required: bool): (r: Checked<int>)
    ensures r.Present? <==> v.Some? && v.value > 0
    ensures r.Present? ==> r.value == v.value
    ensures r.Absent? <==> v.None? && !required
  {
    NumberRule("price", v, true, None, None, required, None, None)
  }

  function CategoryRule(v: Option<string>, required: bool): (r: Checked<string>)
    ensures r.Present? <==> v.Some? && TrimmedWithin(v.value, 1, 100)
    ensures r.Present? ==> r.value == Trim(v.value)
    ensures r.Absent? <==> v.None? && !required
  {
    TextRule("category", v, true, 1, Some(100), required, None)
  }

  /** `tags: Joi.string().optional().allow("")`: any text, including "", is kept as it is. */
  function TagsRule(v: Option<string>): (r: Checked<string>)
    ensures r.Invalid? == false
  {
    if v.Some? then Present(v.value) else Absent
  }

  /** `createProductSchema` */
  function CreateProduct(b: ProductBody): (r: Result<ProductInput, seq<Issue>>)
    ensures r.Success? <==>
      && b.name.Some? && TrimmedWithin(b.name.value, 1, 200)
      && b.description.Some? && TrimmedWithin(b.description.value, 1, 2000)
      && b.price.Some? && b.price.value > 0
      && b.category.Some? && TrimmedWithin(b.category.value, 1, 100)
    ensures r.Success? ==>
      r.value == ProductInput(Trim(b.name.value), Trim(b.description.value), b.price.value, Trim(b.category.value), b.tags)
    ensures r.Failure? ==> 1 <= |r.error| <= 4
  {
    var name := NameRule(b.name, true);
    var description := DescriptionRule(b.description, true);
    var price := PriceRule(b.price, true);
    var category := CategoryRule(b.category, true);
    var issues := name.Issues() + description.Issues() + price.Issues() + category.Issues();
    if issues == [] then Success(ProductInput(name.value, description.value, price.value, category.value, b.tags))
    else Failure(issues)
  }

  /** `updateProductSchema`: the same per-field rules, every key optional, at least one key. */
  function UpdateProduct(b: ProductBody): (r: Result<ProductUpdate, seq<Issue>>)
    ensures r.Success? <==>
      && (b.name.Some? ==> TrimmedWithin(b.name.value, 1, 200))
      && (b.description.Some? ==> TrimmedWithin(b.description.value, 1, 2000))
      && (b.price.Some? ==> b.price.value > 0)
      && (b.category.Some? ==> TrimmedWithin(b.category.value, 1, 100))
      && (b.name.Some? || b.description.Some? || b.price.Some? || b.category.Some? || b.tags.Some?)
    ensures r.Success? ==>
      && r.value.price == b.price && r.value.tags == b.tags
      && r.value.name == (if b.name.Some? then Some(Trim(b.name.value)) else None)
      && r.value.description == (if b.description.Some? then Some(Trim(b.description.value)) else None)
      && r.value.category == (if b.category.Some? then Some(Trim(b.category.value)) else None)
  {
    var name := NameRule(b.name, false);
    var description := DescriptionRule(b.description, false);
    var price := PriceRule(b.price, false);
    var category := CategoryRule(b.category, false);
    var tags := TagsRule(b.tags);
    var keys := b.name.Some? || b.description.Some? || b.price.Some? || b.category.Some? || b.tags.Some?;
    var issues := name.Issues() + description.Issues() + price.Issues() + category.Issues()
      + (if keys then [] else [Issue("value", TooFewKeys(1))]);
    if issues == [] then Success(ProductUpdate(name.Value(), description.Value(), price.Value(), category.Value(), tags.Value()))
    else Failure(issues)
  }

  /** An empty update body is refused with the single `object.min` issue. */
  lemma EmptyUpdateRejected()
    ensures UpdateProduct(ProductBody(None, None, None, None, None)) == Failure([Issue("value", TooFewKeys(1))])
  {
    var none: Checked<string> := Absent;
    var noPrice: Checked<int> := Absent;
    assert NameRule(None, false) == none && DescriptionRule(None, false) == none && CategoryRule(None, false) == none;
    assert PriceRule(None, false) == noPrice;
    assert none.Issues() + none.Issues() + noPrice.Issues() + none.Issues() + [Issue("value", TooFewKeys(1))]
      == [Issue("value", TooFewKeys(1))];
  }

  /** An update carrying only `tags: ""` is a one-key body, and passes. */
  lemma EmptyTagsCountAsAKey()
    ensures UpdateProduct(ProductBody(None, None, None, None, Some(""))).Success?
  {
  }

  /** The sanitised value of a create body is accepted again unchanged. */
  lemma CreateProductStable(b: ProductBody)
    requires CreateProduct(b).Success?
    ensures var v := CreateProduct(b).value;
      CreateProduct(ProductBody(Some(v.name), Some(v.description), Some(v.price), Some(v.category), v.tags)) == Success(v)
  {
    var v := CreateProduct(b).value;
    TrimTrimmed(v.name);
    TrimTrimmed(v.description);
    TrimTrimmed(v.category);
    var again := ProductBody(Some(v.name), Some(v.description), Some(v.price), Some(v.category), v.tags);
    assert TrimmedWithin(v.name, 1, 200) && TrimmedWithin(v.description, 1, 2000) && TrimmedWithin(v.category, 1, 100);
    CreateProductAccepts(again);
  }

  lemma CreateProductAccepts(b: ProductBody)
    requires b.name.Some? && TrimmedWithin(b.name.value, 1, 200)
    requires b.description.Some? && TrimmedWithin(b.description.value, 1, 2000)
    requires b.price.Some? && b.price.value > 0
    requires b.category.Some? && TrimmedWithin(b.category.value, 1, 100)
    ensures CreateProduct(b) ==
      Success(ProductInput(Trim(b.name.value), Trim(b.description.value), b.price.value, Trim(b.category.value), b.tags))
  {
  }

  /** Every body the create schema accepts is also a valid update, with the same values. */
  lemma CreateBodyIsValidUpdate(b: ProductBody)
    requires CreateProduct(b).Success?
    ensures UpdateProduct(b).Success?
    ensures var v := CreateProduct(b).value; var u := UpdateProduct(b).value;
      u == ProductUpdate(Some(v.name), Some(v.description), Some(v.price), Some(v.category), v.tags)
  {
  }

  datatype SearchBody = SearchBody(query: Option<string>, limit: Option<int>)
  datatype SearchQuery = SearchQuery(query: string, limit: int)

  const SearchQueryRequiredMessage := "Search query is required"

  /** `searchQuerySchema`: a non-blank query, and a limit in 1..100 that defaults to 10. */
  function Search(b: SearchBody): (r: Result<SearchQuery, seq<Issue>>)
    ensures r.Success? <==>
      b.query.Some? && Trim(b.query.value) != "" && (b.limit.None? || 1 <= b.limit.value <= 100)
    ensures r.Success? ==>
      && r.value.query == Trim(b.query.value) && 1 <= r.value.limit <= 100
      && r.value.limit == b.limit.GetOr(10)
    ensures b.query.None? ==> r.Failure? && |r.error| > 0 && r.error[0] == Issue("query", Required(SearchQueryRequiredMessage))
  {
    var query := TextRule("query", b.query, true, 1, None, true, Some(SearchQueryRequiredMessage));
    var limit := NumberRule("limit", b.limit, false, Some(1), Some(100), false, None, Some(10));
    var issues := query.Issues() + limit.Issues();
    if issues == [] then Success(SearchQuery(query.value, limit.value)) else Failure(issues)
  }

  const IdRequiredMessage := "Valid ID is required"

  /** `idParamSchema`: exactly 24 hexadecimal digits. */
  function IdParam(id: Option<string>): (r: Result<string, seq<Issue>>)
    ensures r.Success? <==> id.Some? && IsObjectIdText(id.value)
    ensures r.Success? ==> r.value == id.value && CastObjectId(r.value).Some?
    ensures id.None? ==> r == Failure([Issue("id", Required(IdRequiredMessage))])
  {
    var c := HexIdRule("id", id, Some(IdRequiredMessage));
    if c.Present? then Success(c.value) else Failure(c.Issues())
  }
}
