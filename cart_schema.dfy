/**
 * models/newCartSchema.js: one cart entry per (user, product), carrying a copy of the
 * product's fields and a quantity that defaults to 1 and may not go below 1.
 */
module CartSchema {
  import opened Wrappers
  import opened Text

  /** The optional image sub-document: both paths may be absent. */
  datatype CartImage = CartImage(url: Option<string>, publicId: Option<string>)

  /** A stored cart entry; `createdAt`/`updatedAt` are the automatic timestamps. */
  datatype CartRecord = CartRecord(
    id: ObjectId,
    userId: ObjectId,
    productId: ObjectId,
    name: string,
    description: string,
    price: int,
    category: string,
    image: CartImage,
    quantity: int,
    createdAt: int,
    updatedAt: int)

  /** The paths a caller supplies to `newCart.create`; `None` is an absent path. */
  datatype CartFields = CartFields(
    userId: Option<ObjectId>,
    productId: Option<ObjectId>,
    name: Option<string>,
    description: Option<string>,
    price: Option<int>,
    category: Option<string>,
    image: CartImage,
    quantity: Option<int>)

  predicate TextPresent(o: Option<string>) {
    o.Some? && o.value != ""
  }

  /** `quantity: { default: 1 }` */
  function QuantityOf(f: CartFields): int {
    f.quantity.GetOr(1)
  }

  /** The paths that fail validation, in schema order: missing required paths, then a quantity below 1. */
  function Violations(f: CartFields): seq<string> {
    (if f.userId.Some? then [] else ["userId"])
    + (if f.productId.Some? then [] else ["productId"])
    + (if TextPresent(f.name) then [] else ["name"])
    + (if TextPresent(f.description) then [] else ["description"])
    + (if f.price.Some? then [] else ["price"])
    + (if TextPresent(f.category) then [] else ["category"])
    + (if QuantityOf(f) >= 1 then [] else ["quantity"])
  }

  /** A stored entry satisfies the schema: required texts present, quantity at least 1. */
  predicate Valid(r: CartRecord) {
    r.name != "" && r.description != "" && r.category != "" && r.quantity >= 1
  }

  /**
   * `newCart.create(fields)` at time `now` with document id `id`: a ValidationError
   * listing the failing paths, or a valid entry carrying the given fields.
   */
  function Create(id: ObjectId, now: int, f: CartFields): (r: Result<CartRecord, seq<string>>)
    ensures r.Success? <==>
      f.userId.Some? && f.productId.Some? && TextPresent(f.name) && TextPresent(f.description)
      && f.price.Some? && TextPresent(f.category) && QuantityOf(f) >= 1
    ensures r.Failure? ==> r.error == Violations(f) && r.error != []
    ensures r.Success? ==>
      && Valid(r.value) && r.value.id == id
      && r.value.userId == f.userId.value && r.value.productId == f.productId.value
      && r.value.name == f.name.value && r.value.description == f.description.value
      && r.value.price == f.price.value && r.value.category == f.category.value
      && r.value.image == f.image
      && r.value.quantity == (if f.quantity.Some? then f.quantity.value else 1)
      && r.value.createdAt == now && r.value.updatedAt == now
  {
    if Violations(f) != [] then Failure(Violations(f))
    else Success(CartRecord(
      id, f.userId.value, f.productId.value, f.name.value, f.description.value,
      f.price.value, f.category.value, f.image, QuantityOf(f), now, now))
  }

  /** A quantity below 1 is rejected whatever the other paths hold. */
  lemma QuantityBelowOneRejected(id: ObjectId, now: int, f: CartFields)
    requires f.quantity.Some? && f.quantity.value < 1
    ensures Create(id, now, f).Failure? && "quantity" in Create(id, now, f).error
  {
  }
}
