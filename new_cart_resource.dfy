/**
 * resources/newCartResource.js: the projection of a cart entry whose `productId` has
 * been populated with the product document, and its lifting over a list.
 */
module NewCartResource {
  import opened Wrappers
  import opened Text
  import opened CartSchema
  import opened ProductSchema

  /** A cart entry after `.populate("productId")`: `None` when the product no longer exists (null). */
  datatype PopulatedEntry = PopulatedEntry(record: CartRecord, product: Option<Product>)

  /** The projected entry; no image field is emitted. */
  datatype NewCartView = NewCartView(
    id: ObjectId,
    productId: ObjectId,
    name: string,
    description: string,
    price: int,
    category: string,
    quantity: int,
    createdAt: int,
    updatedAt: int)

  /**
   * `NewCartResource(cartItem)`: reading `cartItem.productId._id` on a null product
   * raises a TypeError, shown here as `None`.
   */
  function ProjectEntry(e: PopulatedEntry): (v: Option<NewCartView>)
    ensures v.Some? <==> e.product.Some?
    ensures v.Some? ==>
      && v.value.id == e.record.id && v.value.productId == e.product.value.id
      && v.value.name == e.record.name && v.value.description == e.record.description
      && v.value.price == e.record.price && v.value.category == e.record.category
      && v.value.quantity == e.record.quantity
      && v.value.createdAt == e.record.createdAt && v.value.updatedAt == e.record.updatedAt
  {
    match e.product
    case None => None
    case Some(p) =>
      var c := e.record;
      Some(NewCartView(c.id, p.id, c.name, c.description, c.price, c.category, c.quantity, c.createdAt, c.updatedAt))
  }

  /**
   * `CartCollection(cartItems)`: one view per entry, in order; it throws (`None`) as
   * soon as one entry's product is missing.
   */
  function CartCollection(es: seq<PopulatedEntry>): (r: Option<seq<NewCartView>>)
    ensures r.Some? <==> forall i :: 0 <= i < |es| ==> es[i].product.Some?
    ensures r.Some? ==> |r.value| == |es| && forall i :: 0 <= i < |es| ==> ProjectEntry(es[i]) == Some(r.value[i])
  {
    if |es| == 0 then Some([])
    else
      match (ProjectEntry(es[0]), CartCollection(es[1..]))
      case (Some(v), Some(vs)) =>
        assert forall i :: 1 <= i < |es| ==> es[i] == es[1..][i - 1];
        Some([v] + vs)
      case (_, _) =>
        assert forall i :: 1 <= i < |es| ==> es[i] == es[1..][i - 1];
        None
  }
}
