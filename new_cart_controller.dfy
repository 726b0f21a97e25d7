/**
 * controllers/newCartController.js: the per-item cart. Each entry is one record
 * `(id, userId, productId, copied product fields, quantity)`; the four handlers add
 * (find-or-create with merge), list, remove and clear the caller's entries.
 *
 * The store is the class `CartStore`. Each handler is a method whose new state and reply
 * are tied to a specification function on the old state (`Add`, `GetCart`, `Remove`,
 * `Clear`); the lemmas below state what those functions promise.
 */
module NewCartController {
  import opened Wrappers
  import opened Text
  import opened CartSchema
  import opened ProductSchema
  import opened NewCartResource
  import AuthMiddleware
  import ProductController

  /** The caller's id as the handlers read it: `req.user._id`, cast to an ObjectId. */
  function CallerId(user: Option<AuthMiddleware.Claims>): (r: Option<ObjectId>)
    ensures r.Some? <==> user.Some? && "_id" in user.value && IsObjectIdText(user.value["_id"])
    ensures r.Some? ==> r == CastObjectId(user.value["_id"])
  {
    if user.Some? && "_id" in user.value then CastObjectId(user.value["_id"]) else None
  }

  /**
   * Every token the application signs carries `id`, never `_id`, so a request that
   * passed `VerifyToken` has no caller id and each cart handler answers 401.
   */
  lemma SignedTokenHasNoCallerId(id: string, role: string, iat: string)
    ensures CallerId(Some(AuthMiddleware.SignedClaims(id, role, iat))).None?
  {
  }

  /** The caller's id read from the claim the token actually carries, `req.user.id`. */
  function CallerIdCorrected(user: Option<AuthMiddleware.Claims>): (r: Option<ObjectId>)
    ensures r.Some? <==> user.Some? && "id" in user.value && IsObjectIdText(user.value["id"])
    ensures r.Some? ==> r == CastObjectId(user.value["id"])
  {
    if user.Some? && "id" in user.value then CastObjectId(user.value["id"]) else None
  }

  /** With the corrected read, a signed token's user id reaches the handlers. */
  lemma SignedTokenCarriesCallerId(id: string, role: string, iat: string)
    requires IsObjectIdText(id)
    ensures CallerIdCorrected(Some(AuthMiddleware.SignedClaims(id, role, iat))) == CastObjectId(id)
    ensures CallerIdCorrected(Some(AuthMiddleware.SignedClaims(id, role, iat))).Some?
  {
  }

  /** `const { productId, quantity = 1 } = req.body` */
  datatype AddBody = AddBody(productId: Option<string>, quantity: Option<int>)

  datatype CartData = NoData | Entry(record: CartRecord) | Entries(views: seq<NewCartView>)

  /** A JSON reply: status code, `success`, `message` and `data`. */
  datatype CartReply = CartReply(status: int, success: bool, message: string, data: CartData)

  /** A handler's reply together with the store it leaves behind. */
  datatype Outcome = Outcome(reply: CartReply, records: seq<CartRecord>, nextId: ObjectId)

  const AuthRequiredMessage := "User authentication required"
  const ProductIdRequiredMessage := "Product ID is required"
  const ProductNotFoundMessage := "Product not found"
  const CartUpdatedMessage := "Cart updated successfully"
  const ItemAddedMessage := "Item added to cart successfully"
  const AddFailedMessage := "Could not add to cart"
  const CartRetrievedMessage := "Cart items retrieved successfully"
  const RetrieveFailedMessage := "Could not retrieve cart"
  const ItemNotFoundMessage := "Cart item not found"
  const ItemRemovedMessage := "Item removed from cart successfully"
  const RemoveFailedMessage := "Could not remove item from cart"
  const CartClearedMessage := "Cart cleared successfully"

  function Fail(status: int, message: string): CartReply {
    CartReply(status, false, message, NoData)
  }

  function Ok(status: int, message: string, data: CartData): CartReply {
    CartReply(status, true, message, data)
  }

  /** Two records describe the same cart line: same user, same product. */
  predicate SameLine(a: CartRecord, b: CartRecord) {
    a.userId == b.userId && a.productId == b.productId
  }

  /**
   * The store's invariant: every record satisfies the schema and has an id below the
   * next one to be drawn; ids are distinct, and each (user, product) line occurs once.
   */
  predicate WellFormed(rs: seq<CartRecord>, nextId: ObjectId) {
    && (forall i :: 0 <= i < |rs| ==> rs[i].id < nextId && CartSchema.Valid(rs[i]))
    && (forall i, j :: 0 <= i < j < |rs| ==> rs[i].id != rs[j].id && !SameLine(rs[i], rs[j]))
  }

  /** The product collection as `ProductStore` keeps it. */
  predicate CatalogueValid(products: map<ObjectId, Product>) {
    forall id :: id in products ==> products[id].id == id && ProductSchema.Valid(products[id])
  }

  /** The two queries the handlers send: `{ userId, productId }` and `{ _id, userId }`. */
  datatype Query = ByLine(userId: ObjectId, productId: ObjectId) | ByEntry(id: ObjectId, userId: ObjectId)

  predicate Matches(q: Query, x: CartRecord) {
    match q
    case ByLine(u, p) => x.userId == u && x.productId == p
    case ByEntry(id, u) => x.id == id && x.userId == u
  }

  /** `findOne(query)`: the position of the first matching record in store order. */
  function FindFirst(rs: seq<CartRecord>, q: Query): (r: Option<nat>)
    ensures r.None? <==> forall i :: 0 <= i < |rs| ==> !Matches(q, rs[i])
    ensures r.Some? ==>
      r.value < |rs| && Matches(q, rs[r.value]) && forall i :: 0 <= i < r.value ==> !Matches(q, rs[i])
  {
    if |rs| == 0 then None
    else if Matches(q, rs[0]) then Some(0)
    else match FindFirst(rs[1..], q)
      case None => None
      case Some(k) => Some(k + 1)
  }

  /** `find({ userId })`: the user's records, in store order. */
  function OfUser(rs: seq<CartRecord>, u: ObjectId): (r: seq<CartRecord>)
    ensures |r| <= |rs|
  {
    if |rs| == 0 then []
    else (if rs[0].userId == u then [rs[0]] else []) + OfUser(rs[1..], u)
  }

  /** What `deleteMany({ userId })` leaves: every record of another user, in store order. */
  function WithoutUser(rs: seq<CartRecord>, u: ObjectId): (r: seq<CartRecord>)
    ensures |r| <= |rs|
  {
    if |rs| == 0 then []
    else (if rs[0].userId != u then [rs[0]] else []) + WithoutUser(rs[1..], u)
  }

  /** `find({ userId })` returns exactly the user's records. */
  lemma {:induction false} OfUserMembers(rs: seq<CartRecord>, u: ObjectId)
    ensures forall x :: x in OfUser(rs, u) <==> x in rs && x.userId == u
  {
    if |rs| > 0 {
      OfUserMembers(rs[1..], u);
      assert rs == [rs[0]] + rs[1..];
    }
  }

  /** `deleteMany({ userId })` leaves exactly the other users' records. */
  lemma {:induction false} WithoutUserMembers(rs: seq<CartRecord>, u: ObjectId)
    ensures forall x :: x in WithoutUser(rs, u) <==> x in rs && x.userId != u
  {
    if |rs| > 0 {
      WithoutUserMembers(rs[1..], u);
      assert rs == [rs[0]] + rs[1..];
    }
  }

  /** The store without its `i`th record. */
  function RemoveAt(rs: seq<CartRecord>, i: nat): (r: seq<CartRecord>)
    requires i < |rs|
    ensures |r| == |rs| - 1
    ensures forall k :: 0 <= k < |r| ==> r[k] == rs[if k < i then k else k + 1]
  {
    rs[..i] + rs[i + 1..]
  }

  /** `.populate("productId")`: each record with its product, or null when it is gone. */
  function Populate(rs: seq<CartRecord>, products: map<ObjectId, Product>): (r: seq<PopulatedEntry>)
    ensures |r| == |rs|
    ensures forall i :: 0 <= i < |rs| ==>
      r[i].record == rs[i] && r[i].product == (if rs[i].productId in products then Some(products[rs[i].productId]) else None)
  {
    seq(|rs|, i requires 0 <= i < |rs| =>
      PopulatedEntry(rs[i], if rs[i].productId in products then Some(products[rs[i].productId]) else None))
  }

  /** The fields `addToCartNew` passes to `newCart.create`: the product's copy and the quantity. */
  function LineFields(u: ObjectId, pid: ObjectId, p: Product, quantity: int): CartFields {
    CartFields(Some(u), Some(pid), Some(p.name), Some(p.description), Some(p.price), Some(p.category),
      CartImage(Some(p.image.url), Some(p.image.publicId)), Some(quantity))
  }

  /**
   * The merged line's `updatedAt` after `save`: Mongoose stamps a document only when a
   * path changed, and `quantity += 0` changes nothing.
   */
  function Touched(updatedAt: int, added: int, now: int): int {
    if added == 0 then updatedAt else now
  }

  /**
   * `addToCartNew` on the store `rs` (next id `nextId`) at time `now`. A productId that
   * is not an ObjectId raises a CastError in `findById`, answered 500 by the catch; so
   * does a quantity that would leave a record below 1, rejected by `save` or `create`.
   * `create` draws its document id before validating.
   */
  function Add(rs: seq<CartRecord>, nextId: ObjectId, products: map<ObjectId, Product>,
               caller: Option<ObjectId>, body: AddBody, now: int): Outcome
  {
    if caller.None? then Outcome(Fail(401, AuthRequiredMessage), rs, nextId)
    else if body.productId.None? || body.productId.value == "" then
      Outcome(Fail(400, ProductIdRequiredMessage), rs, nextId)
    else match CastObjectId(body.productId.value)
      case None => Outcome(Fail(500, AddFailedMessage), rs, nextId)
      case Some(pid) =>
        if pid !in products then Outcome(Fail(404, ProductNotFoundMessage), rs, nextId)
        else
          var quantity := body.quantity.GetOr(1);
          match FindFirst(rs, ByLine(caller.value, pid))
          case Some(i) =>
            var line := rs[i].(quantity := rs[i].quantity + quantity, updatedAt := Touched(rs[i].updatedAt, quantity, now));
            if line.quantity < 1 then Outcome(Fail(500, AddFailedMessage), rs, nextId)
            else Outcome(Ok(200, CartUpdatedMessage, Entry(line)), rs[i := line], nextId)
          case None =>
            match CartSchema.Create(nextId, now, LineFields(caller.value, pid, products[pid], quantity))
            case Failure(_) => Outcome(Fail(500, AddFailedMessage), rs, nextId + 1)
            case Success(rec) => Outcome(Ok(201, ItemAddedMessage, Entry(rec)), rs + [rec], nextId + 1)
  }

  /** `getUserCart`: the caller's records, populated and projected; a missing product throws (500). */
  function GetCart(rs: seq<CartRecord>, products: map<ObjectId, Product>, caller: Option<ObjectId>): CartReply {
    if caller.None? then Fail(401, AuthRequiredMessage)
    else match CartCollection(Populate(OfUser(rs, caller.value), products))
      case None => Fail(500, RetrieveFailedMessage)
      case Some(views) => Ok(200, CartRetrievedMessage, Entries(views))
  }

  /** `removeCartItem`: `findOneAndDelete({ _id: cartItemId, userId })`; a malformed id is a CastError (500). */
  function Remove(rs: seq<CartRecord>, nextId: ObjectId, caller: Option<ObjectId>, cartItemId: string): Outcome {
    if caller.None? then Outcome(Fail(401, AuthRequiredMessage), rs, nextId)
    else match CastObjectId(cartItemId)
      case None => Outcome(Fail(500, RemoveFailedMessage), rs, nextId)
      case Some(id) =>
        match FindFirst(rs, ByEntry(id, caller.value))
        case None => Outcome(Fail(404, ItemNotFoundMessage), rs, nextId)
        case Some(i) => Outcome(Ok(200, ItemRemovedMessage, NoData), RemoveAt(rs, i), nextId)
  }

  /** `clearUserCart`: `deleteMany({ userId })`, always 200 for an authenticated caller. */
  function Clear(rs: seq<CartRecord>, nextId: ObjectId, caller: Option<ObjectId>): Outcome {
    if caller.None? then Outcome(Fail(401, AuthRequiredMessage), rs, nextId)
    else Outcome(Ok(200, CartClearedMessage, NoData), WithoutUser(rs, caller.value), nextId)
  }

  class CartStore {
    var records: seq<CartRecord>
    var nextId: ObjectId
    /** The product collection `findById` and `populate` read. */
    const catalogue: ProductController.ProductStore

    ghost predicate Valid()
      reads this, catalogue
    {
      catalogue.Valid() && WellFormed(records, nextId)
    }

    constructor (catalogue: ProductController.ProductStore)
      requires catalogue.Valid()
      ensures Valid() && this.catalogue == catalogue && records == [] && nextId == 0
    {
      this.catalogue := catalogue;
      records := [];
      nextId := 0;
    }

    method AddToCartNew(caller: Option<ObjectId>, body: AddBody, now: int) returns (r: CartReply)
      requires Valid()
      modifies this
      ensures Valid()
      ensures Outcome(r, records, nextId) == Add(old(records), old(nextId), catalogue.products, caller, body, now)
    {
      AddKeepsWellFormed(records, nextId, catalogue.products, caller, body, now);
      if caller.None? {
        return Fail(401, AuthRequiredMessage);
      }
      if body.productId.None? || body.productId.value == "" {
        return Fail(400, ProductIdRequiredMessage);
      }
      var cast := CastObjectId(body.productId.value);
      if cast.None? {
        return Fail(500, AddFailedMessage);
      }
      var pid := cast.value;
      if pid !in catalogue.products {
        return Fail(404, ProductNotFoundMessage);
      }
      var product := catalogue.products[pid];
      var quantity := body.quantity.GetOr(1);
      var existing := FindFirst(records, ByLine(caller.value, pid));
      if existing.Some? {
        var i := existing.value;
        var line := records[i].(quantity := records[i].quantity + quantity, updatedAt := Touched(records[i].updatedAt, quantity, now));
        if line.quantity < 1 {
          return Fail(500, AddFailedMessage);
        }
        records := records[i := line];
        return Ok(200, CartUpdatedMessage, Entry(line));
      }
      var id := nextId;
      nextId := nextId + 1;
      var created := CartSchema.Create(id, now, LineFields(caller.value, pid, product, quantity));
      if created.Failure? {
        return Fail(500, AddFailedMessage);
      }
      records := records + [created.value];
      r := Ok(201, ItemAddedMessage, Entry(created.value));
    }

    method GetUserCart(caller: Option<ObjectId>) returns (r: CartReply)
      requires Valid()
      ensures r == GetCart(records, catalogue.products, caller)
    {
      if caller.None? {
        return Fail(401, AuthRequiredMessage);
      }
      var entries := Populate(OfUser(records, caller.value), catalogue.products);
      var views := CartCollection(entries);
      if views.None? {
        return Fail(500, RetrieveFailedMessage);
      }
      r := Ok(200, CartRetrievedMessage, Entries(views.value));
    }

    method RemoveCartItem(caller: Option<ObjectId>, cartItemId: string) returns (r: CartReply)
      requires Valid()
      modifies this
      ensures Valid()
      ensures Outcome(r, records, nextId) == Remove(old(records), old(nextId), caller, cartItemId)
    {
      RemoveKeepsWellFormed(records, nextId, caller, cartItemId);
      if caller.None? {
        return Fail(401, AuthRequiredMessage);
      }
      var cast := CastObjectId(cartItemId);
      if cast.None? {
        return Fail(500, RemoveFailedMessage);
      }
      var found := FindFirst(records, ByEntry(cast.value, caller.value));
      if found.None? {
        return Fail(404, ItemNotFoundMessage);
      }
      records := RemoveAt(records, found.value);
      r := Ok(200, ItemRemovedMessage, NoData);
    }

    method ClearUserCart(caller: Option<ObjectId>) returns (r: CartReply)
      requires Valid()
      modifies this
      ensures Valid()
      ensures Outcome(r, records, nextId) == Clear(old(records), old(nextId), caller)
    {
      if caller.None? {
        return Fail(401, AuthRequiredMessage);
      }
      WithoutUserKeepsWellFormed(records, nextId, caller.value);
      records := WithoutUser(records, caller.value);
      r := Ok(200, CartClearedMessage, NoData);
    }
  }

  /** The product store's invariant gives the catalogue the cart relies on. */
  lemma CatalogueIsValid(catalogue: ProductController.ProductStore)
    requires catalogue.Valid()
    ensures CatalogueValid(catalogue.products)
  {
  }

  // ---------------------------------------------------------------------------------
  // The invariant

  /** `find({ userId })` distributes over concatenation, so it keeps store order. */
  lemma {:induction false} OfUserAppend(a: seq<CartRecord>, b: seq<CartRecord>, u: ObjectId)
    ensures OfUser(a + b, u) == OfUser(a, u) + OfUser(b, u)
  {
    if |a| == 0 {
      assert a + b == b;
    } else {
      assert (a + b)[0] == a[0] && (a + b)[1..] == a[1..] + b;
      OfUserAppend(a[1..], b, u);
      var head := if a[0].userId == u then [a[0]] else [];
      assert OfUser(a, u) == head + OfUser(a[1..], u);
      assert OfUser(a + b, u) == head + OfUser(a[1..] + b, u);
    }
  }

  /** Another user's record does not show in a user's listing. */
  lemma OfUserIgnores(a: seq<CartRecord>, x: CartRecord, b: seq<CartRecord>, v: ObjectId)
    requires x.userId != v
    ensures OfUser(a + [x] + b, v) == OfUser(a + b, v)
  {
    OfUserAppend(a + [x], b, v);
    OfUserAppend(a, [x], v);
    OfUserAppend(a, b, v);
    assert OfUser([x], v) == [] by { assert [x][1..] == []; }
  }

  /** What `deleteMany({ userId })` keeps distributes over concatenation. */
  lemma {:induction false} WithoutUserAppend(a: seq<CartRecord>, b: seq<CartRecord>, u: ObjectId)
    ensures WithoutUser(a + b, u) == WithoutUser(a, u) + WithoutUser(b, u)
  {
    if |a| == 0 {
      assert a + b == b;
    } else {
      assert (a + b)[0] == a[0] && (a + b)[1..] == a[1..] + b;
      WithoutUserAppend(a[1..], b, u);
      var head := if a[0].userId != u then [a[0]] else [];
      assert WithoutUser(a, u) == head + WithoutUser(a[1..], u);
      assert WithoutUser(a + b, u) == head + WithoutUser(a[1..] + b, u);
    }
  }

  /** Replacing a record by a valid one with the same id and line keeps the invariant. */
  lemma UpdateWellFormed(rs: seq<CartRecord>, nextId: ObjectId, i: nat, line: CartRecord)
    requires WellFormed(rs, nextId) && i < |rs|
    requires line.id == rs[i].id && SameLine(line, rs[i]) && CartSchema.Valid(line)
    ensures WellFormed(rs[i := line], nextId)
  {
    var r := rs[i := line];
    assert forall k :: 0 <= k < |rs| ==> r[k].id == rs[k].id && SameLine(r[k], rs[k]);
  }

  /** Appending a valid record with the next id and a new line keeps the invariant. */
  lemma AppendWellFormed(rs: seq<CartRecord>, nextId: ObjectId, rec: CartRecord)
    requires WellFormed(rs, nextId) && rec.id == nextId && CartSchema.Valid(rec)
    requires forall k :: 0 <= k < |rs| ==> !SameLine(rs[k], rec)
    ensures WellFormed(rs + [rec], nextId + 1)
  {
    var r := rs + [rec];
    assert forall k :: 0 <= k < |rs| ==> r[k] == rs[k];
  }

  /** Adding keeps every record valid, ids distinct and each (user, product) line unique. */
  lemma AddKeepsWellFormed(rs: seq<CartRecord>, nextId: ObjectId, products: map<ObjectId, Product>,
                           caller: Option<ObjectId>, body: AddBody, now: int)
    requires WellFormed(rs, nextId)
    ensures var o := Add(rs, nextId, products, caller, body, now); WellFormed(o.records, o.nextId)
  {
    var o := Add(rs, nextId, products, caller, body, now);
    if caller.Some? && body.productId.Some? && body.productId.value != ""
       && CastObjectId(body.productId.value).Some? && CastObjectId(body.productId.value).value in products {
      var pid := CastObjectId(body.productId.value).value;
      var quantity := body.quantity.GetOr(1);
      match FindFirst(rs, ByLine(caller.value, pid))
      case Some(i) =>
        var line := rs[i].(quantity := rs[i].quantity + quantity, updatedAt := Touched(rs[i].updatedAt, quantity, now));
        if line.quantity >= 1 {
          UpdateWellFormed(rs, nextId, i, line);
        }
      case None =>
        match CartSchema.Create(nextId, now, LineFields(caller.value, pid, products[pid], quantity))
        case Failure(_) =>
          assert WellFormed(rs, nextId + 1);
        case Success(rec) =>
          AppendWellFormed(rs, nextId, rec);
    }
  }

  /** Removing a record keeps the invariant. */
  lemma RemoveKeepsWellFormed(rs: seq<CartRecord>, nextId: ObjectId, caller: Option<ObjectId>, cartItemId: string)
    requires WellFormed(rs, nextId)
    ensures var o := Remove(rs, nextId, caller, cartItemId); WellFormed(o.records, o.nextId)
  {
    if caller.Some? && CastObjectId(cartItemId).Some? {
      var found := FindFirst(rs, ByEntry(CastObjectId(cartItemId).value, caller.value));
      if found.Some? {
        RemoveAtWellFormed(rs, nextId, found.value);
      }
    }
  }

  /** Deleting one record keeps the invariant. */
  lemma RemoveAtWellFormed(rs: seq<CartRecord>, nextId: ObjectId, i: nat)
    requires WellFormed(rs, nextId) && i < |rs|
    ensures WellFormed(RemoveAt(rs, i), nextId)
  {
    var r := RemoveAt(rs, i);
    forall j, k | 0 <= j < k < |r| ensures r[j].id != r[k].id && !SameLine(r[j], r[k]) {
      var j', k' := if j < i then j else j + 1, if k < i then k else k + 1;
      assert r[j] == rs[j'] && r[k] == rs[k'] && j' < k';
    }
  }

  /** A record distinct from every record of a well-formed store may be put in front of it. */
  lemma ConsWellFormed(x: CartRecord, rest: seq<CartRecord>, nextId: ObjectId)
    requires WellFormed(rest, nextId) && x.id < nextId && CartSchema.Valid(x)
    requires forall k :: 0 <= k < |rest| ==> rest[k].id != x.id && !SameLine(x, rest[k])
    ensures WellFormed([x] + rest, nextId)
  {
    var r := [x] + rest;
    forall i, j | 0 <= i < j < |r| ensures r[i].id != r[j].id && !SameLine(r[i], r[j]) {
      assert r[j] == rest[j - 1];
      if i > 0 {
        assert r[i] == rest[i - 1];
      }
    }
  }

  /** Clearing a user's records keeps the invariant. */
  lemma {:induction false} WithoutUserKeepsWellFormed(rs: seq<CartRecord>, nextId: ObjectId, u: ObjectId)
    requires WellFormed(rs, nextId)
    ensures WellFormed(WithoutUser(rs, u), nextId)
  {
    if |rs| > 0 {
      var tail := rs[1..];
      assert WellFormed(tail, nextId) by {
        assert forall i :: 0 <= i < |tail| ==> tail[i] == rs[i + 1];
      }
      WithoutUserKeepsWellFormed(tail, nextId, u);
      var rest := WithoutUser(tail, u);
      WithoutUserMembers(tail, u);
      if rs[0].userId != u {
        forall k | 0 <= k < |rest| ensures rest[k].id != rs[0].id && !SameLine(rs[0], rest[k]) {
          assert rest[k] in tail;
          var j :| 0 <= j < |tail| && tail[j] == rest[k];
          assert tail[j] == rs[j + 1];
        }
        ConsWellFormed(rs[0], rest, nextId);
        assert WithoutUser(rs, u) == [rs[0]] + rest;
      } else {
        assert WithoutUser(rs, u) == rest;
      }
    }
  }

  // ---------------------------------------------------------------------------------
  // addToCartNew

  /** Without a caller, a productId, a known product or an acceptable quantity, add creates nothing. */
  lemma AddRefusals(rs: seq<CartRecord>, nextId: ObjectId, products: map<ObjectId, Product>,
                    caller: Option<ObjectId>, body: AddBody, now: int)
    ensures var o := Add(rs, nextId, products, caller, body, now);
      && (caller.None? ==> o == Outcome(Fail(401, AuthRequiredMessage), rs, nextId))
      && (caller.Some? && (body.productId.None? || body.productId.value == "") ==>
            o == Outcome(Fail(400, ProductIdRequiredMessage), rs, nextId))
      && (caller.Some? && body.productId.Some? && CastObjectId(body.productId.value).Some?
          && CastObjectId(body.productId.value).value !in products ==>
            o == Outcome(Fail(404, ProductNotFoundMessage), rs, nextId))
      && (!o.reply.success ==> o.records == rs)
  {
  }

  /**
   * Adding a product the caller already has raises that line's quantity by the requested
   * amount (default 1), creates no record and answers 200; every other record is kept.
   */
  lemma AddMerges(rs: seq<CartRecord>, nextId: ObjectId, products: map<ObjectId, Product>,
                  u: ObjectId, body: AddBody, now: int, pid: ObjectId, i: nat)
    requires WellFormed(rs, nextId)
    requires body.productId.Some? && CastObjectId(body.productId.value) == Some(pid) && pid in products
    requires i < |rs| && rs[i].userId == u && rs[i].productId == pid
    requires rs[i].quantity + body.quantity.GetOr(1) >= 1
    ensures var o := Add(rs, nextId, products, Some(u), body, now);
      && o.reply.status == 200 && o.reply.data == Entry(o.records[i])
      && |o.records| == |rs| && o.nextId == nextId
      && o.records[i] == rs[i].(quantity := rs[i].quantity + body.quantity.GetOr(1),
                                updatedAt := Touched(rs[i].updatedAt, body.quantity.GetOr(1), now))
      && forall k :: 0 <= k < |rs| && k != i ==> o.records[k] == rs[k]
  {
    var found := FindFirst(rs, ByLine(u, pid));
    assert found == Some(i);
  }

  /**
   * Adding a product the caller does not have yet appends one record carrying the
   * product's name, description, price, category and image and the requested quantity.
   */
  lemma AddAppends(rs: seq<CartRecord>, nextId: ObjectId, products: map<ObjectId, Product>,
                   u: ObjectId, body: AddBody, now: int, pid: ObjectId)
    requires CatalogueValid(products)
    requires body.productId.Some? && CastObjectId(body.productId.value) == Some(pid) && pid in products
    requires forall k :: 0 <= k < |rs| ==> !(rs[k].userId == u && rs[k].productId == pid)
    requires body.quantity.GetOr(1) >= 1
    ensures var o := Add(rs, nextId, products, Some(u), body, now);
      var p := products[pid];
      && o.reply.status == 201 && o.nextId == nextId + 1
      && |o.records| == |rs| + 1 && o.records[..|rs|] == rs
      && var rec := o.records[|rs|];
      && o.reply.data == Entry(rec)
      && rec.id == nextId && rec.userId == u && rec.productId == pid
      && rec.name == p.name && rec.description == p.description && rec.price == p.price
      && rec.category == p.category && rec.image == CartImage(Some(p.image.url), Some(p.image.publicId))
      && rec.quantity == body.quantity.GetOr(1) && rec.createdAt == now
  {
    assert FindFirst(rs, ByLine(u, pid)).None?;
    var o := Add(rs, nextId, products, Some(u), body, now);
    assert o.records[..|rs|] == rs;
  }

  /** A quantity that would leave the line (or the new record) below 1 is refused with 500. */
  lemma AddRejectsQuantityBelowOne(rs: seq<CartRecord>, nextId: ObjectId, products: map<ObjectId, Product>,
                                   u: ObjectId, body: AddBody, now: int, pid: ObjectId)
    requires body.productId.Some? && CastObjectId(body.productId.value) == Some(pid) && pid in products
    requires var f := FindFirst(rs, ByLine(u, pid));
      (f.Some? && rs[f.value].quantity + body.quantity.GetOr(1) < 1) || (f.None? && body.quantity.GetOr(1) < 1)
    ensures var o := Add(rs, nextId, products, Some(u), body, now);
      o.reply == Fail(500, AddFailedMessage) && o.records == rs
  {
  }

  /** Adding 1 and then 3 of a product leaves one line with quantity 4. */
  lemma AddOneThenThree(rs: seq<CartRecord>, nextId: ObjectId, products: map<ObjectId, Product>,
                        u: ObjectId, t: string, pid: ObjectId, now1: int, now2: int)
    requires WellFormed(rs, nextId) && CatalogueValid(products)
    requires CastObjectId(t) == Some(pid) && pid in products
    requires forall k :: 0 <= k < |rs| ==> !(rs[k].userId == u && rs[k].productId == pid)
    ensures var o1 := Add(rs, nextId, products, Some(u), AddBody(Some(t), Some(1)), now1);
      var o2 := Add(o1.records, o1.nextId, products, Some(u), AddBody(Some(t), Some(3)), now2);
      && o1.reply.status == 201 && o2.reply.status == 200
      && |o2.records| == |rs| + 1 && o2.records[|rs|].quantity == 4
      && o2.reply.data == Entry(o2.records[|rs|])
  {
    var b1 := AddBody(Some(t), Some(1));
    AddAppends(rs, nextId, products, u, b1, now1, pid);
    AddKeepsWellFormed(rs, nextId, products, Some(u), b1, now1);
    var o1 := Add(rs, nextId, products, Some(u), b1, now1);
    AddMerges(o1.records, o1.nextId, products, u, AddBody(Some(t), Some(3)), now2, pid, |rs|);
  }

  /** Add changes no other user's records. */
  lemma AddLeavesOthersAlone(rs: seq<CartRecord>, nextId: ObjectId, products: map<ObjectId, Product>,
                             caller: Option<ObjectId>, body: AddBody, now: int, v: ObjectId)
    requires caller != Some(v)
    ensures OfUser(Add(rs, nextId, products, caller, body, now).records, v) == OfUser(rs, v)
  {
    var o := Add(rs, nextId, products, caller, body, now);
    if caller.Some? && body.productId.Some? && body.productId.value != ""
       && CastObjectId(body.productId.value).Some? && CastObjectId(body.productId.value).value in products {
      var u, pid := caller.value, CastObjectId(body.productId.value).value;
      var quantity := body.quantity.GetOr(1);
      match FindFirst(rs, ByLine(u, pid))
      case Some(i) =>
        var line := rs[i].(quantity := rs[i].quantity + quantity, updatedAt := Touched(rs[i].updatedAt, quantity, now));
        if line.quantity >= 1 {
          assert o.records == rs[i := line];
          UpdateLeavesOthersAlone(rs, i, line, v);
        } else {
          assert o.records == rs;
        }
      case None =>
        match CartSchema.Create(nextId, now, LineFields(u, pid, products[pid], quantity))
        case Failure(_) =>
          assert o.records == rs;
        case Success(rec) =>
          assert o.records == rs + [rec];
          OfUserAppend(rs, [rec], v);
          assert OfUser([rec], v) == [] by { assert [rec][1..] == []; }
    } else {
      assert o.records == rs;
    }
  }

  /** Replacing another user's record leaves a user's listing as it was. */
  lemma UpdateLeavesOthersAlone(rs: seq<CartRecord>, i: nat, line: CartRecord, v: ObjectId)
    requires i < |rs| && line.userId == rs[i].userId != v
    ensures OfUser(rs[i := line], v) == OfUser(rs, v)
  {
    assert rs[i := line] == rs[..i] + [line] + rs[i + 1..];
    assert rs == rs[..i] + [rs[i]] + rs[i + 1..];
    OfUserIgnores(rs[..i], line, rs[i + 1..], v);
    OfUserIgnores(rs[..i], rs[i], rs[i + 1..], v);
  }

  // ---------------------------------------------------------------------------------
  // getUserCart

  /**
   * A listing answers 200 exactly when every one of the caller's records still has its
   * product; it then holds one view per such record, in store order.
   */
  lemma GetCartListsCallersRecords(rs: seq<CartRecord>, products: map<ObjectId, Product>, u: ObjectId)
    requires CatalogueValid(products)
    ensures var r := GetCart(rs, products, Some(u));
      var mine := OfUser(rs, u);
      && (r.status == 200 <==> forall x :: x in mine ==> x.productId in products)
      && (r.status != 200 ==> r == Fail(500, RetrieveFailedMessage))
      && (r.status == 200 ==>
            && r.data.Entries? && |r.data.views| == |mine|
            && forall i :: 0 <= i < |mine| ==>
                 && r.data.views[i].id == mine[i].id && r.data.views[i].productId == mine[i].productId
                 && r.data.views[i].quantity == mine[i].quantity && r.data.views[i].name == mine[i].name)
  {
    var mine := OfUser(rs, u);
    var entries := Populate(mine, products);
    assert forall i :: 0 <= i < |mine| ==> mine[i] in mine;
    if forall x :: x in mine ==> x.productId in products {
      assert forall i :: 0 <= i < |entries| ==> entries[i].product.Some?;
    }
  }

  // ---------------------------------------------------------------------------------
  // removeCartItem

  /**
   * Removal answers 200 exactly when the caller owns a record with that id; it then
   * deletes that record and no other. Otherwise it answers 404 and changes nothing.
   */
  lemma RemoveDeletesOnlyTarget(rs: seq<CartRecord>, nextId: ObjectId, u: ObjectId, cartItemId: string, id: ObjectId)
    requires WellFormed(rs, nextId)
    requires CastObjectId(cartItemId) == Some(id)
    ensures var o := Remove(rs, nextId, Some(u), cartItemId);
      && (o.reply.status == 200 <==> exists k :: 0 <= k < |rs| && rs[k].id == id && rs[k].userId == u)
      && (o.reply.status != 200 ==> o == Outcome(Fail(404, ItemNotFoundMessage), rs, nextId))
      && (o.reply.status == 200 ==>
            && |o.records| == |rs| - 1
            && forall x :: x in o.records <==> x in rs && x.id != id)
  {
    match FindFirst(rs, ByEntry(id, u))
    case None =>
    case Some(i) =>
      assert Matches(ByEntry(id, u), rs[i]);
      RemoveAtMembers(rs, nextId, i);
  }

  /** In a store with distinct ids, deleting the `i`th record deletes exactly the record with its id. */
  lemma RemoveAtMembers(rs: seq<CartRecord>, nextId: ObjectId, i: nat)
    requires WellFormed(rs, nextId) && i < |rs|
    ensures forall x :: x in RemoveAt(rs, i) <==> x in rs && x.id != rs[i].id
  {
    var r := RemoveAt(rs, i);
    forall k | 0 <= k < |r| ensures r[k] in rs && r[k].id != rs[i].id {
      var k' := if k < i then k else k + 1;
      assert r[k] == rs[k'];
    }
    forall k | 0 <= k < |rs| && k != i ensures rs[k] in r {
      assert r[if k < i then k else k - 1] == rs[k];
    }
  }

  /** Removal changes no other user's records. */
  lemma RemoveLeavesOthersAlone(rs: seq<CartRecord>, nextId: ObjectId, caller: Option<ObjectId>, cartItemId: string, v: ObjectId)
    requires caller != Some(v)
    ensures OfUser(Remove(rs, nextId, caller, cartItemId).records, v) == OfUser(rs, v)
  {
    var o := Remove(rs, nextId, caller, cartItemId);
    if o.records != rs {
      var i := FindFirst(rs, ByEntry(CastObjectId(cartItemId).value, caller.value)).value;
      assert o.records == rs[..i] + rs[i + 1..];
      assert rs == rs[..i] + [rs[i]] + rs[i + 1..];
      OfUserIgnores(rs[..i], rs[i], rs[i + 1..], v);
    }
  }

  // ---------------------------------------------------------------------------------
  // clearUserCart

  /** Clearing removes all and only the caller's records, keeping the others in order. */
  lemma {:induction false} ClearRemovesAllAndOnlyCallers(rs: seq<CartRecord>, u: ObjectId, v: ObjectId)
    requires v != u
    ensures OfUser(WithoutUser(rs, u), u) == []
    ensures OfUser(WithoutUser(rs, u), v) == OfUser(rs, v)
  {
    if |rs| > 0 {
      ClearRemovesAllAndOnlyCallers(rs[1..], u, v);
      var head := if rs[0].userId != u then [rs[0]] else [];
      OfUserAppend(head, WithoutUser(rs[1..], u), u);
      OfUserAppend(head, WithoutUser(rs[1..], u), v);
      if rs[0].userId != u {
        assert OfUser(head, u) == [] by { assert head[1..] == []; }
        assert head[1..] == [];
      }
    }
  }

  /** Clearing twice is clearing once. */
  lemma {:induction false} ClearIdempotent(rs: seq<CartRecord>, u: ObjectId)
    ensures WithoutUser(WithoutUser(rs, u), u) == WithoutUser(rs, u)
  {
    if |rs| > 0 {
      ClearIdempotent(rs[1..], u);
      var head := if rs[0].userId != u then [rs[0]] else [];
      WithoutUserAppend(head, WithoutUser(rs[1..], u), u);
      if rs[0].userId != u {
        assert head[1..] == [];
      }
    }
  }

  /** After a clear the caller's cart lists as empty. */
  lemma ClearThenListIsEmpty(rs: seq<CartRecord>, nextId: ObjectId, products: map<ObjectId, Product>, u: ObjectId)
    ensures GetCart(Clear(rs, nextId, Some(u)).records, products, Some(u)) == Ok(200, CartRetrievedMessage, Entries([]))
  {
    ClearRemovesAllAndOnlyCallers(rs, u, u + 1);
  }
}
