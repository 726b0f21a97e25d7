/**
 * controllers/productController.js: `createProduct` and `deleteProduct` over the
 * product collection, held here as a map from id to product.
 */
module ProductController {
  import opened Wrappers
  import opened Text
  import opened ProductSchema

  /** The fields `createProduct` reads from the validated request body. */
  datatype CreateBody = CreateBody(
    name: Option<string>,
    description: Option<string>,
    price: Option<int>,
    category: Option<string>)

  datatype ProductReply =
    | Message(status: int, message: string)
    | Created(product: Product)
    | Deleted(product: Product)
  {
    function StatusCode(): int {
      match this
      case Message(s, _) => s
      case Created(_) => 201
      case Deleted(_) => 200
    }
  }

  const FillRequiredMessage := "PLease, fill in required fields"
  const CreateFailedMessage := "Error creating product"

  /** `!name || !price || !description` fails: absent, "" or a zero price. */
  predicate PassesRequiredGate(body: CreateBody) {
    TextPresent(body.name) && body.price.Some? && body.price.value != 0 && TextPresent(body.description)
  }

  class ProductStore {
    var products: map<ObjectId, Product>
    var nextId: ObjectId

    ghost predicate Valid()
      reads this
    {
      forall id :: id in products ==> products[id].id == id && id < nextId && ProductSchema.Valid(products[id])
    }

    constructor ()
      ensures Valid() && products == map[] && nextId == 0
    {
      products := map[];
      nextId := 0;
    }

    /**
     * `createProduct` as written: the document it builds has no `category`, which the
     * schema requires, so every request past the gate ends in the catch (401).
     * The document id is drawn when the document is built, before validation.
     */
    method CreateProduct(caller: Option<ObjectId>, body: CreateBody) returns (r: ProductReply)
      requires Valid()
      modifies this
      ensures Valid()
      ensures !PassesRequiredGate(body) ==> r == Message(400, FillRequiredMessage) && nextId == old(nextId)
      ensures PassesRequiredGate(body) ==> r == Message(401, CreateFailedMessage) && nextId == old(nextId) + 1
      ensures products == old(products)
    {
      if !PassesRequiredGate(body) {
        return Message(400, FillRequiredMessage);
      }
      var id := nextId;
      nextId := nextId + 1;
      var fields := ProductFields(body.name, body.description, body.price, None, caller);
      match ProductSchema.Create(id, fields)
      case Success(p) =>
        products := products[id := p];
        r := Created(p);
      case Failure(_) =>
        r := Message(401, CreateFailedMessage);
    }

    /**
     * `createProduct` with the category the schema requires passed through: past the
     * gate, a request with a category and an authenticated seller inserts one skeleton
     * product owned by the caller and answers 201.
     */
    method CreateProductCorrected(caller: Option<ObjectId>, body: CreateBody) returns (r: ProductReply)
      requires Valid()
      modifies this
      ensures Valid()
      ensures nextId == old(nextId) + (if PassesRequiredGate(body) then 1 else 0)
      ensures !PassesRequiredGate(body) ==> r == Message(400, FillRequiredMessage) && products == old(products)
      ensures PassesRequiredGate(body) && (!TextPresent(body.category) || caller.None?) ==>
        r == Message(401, CreateFailedMessage) && products == old(products)
      ensures PassesRequiredGate(body) && TextPresent(body.category) && caller.Some? ==>
        && r.Created?
        && old(nextId) !in old(products)
        && products == old(products)[old(nextId) := r.product]
        && r.product.id == old(nextId) && IsSkeleton(r.product)
        && r.product.seller == caller.value && r.product.category == body.category.value
        && r.product.name == body.name.value && r.product.description == body.description.value
        && r.product.price == body.price.value
    {
      if !PassesRequiredGate(body) {
        return Message(400, FillRequiredMessage);
      }
      var id := nextId;
      nextId := nextId + 1;
      var fields := ProductFields(body.name, body.description, body.price, body.category, caller);
      match ProductSchema.Create(id, fields)
      case Success(p) =>
        products := products[id := p];
        r := Created(p);
      case Failure(_) =>
        r := Message(401, CreateFailedMessage);
    }

    /**
     * `deleteProduct`: an id that is not an ObjectId raises a CastError (caught: 400
     * "Error deleting Product"); an unknown id answers 400 "Product does not exist";
     * otherwise exactly that product is removed and returned.
     */
    method DeleteProduct(idText: string) returns (r: ProductReply)
      requires Valid()
      modifies this
      ensures Valid() && nextId == old(nextId)
      ensures CastObjectId(idText).None? ==>
        r == Message(400, "Error deleting Product") && products == old(products)
      ensures CastObjectId(idText).Some? && CastObjectId(idText).value !in old(products) ==>
        r == Message(400, "Product does not exist") && products == old(products)
      ensures CastObjectId(idText).Some? && CastObjectId(idText).value in old(products) ==>
        var id := CastObjectId(idText).value;
        r == Deleted(old(products)[id]) && products == old(products) - {id}
    {
      var cast := CastObjectId(idText);
      if cast.None? {
        return Message(400, "Error deleting Product");
      }
      var id := cast.value;
      if id !in products {
        return Message(400, "Product does not exist");
      }
      r := Deleted(products[id]);
      products := products - {id};
    }
  }
}
