/** validations/cartValidation.js: the request schemas of the cart routes. */
module CartValidation {
  import opened Wrappers
  import opened Text
  import opened Rules

  datatype AddBody = AddBody(productId: Option<string>, quantity: Option<int>)
  datatype AddRequest = AddRequest(productId: string, quantity: int)

  const ProductIdRequiredMessage := "Product ID is required"
  const QuantityRequiredMessage := "Valid quantity is required"

  /** `addToCartSchema`: a 24-hex-digit productId and an integer quantity of at least 1, defaulting to 1. */
  function AddToCart(b: AddBody): (r: Result<AddRequest, seq<Issue>>)
    ensures r.Success? <==> b.productId.Some? && IsObjectIdText(b.productId.value) && (b.quantity.None? || b.quantity.value >= 1)
    ensures r.Success? ==> r.value == AddRequest(b.productId.value, b.quantity.GetOr(1)) && r.value.quantity >= 1
    ensures b.productId.None? ==> r.Failure? && |r.error| > 0 && r.error[0] == Issue("productId", Required(ProductIdRequiredMessage))
  {
    var productId := HexIdRule("productId", b.productId, Some(ProductIdRequiredMessage));
    var quantity := NumberRule("quantity", b.quantity, false, Some(1), None, false, None, Some(1));
    var issues := productId.Issues() + quantity.Issues();
    if issues == [] then Success(AddRequest(productId.value, quantity.value)) else Failure(issues)
  }

  /** `updateCartItemSchema`: a required integer quantity of at least 1. */
  function UpdateCartItem(quantity: Option<int>): (r: Result<int, seq<Issue>>)
    ensures r.Success? <==> quantity.Some? && quantity.value >= 1
    ensures r.Success? ==> r.value == quantity.value
    ensures quantity.None? ==> r == Failure([Issue("quantity", Required(QuantityRequiredMessage))])
  {
    var c := NumberRule("quantity", quantity, false, Some(1), None, true, Some(QuantityRequiredMessage), None);
    if c.Present? then Success(c.value) else Failure(c.Issues())
  }

  /** `cartItemIdParamSchema`: a `productId` route parameter of 24 hexadecimal digits, with Joi's own message. */
  function CartItemIdParam(productId: Option<string>): (r: Result<string, seq<Issue>>)
    ensures r.Success? <==> productId.Some? && IsObjectIdText(productId.value)
    ensures r.Success? ==> r.value == productId.value && CastObjectId(r.value).Some?
    ensures productId.None? ==> r == Failure([Issue("productId", Required("\"productId\" is required"))])
  {
    var c := HexIdRule("productId", productId, None);
    assert RequiredMessage("productId", None) == "\"productId\" is required";
    if c.Present? then Success(c.value) else Failure(c.Issues())
  }
}
