/**
 * resources/cartResources.js: the projection of a cart item with its product, and of
 * a whole cart with its total rounded to cents. Prices and totals are in cents.
 */
module CartResources {
  import opened Wrappers
  import opened Text

  /** A product's `image` sub-document: its `url` may be absent. */
  datatype ImageRef = ImageRef(url: Option<string>)

  datatype CartProduct = CartProduct(
    id: ObjectId,
    name: string,
    description: string,
    price: int,
    category: string,
    image: Option<ImageRef>)

  datatype CartItem = CartItem(id: ObjectId, quantity: int, product: CartProduct)

  /** A JSON `imageUrl` value: `null`, a text, or no key at all (an `undefined` value). */
  datatype UrlField = NullUrl | Url(text: string) | NoKey

  datatype ProductView = ProductView(
    id: ObjectId,
    name: string,
    description: string,
    price: int,
    category: string,
    imageUrl: UrlField)

  datatype ItemView = ItemView(id: ObjectId, quantity: int, product: ProductView)

  datatype CartView = CartView(items: seq<ItemView>, totalCents: int, itemCount: int)

  /** `item.product?.image?.url || null`: the url when it is a non-empty text, otherwise null. */
  function ImageUrlOrNull(image: Option<ImageRef>): (u: UrlField)
    ensures u != NoKey
    ensures u.Url? <==> image.Some? && image.value.url.Some? && image.value.url.value != ""
    ensures u.Url? ==> u.text == image.value.url.value
  {
    if image.Some? && image.value.url.Some? && image.value.url.value != "" then Url(image.value.url.value)
    else NullUrl
  }

  /** `CartItemResource(item)` of cartResources.js. */
  function ItemResource(item: CartItem): (v: ItemView)
    ensures v.id == item.id && v.quantity == item.quantity
    ensures v.product.id == item.product.id && v.product.name == item.product.name
    ensures v.product.description == item.product.description && v.product.price == item.product.price
    ensures v.product.category == item.product.category
    ensures v.product.imageUrl == ImageUrlOrNull(item.product.image)
  {
    var p := item.product;
    ItemView(item.id, item.quantity, ProductView(p.id, p.name, p.description, p.price, p.category, ImageUrlOrNull(p.image)))
  }

  /**
   * `Number(total.toFixed(2))`, in cents: the nearest whole number of cents, a tie
   * going away from zero (toFixed works on the magnitude and picks the larger candidate).
   */
  function RoundToCents(total: real): (cents: int)
    ensures total >= 0.0 ==> -1.0 / 2.0 <= total * 100.0 - cents as real < 1.0 / 2.0
    ensures total < 0.0 ==> -1.0 / 2.0 < total * 100.0 - cents as real <= 1.0 / 2.0
  {
    if total >= 0.0 then (total * 100.0 + 1.0 / 2.0).Floor
    else -((-total) * 100.0 + 1.0 / 2.0).Floor
  }

  /** A total that already is a whole number of cents is kept exactly. */
  lemma RoundToCentsExact(k: int)
    ensures RoundToCents(k as real / 100.0) == k
  {
    var x := k as real / 100.0;
    assert x * 100.0 == k as real;
    if x < 0.0 {
      assert (-x) * 100.0 == (-k) as real;
    }
  }

  /** A negative total rounds like its magnitude, with the sign put back. */
  lemma RoundToCentsSymmetric(total: real)
    requires total > 0.0
    ensures RoundToCents(-total) == -RoundToCents(total)
  {
  }

  /** `CartResource(cart, total, itemCount)`: items mapped one to one, in order. */
  function CartResource(items: seq<CartItem>, total: real, itemCount: int): (v: CartView)
    ensures |v.items| == |items|
    ensures forall i :: 0 <= i < |items| ==> v.items[i] == ItemResource(items[i])
    ensures v.totalCents == RoundToCents(total) && v.itemCount == itemCount
  {
    CartView(seq(|items|, i requires 0 <= i < |items| => ItemResource(items[i])), RoundToCents(total), itemCount)
  }
}
