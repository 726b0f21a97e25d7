/**
 * resources/cartItemResource.js: the other projection of a cart item. It differs from
 * cartResources.js only in `imageUrl`, which here is the image's url whenever the
 * image exists.
 */
module CartItemResource {
  import opened Wrappers
  import opened CartResources

  /** `item.product && item.product.image ? item.product.image.url : null` */
  function ImageUrlIfImage(image: Option<ImageRef>): (u: UrlField)
    ensures image.None? <==> u == NullUrl
    ensures image.Some? && image.value.url.Some? ==> u == Url(image.value.url.value)
    ensures image.Some? && image.value.url.None? ==> u == NoKey
  {
    match image
    case None => NullUrl
    case Some(img) => if img.url.Some? then Url(img.url.value) else NoKey
  }

  /** `CartItemResource(item)`: `price` passes through `Number`, the identity on a number. */
  function ItemResource(item: CartItem): (v: ItemView)
    ensures v.id == item.id && v.quantity == item.quantity
    ensures v.product.id == item.product.id && v.product.name == item.product.name
    ensures v.product.description == item.product.description && v.product.price == item.product.price
    ensures v.product.category == item.product.category
    ensures v.product.imageUrl == ImageUrlIfImage(item.product.image)
  {
    var p := item.product;
    ItemView(item.id, item.quantity, ProductView(p.id, p.name, p.description, p.price, p.category, ImageUrlIfImage(p.image)))
  }

  /**
   * The two item projections agree except on `imageUrl`, and there exactly when the
   * image exists with an empty url ("" here, null there) or with no url (no key here,
   * null there).
   */
  lemma ProjectionsDiffer(item: CartItem)
    ensures ItemResource(item).(product := ItemResource(item).product.(imageUrl := NullUrl))
         == CartResources.ItemResource(item).(product := CartResources.ItemResource(item).product.(imageUrl := NullUrl))
    ensures ItemResource(item) != CartResources.ItemResource(item) <==>
      item.product.image.Some? && (item.product.image.value.url == Some("") || item.product.image.value.url.None?)
    ensures item.product.image.Some? && item.product.image.value.url == Some("") ==>
      ItemResource(item).product.imageUrl == Url("") && CartResources.ItemResource(item).product.imageUrl == NullUrl
  {
  }
}
