/** resources/productResource.js: the product payload, for a list or for one product. */
module ProductResource {
  import opened Wrappers
  import opened Text
  import opened ProductSchema

  /** `Array.isArray(products)` decides the form. */
  datatype Products = Many(items: seq<Product>) | One(item: Product)

  datatype ProductSummary = ProductSummary(
    id: ObjectId,
    name: string,
    price: int,
    category: string,
    description: string,
    image: Image)

  datatype ProductData = List(summaries: seq<ProductSummary>) | Single(summary: ProductSummary)

  /** `{ success, data, total }`; `total` is present for a list only. */
  datatype ProductPayload = ProductPayload(success: bool, data: ProductData, total: Option<int>)

  /** The fields kept of one product: id, name, price, category, description and image. */
  function Summary(p: Product): (s: ProductSummary)
    ensures s.id == p.id && s.name == p.name && s.price == p.price
    ensures s.category == p.category && s.description == p.description && s.image == p.image
  {
    ProductSummary(p.id, p.name, p.price, p.category, p.description, p.image)
  }

  function ProductResource(products: Products): (r: ProductPayload)
    ensures r.success
    ensures products.Many? ==>
      && r.data.List? && r.total == Some(|products.items|) && |r.data.summaries| == |products.items|
      && forall i :: 0 <= i < |products.items| ==> r.data.summaries[i] == Summary(products.items[i])
    ensures products.One? ==> r.data == Single(Summary(products.item)) && r.total.None?
  {
    match products
    case Many(ps) =>
      ProductPayload(true, List(seq(|ps|, i requires 0 <= i < |ps| => Summary(ps[i]))), Some(|ps|))
    case One(p) => ProductPayload(true, Single(Summary(p)), None)
  }

  /** The list form of one product carries the single form's summary, and a total of 1. */
  lemma OneAndListAgree(p: Product)
    ensures ProductResource(Many([p])) == ProductPayload(true, List([ProductResource(One(p)).data.summary]), Some(1))
  {
    var r := ProductResource(Many([p]));
    assert r.data.summaries == [Summary(p)];
  }

  /** Listing distributes over concatenation: the order of the products is kept. */
  lemma ListPreservesOrder(a: seq<Product>, b: seq<Product>)
    ensures ProductResource(Many(a + b)).data.summaries
         == ProductResource(Many(a)).data.summaries + ProductResource(Many(b)).data.summaries
  {
    var l := ProductResource(Many(a + b)).data.summaries;
    var r := ProductResource(Many(a)).data.summaries + ProductResource(Many(b)).data.summaries;
    assert |l| == |r|;
    forall i | 0 <= i < |l|
      ensures l[i] == r[i]
    {
      if i < |a| {
        assert (a + b)[i] == a[i];
      } else {
        assert (a + b)[i] == b[i - |a|];
      }
    }
  }
}
