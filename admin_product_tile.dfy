/** The admin product tile: the low-stock border and badge, the picture, the
    sale badge, and the form object the Edit button loads into the edit sheet. */
module AdminProductTile {
  import opened Catalog
  import opened ProductForm
  import ShopProductTile

  /** `product?.totalStock <= 5`: a comparison with a missing stock is false. */
  predicate IsLowStock(p: Product)
  {
    p.totalStock.Some? && p.totalStock.value <= 5
  }

  /** A product the admin tile marks as low on stock carries a stock badge
      (out of stock or "Only N left") on the storefront tile. */
  lemma LowStockHasStorefrontStockBadge(p: Product)
    requires IsLowStock(p)
    ensures ShopProductTile.StockBadge(p).OutOfStockBadge? || ShopProductTile.StockBadge(p).OnlyLeftBadge?
  {
  }

  /** The picture: the product's own image when truthy, else its first image,
      else the placeholder. */
  function TileImage(p: Product): (r: string)
    ensures Truthy(p.image) ==> r == p.image.value
    ensures !Truthy(p.image) && p.images != [] ==> r == p.images[0]
    ensures !Truthy(p.image) && p.images == [] ==> r == Placeholder
  {
    if Truthy(p.image) then p.image.value else FirstImageOr(p.images, Placeholder)
  }

  /** The "Sale" badge and the struck-through price both show iff the sale
      price is positive, and then the price the shopper pays is the sale price. */
  predicate OnSale(p: Product)
  {
    p.salePrice > 0
  }

  lemma OnSaleChargesSalePrice(p: Product)
    ensures OnSale(p) <==> EffectivePrice(p.price, p.salePrice) == p.salePrice && p.salePrice > 0
    ensures !OnSale(p) ==> EffectivePrice(p.price, p.salePrice) == p.price
  {
  }

  /** `{...product, sizes: first size or ""}`: the product document's fields
      (an absent `image` or `totalStock` is no key at all), with the size
      list flattened to its first entry. */
  function EditFormData(p: Product): (r: FormData)
    ensures "_id" in r && r["_id"] == Text(p.id)
    ensures "sizes" in r && r["sizes"] == (if p.sizes != [] then Text(p.sizes[0]) else Text(""))
    ensures "title" in r && r["title"] == Text(p.title) && "description" in r && r["description"] == Text(p.description)
    ensures "category" in r && r["category"] == Text(p.category) && "brand" in r && r["brand"] == Text(p.brand)
    ensures "price" in r && r["price"].Num? && "salePrice" in r && r["salePrice"].Num?
    ensures "totalStock" in r <==> p.totalStock.Some?
    ensures "image" in r <==> p.image.Some?
    ensures "images" in r && r["images"] == TextList(p.images)
  {
    var doc := map[
      "_id" := Text(p.id), "images" := TextList(p.images), "title" := Text(p.title),
      "description" := Text(p.description), "category" := Text(p.category), "brand" := Text(p.brand),
      "price" := Num(p.price as real), "salePrice" := Num(p.salePrice as real),
      "averageReview" := Num(p.averageReview), "sizes" := TextList(p.sizes), "colors" := TextList(p.colors)];
    var withImage := if p.image.Some? then doc["image" := Text(p.image.value)] else doc;
    var withStock := if p.totalStock.Some? then withImage["totalStock" := Num(p.totalStock.value as real)] else withImage;
    withStock["sizes" := if |p.sizes| > 0 then Text(p.sizes[0]) else Text("")]
  }

  /** The edit form is valid iff the id, title, description, category, brand
      and first size are all non-empty: numbers and lists never compare equal
      to "". In particular a product without sizes can never be saved. */
  lemma EditFormValidity(p: Product)
    ensures IsFormValid(EditFormData(p)) <==>
            p.id != "" && p.title != "" && p.description != "" && p.category != "" && p.brand != "" &&
            p.sizes != [] && p.sizes[0] != ""
  {
    var fd := EditFormData(p);
    if IsFormValid(fd) {
      assert fd["_id"] != Text("");
      assert fd["title"] == Text(p.title) && fd["title"] != Text("");
      assert fd["description"] == Text(p.description) && fd["description"] != Text("");
      assert fd["category"] == Text(p.category) && fd["category"] != Text("");
      assert fd["brand"] == Text(p.brand) && fd["brand"] != Text("");
      assert fd["sizes"] != Text("");
    }
  }

  /** A product without sizes opens an edit form whose Save stays disabled. */
  lemma EditWithoutSizesIsInvalid(p: Product)
    requires p.sizes == []
    ensures !IsFormValid(EditFormData(p))
  {
    EditFormValidity(p);
  }
}
