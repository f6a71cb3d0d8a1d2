/** One row of the cart sheet: its picture, the quantity selector (1 to 10,
    checked against the product's stock) and the remove button. */
module CartItemsContent {
  import opened Catalog
  import opened CartStepper

  /** The row's picture: the product's first image when the loaded product
      list has one, else the line's own image when truthy, else the placeholder. */
  function ProductImage(item: CartItem, productList: Option<seq<Product>>): (r: string)
    ensures productList.Some? && FindProduct(productList.value, item.productId).Some? &&
            FindProduct(productList.value, item.productId).value.images != [] ==>
              r == FindProduct(productList.value, item.productId).value.images[0]
    ensures (productList.None? || FindProduct(productList.value, item.productId).None? ||
             FindProduct(productList.value, item.productId).value.images == []) ==>
              r == (if Truthy(item.image) then item.image.value else Placeholder)
  {
    var product := if productList.Some? then FindProduct(productList.value, item.productId) else None;
    if product.Some? && |product.value.images| > 0 then product.value.images[0]
    else if Truthy(item.image) then item.image.value
    else Placeholder
  }

  /** `productList[index]?.totalStock || 0`: a product that is missing, or has
      no or zero stock, counts as 0 available. */
  function StockFor(products: seq<Product>, productId: string): (r: int)
    ensures FindProduct(products, productId).None? ==> r == 0
    ensures FindProduct(products, productId).Some? ==>
              var s := FindProduct(products, productId).value.totalStock;
              r == (if s.Some? then s.value else 0)
  {
    var k := ProductIndex(products, productId);
    if k == -1 || products[k].totalStock.None? then 0 else products[k].totalStock.value
  }

  /** What choosing a quantity does: `productList.findIndex` throws when no
      product list is loaded; a quantity above the stock is refused with the
      number available; otherwise the new quantity is sent. */
  datatype QuantityOutcome = ListMissing | OnlyAvailable(available: int) | Sent(request: CartRequest)

  function UpdateQuantityOutcome(item: CartItem, qty: int, productList: Option<seq<Product>>,
                                 userId: Option<string>): (r: QuantityOutcome)
    ensures r == ListMissing <==> productList.None?
    ensures productList.Some? ==>
              (r.OnlyAvailable? <==> qty > StockFor(productList.value, item.productId))
    ensures r.OnlyAvailable? ==> r.available == StockFor(productList.value, item.productId)
    ensures r.Sent? ==> r.request == UpdateQuantity(userId, item.productId, qty)
  {
    if productList.None? then ListMissing
    else
      var stock := StockFor(productList.value, item.productId);
      if qty > stock then OnlyAvailable(stock) else Sent(UpdateQuantity(userId, item.productId, qty))
  }

  /** A line whose product is not in the loaded list can never be updated to
      a positive quantity. */
  lemma UnlistedLineIsFrozen(item: CartItem, qty: int, products: seq<Product>, userId: Option<string>)
    requires forall j :: 0 <= j < |products| ==> products[j].id != item.productId
    requires qty >= 1
    ensures UpdateQuantityOutcome(item, qty, Some(products), userId) == OnlyAvailable(0)
  {
  }

  /** A product with a recorded stock accepts every quantity up to that stock. */
  lemma InStockQuantityIsSent(item: CartItem, qty: int, products: seq<Product>, stock: int, userId: Option<string>)
    requires FindProduct(products, item.productId).Some?
    requires FindProduct(products, item.productId).value.totalStock == Some(stock)
    requires qty <= stock
    ensures UpdateQuantityOutcome(item, qty, Some(products), userId) == Sent(UpdateQuantity(userId, item.productId, qty))
  {
  }

  /** The remove button's request. */
  function DeleteRequest(item: CartItem, userId: Option<string>): (r: CartRequest)
    ensures r.DeleteItem? && r.productId == item.productId && r.userId == userId
    ensures QuantityAfter(r) == 0
  {
    DeleteItem(userId, item.productId)
  }

  /** The selector's options: 1 to 10, in order. */
  function QuantityOptions(): (r: seq<int>)
    ensures |r| == 10
    ensures forall i :: 0 <= i < 10 ==> r[i] == i + 1
    ensures forall x :: x in r <==> 1 <= x <= 10
  {
    var r := seq(10, i => i + 1);
    OptionsAreOneToTen(r);
    r
  }

  lemma OptionsAreOneToTen(r: seq<int>)
    requires |r| == 10 && forall i :: 0 <= i < 10 ==> r[i] == i + 1
    ensures forall x :: x in r <==> 1 <= x <= 10
  {
    forall x | 1 <= x <= 10
      ensures x in r
    {
      assert r[x - 1] == x;
    }
  }
}
