/** Entities shared by the storefront and the admin panel, the lookups the
    views perform on the product and cart lists, and the pricing rule every
    cart view applies. Money is an integer number of minor units (cents). */
module Catalog {

  datatype Option<T> = None | Some(value: T)

  /** The picture shown when a product or cart line has no image. */
  const Placeholder: string := "/placeholder.png"

  /** A product document. `image` is the single picture admin-created products
      carry; a missing `totalStock` is None (JavaScript `undefined`); a missing
      `salePrice` behaves like 0 in every comparison the views make. */
  datatype Product = Product(
    id: string,
    image: Option<string>,
    images: seq<string>,
    title: string,
    description: string,
    category: string,
    brand: string,
    price: int,
    salePrice: int,
    totalStock: Option<int>,
    averageReview: real,
    sizes: seq<string>,
    colors: seq<string>)

  /** One line of the server-side cart as the client receives it. */
  datatype CartItem = CartItem(
    productId: string,
    title: string,
    image: Option<string>,
    price: int,
    salePrice: int,
    quantity: int)

  /** The cart document held by the shop store as `cartItems`. */
  datatype Cart = Cart(id: string, items: seq<CartItem>)

  /** An order's `orderStatus`: "pending", "confirmed", "rejected" or any
      other status an administrator sets. */
  datatype OrderStatus = Pending | Confirmed | Rejected | OtherStatus(name: string)

  /** A status is well formed when a known name is never carried as another status. */
  predicate WellFormedStatus(status: OrderStatus)
  {
    status.OtherStatus? ==> status.name != "pending" && status.name != "confirmed" && status.name != "rejected"
  }

  /** The status an `orderStatus` string denotes. */
  function StatusFromName(name: string): (r: OrderStatus)
    ensures WellFormedStatus(r)
    ensures r == Pending <==> name == "pending"
    ensures r == Confirmed <==> name == "confirmed"
    ensures r == Rejected <==> name == "rejected"
  {
    if name == "pending" then Pending
    else if name == "confirmed" then Confirmed
    else if name == "rejected" then Rejected
    else OtherStatus(name)
  }

  datatype Role = Customer | Admin

  datatype User = User(id: string, userName: string, email: string, role: Role)

  /** A JavaScript string is truthy iff it is present and not empty. */
  predicate Truthy(s: Option<string>)
  {
    s.Some? && s.value != ""
  }

  /** The unit price a shopper pays: the sale price when it is positive. The
      wishlist sheet shows the same price for an entry. */
  function EffectivePrice(price: int, salePrice: int): (r: int)
    ensures salePrice > 0 ==> r == salePrice
    ensures salePrice <= 0 ==> r == price
  {
    if salePrice > 0 then salePrice else price
  }

  /** A line's price: the unit price the shopper pays times the quantity,
      as every cart view shows it. */
  function LineTotal(item: CartItem): (r: int)
    ensures item.salePrice > 0 ==> r == item.salePrice * item.quantity
    ensures item.salePrice <= 0 ==> r == item.price * item.quantity
  {
    EffectivePrice(item.price, item.salePrice) * item.quantity
  }

  predicate WellPriced(item: CartItem)
  {
    item.price >= 0 && item.salePrice >= 0 && item.quantity >= 0
  }

  lemma LineTotalNonNegative(item: CartItem)
    ensures WellPriced(item) ==> LineTotal(item) >= 0
  {
    if WellPriced(item) {
      var p := EffectivePrice(item.price, item.salePrice);
      assert p >= 0;
      assert p * item.quantity >= 0;
    }
  }

  /** The `reduce` every cart view performs: the sum of the line totals, left to right. */
  function Subtotal(items: seq<CartItem>): (r: int)
    ensures items == [] ==> r == 0
    ensures (forall i :: 0 <= i < |items| ==> WellPriced(items[i])) ==> r >= 0
    decreases |items|
  {
    if items == [] then 0
    else
      var last := items[|items| - 1];
      LineTotalNonNegative(last);
      Subtotal(items[..|items| - 1]) + LineTotal(last)
  }

  /** The subtotal of two carts joined is the sum of their subtotals. */
  lemma {:induction false} SubtotalAppend(a: seq<CartItem>, b: seq<CartItem>)
    ensures Subtotal(a + b) == Subtotal(a) + Subtotal(b)
    decreases |b|
  {
    if b == [] {
      assert a + b == a;
    } else {
      var front := b[..|b| - 1];
      assert (a + b)[..|a + b| - 1] == a + front;
      assert (a + b)[|a + b| - 1] == b[|b| - 1];
      SubtotalAppend(a, front);
    }
  }

  /** `findIndex` with a key test: the first position whose key is `k`, or -1. */
  function FirstIndex<T>(xs: seq<T>, key: T -> string, k: string): (r: int)
    ensures -1 <= r < |xs|
    ensures r >= 0 ==> key(xs[r]) == k && forall j :: 0 <= j < r ==> key(xs[j]) != k
    ensures r == -1 <==> forall j :: 0 <= j < |xs| ==> key(xs[j]) != k
    decreases |xs|
  {
    if xs == [] then -1
    else if key(xs[0]) == k then 0
    else
      var i := FirstIndex(xs[1..], key, k);
      if i == -1 then -1 else i + 1
  }

  /** `findIndex` over the product list by `_id`: the first match, or -1. */
  function ProductIndex(products: seq<Product>, id: string): (r: int)
    ensures -1 <= r < |products|
    ensures r >= 0 ==> products[r].id == id && forall j :: 0 <= j < r ==> products[j].id != id
    ensures r == -1 <==> forall j :: 0 <= j < |products| ==> products[j].id != id
  {
    FirstIndex(products, (p: Product) => p.id, id)
  }

  /** `find` over the product list by `_id`. */
  function FindProduct(products: seq<Product>, id: string): (r: Option<Product>)
    ensures r.None? <==> forall j :: 0 <= j < |products| ==> products[j].id != id
    ensures r.Some? ==> r.value in products && r.value.id == id
    ensures forall j :: 0 <= j < |products| && products[j].id == id &&
                        (forall i :: 0 <= i < j ==> products[i].id != id) ==>
                          r == Some(products[j])
  {
    var k := ProductIndex(products, id);
    if k == -1 then None else Some(products[k])
  }

  /** `findIndex` over cart lines by `productId`: the first match, or -1. */
  function CartItemIndex(items: seq<CartItem>, productId: string): (r: int)
    ensures -1 <= r < |items|
    ensures r >= 0 ==> items[r].productId == productId && forall j :: 0 <= j < r ==> items[j].productId != productId
    ensures r == -1 <==> forall j :: 0 <= j < |items| ==> items[j].productId != productId
  {
    FirstIndex(items, (item: CartItem) => item.productId, productId)
  }

  /** The quantity the stepper displays: that of the first cart line for the
      product, or 0 when the cart has none. */
  function CartQuantityOf(items: seq<CartItem>, productId: string): (r: int)
    ensures (forall j :: 0 <= j < |items| ==> items[j].productId != productId) ==> r == 0
    ensures forall j :: 0 <= j < |items| && items[j].productId == productId &&
                        (forall i :: 0 <= i < j ==> items[i].productId != productId) ==>
                          r == items[j].quantity
  {
    var k := CartItemIndex(items, productId);
    if k == -1 then 0 else items[k].quantity
  }

  /** A line added after the existing ones leaves the shown quantity of a
      product already in the cart alone, and is what a product new to the cart
      shows. */
  lemma CartQuantityOfAppend(items: seq<CartItem>, line: CartItem, productId: string)
    ensures (exists j :: 0 <= j < |items| && items[j].productId == productId) ==>
              CartQuantityOf(items + [line], productId) == CartQuantityOf(items, productId)
    ensures (forall j :: 0 <= j < |items| ==> items[j].productId != productId) && line.productId == productId ==>
              CartQuantityOf(items + [line], productId) == line.quantity
  {
    var all := items + [line];
    var k := CartItemIndex(items, productId);
    if k >= 0 {
      assert all[k] == items[k];
      assert forall j :: 0 <= j < k ==> all[j] == items[j];
    } else if line.productId == productId {
      assert all[|items|] == line;
      assert forall j :: 0 <= j < |items| ==> all[j] == items[j];
    }
  }

  /** The first picture of a list, or the placeholder. */
  function FirstImageOr(images: seq<string>, fallback: string): (r: string)
    ensures images != [] ==> r == images[0]
    ensures images == [] ==> r == fallback
  {
    if |images| > 0 then images[0] else fallback
  }

  /** `list?.length || 0`: the header's badge counts and the dashboard's
      product and order counters. */
  function Count<T>(list: Option<seq<T>>): (r: nat)
    ensures list.None? ==> r == 0
    ensures list.Some? ==> r == |list.value|
  {
    if list.None? then 0 else |list.value|
  }
}
