/** The storefront's product tile: the stock and sale badge, the wishlist
    heart (kept in browser storage), and the same cart stepper as the product
    dialog, with the stock looked up in the loaded product list. */
module ShopProductTile {
  import opened Catalog
  import opened Wishlist
  import opened CartStepper

  datatype Badge = OutOfStockBadge | OnlyLeftBadge(left: int) | SaleBadge | NoBadge

  /** The corner badge, in priority order: out of stock (stock exactly 0),
      "Only N left" (stock below 10), "Sale" (positive sale price). A missing
      stock fails both stock comparisons. */
  function StockBadge(p: Product): (r: Badge)
    ensures r == OutOfStockBadge <==> p.totalStock == Some(0)
    ensures r.OnlyLeftBadge? <==> p.totalStock.Some? && p.totalStock.value != 0 && p.totalStock.value < 10
    ensures r.OnlyLeftBadge? ==> r.left == p.totalStock.value
    ensures r == SaleBadge ==> p.salePrice > 0
    ensures r == NoBadge <==> p.salePrice <= 0 && (p.totalStock.None? || p.totalStock.value >= 10)
  {
    if p.totalStock == Some(0) then OutOfStockBadge
    else if p.totalStock.Some? && p.totalStock.value < 10 then OnlyLeftBadge(p.totalStock.value)
    else if p.salePrice > 0 then SaleBadge
    else NoBadge
  }

  /** The stock the tile's stepper compares with: that of the product's entry
      in the loaded list; None (undefined) when the list or entry is missing. */
  function ListedStock(productList: Option<seq<Product>>, productId: string): (r: Option<int>)
    ensures productList.None? ==> r.None?
    ensures productList.Some? && FindProduct(productList.value, productId).None? ==> r.None?
    ensures productList.Some? && FindProduct(productList.value, productId).Some? ==>
              r == FindProduct(productList.value, productId).value.totalStock
  {
    if productList.None? then None
    else
      var found := FindProduct(productList.value, productId);
      if found.None? then None else found.value.totalStock
  }

  /** A product the list does not contain is never refused "plus". */
  lemma UnlistedProductNeverRefused(productList: Option<seq<Product>>, productId: string, quantity: int)
    requires productList.Some? ==> forall j :: 0 <= j < |productList.value| ==> productList.value[j].id != productId
    ensures !ExceedsStock(quantity + 1, ListedStock(productList, productId))
  {
  }

  /** The tile's component state. */
  class ShoppingProductTile {
    const product: Product
    var cartQuantity: int
    var isWishlisted: bool

    constructor (product: Product)
      ensures this.product == product && cartQuantity == 0 && !isWishlisted
    {
      this.product := product;
      cartQuantity := 0;
      isWishlisted := false;
    }

    /** The effect that reads storage on mount: wishlisted iff the stored list
        has an entry for the product; false when storage does not parse. */
    method InitWishlisted(storage: WishlistStorage)
      modifies this`isWishlisted
      ensures isWishlisted <==> storage.stored.Some? && Contains(storage.stored.value, product.id)
    {
      var stored := storage.stored;
      if stored.Some? {
        isWishlisted := Contains(stored.value, product.id);
      } else {
        isWishlisted := false;
      }
    }

    /** The `wishlistUpdated` listener: follow the list another view broadcast. */
    method OnWishlistUpdated(items: seq<WishlistItem>)
      modifies this`isWishlisted
      ensures isWishlisted <==> Contains(items, product.id)
    {
      isWishlisted := Contains(items, product.id);
    }

    /** The heart button. A wishlisted product loses every entry it has, the
        others staying in order; otherwise one entry is appended. The flag
        flips, and afterwards agrees with what storage holds. Unparseable
        storage aborts the toggle with nothing changed. */
    method ToggleWishlist(storage: WishlistStorage) returns (broadcast: Option<seq<WishlistItem>>)
      modifies this`isWishlisted, storage
      ensures old(storage.stored).None? ==>
                broadcast.None? && storage.stored == old(storage.stored) && isWishlisted == old(isWishlisted)
      ensures old(storage.stored).Some? && old(isWishlisted) ==>
                storage.stored == Some(RemoveProduct(old(storage.stored).value, product.id))
      ensures old(storage.stored).Some? && !old(isWishlisted) ==>
                storage.stored == Some(old(storage.stored).value + [ItemFor(product)])
      ensures old(storage.stored).Some? ==>
                broadcast == storage.stored && isWishlisted == !old(isWishlisted) &&
                (isWishlisted <==> Contains(storage.stored.value, product.id))
    {
      var stored := storage.stored;
      if stored.None? {
        broadcast := None;
        return;
      }
      var updated: seq<WishlistItem>;
      if isWishlisted {
        updated := RemoveProduct(stored.value, product.id);
        RemovedIsAbsent(stored.value, product.id);
        isWishlisted := false;
      } else {
        updated := stored.value + [ItemFor(product)];
        assert updated[|updated| - 1].productId == product.id;
        isWishlisted := true;
      }
      storage.stored := Some(updated);
      broadcast := Some(updated);
    }

    /** The effect that keeps the stepper equal to the cart's line for the product. */
    method SyncCartQuantity(items: seq<CartItem>)
      modifies this`cartQuantity
      ensures cartQuantity == CartQuantityOf(items, product.id)
    {
      var k := CartItemIndex(items, product.id);
      cartQuantity := if k >= 0 then items[k].quantity else 0;
    }

    /** The stepper, with the stock looked up in the loaded product list. */
    method HandleQuantityChange(action: StepAction, productList: Option<seq<Product>>,
                                userId: Option<string>, succeeded: bool)
      returns (request: Option<CartRequest>)
      modifies this`cartQuantity
      ensures request == StepRequest(action, old(cartQuantity), ListedStock(productList, product.id), userId, product.id)
      ensures cartQuantity == StepResult(action, old(cartQuantity), ListedStock(productList, product.id), userId, product.id, succeeded)
    {
      var stock := ListedStock(productList, product.id);
      request := StepRequest(action, cartQuantity, stock, userId, product.id);
      if request.Some? && succeeded {
        cartQuantity := QuantityAfter(request.value);
      }
    }
  }
}
