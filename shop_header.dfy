/** The storefront header: menu navigation (which writes the listing filter
    to session storage), the wishlist sheet with its remove button, and the
    badge counts on the wishlist and cart buttons. */
module ShopHeader {
  import opened Catalog
  import opened Wishlist

  datatype MenuItem = MenuItem(id: string, caption: string, path: string)

  /** What `JSON.stringify(currentFilter)` stores: `null` or `{category: [...]}`. */
  datatype StoredFilter = NullFilter | CategoryFilter(category: seq<string>)

  /** The `filters` key of session storage; None when the key is absent. */
  class FilterStorage {
    var filters: Option<StoredFilter>

    constructor ()
      ensures filters.None?
    {
      filters := None;
    }
  }

  /** Menu entries that are not categories. */
  predicate IsPlainPage(id: string)
  {
    id == "home" || id == "products" || id == "search"
  }

  /** The listing filter a menu entry selects: none for the home, products
      and search pages, the one category named by the entry otherwise. */
  function NavFilter(id: string): (r: StoredFilter)
    ensures r == NullFilter <==> IsPlainPage(id)
    ensures r.CategoryFilter? ==> r.category == [id]
  {
    if !IsPlainPage(id) then CategoryFilter([id]) else NullFilter
  }

  /** `sub` occurs in `s` at position `k`. */
  predicate OccursAt(sub: string, s: string, k: int)
  {
    0 <= k && k + |sub| <= |s| && s[k..k + |sub|] == sub
  }

  /** `sub` occurs in `s` at position `start` or later, searched left to right. */
  predicate OccursFrom(sub: string, s: string, start: nat)
    decreases |s| - start
  {
    start + |sub| <= |s| &&
    (OccursAt(sub, s, start) || OccursFrom(sub, s, start + 1))
  }

  /** `s.includes(sub)`. */
  function Includes(s: string, sub: string): (r: bool)
    ensures r <==> exists k :: OccursAt(sub, s, k)
  {
    OccursFromAll(sub, s, 0);
    OccursFrom(sub, s, 0)
  }

  lemma {:induction false} OccursFromAll(sub: string, s: string, start: nat)
    ensures OccursFrom(sub, s, start) <==> exists k :: start <= k && OccursAt(sub, s, k)
    decreases |s| - start
  {
    if start + |sub| <= |s| {
      OccursFromAll(sub, s, start + 1);
      if OccursAt(sub, s, start) {
        assert start <= start && OccursAt(sub, s, start);
      }
      forall k | start <= k && OccursAt(sub, s, k)
        ensures OccursFrom(sub, s, start)
      {
        if k > start {
          assert start + 1 <= k && OccursAt(sub, s, k);
        }
      }
    }
  }

  datatype RouteChange = SetCategoryParam(category: string) | NavigateTo(path: string)

  /** A menu click: the stored filter is replaced (by `null` too), then a
      category entry on a listing page only rewrites the `category` search
      parameter, and everything else navigates to the entry's path. */
  method HandleNavigate(item: MenuItem, pathname: string, session: FilterStorage)
    returns (route: RouteChange)
    modifies session
    ensures session.filters == Some(NavFilter(item.id))
    ensures route == SetCategoryParam(item.id) <==> Includes(pathname, "listing") && !IsPlainPage(item.id)
    ensures !route.SetCategoryParam? ==> route == NavigateTo(item.path)
  {
    session.filters := None;
    var currentFilter := NavFilter(item.id);
    session.filters := Some(currentFilter);
    if Includes(pathname, "listing") && currentFilter != NullFilter {
      route := SetCategoryParam(item.id);
    } else {
      route := NavigateTo(item.path);
    }
  }

  /** The lines handed to the cart sheet: the cart's items, or none at all
      when the cart is absent or empty. */
  function CartWrapperItems(cart: Option<Cart>): (r: seq<CartItem>)
    ensures cart.Some? ==> r == cart.value.items
    ensures cart.None? ==> r == []
  {
    if cart.Some? && |cart.value.items| > 0 then cart.value.items else []
  }

  /** The header's right-hand state: the wishlist as last loaded or broadcast. */
  class HeaderRightContent {
    var wishlistItems: seq<WishlistItem>

    constructor ()
      ensures wishlistItems == []
    {
      wishlistItems := [];
    }

    /** Loading on mount: the stored list, or an empty one when it does not parse. */
    method LoadWishlist(storage: WishlistStorage)
      modifies this
      ensures storage.stored.Some? ==> wishlistItems == storage.stored.value
      ensures storage.stored.None? ==> wishlistItems == []
    {
      wishlistItems := if storage.stored.Some? then storage.stored.value else [];
    }

    /** The `wishlistUpdated` listener. */
    method OnWishlistUpdated(items: seq<WishlistItem>)
      modifies this
      ensures wishlistItems == items
    {
      wishlistItems := items;
    }

    /** The trash button: keep every other entry in order, persist the list
        and broadcast it. The badge drops by the entries removed. */
    method RemoveFromWishlist(productId: string, storage: WishlistStorage)
      returns (broadcast: seq<WishlistItem>)
      modifies this, storage
      ensures wishlistItems == RemoveProduct(old(wishlistItems), productId)
      ensures storage.stored == Some(wishlistItems) && broadcast == wishlistItems
      ensures !Contains(wishlistItems, productId)
      ensures |wishlistItems| == |old(wishlistItems)| - CountOf(old(wishlistItems), productId)
    {
      var updated := RemoveProduct(wishlistItems, productId);
      RemovedIsAbsent(wishlistItems, productId);
      RemoveProductLength(wishlistItems, productId);
      storage.stored := Some(updated);
      wishlistItems := updated;
      broadcast := updated;
    }
  }
}
