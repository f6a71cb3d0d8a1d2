/** The wishlist the storefront keeps in browser storage: a list of entries
    keyed by `productId`, shared by the product tiles (which toggle entries)
    and the header (which lists and removes them). */
module Wishlist {
  import opened Catalog

  /** One stored entry, copied from the product when it is added. */
  datatype WishlistItem = WishlistItem(
    productId: string,
    title: string,
    price: int,
    salePrice: int,
    image: string)

  /** The `wishlistItems` key of local storage. None stands for content that
      fails to parse; a missing key reads as the empty list. */
  class WishlistStorage {
    var stored: Option<seq<WishlistItem>>

    constructor (initial: Option<seq<WishlistItem>>)
      ensures stored == initial
    {
      stored := initial;
    }
  }

  /** The entry a product tile appends. */
  function ItemFor(p: Product): (r: WishlistItem)
    ensures r.productId == p.id && r.title == p.title
    ensures r.price == p.price && r.salePrice == p.salePrice
    ensures r.image == FirstImageOr(p.images, Placeholder)
  {
    WishlistItem(p.id, p.title, p.price, p.salePrice, FirstImageOr(p.images, Placeholder))
  }

  predicate Contains(items: seq<WishlistItem>, productId: string)
  {
    exists i :: 0 <= i < |items| && items[i].productId == productId
  }

  /** `filter(x => x.productId !== productId)`, written as the filter walks the list. */
  function RemoveProduct(items: seq<WishlistItem>, productId: string): (r: seq<WishlistItem>)
    ensures |r| <= |items|
    ensures forall i :: 0 <= i < |r| ==> r[i].productId != productId && r[i] in items
    ensures forall x :: x in items && x.productId != productId ==> x in r
    decreases |items|
  {
    if items == [] then []
    else if items[0].productId == productId then RemoveProduct(items[1..], productId)
    else [items[0]] + RemoveProduct(items[1..], productId)
  }

  /** The number of entries stored for one product. */
  function CountOf(items: seq<WishlistItem>, productId: string): (r: nat)
    ensures r <= |items|
    ensures r == 0 <==> !Contains(items, productId)
    decreases |items|
  {
    if items == [] then 0
    else
      var rest := CountOf(items[1..], productId);
      assert forall i :: 1 <= i < |items| ==> items[i] == items[1..][i - 1];
      if items[0].productId == productId then rest + 1 else rest
  }

  /** Removal keeps the other entries in their order: it distributes over concatenation. */
  lemma {:induction false} RemoveProductAppend(a: seq<WishlistItem>, b: seq<WishlistItem>, productId: string)
    ensures RemoveProduct(a + b, productId) == RemoveProduct(a, productId) + RemoveProduct(b, productId)
    decreases |a|
  {
    if a == [] {
      assert a + b == b;
    } else {
      assert (a + b)[0] == a[0];
      assert (a + b)[1..] == a[1..] + b;
      RemoveProductAppend(a[1..], b, productId);
    }
  }

  /** Removing a product that has no entry leaves the list as it was. */
  lemma {:induction false} RemoveAbsent(items: seq<WishlistItem>, productId: string)
    requires !Contains(items, productId)
    ensures RemoveProduct(items, productId) == items
    decreases |items|
  {
    if items != [] {
      assert items[0].productId != productId;
      assert !Contains(items[1..], productId) by {
        forall i | 0 <= i < |items[1..]| ensures items[1..][i].productId != productId {
          assert items[1..][i] == items[i + 1];
        }
      }
      RemoveAbsent(items[1..], productId);
      assert [items[0]] + items[1..] == items;
    }
  }

  /** After a removal the list holds no entry for the product. */
  lemma RemovedIsAbsent(items: seq<WishlistItem>, productId: string)
    ensures !Contains(RemoveProduct(items, productId), productId)
  {
  }

  /** The header's wishlist badge shrinks by exactly the entries removed. */
  lemma {:induction false} RemoveProductLength(items: seq<WishlistItem>, productId: string)
    ensures |RemoveProduct(items, productId)| == |items| - CountOf(items, productId)
    decreases |items|
  {
    if items != [] {
      RemoveProductLength(items[1..], productId);
    }
  }

  /** Adding a product that was absent and then removing it restores the list. */
  lemma AddThenRemove(items: seq<WishlistItem>, item: WishlistItem)
    requires !Contains(items, item.productId)
    ensures RemoveProduct(items + [item], item.productId) == items
  {
    RemoveProductAppend(items, [item], item.productId);
    RemoveAbsent(items, item.productId);
    assert RemoveProduct([item], item.productId) == [];
  }
}
