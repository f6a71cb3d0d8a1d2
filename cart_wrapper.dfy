/** The cart sheet: its order summary (subtotal, GST, a handling fee of 40,
    total), the list of lines or the empty-cart message, and the button that
    goes on to checkout. */
module CartWrapper {
  import opened Catalog
  import Checkout

  /** The sheet's flat handling fee; the checkout page charges 10. */
  const HandlingFee: int := 40

  /** The sheet's subtotal: the `reduce` over the lines, 0 without lines. */
  function TotalCartAmount(cartItems: Option<seq<CartItem>>): (r: int)
    ensures cartItems.None? ==> r == 0
    ensures cartItems.Some? ==> r == Subtotal(cartItems.value)
  {
    if cartItems.Some? && |cartItems.value| > 0 then Subtotal(cartItems.value) else 0
  }

  /** Handling is charged exactly when there are lines. */
  function HandlingAmount(cartItems: Option<seq<CartItem>>): (r: int)
    ensures r == HandlingFee <==> cartItems.Some? && cartItems.value != []
    ensures r != HandlingFee ==> r == 0
  {
    if cartItems.Some? && |cartItems.value| > 0 then HandlingFee else 0
  }

  /** The "Order Total" line; the GST is computed in floating point and is
      taken here as given. */
  function OrderTotal(cartItems: Option<seq<CartItem>>, gstAmount: int): (r: int)
    ensures cartItems.None? || cartItems.value == [] ==> r == gstAmount
    ensures cartItems.Some? && cartItems.value != [] ==>
              r == Subtotal(cartItems.value) + gstAmount + HandlingFee
  {
    TotalCartAmount(cartItems) + gstAmount + HandlingAmount(cartItems)
  }

  /** For well-priced lines and a non-negative tax, the total is at least the
      subtotal plus the handling fee. */
  lemma OrderTotalCoversSubtotal(items: seq<CartItem>, gstAmount: int)
    requires forall i :: 0 <= i < |items| ==> WellPriced(items[i])
    requires gstAmount >= 0
    ensures OrderTotal(Some(items), gstAmount) >= TotalCartAmount(Some(items)) + HandlingAmount(Some(items)) >= 0
  {
  }

  /** The same cart with the same tax shows a total 30 higher in the sheet than
      on the checkout page, because the two pages use different handling fees. */
  lemma SheetAndCheckoutTotalsDiffer(cart: Cart, gstAmount: int)
    requires cart.items != []
    ensures OrderTotal(Some(cart.items), gstAmount) ==
            Checkout.DisplayedOrderTotal(Some(cart), gstAmount) + 30
  {
  }

  /** The left column: each line, or the empty-cart message. */
  datatype Panel = EmptyCartMessage | ItemRows(items: seq<CartItem>)

  function CartPanel(cartItems: Option<seq<CartItem>>): (r: Panel)
    ensures r == EmptyCartMessage <==> cartItems.None? || cartItems.value == []
    ensures r.ItemRows? ==> r.items == cartItems.value
  {
    if cartItems.Some? && |cartItems.value| > 0 then ItemRows(cartItems.value) else EmptyCartMessage
  }

  /** The open state of the cart sheet, owned by the header. */
  class CartSheet {
    var openCartSheet: bool

    constructor ()
      ensures !openCartSheet
    {
      openCartSheet := false;
    }

    /** "Proceed to Checkout": go to the checkout route and close the sheet. */
    method ProceedToCheckout() returns (route: string)
      modifies this`openCartSheet
      ensures route == "/shop/checkout" && !openCartSheet
    {
      route := "/shop/checkout";
      openCartSheet := false;
    }
  }
}
