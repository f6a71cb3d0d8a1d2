/** The checkout page: the amounts it shows, the guards of the PayPal button
    and the order document it sends to the server. */
module Checkout {
  import opened Catalog

  /** The checkout page's flat handling fee. */
  const HandlingFee: int := 10

  /** Delivery is free on this page. */
  const DeliveryAmount: int := 0

  /** `totalCartAmount`: the cart's subtotal; 0 without a cart or items. */
  function TotalCartAmount(cart: Option<Cart>): (r: int)
    ensures cart.None? ==> r == 0
    ensures cart.Some? ==> r == Subtotal(cart.value.items)
  {
    if cart.Some? && |cart.value.items| > 0 then Subtotal(cart.value.items) else 0
  }

  /** The handling fee is charged exactly when the cart has items. */
  function HandlingAmount(cart: Option<Cart>): (r: int)
    ensures r == HandlingFee <==> cart.Some? && cart.value.items != []
    ensures r != HandlingFee ==> r == 0
  {
    if cart.Some? && |cart.value.items| > 0 then HandlingFee else 0
  }

  /** The "Order Total" line: items, GST, handling and delivery. The GST is
      computed in floating point and is taken here as given. */
  function DisplayedOrderTotal(cart: Option<Cart>, gstAmount: int): (r: int)
    ensures cart.None? ==> r == gstAmount
    ensures cart.Some? && cart.value.items == [] ==> r == gstAmount
    ensures cart.Some? && cart.value.items != [] ==> r == Subtotal(cart.value.items) + gstAmount + HandlingFee
  {
    TotalCartAmount(cart) + gstAmount + HandlingAmount(cart) + DeliveryAmount
  }

  /** One line of the order document. */
  datatype OrderLine = OrderLine(productId: string, title: string, image: Option<string>, price: int, quantity: int)

  datatype Address = Address(id: string, address: string, city: string, pincode: string, phone: string, notes: string)

  /** The order document `handleInitiatePaypalPayment` creates. */
  datatype Order = Order(
    userId: Option<string>,
    cartId: string,
    cartItems: seq<OrderLine>,
    addressInfo: Address,
    orderStatus: OrderStatus,
    paymentMethod: string,
    paymentStatus: string,
    totalAmount: int,
    paymentId: string,
    payerId: string)

  /** A cart line as an order line, priced at what the shopper pays. */
  function OrderLineFor(item: CartItem): OrderLine
  {
    OrderLine(item.productId, item.title, item.image, EffectivePrice(item.price, item.salePrice), item.quantity)
  }

  /** The `map` from cart lines to order lines: one per cart line, in order,
      with product, title and quantity copied and the effective price. */
  function OrderLines(items: seq<CartItem>): (r: seq<OrderLine>)
    ensures |r| == |items|
    ensures forall i :: 0 <= i < |items| ==>
              r[i].productId == items[i].productId && r[i].title == items[i].title &&
              r[i].image == items[i].image && r[i].quantity == items[i].quantity &&
              r[i].price == EffectivePrice(items[i].price, items[i].salePrice)
    decreases |items|
  {
    if items == [] then []
    else OrderLines(items[..|items| - 1]) + [OrderLineFor(items[|items| - 1])]
  }

  /** What the order's lines add up to. */
  function OrderLinesTotal(lines: seq<OrderLine>): int
    decreases |lines|
  {
    if lines == [] then 0
    else OrderLinesTotal(lines[..|lines| - 1]) + lines[|lines| - 1].price * lines[|lines| - 1].quantity
  }

  /** The order's lines add up to the cart's subtotal. */
  lemma {:induction false} OrderLinesTotalIsSubtotal(items: seq<CartItem>)
    ensures OrderLinesTotal(OrderLines(items)) == Subtotal(items)
    decreases |items|
  {
    if items != [] {
      var lines := OrderLines(items);
      assert lines[..|lines| - 1] == OrderLines(items[..|items| - 1]);
      OrderLinesTotalIsSubtotal(items[..|items| - 1]);
    }
  }

  /** The new order: pending, paid by PayPal, one line per cart line, and a
      total equal to the cart's subtotal (neither GST nor handling included). */
  function NewOrder(cart: Cart, address: Address, userId: Option<string>): (r: Order)
    ensures r.cartItems == OrderLines(cart.items) && r.cartId == cart.id && r.userId == userId
    ensures r.addressInfo == address
    ensures r.orderStatus == Pending && r.paymentStatus == "pending" && r.paymentMethod == "paypal"
    ensures r.totalAmount == TotalCartAmount(Some(cart)) == OrderLinesTotal(r.cartItems)
  {
    OrderLinesTotalIsSubtotal(cart.items);
    Order(userId, cart.id, OrderLines(cart.items), address, Pending, "paypal", "pending",
          TotalCartAmount(Some(cart)), "", "")
  }

  /** Why the button did not create an order. */
  datatype Refusal = EmptyCart | NoAddress

  /** The guards as written, for a loaded cart document: `cartItems.length ===
      0` reads the length of the document, which has none, so an empty cart is
      never refused and only a missing address stops the order. */
  function PaymentGuardAsWritten(cart: Cart, address: Option<Address>): (r: Option<Refusal>)
    ensures r != Some(EmptyCart)
    ensures r == Some(NoAddress) <==> address.None?
    ensures r.None? <==> address.Some?
  {
    if address.None? then Some(NoAddress) else None
  }

  /** An empty cart with an address selected passes the guards as written, and
      the order sent has no lines and a total of 0. */
  lemma EmptyCartPassesGuardAsWritten(cartId: string, address: Address, userId: Option<string>)
    ensures PaymentGuardAsWritten(Cart(cartId, []), Some(address)) == None
    ensures NewOrder(Cart(cartId, []), address, userId).cartItems == []
    ensures NewOrder(Cart(cartId, []), address, userId).totalAmount == 0
  {
  }

  /** The guards as the empty-cart message intends: no order without items or
      without a selected address. */
  function PaymentGuard(cart: Option<Cart>, address: Option<Address>): (r: Option<Refusal>)
    ensures r == Some(EmptyCart) <==> cart.None? || cart.value.items == []
    ensures r == Some(NoAddress) <==> cart.Some? && cart.value.items != [] && address.None?
    ensures r.None? <==> cart.Some? && cart.value.items != [] && address.Some?
  {
    if cart.None? || |cart.value.items| == 0 then Some(EmptyCart)
    else if address.None? then Some(NoAddress)
    else None
  }

  /** An order that passes the guards has at least one line, and the page
      charged handling on it. */
  lemma GuardedOrderHasLines(cart: Option<Cart>, address: Option<Address>, userId: Option<string>)
    requires PaymentGuard(cart, address).None?
    ensures |NewOrder(cart.value, address.value, userId).cartItems| > 0
    ensures HandlingAmount(cart) == HandlingFee
  {
  }

  /** The checkout page's state. */
  class ShoppingCheckout {
    var currentSelectedAddress: Option<Address>
    var isPaymentStart: bool

    constructor ()
      ensures currentSelectedAddress.None? && !isPaymentStart
    {
      currentSelectedAddress := None;
      isPaymentStart := false;
    }

    /** The address list's selection. */
    method SetCurrentSelectedAddress(address: Option<Address>)
      modifies this`currentSelectedAddress
      ensures currentSelectedAddress == address
    {
      currentSelectedAddress := address;
    }

    /** The PayPal button: refused carts and missing addresses send nothing;
        otherwise the order is created, and the payment is marked started iff
        the server reports success. */
    method HandleInitiatePaypalPayment(cart: Option<Cart>, userId: Option<string>, succeeded: bool)
      returns (order: Option<Order>, refusal: Option<Refusal>)
      modifies this`isPaymentStart
      ensures refusal == PaymentGuard(cart, currentSelectedAddress)
      ensures order.Some? <==> refusal.None?
      ensures order.Some? ==> order.value == NewOrder(cart.value, currentSelectedAddress.value, userId)
      ensures order.Some? ==> isPaymentStart == succeeded
      ensures order.None? ==> isPaymentStart == old(isPaymentStart)
    {
      refusal := PaymentGuard(cart, currentSelectedAddress);
      if refusal.Some? {
        order := None;
        return;
      }
      order := Some(NewOrder(cart.value, currentSelectedAddress.value, userId));
      isPaymentStart := succeeded;
    }
  }
}
