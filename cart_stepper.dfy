/** The cart quantity stepper shared by the product dialog and the shop tile:
    "plus" asks the server for one more unless that would exceed the stock,
    "minus" deletes the line at quantity 1 and otherwise asks for one less.
    The requests go to the cart endpoints; the displayed quantity follows only
    when the server reports success. */
module CartStepper {
  import opened Catalog

  datatype StepAction = Plus | Minus

  /** The cart requests the storefront dispatches. */
  datatype CartRequest =
    | AddToCart(userId: Option<string>, productId: string, quantity: int)
    | UpdateQuantity(userId: Option<string>, productId: string, quantity: int)
    | DeleteItem(userId: Option<string>, productId: string)

  /** `quantity > stock` as JavaScript evaluates it: a comparison with a
      missing (undefined) stock is false, so nothing is refused. */
  predicate ExceedsStock(quantity: int, stock: Option<int>)
  {
    stock.Some? && quantity > stock.value
  }

  /** The quantity the view shows once the server accepts a request. */
  function QuantityAfter(request: CartRequest): int
  {
    match request
    case AddToCart(_, _, _) => 1
    case UpdateQuantity(_, _, q) => q
    case DeleteItem(_, _) => 0
  }

  /** The request one press of the stepper dispatches, if any. */
  function StepRequest(action: StepAction, quantity: int, stock: Option<int>,
                       userId: Option<string>, productId: string): (r: Option<CartRequest>)
    ensures action == Plus ==> (r.None? <==> ExceedsStock(quantity + 1, stock))
    ensures r.Some? ==> r.value.productId == productId && r.value.userId == userId && !r.value.AddToCart?
    ensures r.Some? && action == Plus ==> QuantityAfter(r.value) == quantity + 1
    ensures action == Minus ==> r.Some? && QuantityAfter(r.value) == quantity - 1
    ensures action == Minus ==> (r.value.DeleteItem? <==> quantity == 1)
  {
    match action
    case Plus =>
      if ExceedsStock(quantity + 1, stock) then None
      else Some(UpdateQuantity(userId, productId, quantity + 1))
    case Minus =>
      if quantity == 1 then Some(DeleteItem(userId, productId))
      else Some(UpdateQuantity(userId, productId, quantity - 1))
  }

  /** The quantity shown after one press, given whether the server succeeded. */
  function StepResult(action: StepAction, quantity: int, stock: Option<int>,
                      userId: Option<string>, productId: string, succeeded: bool): int
  {
    var request := StepRequest(action, quantity, stock, userId, productId);
    if request.Some? && succeeded then QuantityAfter(request.value) else quantity
  }

  /** Starting from a quantity the stepper shows (1 up to the stock), any press,
      accepted or not, keeps the quantity between 0 and the stock: "plus" can
      never push the cart past the stock. */
  lemma StepStaysWithinStock(action: StepAction, quantity: int, stock: int,
                             userId: Option<string>, productId: string, succeeded: bool)
    requires 1 <= quantity <= stock
    ensures 0 <= StepResult(action, quantity, Some(stock), userId, productId, succeeded) <= stock
  {
  }

  /** Whatever the stock, an accepted "plus" followed by an accepted "minus"
      comes back to the starting quantity, and the server was told each value
      the view shows. */
  lemma PlusThenMinus(quantity: int, stock: Option<int>, userId: Option<string>, productId: string)
    requires !ExceedsStock(quantity + 1, stock)
    ensures var up := StepResult(Plus, quantity, stock, userId, productId, true);
            up == quantity + 1 &&
            StepResult(Minus, up, stock, userId, productId, true) == quantity
  {
  }

  /** What the footer of a product view offers. */
  datatype FooterButton = OutOfStockButton | AddToCartButton | Stepper

  /** Out of stock when the stock is exactly 0, "Add to Cart" when the product
      is not in the cart, the stepper otherwise. */
  function FooterFor(stock: Option<int>, cartQuantity: int): (r: FooterButton)
    ensures r == OutOfStockButton <==> stock == Some(0)
    ensures r == AddToCartButton <==> stock != Some(0) && cartQuantity == 0
    ensures r == Stepper ==> cartQuantity != 0
  {
    if stock == Some(0) then OutOfStockButton
    else if cartQuantity == 0 then AddToCartButton
    else Stepper
  }
}
