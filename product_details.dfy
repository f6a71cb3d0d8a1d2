/** The storefront's product dialog: an image carousel, the add-to-cart guard
    and quantity stepper, the average rating, and who may write a review. */
module ProductDetails {
  import opened Catalog
  import opened CartStepper

  /** The number of positions the carousel cycles through: the number of
      images, or 1 when the product has none (`images?.length || 1`). */
  function ImageCount(images: seq<string>): (n: int)
    ensures n >= 1
    ensures images != [] ==> n == |images|
  {
    if |images| == 0 then 1 else |images|
  }

  /** `handlePrevImage`: step back, wrapping from the first image to the last. */
  function PrevImageIndex(index: int, images: seq<string>): (r: int)
    ensures index == 0 ==> r == ImageCount(images) - 1
    ensures 0 <= index < ImageCount(images) ==> 0 <= r < ImageCount(images)
    ensures 0 < index ==> r == index - 1
  {
    if index == 0 then ImageCount(images) - 1 else index - 1
  }

  /** `handleNextImage`: step forward, wrapping from the last image to the first. */
  function NextImageIndex(index: int, images: seq<string>): (r: int)
    ensures index == ImageCount(images) - 1 ==> r == 0
    ensures 0 <= index < ImageCount(images) ==> 0 <= r < ImageCount(images)
    ensures index != ImageCount(images) - 1 ==> r == index + 1
  {
    if index == ImageCount(images) - 1 then 0 else index + 1
  }

  /** Within the carousel's range, "next" undoes "prev" and "prev" undoes "next". */
  lemma PrevNextInverse(index: int, images: seq<string>)
    requires 0 <= index < ImageCount(images)
    ensures NextImageIndex(PrevImageIndex(index, images), images) == index
    ensures PrevImageIndex(NextImageIndex(index, images), images) == index
  {
  }

  /** The picture shown: the placeholder for a product without images,
      otherwise the image at the index (None when the index is out of range,
      as JavaScript's `undefined`). */
  function CurrentImage(images: seq<string>, index: int): (r: Option<string>)
    ensures images == [] ==> r == Some(Placeholder)
    ensures images != [] && 0 <= index < |images| ==> r == Some(images[index])
    ensures r.None? <==> images != [] && !(0 <= index < |images|)
  {
    if |images| == 0 then Some(Placeholder)
    else if 0 <= index < |images| then Some(images[index])
    else None
  }

  /** A line of one of the shopper's orders, as far as the dialog reads it. */
  datatype OrderedItem = OrderedItem(productId: string)

  datatype ShopOrder = ShopOrder(cartItems: seq<OrderedItem>, orderStatus: OrderStatus)

  /** The order is confirmed and one of its lines is for the product. */
  predicate PurchasedIn(order: ShopOrder, productId: string)
  {
    order.orderStatus == Confirmed &&
    exists j :: 0 <= j < |order.cartItems| && order.cartItems[j].productId == productId
  }

  /** The inner `some` over an order's lines. */
  function SomeItemMatches(items: seq<OrderedItem>, productId: string, status: OrderStatus): (r: bool)
    ensures r <==> status == Confirmed && exists j :: 0 <= j < |items| && items[j].productId == productId
    decreases |items|
  {
    if items == [] then false
    else
      assert forall j :: 1 <= j < |items| ==> items[j] == items[1..][j - 1];
      (items[0].productId == productId && status == Confirmed) ||
      SomeItemMatches(items[1..], productId, status)
  }

  /** The outer `some` over the orders. */
  function SomeOrderMatches(orders: seq<ShopOrder>, productId: string): (r: bool)
    ensures r <==> exists i :: 0 <= i < |orders| && PurchasedIn(orders[i], productId)
    decreases |orders|
  {
    if orders == [] then false
    else
      assert forall i :: 1 <= i < |orders| ==> orders[i] == orders[1..][i - 1];
      SomeItemMatches(orders[0].cartItems, productId, orders[0].orderStatus) ||
      SomeOrderMatches(orders[1..], productId)
  }

  /** `hasUserPurchasedProduct`: a signed-in user with a confirmed order that
      contains the product. Only such a user is offered the review form. */
  function HasUserPurchasedProduct(user: Option<User>, orderList: Option<seq<ShopOrder>>,
                                   productId: string): (r: bool)
    ensures r <==> user.Some? && orderList.Some? &&
                   exists i :: 0 <= i < |orderList.value| && PurchasedIn(orderList.value[i], productId)
  {
    if user.None? || orderList.None? || |orderList.value| == 0 then false
    else SomeOrderMatches(orderList.value, productId)
  }

  datatype Review = Review(userName: string, reviewMessage: string, reviewValue: int)

  function SumOfRatings(reviews: seq<Review>): int
    decreases |reviews|
  {
    if reviews == [] then 0
    else SumOfRatings(reviews[..|reviews| - 1]) + reviews[|reviews| - 1].reviewValue
  }

  predicate StarRating(review: Review)
  {
    1 <= review.reviewValue <= 5
  }

  /** With every rating between 1 and 5 stars, the sum lies between 1 and 5
      stars per review. */
  lemma {:induction false} SumOfRatingsBounds(reviews: seq<Review>)
    requires forall i :: 0 <= i < |reviews| ==> StarRating(reviews[i])
    ensures |reviews| <= SumOfRatings(reviews) <= 5 * |reviews|
    decreases |reviews|
  {
    if reviews != [] {
      SumOfRatingsBounds(reviews[..|reviews| - 1]);
    }
  }

  /** `averageReview`: 0 without reviews, otherwise the mean rating. */
  function AverageReview(reviews: seq<Review>): (r: real)
    ensures reviews == [] ==> r == 0.0
    ensures reviews != [] ==> r * (|reviews| as real) == SumOfRatings(reviews) as real
  {
    if |reviews| == 0 then 0.0
    else (SumOfRatings(reviews) as real) / (|reviews| as real)
  }

  /** The mean of star ratings is itself between 1 and 5 stars. */
  lemma AverageReviewBounds(reviews: seq<Review>)
    requires reviews != []
    requires forall i :: 0 <= i < |reviews| ==> StarRating(reviews[i])
    ensures 1.0 <= AverageReview(reviews) <= 5.0
  {
    SumOfRatingsBounds(reviews);
    MeanWithin(SumOfRatings(reviews) as real, |reviews| as real, 1.0, 5.0);
  }

  /** Ratings between 0 and 5 stars sum to at most 5 stars per review. */
  lemma {:induction false} SumOfRatingsFromZero(reviews: seq<Review>)
    requires forall i :: 0 <= i < |reviews| ==> 0 <= reviews[i].reviewValue <= 5
    ensures 0 <= SumOfRatings(reviews) <= 5 * |reviews|
    decreases |reviews|
  {
    if reviews != [] {
      SumOfRatingsFromZero(reviews[..|reviews| - 1]);
    }
  }

  /** The dialog sends `rating`, which starts at 0 and is not checked before
      sending, so a stored rating can be 0: the mean then lies between 0 and 5. */
  lemma AverageReviewFromZero(reviews: seq<Review>)
    requires forall i :: 0 <= i < |reviews| ==> 0 <= reviews[i].reviewValue <= 5
    ensures 0.0 <= AverageReview(reviews) <= 5.0
  {
    if reviews != [] {
      SumOfRatingsFromZero(reviews);
      MeanWithin(SumOfRatings(reviews) as real, |reviews| as real, 0.0, 5.0);
    }
  }

  /** A total between `lo` and `hi` per item, divided by the item count,
      lies between `lo` and `hi`. */
  lemma MeanWithin(total: real, n: real, lo: real, hi: real)
    requires n > 0.0 && lo * n <= total <= hi * n
    ensures lo <= total / n <= hi
  {
    var q := total / n;
    assert q * n == total;
    assert (lo - q) * n == lo * n - total <= 0.0;
    assert (hi - q) * n == hi * n - total >= 0.0;
  }

  /** `handleAddToCart`'s guard: refused when the cart already has a line for
      the product and one more would exceed the stock it was given. */
  predicate AddToCartRefused(items: seq<CartItem>, productId: string, stock: Option<int>)
  {
    var k := CartItemIndex(items, productId);
    k >= 0 && ExceedsStock(items[k].quantity + 1, stock)
  }

  /** The request "Add to Cart" dispatches: exactly one unit, unless refused. */
  function AddToCartRequest(items: seq<CartItem>, userId: Option<string>, productId: string,
                            stock: Option<int>): (r: Option<CartRequest>)
    ensures r.None? <==> AddToCartRefused(items, productId, stock)
    ensures r.Some? ==> r.value == AddToCart(userId, productId, 1)
    ensures (forall j :: 0 <= j < |items| ==> items[j].productId != productId) ==> r.Some?
  {
    if AddToCartRefused(items, productId, stock) then None
    else Some(AddToCart(userId, productId, 1))
  }

  datatype ReviewRequest = ReviewRequest(productId: string, userId: Option<string>,
                                         userName: Option<string>, reviewMessage: string, reviewValue: int)

  /** The dialog's component state. */
  class ProductDetailsDialog {
    var product: Product
    var open: bool
    var currentImageIndex: int
    var cartQuantity: int
    var rating: int
    var reviewMsg: string

    constructor (product: Product)
      ensures this.product == product && !open
      ensures currentImageIndex == 0 && cartQuantity == 0 && rating == 0 && reviewMsg == ""
    {
      this.product := product;
      open := false;
      currentImageIndex := 0;
      cartQuantity := 0;
      rating := 0;
      reviewMsg := "";
    }

    /** The carousel index stays within the images it cycles through. */
    predicate IndexInRange()
      reads this
    {
      0 <= currentImageIndex < ImageCount(product.images)
    }

    /** The effect run when the dialog is given a product: back to the first image. */
    method ShowProduct(p: Product)
      modifies this`product, this`currentImageIndex
      ensures product == p && currentImageIndex == 0 && IndexInRange()
    {
      product := p;
      currentImageIndex := 0;
    }

    method HandlePrevImage()
      modifies this`currentImageIndex
      ensures currentImageIndex == PrevImageIndex(old(currentImageIndex), product.images)
      ensures old(IndexInRange()) ==> IndexInRange()
    {
      currentImageIndex := PrevImageIndex(currentImageIndex, product.images);
    }

    method HandleNextImage()
      modifies this`currentImageIndex
      ensures currentImageIndex == NextImageIndex(old(currentImageIndex), product.images)
      ensures old(IndexInRange()) ==> IndexInRange()
    {
      currentImageIndex := NextImageIndex(currentImageIndex, product.images);
    }

    /** "Add to Cart": `items` is `cartItems.items || []`; on success the
        footer shows quantity 1. */
    method HandleAddToCart(items: seq<CartItem>, userId: Option<string>, succeeded: bool)
      returns (request: Option<CartRequest>)
      modifies this`cartQuantity
      ensures request == AddToCartRequest(items, userId, product.id, product.totalStock)
      ensures cartQuantity == if request.Some? && succeeded then 1 else old(cartQuantity)
    {
      request := AddToCartRequest(items, userId, product.id, product.totalStock);
      if request.Some? && succeeded {
        cartQuantity := 1;
      }
    }

    /** The stepper, with a missing stock read as 0 (`totalStock || 0`). */
    method HandleQuantityChange(action: StepAction, userId: Option<string>, succeeded: bool)
      returns (request: Option<CartRequest>)
      modifies this`cartQuantity
      ensures request == StepRequest(action, old(cartQuantity), Some(StockOrZero(product.totalStock)), userId, product.id)
      ensures cartQuantity == StepResult(action, old(cartQuantity), Some(StockOrZero(product.totalStock)), userId, product.id, succeeded)
    {
      var stock := StockOrZero(product.totalStock);
      request := StepRequest(action, cartQuantity, Some(stock), userId, product.id);
      if request.Some? && succeeded {
        cartQuantity := QuantityAfter(request.value);
      }
    }

    /** The effect that keeps the stepper equal to the cart's line for the product. */
    method SyncCartQuantity(items: seq<CartItem>)
      modifies this`cartQuantity
      ensures cartQuantity == CartQuantityOf(items, product.id)
    {
      var k := CartItemIndex(items, product.id);
      if k >= 0 {
        cartQuantity := items[k].quantity;
      } else {
        cartQuantity := 0;
      }
    }

    /** Closing the dialog clears the review being written and rewinds the carousel. */
    method HandleDialogClose()
      modifies this`open, this`rating, this`reviewMsg, this`currentImageIndex
      ensures !open && rating == 0 && reviewMsg == "" && currentImageIndex == 0
      ensures IndexInRange()
    {
      open := false;
      rating := 0;
      reviewMsg := "";
      currentImageIndex := 0;
    }

    /** Submitting a review sends the current rating and message; a success clears them. */
    method HandleAddReview(user: Option<User>, succeeded: bool) returns (request: ReviewRequest)
      modifies this`rating, this`reviewMsg
      ensures request.productId == product.id && request.reviewValue == old(rating)
      ensures request.reviewMessage == old(reviewMsg)
      ensures request.userId == (if user.Some? then Some(user.value.id) else None)
      ensures succeeded ==> rating == 0 && reviewMsg == ""
      ensures !succeeded ==> rating == old(rating) && reviewMsg == old(reviewMsg)
    {
      request := ReviewRequest(product.id,
                               if user.Some? then Some(user.value.id) else None,
                               if user.Some? then Some(user.value.userName) else None,
                               reviewMsg, rating);
      if succeeded {
        rating := 0;
        reviewMsg := "";
      }
    }
  }

  /** `totalStock || 0`: a missing stock counts as none. */
  function StockOrZero(stock: Option<int>): (r: int)
    ensures stock.None? ==> r == 0
    ensures stock.Some? ==> r == stock.value
  {
    if stock.Some? then stock.value else 0
  }
}
