# ShopeEase storefront and admin rules, in Dafny

ShopeEase is a React/Redux shop. A customer browses products, keeps a wishlist in browser storage, fills a server-side cart and checks out with PayPal. An administrator edits products, uploads their images and reads a sales dashboard.

This project models the rules inside the shop's UI handlers. Each server call is an abstract result: the request the handler sends, plus a `succeeded` flag for the answer. Browser storage is a small object with an optional value. Prices and quantities are integers (minor units).

The modules follow the source files:

| module | file | what it holds |
|---|---|---|
| `Catalog` | shared | products, cart lines, the effective-price rule, subtotal, `find`/`findIndex` lookups |
| `CartStepper` | shared by the product dialog and the shop tile | the plus/minus stepper against a stock, and the footer button choice |
| `Wishlist` | shared by the shop tile and the header | the stored wishlist, the filter that drops a product, the entry appended for a product |
| `ProductDetails` | `product-details.jsx` | carousel indices, purchase check, average rating, add-to-cart guard, the dialog's state (`class ProductDetailsDialog`) |
| `ShopProductTile` | `shop product-tile.jsx` | badges, the stock looked up in the product list, the tile's state (`class ShoppingProductTile`) |
| `ShopHeader` | `header.jsx` | menu navigation and the stored filter, substring search, badge counts, the wishlist sheet (`class HeaderRightContent`) |
| `ImageUpload` | `image-upload.jsx` | the 5 MiB filter loop, removal by position, dropping failed uploads (`class ImageUploadState`) |
| `Checkout` | `checkout.jsx` | totals, order lines, the new order, the payment guards (`class ShoppingCheckout`) |
| `CartWrapper` | `cart-wrapper.jsx` | the cart sheet's summary and panel |
| `CartItemsContent` | `cart-items-content.jsx` | a cart row: picture, quantity selector guard, remove request |
| `Dashboard` | `dashboard.jsx` | counters, distinct users, the 12 monthly buckets (an array filled in a loop), pie data, recent orders |
| `ProductForm` | shared by `products.jsx` and `product-add.jsx` | the form object as a map, `initialFormData`, `isFormValid`, the submission data |
| `AdminProductTile` | admin `product-tile.jsx` | low stock, picture, sale flag, the edit form built from a product |
| `AdminProducts` | `products.jsx` | the edit sheet (`class AdminProductsPage`) |
| `AdminProductAdd` | `product-add.jsx` | the add page (`class AdminProductAddPage`) |
| `AdminUsersSlice` | `users-slice.js` | the reducer and the store slice (`class AdminUsersState`) |

## Model

| member | source | states |
|---|---|---|
| Catalog.EffectivePrice | client/src/pages/shopping-view/checkout.jsx:27-30 | the unit price is the sale price when it is strictly positive, the list price otherwise |
| Catalog.LineTotal | client/src/components/shopping-view/cart-items-content.jsx:96 | a row's price: the sale price times the quantity when the sale price is positive, the price times the quantity otherwise |
| Catalog.LineTotalNonNegative | client/src/components/shopping-view/cart-items-content.jsx:96 | a line with non-negative prices and quantity has a non-negative total |
| Catalog.Subtotal | client/src/components/shopping-view/cart-wrapper.jsx:9-20 | the `reduce` of line totals: 0 for no lines, non-negative for well-priced lines |
| Catalog.SubtotalAppend | client/src/pages/shopping-view/checkout.jsx:22-33 | the subtotal of joined line lists is the sum of their subtotals |
| Catalog.FirstIndex | client/src/components/shopping-view/cart-items-content.jsx:24-26 | `findIndex` with a key test: the first position whose key matches, or -1 exactly when none does |
| Catalog.ProductIndex | client/src/components/shopping-view/cart-items-content.jsx:24-26 | `findIndex` by id: the first matching index, or -1 exactly when no product matches |
| Catalog.FindProduct | client/src/components/shopping-view/cart-items-content.jsx:15 | `find` by id: None iff no product matches, else the first product of the list with that id |
| Catalog.CartItemIndex | client/src/components/shopping-view/product-details.jsx:62-64 | `findIndex` by product id over cart lines: the first match, or -1 iff none |
| Catalog.CartQuantityOf | client/src/components/shopping-view/product-details.jsx:179-183 | the quantity of the first cart line for the product, as `find` returns it, or 0 when the cart has none |
| Catalog.CartQuantityOfAppend | client/src/components/shopping-view/product-details.jsx:179-183 | a line added after the others leaves the shown quantity of a product already in the cart alone, and is what a product new to the cart shows |
| Catalog.StatusFromName | client/src/pages/admin-view/dashboard.jsx:201-203 | the status an `orderStatus` string denotes: each of the three known names maps to its own status, and any other name to a well-formed other status |
| Catalog.Count | client/src/pages/admin-view/dashboard.jsx:33-34 | the list's length, or 0 without a list; also the header's wishlist and cart badges |
| Catalog.FirstImageOr | client/src/components/shopping-view/product-tile.jsx:149 | the first image when there is one, else the fallback |
| CartStepper.StepRequest | client/src/components/shopping-view/product-details.jsx:95-140 | plus is refused iff quantity+1 exceeds a known stock and otherwise asks for quantity+1; minus at 1 deletes the line and otherwise asks for quantity-1 |
| CartStepper.StepStaysWithinStock | client/src/components/shopping-view/product-details.jsx:98-114 | from a quantity between 1 and the stock, any press keeps the shown quantity between 0 and the stock |
| CartStepper.PlusThenMinus | client/src/components/shopping-view/product-tile.jsx:96-139 | an accepted plus followed by an accepted minus returns to the starting quantity |
| CartStepper.FooterFor | client/src/components/shopping-view/product-tile.jsx:248-288 | Out Of Stock iff the stock is exactly 0; Add to Cart iff in stock and the cart quantity is 0; the stepper otherwise |
| Wishlist.ItemFor | client/src/components/shopping-view/product-tile.jsx:187-193 | the appended entry copies id, title, prices and the first image, or the placeholder |
| Wishlist.RemoveProduct | client/src/components/shopping-view/product-tile.jsx:184 | the filter keeps exactly the entries with another product id, in order |
| Wishlist.CountOf | client/src/components/shopping-view/product-tile.jsx:36 | the number of entries for a product is 0 iff the list does not contain it |
| Wishlist.RemoveProductAppend | client/src/components/shopping-view/product-tile.jsx:184 | filtering joined lists is joining the filtered lists |
| Wishlist.RemoveAbsent | client/src/components/shopping-view/product-tile.jsx:184 | filtering out an absent product changes nothing |
| Wishlist.RemovedIsAbsent | client/src/components/shopping-view/header.jsx:137 | after the filter the product is no longer in the list |
| Wishlist.RemoveProductLength | client/src/components/shopping-view/header.jsx:137 | the filter shortens the list by exactly the number of entries for the product |
| Wishlist.AddThenRemove | client/src/components/shopping-view/product-tile.jsx:182-198 | appending a product's entry to a list without it, then toggling again, restores the list |
| ProductDetails.ImageCount | client/src/components/shopping-view/product-details.jsx:48 | `images?.length \|\| 1`: at least 1, and the number of images when there are some |
| ProductDetails.PrevImageIndex | client/src/components/shopping-view/product-details.jsx:46-50 | index 0 wraps to the last position, any other steps back by one, and the range is kept |
| ProductDetails.NextImageIndex | client/src/components/shopping-view/product-details.jsx:52-56 | the last position wraps to 0, any other steps forward by one, and the range is kept |
| ProductDetails.PrevNextInverse | client/src/components/shopping-view/product-details.jsx:46-56 | within range, next undoes prev and prev undoes next |
| ProductDetails.CurrentImage | client/src/components/shopping-view/product-details.jsx:193-194 | the placeholder without images, the image at the index, and undefined for an out-of-range index |
| ProductDetails.SomeItemMatches | client/src/components/shopping-view/product-details.jsx:35-37 | the inner `some`: true iff the order is confirmed and one of its lines is for the product |
| ProductDetails.SomeOrderMatches | client/src/components/shopping-view/product-details.jsx:34-38 | the outer `some`: true iff some order is confirmed and contains the product |
| ProductDetails.HasUserPurchasedProduct | client/src/components/shopping-view/product-details.jsx:31-39 | true iff there is a user, an order list, and a confirmed order with a line for the product |
| ProductDetails.SumOfRatingsBounds | client/src/components/shopping-view/product-details.jsx:189 | with 1-to-5 star ratings, the sum lies between the count and 5 times the count |
| ProductDetails.AverageReview | client/src/components/shopping-view/product-details.jsx:187-191 | 0 without reviews; otherwise the average times the count is the sum of the ratings |
| ProductDetails.AverageReviewBounds | client/src/components/shopping-view/product-details.jsx:187-191 | the average of 1-to-5 star ratings lies between 1 and 5 |
| ProductDetails.SumOfRatingsFromZero | client/src/components/shopping-view/product-details.jsx:189 | ratings between 0 and 5 stars sum to between 0 and 5 times the count |
| ProductDetails.AverageReviewFromZero | client/src/components/shopping-view/product-details.jsx:151-170 | the dialog may send a rating of 0, and with ratings between 0 and 5 the average lies between 0 and 5 |
| ProductDetails.MeanWithin | client/src/components/shopping-view/product-details.jsx:189-190 | a total between lo and hi per item, divided by the count, lies between lo and hi |
| ProductDetails.AddToCartRefused | client/src/components/shopping-view/product-details.jsx:62-79 | refused iff the first cart line for the product exists and one more unit would exceed a known stock |
| ProductDetails.AddToCartRequest | client/src/components/shopping-view/product-details.jsx:58-82 | refused iff the cart has a line for the product and one more would exceed a known stock; otherwise exactly one unit is added; never refused when the product is not in the cart |
| ProductDetails.StockOrZero | client/src/components/shopping-view/product-details.jsx:96 | `totalStock \|\| 0`: a missing stock counts as 0 |
| ProductDetails.ProductDetailsDialog.constructor | client/src/components/shopping-view/product-details.jsx:20-28 | a new dialog is closed, on image 0, with cart quantity 0, rating 0 and an empty message |
| ProductDetails.ProductDetailsDialog.ShowProduct | client/src/components/shopping-view/product-details.jsx:172-177 | a new product rewinds the carousel to image 0 |
| ProductDetails.ProductDetailsDialog.HandlePrevImage | client/src/components/shopping-view/product-details.jsx:46-50 | the index becomes the previous one and stays in range |
| ProductDetails.ProductDetailsDialog.HandleNextImage | client/src/components/shopping-view/product-details.jsx:52-56 | the index becomes the next one and stays in range |
| ProductDetails.ProductDetailsDialog.HandleAddToCart | client/src/components/shopping-view/product-details.jsx:58-93 | sends the add-to-cart request unless refused; the footer shows 1 after a success |
| ProductDetails.ProductDetailsDialog.HandleQuantityChange | client/src/components/shopping-view/product-details.jsx:95-141 | the stepper with a missing stock read as 0; the quantity follows only a successful request |
| ProductDetails.ProductDetailsDialog.SyncCartQuantity | client/src/components/shopping-view/product-details.jsx:179-183 | the shown quantity equals the cart line's quantity, or 0 |
| ProductDetails.ProductDetailsDialog.HandleDialogClose | client/src/components/shopping-view/product-details.jsx:143-149 | closed, rating 0, empty message, image 0 |
| ProductDetails.ProductDetailsDialog.HandleAddReview | client/src/components/shopping-view/product-details.jsx:151-170 | sends the current rating and message with the user; a success clears both, a failure keeps them |
| ShopProductTile.StockBadge | client/src/components/shopping-view/product-tile.jsx:157-169 | out of stock iff the stock is 0; "Only N left" iff a known stock is nonzero and below 10; Sale only with a positive sale price; no badge otherwise |
| ShopProductTile.ListedStock | client/src/components/shopping-view/product-tile.jsx:91-94 | the stock of the product's entry in the loaded list, undefined without a list or entry |
| ShopProductTile.UnlistedProductNeverRefused | client/src/components/shopping-view/product-tile.jsx:96-103 | a product missing from the list is never refused plus, because the comparison with undefined is false |
| ShopProductTile.ShoppingProductTile.constructor | client/src/components/shopping-view/product-tile.jsx:29-30 | a new tile shows quantity 0 and is not wishlisted |
| ShopProductTile.ShoppingProductTile.InitWishlisted | client/src/components/shopping-view/product-tile.jsx:33-41 | wishlisted iff the stored list contains the product; false when storage does not parse |
| ShopProductTile.ShoppingProductTile.OnWishlistUpdated | client/src/components/shopping-view/product-tile.jsx:45-53 | wishlisted iff the broadcast list contains the product |
| ShopProductTile.ShoppingProductTile.ToggleWishlist | client/src/components/shopping-view/product-tile.jsx:177-201 | removes every entry of the product, or appends one; the flag flips and matches the stored list; storage that does not parse changes nothing |
| ShopProductTile.ShoppingProductTile.SyncCartQuantity | client/src/components/shopping-view/product-tile.jsx:74-86 | the shown quantity equals the cart line's quantity, or 0 |
| ShopProductTile.ShoppingProductTile.HandleQuantityChange | client/src/components/shopping-view/product-tile.jsx:90-142 | the stepper against the listed stock; the quantity follows only a successful request |
| ShopHeader.FilterStorage.constructor | client/src/components/shopping-view/header.jsx:33 | session storage starts without a filter |
| ShopHeader.IsPlainPage | client/src/components/shopping-view/header.jsx:35-37 | home, products and search are the entries without a category filter |
| ShopHeader.NavFilter | client/src/components/shopping-view/header.jsx:34-41 | null for home, products and search; a one-category filter naming the entry otherwise |
| ShopHeader.Includes | client/src/components/shopping-view/header.jsx:45 | `includes` is true iff the text occurs at some position |
| ShopHeader.OccursFromAll | client/src/components/shopping-view/header.jsx:45 | the left-to-right search from a start finds a match iff one exists at or after the start |
| ShopHeader.HandleNavigate | client/src/components/shopping-view/header.jsx:32-50 | the stored filter is rewritten, null included; a category entry on a listing page sets the category parameter, anything else navigates to the entry's path |
| ShopHeader.CartWrapperItems | client/src/components/shopping-view/header.jsx:172-176 | the cart's lines, or none without a cart |
| ShopHeader.HeaderRightContent.constructor | client/src/components/shopping-view/header.jsx:71 | the wishlist starts empty |
| ShopHeader.HeaderRightContent.LoadWishlist | client/src/components/shopping-view/header.jsx:86-94 | the stored list, or an empty one when storage does not parse |
| ShopHeader.HeaderRightContent.OnWishlistUpdated | client/src/components/shopping-view/header.jsx:95-97 | the list follows the broadcast |
| ShopHeader.HeaderRightContent.RemoveFromWishlist | client/src/components/shopping-view/header.jsx:136-141 | keeps exactly the other products' entries in order, persists and broadcasts them; the count drops by the entries removed |
| ImageUpload.LimitIsInclusive | client/src/components/admin-view/image-upload.jsx:34 | a file of exactly 5 MiB is accepted, one byte more is refused |
| ImageUpload.AcceptedFiles | client/src/components/admin-view/image-upload.jsx:33-43 | the kept files are exactly the selected ones within the limit |
| ImageUpload.AcceptedFilesAppend | client/src/components/admin-view/image-upload.jsx:33-43 | filtering keeps the files' relative order |
| ImageUpload.ValidFiles | client/src/components/admin-view/image-upload.jsx:30-43 | the validation loop computes exactly the accepted files |
| ImageUpload.WithoutPosition | client/src/components/admin-view/image-upload.jsx:82-83 | an in-range position is cut out, leaving everything before and after it in order and one element fewer; an out-of-range index changes nothing |
| ImageUpload.FilterPositionSlices | client/src/components/admin-view/image-upload.jsx:82 | the positional filter equals the slice form |
| ImageUpload.DropNulls | client/src/components/admin-view/image-upload.jsx:134 | the URLs kept are exactly the successful results, never more than the results |
| ImageUpload.DropNullsAppend | client/src/components/admin-view/image-upload.jsx:134 | dropping failures keeps the successful URLs' order |
| ImageUpload.ImageUploadState.constructor | client/src/pages/admin-view/product-add.jsx:25-27 | no files, no URLs, not loading |
| ImageUpload.ImageUploadState.AppendValidFiles | client/src/components/admin-view/image-upload.jsx:29-48 | the accepted files are appended after the existing ones; no selection changes nothing |
| ImageUpload.ImageUploadState.HandleImageFileChange | client/src/components/admin-view/image-upload.jsx:25-49 | choosing files appends the accepted ones |
| ImageUpload.ImageUploadState.HandleDrop | client/src/components/admin-view/image-upload.jsx:55-79 | dropping files follows the same rule as choosing them |
| ImageUpload.ImageUploadState.HandleRemoveImage | client/src/components/admin-view/image-upload.jsx:81-87 | the same position leaves both the file list and the URL list |
| ImageUpload.ImageUploadState.BeginUploads | client/src/components/admin-view/image-upload.jsx:126-131 | with files, loading starts and every file is uploaded |
| ImageUpload.ImageUploadState.FinishUploads | client/src/components/admin-view/image-upload.jsx:133-136 | the URL list becomes the successful URLs in order, and loading ends |
| Checkout.TotalCartAmount | client/src/pages/shopping-view/checkout.jsx:22-33 | the subtotal of the cart's lines, 0 without a cart |
| Checkout.HandlingAmount | client/src/pages/shopping-view/checkout.jsx:37-40 | 10 iff the cart has lines, 0 otherwise |
| Checkout.DisplayedOrderTotal | client/src/pages/shopping-view/checkout.jsx:41-43 | subtotal plus the given GST plus 10 for a non-empty cart; the GST alone without a cart or for a cart with no lines; delivery adds nothing |
| Checkout.OrderLines | client/src/pages/shopping-view/checkout.jsx:66-75 | one order line per cart line, in order, copying product, title, image and quantity at the effective price |
| Checkout.OrderLinesTotalIsSubtotal | client/src/pages/shopping-view/checkout.jsx:66-87 | the order lines add up to the cart's subtotal |
| Checkout.NewOrder | client/src/pages/shopping-view/checkout.jsx:63-92 | pending order and payment, PayPal, the cart's lines and address, and a total equal to the subtotal without GST or handling |
| Checkout.PaymentGuardAsWritten | client/src/pages/shopping-view/checkout.jsx:46-61 | as written, for a loaded cart document: an empty cart is never refused, and a missing address is the only refusal |
| Checkout.EmptyCartPassesGuardAsWritten | client/src/pages/shopping-view/checkout.jsx:46 | an empty cart with an address passes and produces an order with no lines and total 0 |
| Checkout.PaymentGuard | client/src/pages/shopping-view/checkout.jsx:46-61 | corrected: refused as empty iff there is no cart or no line, refused for the address iff it is missing, accepted otherwise |
| Checkout.GuardedOrderHasLines | client/src/pages/shopping-view/checkout.jsx:46-75 | an accepted order has at least one line, and handling was charged on it |
| Checkout.ShoppingCheckout.constructor | client/src/pages/shopping-view/checkout.jsx:15-16 | no address selected, payment not started |
| Checkout.ShoppingCheckout.SetCurrentSelectedAddress | client/src/pages/shopping-view/checkout.jsx:15 | the selected address is the one given |
| Checkout.ShoppingCheckout.HandleInitiatePaypalPayment | client/src/pages/shopping-view/checkout.jsx:45-102 | with the corrected empty-cart guard (see Findings): a missing or empty cart, or a missing address, sends nothing; otherwise the new order is sent and the payment is started iff the server succeeds |
| CartWrapper.TotalCartAmount | client/src/components/shopping-view/cart-wrapper.jsx:9-20 | the subtotal of the lines, 0 for an absent or empty list |
| CartWrapper.HandlingAmount | client/src/components/shopping-view/cart-wrapper.jsx:24-26 | 40 iff there are lines, 0 otherwise |
| CartWrapper.OrderTotal | client/src/components/shopping-view/cart-wrapper.jsx:27 | subtotal plus the given GST plus 40 for a non-empty list |
| CartWrapper.OrderTotalCoversSubtotal | client/src/components/shopping-view/cart-wrapper.jsx:9-27 | with well-priced lines and non-negative tax, the total is at least subtotal plus handling |
| CartWrapper.SheetAndCheckoutTotalsDiffer | client/src/components/shopping-view/cart-wrapper.jsx:24 | for the same non-empty cart and tax, the sheet's total is 30 above the checkout page's |
| CartWrapper.CartPanel | client/src/components/shopping-view/cart-wrapper.jsx:38-46 | the empty-cart message iff there are no lines, otherwise every line |
| CartWrapper.CartSheet.constructor | client/src/components/shopping-view/header.jsx:72 | the sheet starts closed |
| CartWrapper.CartSheet.ProceedToCheckout | client/src/components/shopping-view/cart-wrapper.jsx:69-74 | goes to the checkout route and closes the sheet |
| CartItemsContent.ProductImage | client/src/components/shopping-view/cart-items-content.jsx:15-19 | the product's first image, else the line's image when truthy, else the placeholder |
| CartItemsContent.StockFor | client/src/components/shopping-view/cart-items-content.jsx:24-27 | the found product's stock; 0 for a missing product or stock |
| CartItemsContent.UpdateQuantityOutcome | client/src/components/shopping-view/cart-items-content.jsx:21-45 | no product list throws; refused with the number available iff the quantity exceeds the stock; otherwise the quantity is sent for the line's product and the user |
| CartItemsContent.UnlistedLineIsFrozen | client/src/components/shopping-view/cart-items-content.jsx:24-32 | a line whose product is not listed refuses every positive quantity with 0 available |
| CartItemsContent.InStockQuantityIsSent | client/src/components/shopping-view/cart-items-content.jsx:29-39 | a quantity up to a known stock is sent |
| CartItemsContent.DeleteRequest | client/src/components/shopping-view/cart-items-content.jsx:47-55 | the remove button deletes the line's product for the user |
| CartItemsContent.QuantityOptions | client/src/components/shopping-view/cart-items-content.jsx:78-82 | ten options, exactly 1 through 10 in order |
| CartItemsContent.OptionsAreOneToTen | client/src/components/shopping-view/cart-items-content.jsx:78-82 | a sequence holding 1 to 10 by position contains exactly the values 1 to 10 |
| Dashboard.SaleValue | client/src/pages/admin-view/dashboard.jsx:35 | a numeric amount counts as itself, a non-numeric one as 0 |
| Dashboard.TotalSales | client/src/pages/admin-view/dashboard.jsx:35 | the sum of the sale values, 0 without a list |
| Dashboard.SumSalesNonNegative | client/src/pages/admin-view/dashboard.jsx:35 | non-negative amounts give non-negative earnings |
| Dashboard.UserKey | client/src/pages/admin-view/dashboard.jsx:38 | the user id when truthy, else the e-mail |
| Dashboard.UserKeys | client/src/pages/admin-view/dashboard.jsx:38 | a key is in the set iff some order has it |
| Dashboard.UniqueUsers | client/src/pages/admin-view/dashboard.jsx:38 | the number of distinct keys, 0 without a list |
| Dashboard.UniqueUsersBounds | client/src/pages/admin-view/dashboard.jsx:38 | at most one user per order, and at least one for a non-empty list |
| Dashboard.NextOrderUserCount | client/src/pages/admin-view/dashboard.jsx:38 | one more order adds a user exactly when its key is new, and leaves the count alone for a user already counted |
| Dashboard.AddAmount | client/src/pages/admin-view/dashboard.jsx:46 | `+=` in JavaScript: numbers add, and NaN absorbs a non-number and stays |
| Dashboard.MonthTotalIsSum | client/src/pages/admin-view/dashboard.jsx:43-47 | a bucket is NaN iff an order of that month has no numeric amount; otherwise it holds the month's sum |
| Dashboard.SumMonthsStep | client/src/pages/admin-view/dashboard.jsx:44-47 | one more order adds its value to exactly the month it belongs to |
| Dashboard.MonthsSumToTotalSales | client/src/pages/admin-view/dashboard.jsx:35-47 | the twelve month sums add up to the total earnings |
| Dashboard.MonthlyEarnings | client/src/pages/admin-view/dashboard.jsx:43-47 | twelve buckets, each holding what adding its month's orders in turn yields; all 0 without a list |
| Dashboard.LineChartData | client/src/pages/admin-view/dashboard.jsx:49-62 | twelve points, point i named after month i and carrying bucket i |
| Dashboard.PieChartData | client/src/pages/admin-view/dashboard.jsx:65-70 | three slices: orders, products and users, with their counts |
| Dashboard.InsertByDate | client/src/pages/admin-view/dashboard.jsx:77 | inserting into a newest-first list keeps it newest first and adds exactly the order |
| Dashboard.FirstIsNewest | client/src/pages/admin-view/dashboard.jsx:77 | an order no older than the head may go in front |
| Dashboard.SortByDateDesc | client/src/pages/admin-view/dashboard.jsx:75-77 | a newest-first permutation of the orders |
| Dashboard.RecentOrders | client/src/pages/admin-view/dashboard.jsx:75-78 | at most five orders, newest first, all drawn from the list |
| Dashboard.RecentOrdersAreNewest | client/src/pages/admin-view/dashboard.jsx:75-78 | an order left out of the table is no newer than any order in it |
| Dashboard.UserLabel | client/src/pages/admin-view/dashboard.jsx:197 | the user id, else the e-mail, else "Guest"; never empty |
| Dashboard.StatusColorOf | client/src/pages/admin-view/dashboard.jsx:201-203 | green iff confirmed, red iff rejected, yellow otherwise |
| Dashboard.StatusColorOfName | client/src/pages/admin-view/dashboard.jsx:201-203 | on the status string: green exactly for "confirmed", red exactly for "rejected" |
| ProductForm.Get | client/src/pages/admin-view/products.jsx:53 | an absent key reads as undefined |
| ProductForm.Or | client/src/pages/admin-view/products.jsx:53-58 | `a \|\| b`: a when truthy, else b |
| ProductForm.FirstOf | client/src/pages/admin-view/products.jsx:53 | `v?.[0]`: a list's first element, a string's first character, else undefined |
| ProductForm.InitialFormData | client/src/pages/admin-view/product-add.jsx:11-21 | nine keys: a null image, seven empty text fields and an average review of 0 |
| ProductForm.IsFormValid | client/src/pages/admin-view/products.jsx:90-95 | valid iff every key other than averageReview, image and images holds something other than "" |
| ProductForm.KeysAllFilled | client/src/pages/admin-view/products.jsx:90-95 | the filter/map/every chain over an enumeration of keys: true iff every non-excluded key in it holds something other than "" |
| ProductForm.KeyScanIsFormValid | client/src/pages/admin-view/products.jsx:90-95 | scanning the form's own keys, in any order, gives `IsFormValid` |
| ProductForm.ValidIffNoBlankField | client/src/pages/admin-view/products.jsx:90-95 | the form is valid iff the set of blank fields is empty |
| ProductForm.InitialFormIsInvalid | client/src/pages/admin-view/product-add.jsx:58-63 | the initial form is invalid, and exactly its seven text fields are blank |
| ProductForm.FilledInitialFormIsValid | client/src/pages/admin-view/product-add.jsx:58-63 | filling those seven fields makes the form valid |
| ProductForm.SubmittedImage | client/src/pages/admin-view/product-add.jsx:36-38 | the first uploaded URL, else the form's truthy image, else the first of the form's images |
| ProductForm.SubmittedImages | client/src/pages/admin-view/product-add.jsx:43 | the uploaded URLs, else the form's truthy images, else an empty list |
| ProductForm.SubmissionData | client/src/pages/admin-view/products.jsx:51-59 | image and images replaced, every other field copied unchanged |
| ProductForm.SubmissionKeepsValidity | client/src/pages/admin-view/products.jsx:55-95 | the submission is valid iff the form is |
| ProductForm.SubmittedImagesAreAList | client/src/pages/admin-view/product-add.jsx:36-44 | the submission carries a list of images, and with uploads its image is the first of them |
| AdminProductTile.IsLowStock | client/src/components/admin-view/product-tile.jsx:12 | low on stock iff a known stock is at most 5; a missing stock is never low |
| AdminProductTile.LowStockHasStorefrontStockBadge | client/src/components/admin-view/product-tile.jsx:12 | a product the admin tile marks low on stock carries a stock badge on the storefront tile |
| AdminProductTile.TileImage | client/src/components/admin-view/product-tile.jsx:24-27 | the product's truthy image, else its first image, else the placeholder |
| AdminProductTile.OnSale | client/src/components/admin-view/product-tile.jsx:41 | on sale iff the sale price is positive |
| AdminProductTile.OnSaleChargesSalePrice | client/src/components/admin-view/product-tile.jsx:41-73 | the sale flag shows iff the shopper pays the positive sale price; otherwise the list price |
| AdminProductTile.EditFormData | client/src/components/admin-view/product-tile.jsx:86-93 | the product's fields, with the sizes flattened to the first size or "" |
| AdminProductTile.EditFormValidity | client/src/components/admin-view/product-tile.jsx:89-92 | the edit form is valid iff id, title, description, category, brand and first size are non-empty |
| AdminProductTile.EditWithoutSizesIsInvalid | client/src/components/admin-view/product-tile.jsx:92 | a product without sizes opens an invalid edit form |
| AdminProducts.AdminProductsPage.constructor | client/src/pages/admin-view/products.jsx:36-41 | sheet closed, initial form, no edited product, empty image lists |
| AdminProducts.AdminProductsPage.HandleEdit | client/src/components/admin-view/product-tile.jsx:86-93 | opens the sheet on the product's id and edit form |
| AdminProducts.AdminProductsPage.CloseSheet | client/src/pages/admin-view/products.jsx:133-139 | closed, no edited product, initial form, both image lists empty |
| AdminProducts.AdminProductsPage.OnSubmit | client/src/pages/admin-view/products.jsx:48-79 | nothing is sent without an edited product; otherwise the submission goes out under its id, and a success resets the sheet |
| AdminProducts.AdminProductsPage.SaveDisabled | client/src/pages/admin-view/products.jsx:165 | disabled while the form is invalid or images are uploading |
| AdminProducts.ResetSheetCannotSave | client/src/pages/admin-view/products.jsx:165 | a reset sheet has Save disabled |
| AdminProductAdd.AdminProductAddPage.constructor | client/src/pages/admin-view/product-add.jsx:24-27 | initial form, empty image lists, not loading |
| AdminProductAdd.AdminProductAddPage.OnSubmit | client/src/pages/admin-view/product-add.jsx:33-56 | the submission is always sent; a success resets the form and both image lists and goes to the product list |
| AdminProductAdd.AdminProductAddPage.SubmitDisabled | client/src/pages/admin-view/product-add.jsx:90 | disabled while the form is invalid or images are uploading |
| AdminProductAdd.FreshPageCannotSubmit | client/src/pages/admin-view/product-add.jsx:90 | a page holding the initial form has submission disabled |
| AdminUsersSlice.Reduce | client/src/store/admin/users-slice.js:45-58 | pending sets loading and keeps the list; fulfilled stores the data and stops loading; rejected empties the list and stops loading; other actions change nothing |
| AdminUsersSlice.FetchActions | client/src/store/admin/users-slice.js:45-58 | the fetch actions of a run, in order |
| AdminUsersSlice.OnlyFetchesMatter | client/src/store/admin/users-slice.js:45-58 | role updates and deletions can be dropped from any run without changing its end state |
| AdminUsersSlice.FetchSettles | client/src/store/admin/users-slice.js:47-57 | from any state, pending then fulfilled leaves the data; pending then rejected leaves an empty list |
| AdminUsersSlice.AdminUsersState.constructor | client/src/store/admin/users-slice.js:4-7 | not loading, no users |
| AdminUsersSlice.AdminUsersState.Dispatch | client/src/store/admin/users-slice.js:45-58 | the slice after an action is what the reducer gives |

## Left out

- HTTP, `createAsyncThunk` and `dispatch(...).then`: each handler returns the request it would send, and a `succeeded` flag stands for the answer. Follow-up fetches (`fetchCartItems`, `getReviews`, `fetchAllProducts`) and toasts are not modelled.
- Browser storage and window events: the wishlist key is a `WishlistStorage` object whose None stands for text that does not parse. The `storage` event listener of another tab is not modelled. The session filter is a `FilterStorage` object. `JSON.stringify` is not modelled.
- GST, `toFixed` and `Math.round`: they work in floating point. Totals take the GST amount as an input.
- Dates: each dashboard order carries its month (0 to 11) and a comparable timestamp. An unparseable `orderDate` is not modelled.
- Dashboard.AddAmount: a string `totalAmount`, which `+=` would concatenate, is treated like any other non-number.
- Dashboard.AddAmount: `Missing` stands for an absent (`undefined`) amount, which makes the bucket NaN. A `null` amount, which `+=` adds as 0, is not modelled.
- Order statuses: an order carries an `OrderStatus` value, and the datatype can hold `OtherStatus("confirmed")`, which is not well formed. Statuses read from strings go through `Catalog.StatusFromName`, which produces only well-formed ones; `Dashboard.StatusColorOfName` states the colours on the string itself.
- Dashboard.SortByDateDesc: proved newest-first and a permutation, not stable. The source's `sort` is stable; which of two equally dated orders comes first is not stated.
- The tile's `handleAddtoCart` comes from the listing page, which is not part of this model. Product deletion (`handleDelete`) is a bare request with no rule to state.
- The cart before it loads: its initial value in the store comes from the cart slice, which is not part of this model. `Checkout.PaymentGuardAsWritten` therefore covers a loaded cart document only.
- Checkout.ShoppingCheckout.HandleInitiatePaypalPayment: uses the corrected guard `Checkout.PaymentGuard`. As written, the source sends an order with no lines and a total of 0 for an empty cart document; `Checkout.EmptyCartPassesGuardAsWritten` states that behaviour.
- React rendering: only the conditions that choose what is shown are kept (badges, footer button, panel, status colour).
- The `Product` type omits the server timestamps a product document carries. They are neither blank text nor excluded keys, so validity is unaffected.

The behaviours below follow the source and are stated in the model, not corrected:

- The cart sheet charges 40 for handling, the checkout page 10. `CartWrapper.SheetAndCheckoutTotalsDiffer` proves the 30 difference.
- The order's `totalAmount` leaves out GST and handling (`Checkout.NewOrder`).
- A product without sizes opens an edit form that can never be saved (`AdminProductTile.EditWithoutSizesIsInvalid`).
- The stepper's minus is not guarded at quantity 0: it would ask for -1. The button only shows for a non-zero quantity.
- The upload effect runs again whenever the file list changes. So removing an image uploads the remaining files again, and the fresh URL list replaces the old one (`ImageUpload.ImageUploadState.BeginUploads`, `FinishUploads`).
- After a failed upload the URL list is shorter than the file list. Removing position i then drops URL i, which may belong to a different file (`ImageUpload.ImageUploadState.HandleRemoveImage` cuts the same position from both lists).
- A refused "Add to Cart" returns `undefined` from the handler, and the footer then calls `.then` on it, which throws after the toast. The dialog's state is the same either way; `ProductDetails.ProductDetailsDialog.HandleAddToCart` models that state.

## Findings

| source | as written | input that shows it | evidently intended | confidence | as-written member | corrected member |
|---|---|---|---|---|---|---|
| client/src/pages/shopping-view/checkout.jsx:46 | The empty-cart guard reads `cartItems.length`. `cartItems` is the cart document `{_id, items}`, which has no `length`, so the guard never fires for a loaded cart. | An empty cart `{_id, items: []}` with an address selected creates an order with no lines and a total of 0. | Refuse, with the empty-cart message, when there is no cart or the cart has no items. | medium, not executed (the shape of the store's cart state comes from the cart slice, which is not part of this model) | Checkout.EmptyCartPassesGuardAsWritten | Checkout.PaymentGuard |
