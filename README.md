# Storefront page rules, modelled in Dafny

This project models the rules that the storefront's React pages apply in their event
handlers and effects. It covers six pages:

- **Cart page.** The line-item quantity stepper, bounded by stock and by one. The remove
  button. How the coupon lookup's outcome sets the discount and the "valid" flag. When
  the coupon banner and the "Proceed to Checkout" link appear.
- **Product page.** A quantity picker that starts at one and is bounded by the product's
  stock. The Add To Cart button, which refuses out-of-stock products.
- **Search page.** The page counter with its Prev/Next buttons. The category taken from the
  last segment of the route's path.
- **Admin "New Product" form.** Its initial fields, its submit guard and the multipart form
  it sends.
- **Admin product editor.** The fields it shows before and after the product loads. Its
  update form, which carries only the fields that are set.
- **Shipping page.** The address form, the redirect away from an empty cart, and the Pay Now
  sequence.

Each page that keeps state is a class. Its fields are the page's `useState` values and a
log of what it caused. Its methods are proved against pure transition functions. Those
functions, and the lemmas about every run of clicks, state what each page promises. What a page
dispatches to the cart store, asks of the router or sends to the payment endpoint is a
value of `Storefront.Action` or `Storefront.Effect`. The cart reducer that interprets these
actions is not part of this model.

Files:

- `storefront.dfy`: the shared records and actions, and the add-to-cart gate.
- `decimal.dfy`: the decimal text of an integer (`toString`) and a reader for it.
- `path_segments.dfy`: `split` on one character, `join`, and the last segment.
- `form_data.dfy`: FormData.
- `cart_page.dfy`, `product_details_page.dfy`, `search_page.dfy`, `new_product_page.dfy`,
  `product_management_page.dfy`, `shipping_page.dfy`: one module per page.

Some modelling choices:

- A disabled or hidden button delivers no click. So `ClickPrev`, `ClickNext` and
  `ShippingView.Submit` do nothing when their button is disabled.
- The cart stepper emits an item; it does not change the cart. The lemmas about runs of
  stepper clicks assume that the store then shows the card again with the emitted item.
  The cart reducer is not part of this model, so that assumption is not proved.
- Leaving the coupon box runs the effect's cleanup (`src/pages/cart.tsx:59-63`). It clears
  the timer, cancels the pending request and clears the valid flag. A request still in
  flight then rejects, and its `.catch` (`src/pages/cart.tsx:52-56`) dispatches a discount of
  0 and a recalculation. In the model that is `Unmount` or `ChangeCode` followed by
  `Settle(Rejected)`. When no request is in flight, nothing is dispatched and the discount
  last applied stays in the store until the next lookup settles.
- Changing the category does not reset the search page counter (`src/pages/search.tsx:39-44`).
  If the new result has more than one page but fewer than the counter, Prev stays enabled
  and Next disabled. If it has at most one page, the bar is not rendered at all
  (`src/pages/search.tsx:145`), so no click can move the counter and the visitor stays on a
  page with no results and no Prev button. `PageStep` gives no change for a hidden bar, and
  `PageStaysInRange` still shows that the page never drops below one.
- The category-sync effect runs when the location or the category changes
  (`src/pages/search.tsx:39-44`). On a category route ".../<name>", choosing another
  category in the select (`src/pages/search.tsx:222-225`) runs the effect again, and
  `CategoryRouteSelects` shows it puts <name> straight back. The select only keeps a new
  choice on ".../search" (`SearchRouteKeepsCategory`).

## Model

| member | source | states |
|---|---|---|
| `Storefront.AddToCartGate` | src/pages/search.tsx:61-65 | An item with stock below one is refused and nothing is dispatched. Any other item is dispatched unchanged. The product page uses the same gate. |
| `CartPage.IncrementHandler` | src/pages/cart.tsx:25-28 | Nothing is emitted exactly when quantity >= stock. Otherwise the emitted item has quantity + 1 and every other field unchanged. |
| `CartPage.DecrementHandler` | src/pages/cart.tsx:30-33 | Nothing is emitted exactly when quantity <= 1. Otherwise the emitted item has quantity - 1 and every other field unchanged. |
| `CartPage.RemoveHandler` | src/pages/cart.tsx:35-37 | Emits a removal for exactly the given product id. |
| `CartPage.Stepper` | src/pages/cart.tsx:25-33 | Any stepper click emits, if anything, an add-to-cart of the same item with only its quantity changed. |
| `CartPage.EmittedStaysInStock` | src/pages/cart.tsx:25-33 | From 1 <= quantity <= stock, every item that any run of +/- clicks emits has its quantity in [1, stock] and differs only in quantity. |
| `CartPage.EmittedMovesByOne` | src/pages/cart.tsx:25-33 | The first emission differs from the shown item by exactly one unit of quantity, and so does each emission from the one before it. |
| `CartPage.OutcomeDispatches` | src/pages/cart.tsx:47-56 | A successful lookup applies the server's discount. A failed one applies 0. Both then request a price recalculation as the last dispatch. |
| `CartPage.AppliedDiscountOfSuffix` | src/pages/cart.tsx:47-56 | Whatever was dispatched before, the latest discount dispatch decides the discount in force. |
| `CartPage.CouponBannerFor` | src/pages/cart.tsx:129-138 | No banner for an empty code. The discount banner exactly when the code is non-empty and valid. The invalid banner exactly when it is non-empty and not valid. |
| `CartPage.CouponBox.constructor` | src/pages/cart.tsx:22-23 | The coupon code starts empty and not valid, with nothing dispatched. |
| `CartPage.CouponBox.ChangeCode` | src/pages/cart.tsx:59-64 | A different code runs the cleanup, which clears the valid flag. The same code changes nothing. Nothing is dispatched either way. |
| `CartPage.CouponBox.Settle` | src/pages/cart.tsx:47-56 | Appends the outcome's dispatches. The flag is true only on success. The discount in force becomes the server amount on success and 0 on failure. |
| `CartPage.CouponBox.Unmount` | src/pages/cart.tsx:59-63 | Teardown clears the valid flag and dispatches nothing. |
| `ProductDetailsPage.DecrementUpdater` | src/pages/ProductDetails.tsx:24-27 | Lowers the quantity by one exactly when it is above one, otherwise leaves it. A quantity of at least one never drops below one. |
| `ProductDetailsPage.IncrementUpdater` | src/pages/ProductDetails.tsx:28-31 | Raises the quantity by one exactly when the stock is known and the quantity is below it, otherwise leaves it. It never passes the stock. |
| `ProductDetailsPage.PickerStaysInStock` | src/pages/ProductDetails.tsx:24-31 | If 1 <= quantity <= stock at first, it holds after any run of picker clicks. |
| `ProductDetailsPage.PickerMovesAtMostOnePerClick` | src/pages/ProductDetails.tsx:24-31 | After n clicks the quantity is within n of where it started, because each click moves it by at most one. |
| `ProductDetailsPage.BuildCartItem` | src/pages/ProductDetails.tsx:84-96 | The item takes the picked quantity, and the id, price, name, photo and stock of the loaded product. |
| `ProductDetailsPage.ProductView.constructor` | src/pages/ProductDetails.tsx:16 | The picker starts at 1. |
| `ProductDetailsPage.ProductView.Loaded` | src/pages/ProductDetails.tsx:14-15 | The query's product becomes the page's product and the picked quantity is kept. |
| `ProductDetailsPage.ProductView.Decrement` | src/pages/ProductDetails.tsx:24-27 | Applies the "-" updater and keeps the product. It preserves 1 <= quantity <= stock. |
| `ProductDetailsPage.ProductView.Increment` | src/pages/ProductDetails.tsx:28-31 | Applies the "+" updater with the loaded stock and keeps the product. It preserves 1 <= quantity <= stock. |
| `ProductDetailsPage.ProductView.AddToCartClicked` | src/pages/ProductDetails.tsx:33-41 | Nothing is dispatched exactly when stock < 1. Otherwise the dispatched item is the loaded product with the picked quantity. |
| `SearchPage.PageStep` | src/pages/search.tsx:145-160 | A click changes the page only if the bar is shown (totalPage > 1) and that button is enabled. Prev needs page > 1; Next needs loaded results with page < totalPage. The page then moves by exactly -1 or +1. |
| `SearchPage.PageStaysInRange` | src/pages/search.tsx:145-160 | From page >= 1 the page stays >= 1 after any run of clicks. From 1 <= page <= totalPage it stays in that range. |
| `SearchPage.InitialCategory` | src/pages/search.tsx:35 | The category starts as the route parameter, or "" without one. |
| `SearchPage.CategoryFromPath` | src/pages/search.tsx:40 | The result contains no "/". It is a suffix of the path, and it is either the whole path or preceded by "/". |
| `SearchPage.NextCategory` | src/pages/search.tsx:39-44 | The category changes exactly when the last path segment is not "search" and differs from it. It then becomes that segment. |
| `SearchPage.CategorySyncSettles` | src/pages/search.tsx:39-44 | Running the effect again after it set the category changes nothing. |
| `SearchPage.CategoryRouteSelects` | src/pages/search.tsx:40-43 | On a path ending "/name", with name not "search" and free of "/", the category becomes name. |
| `SearchPage.SearchRouteKeepsCategory` | src/pages/search.tsx:41 | On a path ending "/search" the category is left as it is. |
| `SearchPage.SearchView.constructor` | src/pages/search.tsx:35-36 | The page starts at 1 and the category starts from the route parameter, with no results loaded. |
| `SearchPage.SearchView.ResultsLoaded` | src/pages/search.tsx:68 | Loaded results set totalPage. Page and category are unchanged. |
| `SearchPage.SearchView.ClickPrev` | src/pages/search.tsx:147-153 | The page follows `PageStep` for Prev. It keeps 1 <= page <= totalPage, and nothing else changes. |
| `SearchPage.SearchView.ClickNext` | src/pages/search.tsx:157-163 | The page follows `PageStep` for Next. It keeps 1 <= page <= totalPage, and nothing else changes. |
| `SearchPage.SearchView.SyncCategory` | src/pages/search.tsx:39-44 | The category follows `NextCategory` for the new path. The page is unchanged. |
| `PathSegments.JoinSplit` | src/pages/search.tsx:40 | Joining the pieces of `split("/")` with "/" gives back the path, so the split loses nothing. |
| `PathSegments.LastSegment` | src/pages/search.tsx:40 | `split("/").pop()` contains no "/". It is the suffix after the last "/", or the whole path when there is no "/". |
| `PathSegments.LastSegmentOfAppend` | src/pages/search.tsx:40 | For any prefix p and any piece s without "/", the last segment of p + "/" + s is s. |
| `NewProductPage.InitialFields` | src/pages/admin/management/newproduct.tsx:12-17 | The form starts with name "", category "", price 1000, stock 1 and no photo. |
| `NewProductPage.InitialFieldsCannotSubmit` | src/pages/admin/management/newproduct.tsx:41 | The untouched form cannot be sent. |
| `NewProductPage.Submit` | src/pages/admin/management/newproduct.tsx:38-50 | Nothing is sent exactly when the name or category is empty, the price is 0, the stock is negative or no photo is chosen. A negative price and a stock of 0 pass. Otherwise the form has exactly the keys name, price, stock, photo and category, with price and stock in decimal. |
| `Decimal.DecimalString` | src/pages/admin/management/newproduct.tsx:46-47 | `toString` of an integer is "-" for negatives followed by digits, with no leading zero in either case ("0" is the only text starting with 0). |
| `Decimal.DecimalRoundTrip` | src/pages/admin/management/newproduct.tsx:46-47 | The decimal text of every integer reads back as that integer. |
| `Decimal.DecimalInjective` | src/pages/admin/management/productmanagement.tsx:63-65 | Two different integers never produce the same decimal text, so the sent price and stock determine the numbers. |
| `ProductManagementPage.ShownFieldsOf` | src/pages/admin/management/productmanagement.tsx:23-29 | With no product loaded the fields are photo "", category "", name "", stock 0 and price 0. Otherwise they are the product's. |
| `ProductManagementPage.ProductEditor.constructor` | src/pages/admin/management/productmanagement.tsx:31-36 | The edit fields start from the shown fields, with no new photo. |
| `ProductManagementPage.ProductEditor.DataChanged` | src/pages/admin/management/productmanagement.tsx:87-94 | When data arrives, name, price, stock and category are overwritten with the product's. Without data nothing changes. The chosen photo is kept. |
| `ProductManagementPage.ProductEditor.PhotoChosen` | src/pages/admin/management/productmanagement.tsx:41-55 | A chosen file becomes the new photo. The other edit fields are unchanged. |
| `ProductManagementPage.ProductEditor.Submit` | src/pages/admin/management/productmanagement.tsx:57-67 | name only if non-empty, price only if non-zero, stock always (even 0), photo only if a file was chosen, category only if non-empty. No other key. Numbers are in decimal. |
| `ShippingPage.EmptyShippingInfo` | src/pages/shipping.tsx:18-24 | All five address fields start as "". |
| `ShippingPage.ChangeField` | src/pages/shipping.tsx:27-31 | The named field takes the value and every other field keeps its own. |
| `ShippingPage.ChangesCommute` | src/pages/shipping.tsx:30 | Edits to two different fields give the same record in either order. |
| `ShippingPage.EmptyCartRedirect` | src/pages/shipping.tsx:62-64 | A redirect to /cart exactly when the cart length is <= 0. |
| `ShippingPage.CheckoutLinkMatchesRedirect` | src/pages/cart.tsx:142-149 | The cart offers "Proceed to Checkout" exactly when the shipping page would not send the visitor back. |
| `ShippingPage.AllFilled` | src/pages/shipping.tsx:81-130 | True exactly when none of the five required controls is empty. |
| `ShippingPage.SubmitEffects` | src/pages/shipping.tsx:33-60 | The address is saved first. Then exactly one payment request follows, for the cart total. A navigation to /pay with the client secret follows only on success. Nothing else: three effects on success, two on failure. |
| `ShippingPage.ShippingView.constructor` | src/pages/shipping.tsx:18-25 | An empty address, Pay Now enabled, nothing caused yet. |
| `ShippingPage.ShippingView.Change` | src/pages/shipping.tsx:27-31 | The record follows `ChangeField`. Nothing else changes. |
| `ShippingPage.ShippingView.CartChanged` | src/pages/shipping.tsx:62-64 | An empty cart appends a navigation to /cart. Nothing else changes. |
| `ShippingPage.ShippingView.Submit` | src/pages/shipping.tsx:33-60 | When enabled and every required field is filled, appends the submit's effects. Only a created payment disables Pay Now, so after a failure it stays enabled for a retry. A disabled button or a form with an empty field submits nothing. |

## Left out

- The cart reducer is not part of this model: `addToCart` (replace or append), `removeCartItem`, `discountApplied`, `calculatePrice` (tax, shipping, total) and `saveShippingInfo`. The pages' requests to it are `Action` values and no formula is assumed.
- The coupon lookup's one-second debounce, its `clearTimeout` and its cancel token (`src/pages/cart.tsx:39-45, 57-61`) are timing and async cancellation. The model only takes the outcome that settled.
- The network is not modelled: the discount and payment requests, the product and search queries, and the new/update/delete product mutations. Their results are parameters: `LookupOutcome`, `PaymentOutcome`, the loaded `Product` and `totalPage`. The user and product ids sent beside the admin forms are not modelled.
- The three-second delay before moving to /pay is not modelled. The move is recorded as a scheduled `NavigateLater`.
- Toasts, `toFixed(2)`, JSX, styling and the product editor's redirect to /404 on a query error are not modelled.
- `Number(e.target.value)` parsing in the inputs is not modelled. So are the plain setters of text, number, sort, price-range and drawer inputs. Prices, stock, quantities, pages and totals are integers, so NaN and fractional values are not modelled.
- The admin product editor's delete button and the new-product page's photo preview (`FileReader`) are not modelled. The new-product photo is an optional field of the form value.
- ProductDetailsPage.ProductView.AddToCartClicked: the model requires a loaded product. A click after the product query failed would send an item whose fields are all `undefined`, and that case is not modelled.
- Decimal.DecimalString: models `toString` only for integers below 10^21 in magnitude that a double holds exactly. From 10^21 up JavaScript writes exponent form ("1e+21"), and integers beyond 2^53 are rounded before they are written; neither is modelled.
- ShippingPage.ShippingView.Submit: the model takes the payment outcome as given. It does not model a second submission that starts while the first request is still in flight, before `disabled` is set.
