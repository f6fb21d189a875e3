/**
 * Values shared by the storefront pages: the cart line item, the product record
 * returned by the product-detail query, the shipping address, and the actions and
 * effects a page hands to the store, the router or the payment endpoint.
 *
 * The cart reducer that interprets these actions (addToCart, removeCartItem,
 * discountApplied, calculatePrice, saveShippingInfo) is not part of this model:
 * an action here is only the request a page emits.
 */
module Storefront {

  datatype Option<+T> = None | Some(value: T)

  /** A cart line item: what every page passes to addToCart. */
  datatype CartItem = CartItem(
    productId: string,
    name: string,
    price: int,
    photo: string,
    stock: int,
    quantity: int)

  /** A product as the product-detail query returns it. */
  datatype Product = Product(
    id: string,
    name: string,
    price: int,
    photo: string,
    stock: int,
    category: string)

  /** The postal address collected on the shipping page. */
  datatype ShippingInfo = ShippingInfo(
    address: string,
    city: string,
    state: string,
    country: string,
    pinCode: string)

  /** Requests dispatched to the cart store. */
  datatype Action =
    | AddToCart(item: CartItem)
    | RemoveCartItem(productId: string)
    | DiscountApplied(discount: int)
    | CalculatePrice
    | SaveShippingInfo(info: ShippingInfo)

  /** Everything a page can cause outside its own state. */
  datatype Effect =
    | Dispatch(action: Action)
    | Navigate(path: string)
    | CreatePayment(amount: int)
    | NavigateLater(path: string, clientSecret: string)

  /** `b` is `a` with at most its quantity changed (the `{ ...item, quantity }` spread). */
  predicate SameExceptQuantity(a: CartItem, b: CartItem)
  {
    && a.productId == b.productId
    && a.name == b.name
    && a.price == b.price
    && a.photo == b.photo
    && a.stock == b.stock
  }

  /**
   * The add-to-cart gate shared by the search results and the product page: an
   * out-of-stock item is refused (the page only shows a toast), any other item is
   * dispatched exactly as given.
   */
  function AddToCartGate(item: CartItem): (r: Option<Action>)
    ensures r.None? <==> item.stock < 1
    ensures r.Some? ==> r.value.AddToCart? && r.value.item == item
  {
    if item.stock < 1 then None else Some(AddToCart(item))
  }
}
