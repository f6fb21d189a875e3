/**
 * The product page: a quantity picker bounded by the product's stock, and the
 * Add To Cart button that builds a cart item from the loaded product.
 */
module ProductDetailsPage {
  import opened Storefront

  /**
   * The "-" updater passed to `setQuantity`: one less when above one, otherwise
   * unchanged, so a quantity of at least one never drops below one.
   */
  function DecrementUpdater(prev: int): (next: int)
    ensures next == prev || next == prev - 1
    ensures next < prev <==> prev > 1
    ensures prev >= 1 ==> next >= 1
  {
    if prev > 1 then prev - 1 else prev
  }

  /**
   * The "+" updater: one more when below the stock, otherwise unchanged. Before the
   * product has loaded the stock is undefined, every comparison with it is false,
   * and the quantity stays as it is.
   */
  function IncrementUpdater(prev: int, stock: Option<int>): (next: int)
    ensures next == prev || next == prev + 1
    ensures next > prev <==> stock.Some? && prev < stock.value
    ensures stock.Some? && prev <= stock.value ==> next <= stock.value
  {
    if stock.Some? && prev < stock.value then prev + 1 else prev
  }

  datatype PickerClick = Less | More

  function PickerStep(prev: int, stock: Option<int>, click: PickerClick): int
  {
    match click
    case Less => DecrementUpdater(prev)
    case More => IncrementUpdater(prev, stock)
  }

  /** The quantity after a run of clicks on the picker. */
  function PickerAfter(quantity: int, stock: Option<int>, clicks: seq<PickerClick>): int
    decreases |clicks|
  {
    if clicks == [] then quantity
    else PickerAfter(PickerStep(quantity, stock, clicks[0]), stock, clicks[1..])
  }

  /** If 1 <= quantity <= stock holds at first, it holds after any run of clicks. */
  lemma {:induction false} PickerStaysInStock(quantity: int, stock: int, clicks: seq<PickerClick>)
    requires 1 <= quantity <= stock
    ensures 1 <= PickerAfter(quantity, Some(stock), clicks) <= stock
    decreases |clicks|
  {
    if clicks != [] {
      var next := PickerStep(quantity, Some(stock), clicks[0]);
      assert 1 <= next <= stock;
      PickerStaysInStock(next, stock, clicks[1..]);
    }
  }

  /** Each click moves the quantity by at most one, so n clicks move it by at most n. */
  lemma {:induction false} PickerMovesAtMostOnePerClick(quantity: int, stock: Option<int>, clicks: seq<PickerClick>)
    ensures quantity - |clicks| <= PickerAfter(quantity, stock, clicks) <= quantity + |clicks|
    decreases |clicks|
  {
    if clicks != [] {
      PickerMovesAtMostOnePerClick(PickerStep(quantity, stock, clicks[0]), stock, clicks[1..]);
    }
  }

  /** The item the Add To Cart button builds: the loaded product with the picked quantity. */
  function BuildCartItem(p: Product, quantity: int): (item: CartItem)
    ensures item.quantity == quantity
    ensures item.productId == p.id && item.price == p.price && item.name == p.name
    ensures item.photo == p.photo && item.stock == p.stock
  {
    CartItem(p.id, p.name, p.price, p.photo, p.stock, quantity)
  }

  /** The state of the product page: the loaded product, if any, and the picked quantity. */
  class ProductView {
    var product: Option<Product>
    var quantity: int

    /** The picker is within the loaded product's stock. */
    predicate InStock()
      reads this
    {
      product.Some? && 1 <= quantity <= product.value.stock
    }

    function Stock(): (s: Option<int>)
      reads this
      ensures s.Some? <==> product.Some?
      ensures s.Some? ==> s.value == product.value.stock
    {
      if product.Some? then Some(product.value.stock) else None
    }

    /** The picker starts at one whatever the product. */
    constructor (product: Option<Product>)
      ensures this.product == product && quantity == 1
    {
      this.product := product;
      quantity := 1;
    }

    /** The product query returned. */
    method Loaded(p: Product)
      modifies this
      ensures product == Some(p) && quantity == old(quantity)
    {
      product := Some(p);
    }

    method Decrement()
      modifies this
      ensures quantity == DecrementUpdater(old(quantity)) && product == old(product)
      ensures old(InStock()) ==> InStock()
    {
      quantity := DecrementUpdater(quantity);
    }

    method Increment()
      modifies this
      ensures quantity == IncrementUpdater(old(quantity), old(Stock())) && product == old(product)
      ensures old(InStock()) ==> InStock()
    {
      quantity := IncrementUpdater(quantity, Stock());
    }

    /**
     * The Add To Cart button: refused when the product is out of stock, otherwise
     * it dispatches the product with the picked quantity.
     */
    method AddToCartClicked() returns (r: Option<Action>)
      requires product.Some?
      ensures r.None? <==> product.value.stock < 1
      ensures r.Some? ==> r.value.AddToCart? && r.value.item == BuildCartItem(product.value, quantity)
    {
      r := AddToCartGate(BuildCartItem(product.value, quantity));
    }
  }
}
