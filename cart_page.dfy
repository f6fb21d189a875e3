/**
 * The cart page: the line-item quantity stepper and remove button, the outcome of
 * the coupon lookup, and the conditions under which the coupon banner and the
 * checkout link are shown.
 */
module CartPage {
  import opened Storefront

  // ---------------------------------------------------------------------------
  // Line-item stepper

  /** The "+" button: refuses at the stock bound, else re-adds the item with one more. */
  function IncrementHandler(item: CartItem): (r: Option<Action>)
    ensures r.None? <==> item.quantity >= item.stock
    ensures r.Some? ==>
      && r.value.AddToCart?
      && r.value.item.quantity == item.quantity + 1
      && SameExceptQuantity(r.value.item, item)
  {
    if item.quantity >= item.stock then None
    else Some(AddToCart(item.(quantity := item.quantity + 1)))
  }

  /** The "-" button: refuses at one, else re-adds the item with one fewer. */
  function DecrementHandler(item: CartItem): (r: Option<Action>)
    ensures r.None? <==> item.quantity <= 1
    ensures r.Some? ==>
      && r.value.AddToCart?
      && r.value.item.quantity == item.quantity - 1
      && SameExceptQuantity(r.value.item, item)
  {
    if item.quantity <= 1 then None
    else Some(AddToCart(item.(quantity := item.quantity - 1)))
  }

  /** The remove button forwards the product id, and nothing else, to the store. */
  function RemoveHandler(productId: string): (r: Action)
    ensures r.RemoveCartItem? && r.productId == productId
  {
    RemoveCartItem(productId)
  }

  datatype Click = Plus | Minus

  function Stepper(item: CartItem, click: Click): (r: Option<Action>)
    ensures r.Some? ==> r.value.AddToCart? && SameExceptQuantity(r.value.item, item)
  {
    match click
    case Plus => IncrementHandler(item)
    case Minus => DecrementHandler(item)
  }

  /**
   * The items a run of clicks emits, when the card is shown again with each item
   * it emitted (a refused click leaves the card as it was).
   */
  function Emitted(item: CartItem, clicks: seq<Click>): seq<CartItem>
    decreases |clicks|
  {
    if clicks == [] then []
    else
      match Stepper(item, clicks[0])
      case None => Emitted(item, clicks[1..])
      case Some(a) => [a.item] + Emitted(a.item, clicks[1..])
  }

  /**
   * From a line item with 1 <= quantity <= stock, every item a run of clicks emits
   * keeps its quantity within [1, stock] and differs from the original only in
   * its quantity.
   */
  lemma {:induction false} EmittedStaysInStock(item: CartItem, clicks: seq<Click>)
    requires 1 <= item.quantity <= item.stock
    ensures forall k :: 0 <= k < |Emitted(item, clicks)| ==>
      1 <= Emitted(item, clicks)[k].quantity <= item.stock
      && SameExceptQuantity(Emitted(item, clicks)[k], item)
    decreases |clicks|
  {
    if clicks != [] {
      match Stepper(item, clicks[0])
      case None =>
        EmittedStaysInStock(item, clicks[1..]);
      case Some(a) =>
        var next := a.item;
        assert 1 <= next.quantity <= next.stock by {
          if clicks[0] == Plus { assert next.quantity == item.quantity + 1; }
          else { assert next.quantity == item.quantity - 1; }
        }
        EmittedStaysInStock(next, clicks[1..]);
    }
  }

  /** Two consecutive emissions differ in quantity by exactly one. */
  lemma {:induction false} EmittedMovesByOne(item: CartItem, clicks: seq<Click>)
    ensures var e := Emitted(item, clicks);
      && (|e| > 0 ==> e[0].quantity - item.quantity == 1 || item.quantity - e[0].quantity == 1)
      && forall k :: 0 < k < |e| ==>
           e[k].quantity - e[k - 1].quantity == 1 || e[k - 1].quantity - e[k].quantity == 1
    decreases |clicks|
  {
    if clicks != [] {
      match Stepper(item, clicks[0])
      case None =>
        EmittedMovesByOne(item, clicks[1..]);
      case Some(a) =>
        EmittedMovesByOne(a.item, clicks[1..]);
        var e := Emitted(item, clicks);
        assert e == [a.item] + Emitted(a.item, clicks[1..]);
    }
  }

  // ---------------------------------------------------------------------------
  // Coupon lookup outcome

  /** How the discount lookup for the current code settled. */
  datatype LookupOutcome = Resolved(discount: int) | Rejected

  /** The discount the most recent `DiscountApplied` in a dispatch log asked for. */
  function AppliedDiscount(log: seq<Action>): Option<int>
    decreases |log|
  {
    if log == [] then None
    else if log[|log| - 1].DiscountApplied? then Some(log[|log| - 1].discount)
    else AppliedDiscount(log[..|log| - 1])
  }

  /**
   * What the lookup's `.then` or `.catch` dispatches: the server's discount or zero,
   * then a price recalculation.
   */
  function OutcomeDispatches(o: LookupOutcome): (acts: seq<Action>)
    ensures |acts| == 2 && acts[1] == CalculatePrice
    ensures AppliedDiscount(acts) == Some(if o.Resolved? then o.discount else 0)
  {
    match o
    case Resolved(d) => [DiscountApplied(d), CalculatePrice]
    case Rejected => [DiscountApplied(0), CalculatePrice]
  }

  /** Whatever was dispatched before, a later discount decides the one in force. */
  lemma {:induction false} AppliedDiscountOfSuffix(log: seq<Action>, tail: seq<Action>)
    requires AppliedDiscount(tail).Some?
    ensures AppliedDiscount(log + tail) == AppliedDiscount(tail)
    decreases |tail|
  {
    var whole := log + tail;
    assert whole[|whole| - 1] == tail[|tail| - 1];
    if !tail[|tail| - 1].DiscountApplied? {
      assert whole[..|whole| - 1] == log + tail[..|tail| - 1];
      AppliedDiscountOfSuffix(log, tail[..|tail| - 1]);
    }
  }

  /** The message under the coupon box. */
  datatype CouponBanner = NoBanner | DiscountBanner | InvalidBanner

  function CouponBannerFor(couponCode: string, isValidCouponCode: bool): (b: CouponBanner)
    ensures b.NoBanner? <==> couponCode == ""
    ensures b.DiscountBanner? <==> couponCode != "" && isValidCouponCode
    ensures b.InvalidBanner? <==> couponCode != "" && !isValidCouponCode
  {
    if couponCode == "" then NoBanner
    else if isValidCouponCode then DiscountBanner
    else InvalidBanner
  }

  /** "Proceed to Checkout" is offered only for a non-empty cart. */
  predicate ShowCheckoutLink(cartLength: int)
  {
    cartLength > 0
  }

  /**
   * The coupon box's state on the cart page: the code typed, whether the last
   * lookup succeeded, and what the lookups dispatched to the store.
   */
  class CouponBox {
    var couponCode: string
    var isValidCouponCode: bool
    var dispatched: seq<Action>

    /** A valid flag is always backed by a discount followed by a recalculation. */
    predicate Valid()
      reads this
    {
      isValidCouponCode ==>
        && |dispatched| >= 2
        && dispatched[|dispatched| - 2].DiscountApplied?
        && dispatched[|dispatched| - 1] == CalculatePrice
    }

    constructor ()
      ensures Valid()
      ensures couponCode == "" && !isValidCouponCode && dispatched == []
    {
      couponCode := "";
      isValidCouponCode := false;
      dispatched := [];
    }

    /**
     * Typing a different code tears down the pending lookup, which clears the
     * valid flag; typing the same code changes nothing.
     */
    method ChangeCode(code: string)
      requires Valid()
      modifies this
      ensures Valid()
      ensures couponCode == code && dispatched == old(dispatched)
      ensures isValidCouponCode == (old(isValidCouponCode) && code == old(couponCode))
    {
      if code != couponCode {
        isValidCouponCode := false;
        couponCode := code;
      }
    }

    /** The lookup settled: record the discount, the flag, and ask for new totals. */
    method Settle(o: LookupOutcome)
      requires Valid()
      modifies this
      ensures Valid()
      ensures dispatched == old(dispatched) + OutcomeDispatches(o)
      ensures isValidCouponCode == o.Resolved? && couponCode == old(couponCode)
      ensures AppliedDiscount(dispatched) == Some(if o.Resolved? then o.discount else 0)
    {
      var acts := OutcomeDispatches(o);
      AppliedDiscountOfSuffix(dispatched, acts);
      dispatched := dispatched + acts;
      isValidCouponCode := o.Resolved?;
    }

    /** Leaving the page runs the effect's cleanup: the flag is cleared, nothing is dispatched. */
    method Unmount()
      requires Valid()
      modifies this
      ensures Valid()
      ensures !isValidCouponCode
      ensures couponCode == old(couponCode) && dispatched == old(dispatched)
    {
      isValidCouponCode := false;
    }
  }
}
