/**
 * The shipping page: the address form, the redirect away from an empty cart, and
 * the Pay Now sequence (save the address, ask the payment endpoint for a payment
 * with the cart total, then either move on to payment or stay for a retry).
 */
module ShippingPage {
  import opened Storefront
  import CartPage

  /** The `name` attribute of each form control. */
  datatype Field = Address | City | State | Country | PinCode

  function FieldValue(info: ShippingInfo, f: Field): string
  {
    match f
    case Address => info.address
    case City => info.city
    case State => info.state
    case Country => info.country
    case PinCode => info.pinCode
  }

  /** The address record the form starts with: every field empty. */
  function EmptyShippingInfo(): (info: ShippingInfo)
    ensures forall f :: FieldValue(info, f) == ""
  {
    ShippingInfo("", "", "", "", "")
  }

  /** `{ ...prev, [name]: value }`: the named field takes the value, the others keep theirs. */
  function ChangeField(info: ShippingInfo, f: Field, value: string): (r: ShippingInfo)
    ensures FieldValue(r, f) == value
    ensures forall g :: g != f ==> FieldValue(r, g) == FieldValue(info, g)
  {
    match f
    case Address => info.(address := value)
    case City => info.(city := value)
    case State => info.(state := value)
    case Country => info.(country := value)
    case PinCode => info.(pinCode := value)
  }

  /** Edits to two different fields do not interfere, in either order. */
  lemma ChangesCommute(info: ShippingInfo, f: Field, v: string, g: Field, w: string)
    requires f != g
    ensures ChangeField(ChangeField(info, f, v), g, w) == ChangeField(ChangeField(info, g, w), f, v)
  {
  }

  /** The effect on the cart: an empty cart sends the visitor back to /cart. */
  function EmptyCartRedirect(cartLength: int): (e: Option<Effect>)
    ensures e.Some? <==> cartLength <= 0
    ensures e.Some? ==> e.value == Navigate("/cart")
  {
    if cartLength <= 0 then Some(Navigate("/cart")) else None
  }

  /**
   * The cart page offers "Proceed to Checkout" exactly when the shipping page
   * would not send the visitor straight back.
   */
  lemma CheckoutLinkMatchesRedirect(cartLength: int)
    ensures CartPage.ShowCheckoutLink(cartLength) <==> EmptyCartRedirect(cartLength).None?
  {
  }

  /** How the payment-creation request ended. */
  datatype PaymentOutcome = Created(clientSecret: string) | Failed

  /** Five non-empty fields leave no field empty. */
  lemma NoFieldEmpty(info: ShippingInfo)
    requires info.address != "" && info.city != "" && info.state != ""
    requires info.country != "" && info.pinCode != ""
    ensures forall f :: FieldValue(info, f) != ""
  {
  }

  /**
   * Every control of the form is `required`, so the browser submits the form only
   * when no field is empty.
   */
  function AllFilled(info: ShippingInfo): (r: bool)
    ensures r <==> forall f :: FieldValue(info, f) != ""
  {
    if info.address != "" && info.city != "" && info.state != ""
      && info.country != "" && info.pinCode != ""
    then NoFieldEmpty(info); true
    else
      assert FieldValue(info, Address) == info.address && FieldValue(info, City) == info.city
        && FieldValue(info, State) == info.state && FieldValue(info, Country) == info.country
        && FieldValue(info, PinCode) == info.pinCode;
      false
  }

  /** What one Pay Now submission causes, in order. */
  function SubmitEffects(info: ShippingInfo, total: int, outcome: PaymentOutcome): (es: seq<Effect>)
    ensures |es| == (if outcome.Created? then 3 else 2)
    ensures es[0] == Dispatch(SaveShippingInfo(info))
    ensures forall k :: 0 <= k < |es| && es[k].CreatePayment? ==> k == 1 && es[k].amount == total
    ensures es[1].CreatePayment?
    ensures forall k :: 0 <= k < |es| && es[k].NavigateLater? ==>
      outcome.Created? && es[k] == NavigateLater("/pay", outcome.clientSecret)
    ensures outcome.Created? ==> es[|es| - 1] == NavigateLater("/pay", outcome.clientSecret)
  {
    var sent := [Dispatch(SaveShippingInfo(info)), CreatePayment(total)];
    match outcome
    case Created(secret) => sent + [NavigateLater("/pay", secret)]
    case Failed => sent
  }

  /** The shipping page's state. */
  class ShippingView {
    var shippingInfo: ShippingInfo
    var disabled: bool
    var effects: seq<Effect>

    /** Pay Now is disabled only once a payment has been created and the move to /pay is scheduled. */
    predicate Valid()
      reads this
    {
      disabled ==> exists k :: 0 <= k < |effects| && effects[k].NavigateLater?
    }

    constructor ()
      ensures Valid()
      ensures shippingInfo == EmptyShippingInfo() && !disabled && effects == []
    {
      shippingInfo := EmptyShippingInfo();
      disabled := false;
      effects := [];
    }

    /** `changeHandler`: one control changed. */
    method Change(f: Field, value: string)
      requires Valid()
      modifies this
      ensures Valid()
      ensures shippingInfo == ChangeField(old(shippingInfo), f, value)
      ensures disabled == old(disabled) && effects == old(effects)
    {
      shippingInfo := ChangeField(shippingInfo, f, value);
    }

    /** The effect on `cartItems`: redirect when the cart is empty. */
    method CartChanged(cartLength: int)
      requires Valid()
      modifies this
      ensures Valid()
      ensures effects == old(effects) + (if cartLength <= 0 then [Navigate("/cart")] else [])
      ensures shippingInfo == old(shippingInfo) && disabled == old(disabled)
    {
      var redirect := EmptyCartRedirect(cartLength);
      if redirect.Some? {
        ghost var before := effects;
        effects := effects + [redirect.value];
        assert forall k :: 0 <= k < |before| ==> effects[k] == before[k];
      }
    }

    /**
     * Pay Now. A disabled button, or a form with an empty required field, submits
     * nothing. Otherwise the address is saved, the payment is requested for `total`,
     * and only a created payment disables the button and schedules the move to /pay
     * with its client secret; after a failure the button stays enabled.
     */
    method Submit(total: int, outcome: PaymentOutcome)
      requires Valid()
      modifies this
      ensures Valid()
      ensures effects == old(effects) +
        (if old(disabled) || !AllFilled(old(shippingInfo)) then []
         else SubmitEffects(old(shippingInfo), total, outcome))
      ensures disabled == (old(disabled) || (AllFilled(old(shippingInfo)) && outcome.Created?))
      ensures shippingInfo == old(shippingInfo)
    {
      if !disabled && AllFilled(shippingInfo) {
        var sent := SubmitEffects(shippingInfo, total, outcome);
        effects := effects + sent;
        if outcome.Created? {
          assert effects[|effects| - 1].NavigateLater?;
          disabled := true;
        }
      }
    }
  }
}
