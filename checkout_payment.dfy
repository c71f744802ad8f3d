/** The payment-method stage of the checkout
    (src/app/checkout/payment/page.tsx): its guard, the selection it keeps,
    and the continue rule that stores the method. */
module PaymentStage {
  import opened Outcomes
  import opened Navigation
  import opened Checkout
  import opened Cart
  import opened SuccessStage

  /** The stage shows only with an address and a non-empty cart. */
  function PaymentEntry(s: Session, items: seq<CartLine>): (e: Entry)
    ensures e == Show <==> s.address.Some? && items != []
    ensures e != Show ==> e == Redirect(OrderRoute)
  {
    if s.address.None? || |items| == 0 then Redirect(OrderRoute) else Show
  }

  const NoMethodError: string := "Please select a payment method."

  /** Where "Continue" leads: the gateway, with `?method=cod` for cash on
      delivery only. */
  function GatewayFor(m: PaymentMethod): (r: Route)
    ensures r.GatewayRoute? && (r.codQuery <==> m == Cod)
  {
    if m == Cod then GatewayRoute(true) else GatewayRoute(false)
  }

  /** The summary line above the method list: like the receipt's delivery
      line, but with the state after the city. */
  function SummaryLine(a: Address): (r: string)
    ensures r == DeliveryLine(a.(city := a.city + ", " + a.state))
  {
    a.line1 + LineTwoPart(a.line2) + ", " + a.city + ", " + a.state + " " + Dash + " " + a.pincode
  }

  /** The page's own state: the highlighted method and the error. */
  class PaymentPage {
    var selected: Option<PaymentMethod>
    var error: string

    /** The selection starts as the method already stored in the session,
        so going back and forward keeps the choice. */
    constructor (saved: Option<PaymentMethod>)
      ensures selected == saved && error == ""
    {
      selected := saved;
      error := "";
    }

    /** Clicking a method selects it and clears any error. */
    method Choose(m: PaymentMethod)
      modifies this
      ensures selected == Some(m) && error == ""
    {
      selected := Some(m);
      error := "";
    }

    /** `handleContinue`: without a selection, shows the error and stores
        nothing; with one, stores exactly that method (nothing else in the
        session changes) and goes to the gateway. */
    method HandleContinue(store: CheckoutStore) returns (nav: Nav)
      modifies this, store
      ensures selected == old(selected)
      ensures old(selected).None? ==>
        error == NoMethodError && store.State() == old(store.State()) && nav == Stay
      ensures old(selected).Some? ==>
        store.State() == old(store.State()).(paymentMethod := old(selected))
        && error == old(error) && nav == Push(GatewayFor(old(selected).value))
    {
      if selected.None? {
        error := NoMethodError;
        return Stay;
      }
      store.SetPaymentMethod(selected.value);
      if selected.value == Cod {
        nav := Push(GatewayRoute(true));
      } else {
        nav := Push(GatewayRoute(false));
      }
    }

    /** "Back" and "Change": to the address stage, session untouched. */
    method Back() returns (nav: Nav)
      ensures nav == Push(AddressRoute)
    {
      nav := Push(AddressRoute);
    }
  }
}
