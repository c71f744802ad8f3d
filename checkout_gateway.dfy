/** The pay stage of the checkout (src/app/checkout/gateway/page.tsx): its
    guard and `handlePay`, which sends the order and, on success, marks the
    session paid and empties the cart.

    `handlePay` is asynchronous and its button is disabled while it runs.
    It is modelled as two steps: `BeginPay` (everything before the order
    request is awaited, returning the request to send) and `CompletePay`
    (everything after, given whether the request succeeded). */
module GatewayStage {
  import opened Outcomes
  import opened Navigation
  import opened Commerce
  import opened Checkout
  import opened Cart
  import opened SuccessStage

  /** The stage shows only with a method, an address and a non-empty
      cart. */
  function GatewayEntry(s: Session, items: seq<CartLine>): (e: Entry)
    ensures e == Show <==> s.paymentMethod.Some? && s.address.Some? && items != []
    ensures e != Show ==> e == Redirect(OrderRoute)
  {
    if s.paymentMethod.None? || s.address.None? || |items| == 0 then Redirect(OrderRoute) else Show
  }

  const PaymentFailed: string := "Payment failed. Please try again."

  /** The page's own state: whether a payment is in flight, and the error
      it shows. */
  class GatewayPage {
    var processing: bool
    var error: string

    constructor ()
      ensures !processing && error == ""
    {
      processing := false;
      error := "";
    }

    /** The first half of `handlePay`. While a payment is in flight the
        button is disabled and nothing happens, so at most one request is
        ever outstanding. Otherwise the page starts processing, clears the
        error and builds the request from the session's customer and the
        cart: its lines as items and its own total. Only a method other
        than cash on delivery waits for the simulated delay first. */
    method BeginPay(store: CheckoutStore, cart: CartStore) returns (request: Option<NewOrder>, delayed: bool)
      modifies this
      ensures old(processing) ==> request.None? && !delayed && processing && error == old(error)
      ensures !old(processing) ==>
        processing && error == ""
        && request == Some(OrderFromCart(store.customerName, store.customerEmail, cart.items, cart.totalPrice))
        && (delayed <==> store.paymentMethod != Some(Cod))
    {
      if processing {
        return None, false;
      }
      processing := true;
      error := "";
      var isCod := store.paymentMethod == Some(Cod);
      delayed := !isCod;
      request := Some(OrderFromCart(store.customerName, store.customerEmail, cart.items, cart.totalPrice));
    }

    /** The second half of `handlePay`, once the order request has settled.
        On success the session is marked paid (its address and method are
        kept: there is no reset), the cart is emptied and the shopper is sent
        to the success stage, which now lets them in; the page stays
        processing. The emptied cart also makes the gateway's own guard
        redirect to /order, so both navigations are issued. On failure the error is shown and processing stops,
        while the session and the cart are left as they were, so the stage
        still shows and the payment can be retried. */
    method CompletePay(store: CheckoutStore, cart: CartStore, created: bool) returns (nav: Nav)
      requires processing
      modifies this, store, cart
      ensures created ==>
        store.State() == old(store.State()).(paymentComplete := true)
        && cart.items == [] && cart.totalPrice == 0
        && processing && error == old(error) && nav == Push(SuccessRoute)
        && SuccessEntry(store.State()) == Show
        && GatewayEntry(store.State(), cart.items) == Redirect(OrderRoute)
      ensures !created ==>
        store.State() == old(store.State())
        && cart.items == old(cart.items) && cart.totalPrice == old(cart.totalPrice)
        && !processing && error == PaymentFailed && nav == Stay
        && GatewayEntry(store.State(), cart.items) == old(GatewayEntry(store.State(), cart.items))
    {
      if created {
        store.SetPaymentComplete(true);
        cart.ClearCart();
        nav := Push(SuccessRoute);
      } else {
        error := PaymentFailed;
        processing := false;
        nav := Stay;
      }
    }

    /** "Change payment method": disabled while processing, otherwise back
        to the payment stage. */
    method ChangeMethod() returns (nav: Nav)
      ensures processing ==> nav == Stay
      ensures !processing ==> nav == Push(PaymentRoute)
    {
      nav := if processing then Stay else Push(PaymentRoute);
    }
  }
}
