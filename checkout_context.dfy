/** The checkout session of src/context/CheckoutContext.tsx: five pieces of
    state that the wizard stages read, and the setters that replace them. */
module Checkout {
  import opened Outcomes

  datatype Address = Address(
    fullName: string,
    phone: string,
    line1: string,
    line2: string,
    city: string,
    state: string,
    pincode: string)

  /** `"upi" | "card" | "cod"`: no other method can be stored. */
  datatype PaymentMethod = Upi | Card | Cod

  /** The session as a value. */
  datatype Session = Session(
    customerName: string,
    customerEmail: string,
    address: Option<Address>,
    paymentMethod: Option<PaymentMethod>,
    paymentComplete: bool)

  /** The state a provider starts in and `resetCheckout` returns to. */
  const FreshSession: Session := Session("", "", None, None, false)

  /** `CheckoutProvider`: the session state, updated in place by its
      setters. */
  class CheckoutStore {
    var customerName: string
    var customerEmail: string
    var address: Option<Address>
    var paymentMethod: Option<PaymentMethod>
    var paymentComplete: bool

    function State(): Session
      reads this
    {
      Session(customerName, customerEmail, address, paymentMethod, paymentComplete)
    }

    /** A new provider: empty name and email, no address, no method, not
        paid. */
    constructor ()
      ensures State() == FreshSession
    {
      customerName, customerEmail := "", "";
      address, paymentMethod := None, None;
      paymentComplete := false;
    }

    /** `setCustomerInfo`: name and email together, nothing else. */
    method SetCustomerInfo(name: string, email: string)
      modifies this
      ensures State() == old(State()).(customerName := name, customerEmail := email)
    {
      customerName := name;
      customerEmail := email;
    }

    /** `setAddress`: replaces the address only. */
    method SetAddress(addr: Address)
      modifies this
      ensures State() == old(State()).(address := Some(addr))
    {
      address := Some(addr);
    }

    /** `setPaymentMethod`: replaces the method only. */
    method SetPaymentMethod(m: PaymentMethod)
      modifies this
      ensures State() == old(State()).(paymentMethod := Some(m))
    {
      paymentMethod := Some(m);
    }

    /** `setPaymentComplete`: replaces the flag only. */
    method SetPaymentComplete(complete: bool)
      modifies this
      ensures State() == old(State()).(paymentComplete := complete)
    {
      paymentComplete := complete;
    }

    /** `resetCheckout`: all five fields back to their fresh values,
        whatever they were, so resetting twice is resetting once. */
    method ResetCheckout()
      modifies this
      ensures State() == FreshSession
    {
      customerName, customerEmail := "", "";
      address, paymentMethod := None, None;
      paymentComplete := false;
    }
  }
}
