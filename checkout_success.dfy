/** The last stage of the checkout (src/app/checkout/success/page.tsx): its
    guard, the receipt it shows, and the two exit links that reset the
    session. The receipt formats are shared with the gateway stage. */
module SuccessStage {
  import opened Outcomes
  import opened Navigation
  import opened Checkout

  /** The stage shows only once the payment is complete. */
  function SuccessEntry(s: Session): (e: Entry)
    ensures e == Show <==> s.paymentComplete
    ensures e != Show ==> e == Redirect(OrderRoute)
  {
    if !s.paymentComplete then Redirect(OrderRoute) else Show
  }

  const Dash: string := "\U{2014}"

  /** `paymentMethod ? methodLabels[paymentMethod] : "—"`. */
  function MethodLabel(m: Option<PaymentMethod>): (text: string)
    ensures text != []
  {
    match m
    case None => Dash
    case Some(Upi) => "UPI"
    case Some(Card) => "Card"
    case Some(Cod) => "Cash on Delivery"
  }

  /** Different payment situations never show the same label, so the
      receipt tells the shopper exactly how they paid. */
  lemma MethodLabelInjective(m1: Option<PaymentMethod>, m2: Option<PaymentMethod>)
    ensures MethodLabel(m1) == MethodLabel(m2) <==> m1 == m2
  {
    if m1 != m2 {
      assert |MethodLabel(m1)| != |MethodLabel(m2)|;
    }
  }

  /** `, ${line2}` when the second line is non-empty, nothing otherwise. */
  function LineTwoPart(line2: string): (p: string)
    ensures line2 == [] ==> p == []
    ensures line2 != [] ==> p == ", " + line2
  {
    if line2 != [] then ", " + line2 else []
  }

  /** ", {city} — {pincode}": the end of the delivery line. */
  function CityPart(a: Address): (p: string)
    ensures |p| == |a.city| + 5 + |a.pincode|
    ensures p[..2] == ", " && p[2..2 + |a.city|] == a.city
    ensures p[2 + |a.city|..5 + |a.city|] == " " + Dash + " "
    ensures p[|p| - |a.pincode|..] == a.pincode
  {
    var p := ", " + a.city + " " + Dash + " " + a.pincode;
    assert p == (", " + a.city + " " + Dash + " ") + a.pincode;
    p
  }

  /** The delivery line of the receipt (and of the gateway stage): the first
      line, the second line only when there is one, then the city and the
      pincode. */
  function DeliveryLine(a: Address): (r: string)
    ensures |r| == |a.line1| + |LineTwoPart(a.line2)| + |a.city| + 5 + |a.pincode|
  {
    a.line1 + LineTwoPart(a.line2) + CityPart(a)
  }

  /** The three pieces of a concatenation. */
  lemma Pieces(x: string, y: string, z: string, k: nat)
    requires k <= |z|
    ensures (x + y + z)[..|x|] == x
    ensures (x + y + z)[|x|..|x| + |y|] == y
    ensures (x + y + z)[|x| + |y| + k..] == z[k..]
  {
  }

  /** The delivery line starts with the first address line and ends with the
      pincode; a non-empty second line appears right after the first, after
      a comma (an empty one adds nothing, as the length shows); and the rest
      is the city part: a comma, the city, a dash between spaces, and the
      pincode. */
  lemma {:induction false} DeliveryLineParts(a: Address)
    ensures DeliveryLine(a)[..|a.line1|] == a.line1
    ensures DeliveryLine(a)[|DeliveryLine(a)| - |a.pincode|..] == a.pincode
    ensures a.line2 != [] ==>
      DeliveryLine(a)[|a.line1|..|a.line1| + 2 + |a.line2|] == ", " + a.line2
    ensures DeliveryLine(a)[|a.line1| + |LineTwoPart(a.line2)|..] == CityPart(a)
  {
    var z := CityPart(a);
    Pieces(a.line1, LineTwoPart(a.line2), z, |z| - |a.pincode|);
    Pieces(a.line1, LineTwoPart(a.line2), z, 0);
  }

  /** The receipt's "Delivering to" block: the name and the delivery line,
      present exactly when the session has an address. */
  function DeliveryBlock(s: Session): (b: Option<(string, string)>)
    ensures b.Some? <==> s.address.Some?
    ensures b.Some? ==> b.value.0 == s.address.value.fullName
  {
    match s.address
    case None => None
    case Some(a) => Some((a.fullName, DeliveryLine(a)))
  }

  /** The two exit links: "Order More Juices" to "/menu" and "Back to Home"
      to "/". */
  datatype ExitLink = OrderMore | BackToHome

  /** `handleBackToHome` followed by the link's navigation: the session is
      reset whichever link is used, so the stage can no longer be entered. */
  method HandleBackToHome(store: CheckoutStore, link: ExitLink) returns (nav: Nav)
    modifies store
    ensures store.State() == FreshSession
    ensures SuccessEntry(store.State()) == Redirect(OrderRoute)
    ensures nav == Push(if link == OrderMore then MenuRoute else HomeRoute)
  {
    store.ResetCheckout();
    nav := Push(if link == OrderMore then MenuRoute else HomeRoute);
  }
}
