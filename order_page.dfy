/** Direct order placement on "/order" (src/app/order/page.tsx): the
    shopper's name and email, and `handlePlaceOrder`, which sends the cart
    as an order and empties it on success.

    `handlePlaceOrder` is asynchronous and its button is disabled while it
    runs; it is modelled as `BeginPlaceOrder` (up to the awaited request)
    and `CompletePlaceOrder` (after it). */
module OrderPlacement {
  import opened Outcomes
  import opened Strings
  import opened Commerce
  import opened Cart

  const MissingDetails: string := "Please enter your name and email."
  const PlaceFailed: string := "Failed to place order. Please try again."

  /** What the page shows: the confirmation once an order is placed,
      otherwise the empty-cart message or the cart with its summary and
      place-order button. */
  datatype View = Confirmation | EmptyCart | Summary(amounts: seq<int>, total: int)

  /** The amount beside each line of the summary. */
  function LineAmounts(lines: seq<CartLine>): (r: seq<int>)
    ensures |r| == |lines|
    ensures forall i :: 0 <= i < |lines| ==> r[i] == lines[i].price * lines[i].quantity
  {
    if lines == [] then [] else [LineAmount(lines[0])] + LineAmounts(lines[1..])
  }

  function ViewOf(orderPlaced: bool, lines: seq<CartLine>, totalPrice: int): (v: View)
    ensures v == Confirmation <==> orderPlaced
    ensures v == EmptyCart <==> !orderPlaced && lines == []
    ensures v.Summary? ==> v.amounts == LineAmounts(lines) && v.total == totalPrice
  {
    if orderPlaced then Confirmation
    else if |lines| == 0 then EmptyCart
    else Summary(LineAmounts(lines), totalPrice)
  }

  /** The page's own state. */
  class OrderPage {
    var orderPlaced: bool
    var placing: bool
    var error: string
    var customerName: string
    var customerEmail: string

    constructor ()
      ensures !orderPlaced && !placing && error == ""
      ensures customerName == "" && customerEmail == ""
    {
      orderPlaced, placing, error := false, false, "";
      customerName, customerEmail := "", "";
    }

    method EditName(v: string)
      modifies this
      ensures customerName == v
      ensures orderPlaced == old(orderPlaced) && placing == old(placing) && error == old(error)
      ensures customerEmail == old(customerEmail)
    {
      customerName := v;
    }

    method EditEmail(v: string)
      modifies this
      ensures customerEmail == v
      ensures orderPlaced == old(orderPlaced) && placing == old(placing) && error == old(error)
      ensures customerName == old(customerName)
    {
      customerEmail := v;
    }

    /** The first half of `handlePlaceOrder`. Nothing happens while an
        order is being placed (the button is disabled). A name or email
        that is blank after trimming shows the error and sends nothing.
        Otherwise the page starts placing, clears the error, and sends the
        trimmed name and email with the cart's lines and its total. */
    method BeginPlaceOrder(cart: CartStore) returns (request: Option<NewOrder>)
      modifies this
      ensures customerName == old(customerName) && customerEmail == old(customerEmail)
      ensures orderPlaced == old(orderPlaced)
      ensures old(placing) ==> request.None? && placing && error == old(error)
      ensures !old(placing) && (IsBlank(customerName) || IsBlank(customerEmail)) ==>
        request.None? && !placing && error == MissingDetails
      ensures !old(placing) && !IsBlank(customerName) && !IsBlank(customerEmail) ==>
        placing && error == ""
        && request == Some(OrderFromCart(Trim(customerName), Trim(customerEmail), cart.items, cart.totalPrice))
      ensures request.Some? ==>
        request.value.customerName != [] && Unpadded(request.value.customerName)
        && request.value.customerEmail != [] && Unpadded(request.value.customerEmail)
    {
      if placing {
        return None;
      }
      if IsBlank(customerName) || IsBlank(customerEmail) {
        error := MissingDetails;
        return None;
      }
      placing := true;
      error := "";
      request := Some(OrderFromCart(Trim(customerName), Trim(customerEmail), cart.items, cart.totalPrice));
    }

    /** The second half, once the request has settled. On success the
        cart is emptied and the confirmation shows; on failure the error
        shows and the cart is untouched. Either way placing stops. */
    method CompletePlaceOrder(cart: CartStore, created: bool)
      requires placing
      modifies this, cart
      ensures !placing
      ensures customerName == old(customerName) && customerEmail == old(customerEmail)
      ensures created ==>
        cart.items == [] && cart.totalPrice == 0 && orderPlaced && error == old(error)
        && ViewOf(orderPlaced, cart.items, cart.totalPrice) == Confirmation
      ensures !created ==>
        cart.items == old(cart.items) && cart.totalPrice == old(cart.totalPrice)
        && orderPlaced == old(orderPlaced) && error == PlaceFailed
    {
      if created {
        cart.ClearCart();
        orderPlaced := true;
      } else {
        error := PlaceFailed;
      }
      placing := false;
    }
  }
}
