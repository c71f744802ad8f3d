/** The cart store the checkout reads and clears. Its own operations
    (adding, changing quantities, removing) are not part of this model:
    the cart is a sequence of lines with the total the store reports. */
module Cart {
  import opened Commerce

  datatype CartLine = CartLine(productId: string, name: string, price: int, quantity: int)

  class CartStore {
    var items: seq<CartLine>
    var totalPrice: int

    constructor (items: seq<CartLine>, totalPrice: int)
      ensures this.items == items && this.totalPrice == totalPrice
    {
      this.items := items;
      this.totalPrice := totalPrice;
    }

    /** `clearCart`: no lines left, and the total of no lines is zero. */
    method ClearCart()
      modifies this
      ensures items == [] && totalPrice == 0
    {
      items := [];
      totalPrice := 0;
    }
  }

  /** The amount shown beside a cart line: price times quantity. */
  function LineAmount(line: CartLine): int {
    line.price * line.quantity
  }

  /** The amount shown beside an order item: price times quantity. */
  function ItemAmount(item: OrderItem): int {
    item.price * item.quantity
  }

  /** `items.map(item => ({ product_id, name, price, quantity }))`: one
      order item per cart line, in cart order, every field copied. */
  function OrderItems(lines: seq<CartLine>): (r: seq<OrderItem>)
    ensures |r| == |lines|
    ensures forall i :: 0 <= i < |lines| ==>
      r[i].productId == lines[i].productId && r[i].name == lines[i].name
      && r[i].price == lines[i].price && r[i].quantity == lines[i].quantity
  {
    if lines == [] then []
    else
      var l := lines[0];
      [OrderItem(l.productId, l.name, l.price, l.quantity)] + OrderItems(lines[1..])
  }

  /** An order item shows the same amount its cart line showed. */
  lemma OrderItemAmounts(lines: seq<CartLine>)
    ensures forall i :: 0 <= i < |lines| ==> ItemAmount(OrderItems(lines)[i]) == LineAmount(lines[i])
  {
  }

  /** The request both checkout paths send: the given customer, the cart's
      lines as items and the cart's own `totalPrice` as the total (not
      recomputed from the items). */
  function OrderFromCart(name: string, email: string, lines: seq<CartLine>, totalPrice: int): (o: NewOrder)
    ensures o.customerName == name && o.customerEmail == email
    ensures o.items == OrderItems(lines) && o.total == totalPrice
  {
    NewOrder(name, email, OrderItems(lines), totalPrice)
  }
}
