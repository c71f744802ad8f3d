/** The records the storefront exchanges with its backend (the interfaces
    of src/lib/types.ts), with prices and totals as integers. */
module Commerce {
  import opened Outcomes

  datatype Category = Category(id: string, name: string, createdAt: string)

  datatype Product = Product(
    id: string,
    name: string,
    description: string,
    price: int,
    imageUrl: Option<string>,
    categoryId: Option<string>,
    createdAt: string)

  datatype OrderItem = OrderItem(productId: string, name: string, price: int, quantity: int)

  /** A stored order. `items` is `None` when the stored value is not an
      array (the column is free-form JSON). */
  datatype Order = Order(
    id: string,
    customerName: string,
    customerEmail: string,
    items: Option<seq<OrderItem>>,
    total: int,
    status: string,
    createdAt: string)

  /** The argument of `createOrder`: an order before the backend gives it
      an id, a status and a timestamp. */
  datatype NewOrder = NewOrder(
    customerName: string,
    customerEmail: string,
    items: seq<OrderItem>,
    total: int)

  function CategoryKey(c: Category): string { c.id }
  function ProductKey(p: Product): string { p.id }
  function OrderKey(o: Order): string { o.id }
}
