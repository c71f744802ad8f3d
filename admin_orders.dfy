/** The admin orders page (src/app/admin/orders/page.tsx): the loaded list,
    status changes and deletions applied to it, and the one expanded
    order. */
module AdminOrders {
  import opened Outcomes
  import opened Commerce
  import opened Cart
  import opened Lists

  /** The choices of the status drop-down, in their order. */
  const Statuses: seq<string> := ["pending", "confirmed", "preparing", "delivered", "cancelled"]

  const FallbackColour: string := "bg-gray-100 text-gray-600"

  /** `statusColors[status] ?? fallback`: each known status has its own
      badge colours, and any other status gets the fallback. */
  function StatusColour(status: string): (c: string)
    ensures status !in Statuses <==> c == FallbackColour
  {
    match status
    case "pending" => "bg-yellow-100 text-yellow-700"
    case "confirmed" => "bg-blue-100 text-blue-700"
    case "preparing" => "bg-orange-100 text-orange-700"
    case "delivered" => "bg-green-100 text-green-700"
    case "cancelled" => "bg-red-100 text-red-700"
    case _ => FallbackColour
  }

  /** `s.charAt(0).toUpperCase() + s.slice(1)` for the status names, which
      start with a lower-case ASCII letter: that letter in upper case, the
      rest as it is. */
  function OptionLabel(s: string): (r: string)
    ensures |r| == |s| && (s != [] ==> r[1..] == s[1..])
    ensures s != [] && 'a' <= s[0] <= 'z' ==> 'A' <= r[0] <= 'Z' && r[0] as int - 'A' as int == s[0] as int - 'a' as int
    ensures s != [] && !('a' <= s[0] <= 'z') ==> r == s
  {
    if s != [] && 'a' <= s[0] <= 'z' then [(s[0] as int - 32) as char] + s[1..] else s
  }

  /** `Array.isArray(order.items) ? order.items : []`. */
  function DisplayItems(o: Order): (items: seq<OrderItem>)
    ensures o.items.None? ==> items == []
    ensures o.items.Some? ==> items == o.items.value
  {
    o.items.GetOr([])
  }

  /** The amount shown beside each item of an expanded order. */
  function ItemAmounts(o: Order): (r: seq<int>)
    ensures |r| == |DisplayItems(o)|
    ensures forall i :: 0 <= i < |r| ==> r[i] == DisplayItems(o)[i].price * DisplayItems(o)[i].quantity
  {
    var items := DisplayItems(o);
    seq(|items|, i requires 0 <= i < |items| => ItemAmount(items[i]))
  }

  class AdminOrdersPage {
    var orders: seq<Order>
    var loading: bool
    var expandedId: Option<string>

    constructor ()
      ensures orders == [] && loading && expandedId == None
    {
      orders, loading, expandedId := [], true, None;
    }

    /** `loadData`: the fetched list replaces the orders; a failed fetch
        keeps them. Loading ends either way. */
    method LoadData(fetched: Result<seq<Order>>)
      modifies this
      ensures !loading && expandedId == old(expandedId)
      ensures fetched.Ok? ==> orders == fetched.value
      ensures fetched.Err? ==> orders == old(orders)
    {
      if fetched.Ok? {
        orders := fetched.value;
      }
      loading := false;
    }

    /** `handleStatusChange`, given the backend's answer to the request
        for `status` (the list depends on the answer only): the record it
        returns takes the place of every order with that id; a failure
        leaves the list alone. When the returned record keeps the id, the
        other orders and their order are untouched and every order with
        that id is now the returned record. */
    method HandleStatusChange(id: string, status: string, response: Result<Order>)
      modifies this
      ensures loading == old(loading) && expandedId == old(expandedId)
      ensures response.Err? ==> orders == old(orders)
      ensures response.Ok? ==> orders == Replace(old(orders), OrderKey, id, response.value)
      ensures response.Ok? && response.value.id == id ==>
        Reject(orders, OrderKey, id) == Reject(old(orders), OrderKey, id)
        && |Select(orders, OrderKey, id)| == |Select(old(orders), OrderKey, id)|
        && forall i :: 0 <= i < |Select(orders, OrderKey, id)| ==> Select(orders, OrderKey, id)[i] == response.value
    {
      if response.Ok? {
        var updated := response.value;
        if updated.id == id {
          ReplaceKeepsOthers(orders, OrderKey, id, updated);
          ReplaceSelects(orders, OrderKey, id, updated);
        }
        orders := Replace(orders, OrderKey, id, updated);
      }
    }

    /** `handleDelete`: asks for confirmation first and calls the backend
        only when it is given (`requested`); after a successful delete no
        order with that id is left and the others keep their order. */
    method HandleDelete(id: string, confirmed: bool, outcome: Outcome) returns (requested: bool)
      modifies this
      ensures requested == confirmed
      ensures loading == old(loading) && expandedId == old(expandedId)
      ensures confirmed && outcome.Done? ==>
        orders == Reject(old(orders), OrderKey, id) && IsSubsequence(orders, old(orders))
        && forall i :: 0 <= i < |orders| ==> orders[i].id != id
      ensures !confirmed || outcome.Threw? ==> orders == old(orders)
    {
      if !confirmed {
        return false;
      }
      requested := true;
      if outcome.Done? {
        RejectIsSubsequence(orders, OrderKey, id);
        orders := Reject(orders, OrderKey, id);
      }
    }

    /** Clicking an order's header: collapses it when it is the expanded
        one, otherwise makes it the (only) expanded one. */
    method ToggleExpanded(id: string)
      modifies this
      ensures orders == old(orders) && loading == old(loading)
      ensures old(expandedId) == Some(id) ==> expandedId == None
      ensures old(expandedId) != Some(id) ==> expandedId == Some(id)
    {
      expandedId := if expandedId == Some(id) then None else Some(id);
    }
  }
}
