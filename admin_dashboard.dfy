/** The admin dashboard (src/app/admin/page.tsx): four figures computed
    from the fetched products, categories and orders. */
module AdminDashboard {
  import opened Outcomes
  import opened Commerce

  datatype Stats = Stats(products: nat, categories: nat, orders: nat, revenue: int)

  const ZeroStats: Stats := Stats(0, 0, 0, 0)

  /** `orders.reduce((sum, o) => sum + o.total, acc)`: a left-to-right
      fold over the totals. */
  function Fold(acc: int, orders: seq<Order>): int
    decreases |orders|
  {
    if orders == [] then acc else Fold(acc + orders[0].total, orders[1..])
  }

  /** The sum of the order totals, defined from the back. */
  function TotalOf(orders: seq<Order>): int {
    if orders == [] then 0 else TotalOf(orders[..|orders| - 1]) + orders[|orders| - 1].total
  }

  /** Folding from `acc` adds the totals to `acc`. */
  lemma {:induction false} FoldIsSum(acc: int, orders: seq<Order>)
    ensures Fold(acc, orders) == acc + TotalOf(orders)
    decreases |orders|
  {
    if orders != [] {
      FoldIsSum(acc + orders[0].total, orders[1..]);
      TotalOfFront(orders);
    }
  }

  /** Taking the first order off the front. */
  lemma {:induction false} TotalOfFront(orders: seq<Order>)
    requires orders != []
    ensures TotalOf(orders) == orders[0].total + TotalOf(orders[1..])
    decreases |orders|
  {
    if |orders| > 1 {
      var init := orders[..|orders| - 1];
      TotalOfFront(init);
      assert init[1..] == orders[1..][..|orders[1..]| - 1];
    } else {
      assert orders[1..] == [];
      assert orders[..0] == [];
    }
  }

  /** The revenue figure: the sum of all order totals, starting from 0. */
  function Revenue(orders: seq<Order>): (r: int)
    ensures r == TotalOf(orders)
  {
    FoldIsSum(0, orders);
    Fold(0, orders)
  }

  /** The revenue of two lists of orders together is the sum of their
      revenues; in particular one more order adds exactly its total. */
  lemma {:induction false} RevenueAppend(a: seq<Order>, b: seq<Order>)
    ensures Revenue(a + b) == Revenue(a) + Revenue(b)
    decreases |b|
  {
    if b != [] {
      var b' := b[..|b| - 1];
      RevenueAppend(a, b');
      assert (a + b)[..|a + b| - 1] == a + b';
    } else {
      assert a + b == a;
    }
  }

  /** Orders with non-negative totals never make the revenue negative. */
  lemma {:induction false} RevenueNonNegative(orders: seq<Order>)
    requires forall i :: 0 <= i < |orders| ==> orders[i].total >= 0
    ensures Revenue(orders) >= 0
    decreases |orders|
  {
    if orders != [] {
      RevenueNonNegative(orders[..|orders| - 1]);
    }
  }

  /** The dashboard's state. */
  class DashboardPage {
    var stats: Stats
    var loading: bool

    constructor ()
      ensures stats == ZeroStats && loading
    {
      stats := ZeroStats;
      loading := true;
    }

    /** The load effect: the three lists are fetched together; when all
        three arrive the counts are their lengths and the revenue the sum of
        the order totals; when any fetch fails the figures stay as they
        were. Loading ends either way. */
    method Load(products: Result<seq<Product>>, categories: Result<seq<Category>>, orders: Result<seq<Order>>)
      modifies this
      ensures !loading
      ensures products.Ok? && categories.Ok? && orders.Ok? ==>
        stats == Stats(|products.value|, |categories.value|, |orders.value|, TotalOf(orders.value))
      ensures products.Err? || categories.Err? || orders.Err? ==> stats == old(stats)
    {
      if products.Ok? && categories.Ok? && orders.Ok? {
        stats := Stats(|products.value|, |categories.value|, |orders.value|, Revenue(orders.value));
      }
      loading := false;
    }
  }
}
