/** The four dashboard figures, computed from the orders and the customer count. */
module AdminDashboard {
  import opened Collections
  import opened Orders
  import ManageOrders

  /** The two columns the dashboard selects from each order. */
  datatype OrderRow = OrderRow(totalAmount: int, status: Status)

  function Project(orders: seq<Order>): (r: seq<OrderRow>)
    ensures |r| == |orders|
    ensures forall i :: 0 <= i < |orders| ==> r[i] == OrderRow(orders[i].totalAmount, orders[i].status)
  {
    seq(|orders|, i requires 0 <= i < |orders| => OrderRow(orders[i].totalAmount, orders[i].status))
  }

  datatype Stats = Stats(totalOrders: int, pendingOrders: int, totalRevenue: int, totalCustomers: int)

  const InitialStats: Stats := Stats(0, 0, 0, 0)

  /** The outcome of one query: an error, or data that may be null. */
  datatype Fetch<T> = FetchError | FetchData(data: Option<T>)

  predicate IsPending(r: OrderRow)
  {
    r.status == Pending
  }

  /** `orders.reduce((sum, order) => sum + order.total_amount, 0)`. */
  function Revenue(rows: seq<OrderRow>): int
  {
    if rows == [] then 0 else rows[0].totalAmount + Revenue(rows[1..])
  }

  /** `fetchDashboardStats`: an error in either query leaves the figures as they were
      (the initial zeros); a null result counts as nothing. */
  function FetchDashboardStats(current: Stats, orders: Fetch<seq<OrderRow>>, customers: Fetch<int>): Stats
  {
    if orders.FetchError? || customers.FetchError? then current
    else
      var rows := if orders.data.Some? then orders.data.value else [];
      var customerCount := if customers.data.Some? then customers.data.value else 0;
      Stats(|rows|, Count(rows, IsPending), Revenue(rows), customerCount)
  }

  /** On success the figures are the order count, the number of orders whose status is
      'pending' (never above the order count), the revenue over orders of every status, and the customer count,
      each 0 for a null result; on any error they stay at their initial zeros. */
  lemma FetchDashboardStatsSpec(rows: Option<seq<OrderRow>>, customers: Option<int>)
    ensures var s := FetchDashboardStats(InitialStats, FetchData(rows), FetchData(customers));
      && s.totalOrders == (if rows.Some? then |rows.value| else 0)
      && 0 <= s.pendingOrders <= s.totalOrders
      && (rows.None? ==> s.totalRevenue == 0 && s.pendingOrders == 0)
      && (rows.Some? ==> s.pendingOrders == Count(rows.value, IsPending))
      && (rows.Some? ==> s.totalRevenue == Revenue(rows.value))
      && s.totalCustomers == (if customers.Some? then customers.value else 0)
    ensures forall o: Fetch<seq<OrderRow>>, c: Fetch<int> ::
              (o.FetchError? || c.FetchError?) ==> FetchDashboardStats(InitialStats, o, c) == InitialStats
  {
  }

  /** The revenue splits over any partition of the orders, so no status is left out. */
  lemma {:induction false} RevenuePartition(rows: seq<OrderRow>, p: OrderRow -> bool)
    ensures Revenue(rows) == Revenue(Filter(rows, p)) + Revenue(Filter(rows, (r: OrderRow) => !p(r)))
  {
    if rows != [] {
      RevenuePartition(rows[1..], p);
      var q := (r: OrderRow) => !p(r);
      if p(rows[0]) {
        assert Filter(rows, p) == [rows[0]] + Filter(rows[1..], p);
        assert ([rows[0]] + Filter(rows[1..], p))[1..] == Filter(rows[1..], p);
      } else {
        assert Filter(rows, q) == [rows[0]] + Filter(rows[1..], q);
        assert ([rows[0]] + Filter(rows[1..], q))[1..] == Filter(rows[1..], q);
      }
    }
  }

  /** The dashboard's pending figure agrees with the order console's pending tile over
      the same table, and the revenue is the sum of the amounts of all orders. */
  lemma {:induction false} DashboardMatchesConsole(store: seq<Order>)
    ensures Count(Project(store), IsPending) == ManageOrders.StatusCount(store, Pending)
    ensures |Project(store)| == |store|
  {
    if store != [] {
      DashboardMatchesConsole(store[1..]);
      assert Project(store)[1..] == Project(store[1..]);
    }
  }
}
