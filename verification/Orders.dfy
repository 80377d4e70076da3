/**
 * The admin orders page: the search / status filter, the revenue and
 * status figures, and the order selected for the detail view.
 */
module Orders {
  import opened Wrappers
  import opened Lists
  import opened Text

  datatype Order = Order(
    id: string,
    customer: string,
    email: string,
    total: real,
    status: string,
    date: string,
    items: int,
    paymentStatus: string)

  /** The customer, the id or the e-mail contains the search term, ignoring letter case. */
  predicate MatchesSearch(o: Order, searchTerm: string) {
    var term := Lower(searchTerm);
    Contains(Lower(o.customer), term) || Contains(Lower(o.id), term) || Contains(Lower(o.email), term)
  }

  predicate MatchesStatus(o: Order, statusFilter: string) {
    statusFilter == "all" || o.status == statusFilter
  }

  function OrderFilter(searchTerm: string, statusFilter: string): Order -> bool {
    (o: Order) => MatchesSearch(o, searchTerm) && MatchesStatus(o, statusFilter)
  }

  /** `filteredOrders` */
  function FilteredOrders(orders: seq<Order>, searchTerm: string, statusFilter: string): (r: seq<Order>)
    ensures forall o :: o in r ==> o in orders && MatchesSearch(o, searchTerm) && MatchesStatus(o, statusFilter)
  {
    Filter(orders, OrderFilter(searchTerm, statusFilter))
  }

  /** The filter keeps every matching order in its original order and drops the rest. */
  lemma FilteredOrdersKeepOrder(orders: seq<Order>, searchTerm: string, statusFilter: string)
    ensures IsSubsequence(FilteredOrders(orders, searchTerm, statusFilter), orders)
    ensures forall o :: o in orders ==>
              multiset(FilteredOrders(orders, searchTerm, statusFilter))[o]
              == if MatchesSearch(o, searchTerm) && MatchesStatus(o, statusFilter) then multiset(orders)[o] else 0
  {
    FilterIsSubsequence(orders, OrderFilter(searchTerm, statusFilter));
    FilterMultiset(orders, OrderFilter(searchTerm, statusFilter));
  }

  /** No search and status `all` list every order. */
  lemma UnfilteredListsAll(orders: seq<Order>)
    ensures FilteredOrders(orders, "", "all") == orders
  {
    forall o: Order ensures MatchesSearch(o, "") {
      assert Contains(Lower(o.customer), "");
    }
    FilterKeepsAll(orders, OrderFilter("", "all"));
  }

  // ---------------------------------------------------------------------
  // Figures

  function OrderTotal(o: Order): real { o.total }

  /** `totalRevenue`: the sum of every order's total, whatever the filters show. */
  function TotalRevenue(orders: seq<Order>): (r: real)
    ensures |orders| == 0 ==> r == 0.0
    ensures |orders| == 1 ==> r == orders[0].total
  {
    SumOf(orders, OrderTotal)
  }

  function IsPending(o: Order): bool { o.status == "pending" || o.status == "processing" }

  function IsDelivered(o: Order): bool { o.status == "delivered" }

  function HasStatus(status: string): Order -> bool {
    (o: Order) => o.status == status
  }

  function LacksStatus(status: string): Order -> bool {
    (o: Order) => o.status != status
  }

  /** The three counters beside the revenue. */
  datatype OrderCounts = OrderCounts(totalOrders: nat, pendingOrders: nat, deliveredOrders: nat)

  function Counts(orders: seq<Order>): (c: OrderCounts)
    ensures c.totalOrders == |orders|
    ensures c.pendingOrders == Count(orders, IsPending) && c.deliveredOrders == Count(orders, IsDelivered)
    ensures c.pendingOrders <= c.totalOrders && c.deliveredOrders <= c.totalOrders
    ensures c.pendingOrders + c.deliveredOrders <= c.totalOrders
  {
    CountDisjoint(orders, IsPending, IsDelivered);
    OrderCounts(|orders|, Count(orders, IsPending), Count(orders, IsDelivered))
  }

  /**
   * The counters start at zero, and one more order raises the total by one,
   * the pending counter exactly when it is pending or processing, and the
   * delivered counter exactly when it is delivered.
   */
  lemma CountsOfAppend(orders: seq<Order>, o: Order)
    ensures Counts([]) == OrderCounts(0, 0, 0)
    ensures Counts(orders + [o])
         == OrderCounts(|orders| + 1,
                        Counts(orders).pendingOrders + (if IsPending(o) then 1 else 0),
                        Counts(orders).deliveredOrders + (if IsDelivered(o) then 1 else 0))
  {
    CountAppendOne(orders, o, IsPending);
    CountAppendOne(orders, o, IsDelivered);
  }

  /** The revenue of the orders in one status plus that of all the others is the whole revenue. */
  lemma RevenueSplitsByStatus(orders: seq<Order>, status: string)
    ensures TotalRevenue(Filter(orders, HasStatus(status))) + TotalRevenue(Filter(orders, LacksStatus(status)))
         == TotalRevenue(orders)
  {
    SumOfPartition(orders, HasStatus(status), LacksStatus(status), OrderTotal);
  }

  /** Orders with non-negative totals give a non-negative revenue. */
  lemma RevenueNonNegative(orders: seq<Order>)
    requires forall i :: 0 <= i < |orders| ==> orders[i].total >= 0.0
    ensures TotalRevenue(orders) >= 0.0
  {
    SumOfNonNegative(orders, OrderTotal);
  }

  /** A new order adds its total to the revenue. */
  lemma RevenueOfAppend(orders: seq<Order>, o: Order)
    ensures TotalRevenue(orders + [o]) == TotalRevenue(orders) + o.total
  {
    SumOfAppend(orders, [o], OrderTotal);
    assert [o][1..] == [];
  }

  /** The order shown in the detail view. */
  class OrdersPage {
    var selectedOrder: Option<Order>

    constructor ()
      ensures selectedOrder == None
    {
      selectedOrder := None;
    }

    /** The eye button of an order row. */
    method Select(o: Order)
      modifies this
      ensures selectedOrder == Some(o)
    {
      selectedOrder := Some(o);
    }

    /** The detail view's close button. */
    method Close()
      modifies this
      ensures selectedOrder == None
    {
      selectedOrder := None;
    }
  }
}
