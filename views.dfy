/** The decisions the dashboard's views make about data, apart from the
    markup they render: the badge for an order status, the line items the
    create-order form submits, and the dashboard's aggregate figures.
    Amounts are exact `real`s. */
module Views {
  import opened Common

  // ---------------------------------------------------------------- badges

  const KnownStatuses := {"pending", "processing", "completed", "cancelled", "failed"}
  const Badges := {"warning", "info", "success", "error", "ghost"}

  /** Badge colour for an order status; statuses outside the five known
      ones get the neutral `ghost` badge. */
  function StatusColor(status: string): (badge: string)
    ensures badge in Badges
    ensures status == "pending" ==> badge == "warning"
    ensures status == "processing" ==> badge == "info"
    ensures status == "completed" ==> badge == "success"
    ensures badge == "ghost" <==> status !in KnownStatuses
    ensures badge == "error" <==> status == "cancelled" || status == "failed"
  {
    if status == "pending" then "warning"
    else if status == "processing" then "info"
    else if status == "completed" then "success"
    else if status == "cancelled" || status == "failed" then "error"
    else "ghost"
  }

  /** Apart from the two failure states, known statuses get badges of
      their own. */
  lemma StatusColorDistinguishes(s1: string, s2: string)
    requires s1 in KnownStatuses && s2 in KnownStatuses
    requires StatusColor(s1) == StatusColor(s2)
    ensures s1 == s2 || {s1, s2} == {"cancelled", "failed"}
  {
  }

  // ----------------------------------------------------------- create order

  /** One row of the create-order form: the selected product id ("" when
      none is selected), the quantity as `parseInt` reads it (None when it
      is not a number) and the selected product's price. */
  datatype ItemRow = ItemRow(productId: string, quantity: Option<int>, price: real)

  /** A line item as submitted to the backend. */
  datatype LineItem = LineItem(productId: string, quantity: int, price: real)

  /** The body of `POST /orders`. */
  datatype OrderRequest = OrderRequest(customerId: string, items: seq<LineItem>)

  predicate Submittable(row: ItemRow)
  {
    row.productId != "" && row.quantity.Some? && row.quantity.value > 0
  }

  function ItemOf(row: ItemRow): LineItem
    requires Submittable(row)
  {
    LineItem(row.productId, row.quantity.value, row.price)
  }

  /** The items a form submits: the submittable rows, in row order. */
  function SubmittedItems(rows: seq<ItemRow>): seq<LineItem>
  {
    if rows == [] then []
    else
      var last := rows[|rows| - 1];
      SubmittedItems(rows[..|rows| - 1]) + (if Submittable(last) then [ItemOf(last)] else [])
  }

  /** Every submitted item has a product and a positive quantity, and
      comes from some row of the form. */
  lemma {:induction false} SubmittedItemsValid(rows: seq<ItemRow>)
    ensures |SubmittedItems(rows)| <= |rows|
    ensures forall k | 0 <= k < |SubmittedItems(rows)| ::
              var it := SubmittedItems(rows)[k];
              it.productId != "" && it.quantity > 0
              && exists j | 0 <= j < |rows| :: Submittable(rows[j]) && ItemOf(rows[j]) == it
  {
    if rows != [] {
      var init, last := rows[..|rows| - 1], rows[|rows| - 1];
      SubmittedItemsValid(init);
      var si := SubmittedItems(init);
      var tail := if Submittable(last) then [ItemOf(last)] else [];
      assert SubmittedItems(rows) == si + tail;
      forall k | 0 <= k < |si + tail|
        ensures exists j | 0 <= j < |rows| :: Submittable(rows[j]) && ItemOf(rows[j]) == (si + tail)[k]
      {
        if k < |si| {
          var it := si[k];
          assert (si + tail)[k] == it;
          assert exists j | 0 <= j < |init| :: Submittable(init[j]) && ItemOf(init[j]) == it;
          var j :| 0 <= j < |init| && Submittable(init[j]) && ItemOf(init[j]) == it;
          assert rows[j] == init[j];
        } else {
          assert (si + tail)[k] == ItemOf(last) && rows[|rows| - 1] == last;
        }
      }
    }
  }

  /** A row is submitted exactly when it is submittable: no item is
      submitted only when no row qualifies. */
  lemma {:induction false} SubmittedItemsEmpty(rows: seq<ItemRow>)
    ensures SubmittedItems(rows) == [] <==> forall j | 0 <= j < |rows| :: !Submittable(rows[j])
  {
    if rows != [] {
      var init := rows[..|rows| - 1];
      SubmittedItemsEmpty(init);
      assert forall j | 0 <= j < |init| :: init[j] == rows[j];
    }
  }

  /** The form's loop: walk the rows, keeping the submittable ones. */
  method CollectItems(rows: seq<ItemRow>) returns (items: seq<LineItem>)
    ensures items == SubmittedItems(rows)
  {
    items := [];
    for i := 0 to |rows|
      invariant items == SubmittedItems(rows[..i])
    {
      assert rows[..i + 1][..i] == rows[..i];
      var row := rows[i];
      if row.productId != "" && row.quantity.Some? && row.quantity.value > 0 {
        items := items + [LineItem(row.productId, row.quantity.value, row.price)];
      }
    }
    assert rows[..|rows|] == rows;
  }

  const NoCustomerMsg := "Please select a customer"
  const NoItemsMsg := "Please add at least one item"

  /** Submitting the create-order form: with no customer selected, or no
      submittable row, the form stops with a message and no request;
      otherwise it produces the request body. */
  method CreateOrder(customerId: string, rows: seq<ItemRow>) returns (r: Result<OrderRequest, string>)
    ensures customerId == "" ==> r == Err(NoCustomerMsg)
    ensures customerId != "" && (forall j | 0 <= j < |rows| :: !Submittable(rows[j])) ==> r == Err(NoItemsMsg)
    ensures r.Ok? ==> && customerId != ""
                      && r.value == OrderRequest(customerId, SubmittedItems(rows))
                      && r.value.items != []
    ensures r.Err? ==> customerId == "" || SubmittedItems(rows) == []
  {
    if customerId == "" {
      return Err(NoCustomerMsg);
    }
    var items := CollectItems(rows);
    SubmittedItemsEmpty(rows);
    if |items| == 0 {
      return Err(NoItemsMsg);
    }
    r := Ok(OrderRequest(customerId, items));
  }

  // ------------------------------------------------------------- dashboard

  /** An order as listed by `GET /orders`. */
  datatype OrderSummary = OrderSummary(orderId: string, customerName: Option<string>, status: string, totalAmount: real)

  /** The list reply: `orders` (absent when missing) and `pagination.total`
      (absent when there is no pagination object). */
  datatype ListReply = ListReply(orders: Option<seq<OrderSummary>>, total: Option<int>)

  datatype Stats = Stats(totalOrders: int, revenue: real, pending: nat, completed: nat, recent: seq<OrderSummary>)

  function CountStatus(orders: seq<OrderSummary>, status: string): nat
  {
    if orders == [] then 0
    else CountStatus(orders[1..], status) + (if orders[0].status == status then 1 else 0)
  }

  /** The statuses of the orders, in order. */
  function Statuses(orders: seq<OrderSummary>): (r: seq<string>)
    ensures |r| == |orders| && forall k | 0 <= k < |orders| :: r[k] == orders[k].status
  {
    if orders == [] then [] else [orders[0].status] + Statuses(orders[1..])
  }

  /** The count is the number of times the status occurs among the
      orders' statuses, i.e. the length of the filtered list. */
  lemma {:induction false} CountStatusIsMultiplicity(orders: seq<OrderSummary>, status: string)
    ensures CountStatus(orders, status) == multiset(Statuses(orders))[status]
  {
    if orders != [] {
      CountStatusIsMultiplicity(orders[1..], status);
      assert Statuses(orders) == [orders[0].status] + Statuses(orders[1..]);
      assert multiset(Statuses(orders)) == multiset{orders[0].status} + multiset(Statuses(orders[1..]));
    }
  }

  function Revenue(orders: seq<OrderSummary>): real
  {
    if orders == [] then 0.0 else orders[0].totalAmount + Revenue(orders[1..])
  }

  const RecentCount := 5

  /** Pending and completed are different statuses, so together they
      count at most the fetched orders. */
  lemma {:induction false} PendingCompletedBounded(orders: seq<OrderSummary>)
    ensures CountStatus(orders, "pending") + CountStatus(orders, "completed") <= |orders|
  {
    if orders != [] {
      PendingCompletedBounded(orders[1..]);
    }
  }

  /** Revenue is never negative when no order has a negative amount. */
  lemma {:induction false} RevenueNonNegative(orders: seq<OrderSummary>)
    requires forall k | 0 <= k < |orders| :: orders[k].totalAmount >= 0.0
    ensures Revenue(orders) >= 0.0
  {
    if orders != [] {
      RevenueNonNegative(orders[1..]);
    }
  }

  /** The dashboard's figures for a list reply. */
  function DashboardStats(data: ListReply): (s: Stats)
    ensures var orders := if data.orders.Some? then data.orders.value else [];
      && s.totalOrders == (if data.total.Some? && data.total.value != 0 then data.total.value else |orders|)
      && s.pending == CountStatus(orders, "pending") && s.completed == CountStatus(orders, "completed")
      && s.pending + s.completed <= |orders|
      && s.revenue == Revenue(orders)
      && s.recent == orders[..if |orders| < RecentCount then |orders| else RecentCount]
      && |s.recent| <= RecentCount
  {
    var orders := if data.orders.Some? then data.orders.value else [];
    PendingCompletedBounded(orders);
    Stats(
      if data.total.Some? && data.total.value != 0 then data.total.value else |orders|,
      Revenue(orders),
      CountStatus(orders, "pending"),
      CountStatus(orders, "completed"),
      if |orders| < RecentCount then orders else orders[..RecentCount])
  }
}
