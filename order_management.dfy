/** The order-management backend handler: request routing, the list
    endpoint's paging arithmetic, the create/get/update/delete handlers
    over the `orders` and `order_items` tables, and the fixed response
    envelope. The database is a class whose fields are the tables; a
    handler that raises before its commit leaves them untouched. */
module OrderManagement {
  import opened Common

  // ------------------------------------------------------------ envelope

  type Header = (string, string)

  const CorsHeaders: seq<Header> := [
    ("Content-Type", "application/json"),
    ("Access-Control-Allow-Origin", "*"),
    ("Access-Control-Allow-Methods", "GET,POST,PUT,DELETE,OPTIONS"),
    ("Access-Control-Allow-Headers", "Content-Type,X-Api-Key")
  ]

  /** What raised inside a handler; every one becomes a 500 reply. */
  datatype Fault =
    | NotANumberParam     // int() of a query parameter failed
    | NegativePaging      // the database rejects a negative LIMIT or OFFSET
    | ZeroLimit           // `// limit` with limit 0
    | UndecodableBody     // json.loads of a null or malformed body
    | DuplicateOrderId    // primary-key violation on the new order
    | UnknownCustomer     // foreign-key violation: customer_id
    | UnknownProduct      // foreign-key violation: an item's product_id
    | StatusTooLong       // status longer than the column allows

  /** An order joined with its customer, as both read endpoints return it. */
  datatype OrderListing = OrderListing(
    orderId: string, customerId: string, orderDate: int, status: string,
    totalAmount: real, customerName: string, email: string)

  /** An order item joined with its product name. */
  datatype ItemDetail = ItemDetail(productId: string, quantity: int, price: real, productName: string)

  datatype Payload =
    | Message(message: string)
    | MessageWithError(message: string, error: string)
    | InternalError(fault: Fault)
    | Created(message: string, orderId: string)
    | OrderPage(orders: seq<OrderListing>, page: int, limit: int, total: int, totalPages: int)
    | OrderDetail(order: OrderListing, items: seq<ItemDetail>)
    | WorkflowState(status: string, startDate: string, stopDate: Option<string>)

  datatype Response = Response(statusCode: int, headers: seq<Header>, body: Payload)

  function Respond(code: int, body: Payload): Response
  {
    Response(code, CorsHeaders, body)
  }

  // -------------------------------------------------------------- events

  /** A query-string parameter as `int()` sees it. */
  datatype Param = Absent | Number(n: int) | NotANumber

  datatype ItemInput = ItemInput(productId: string, quantity: int, price: real)

  /** The decoded JSON body; a request without a body reads as `{}`. */
  datatype Body = Body(customerId: Option<string>, items: seq<ItemInput>, status: Option<string>)

  const EmptyBody := Body(None, [], None)

  /** The API Gateway event. `body` is None when the body is not JSON
      text (null included). */
  datatype Event = Event(httpMethod: string, path: string, id: Option<string>,
                         page: Param, limit: Param, body: Option<Body>)

  /** What the Step Functions describe call gives back. */
  datatype WorkflowOutcome =
    | Described(status: string, startDate: string, stopDate: Option<string>)
    | DescribeFailed(error: string)

  /** Python truthiness of an optional string. */
  predicate Truthy(s: Option<string>)
  {
    s.Some? && s.value != ""
  }

  // ------------------------------------------------------------- routing

  datatype Route = ListRoute | CreateRoute | GetRoute | UpdateRoute | DeleteRoute | StatusRoute | NoRoute

  /** The handler a method and path go to, tried in the handler's order. */
  function RouteOf(httpMethod: string, path: string): (r: Route)
    ensures r == ListRoute <==> httpMethod == "GET" && path == "/orders"
    ensures r == CreateRoute <==> httpMethod == "POST" && path == "/orders"
    ensures r == GetRoute <==> httpMethod == "GET" && path != "/orders" && Contains(path, "/orders/")
    ensures r == UpdateRoute <==> httpMethod == "PUT" && Contains(path, "/orders/")
    ensures r == DeleteRoute <==> httpMethod == "DELETE" && Contains(path, "/orders/")
    ensures r == StatusRoute <==> httpMethod == "GET" && path != "/orders"
                                  && !Contains(path, "/orders/") && Contains(path, "/status/")
  {
    if httpMethod == "GET" && path == "/orders" then ListRoute
    else if httpMethod == "POST" && path == "/orders" then CreateRoute
    else if httpMethod == "GET" && Contains(path, "/orders/") then GetRoute
    else if httpMethod == "PUT" && Contains(path, "/orders/") then UpdateRoute
    else if httpMethod == "DELETE" && Contains(path, "/orders/") then DeleteRoute
    else if httpMethod == "GET" && Contains(path, "/status/") then StatusRoute
    else NoRoute
  }

  /** The collection path is too short to contain the item prefix, so the
      exact-match routes and the prefix routes never compete. */
  lemma CollectionPathIsNotItemPath()
    ensures !Contains("/orders", "/orders/")
  {
    if Contains("/orders", "/orders/") {
      ContainsNeedsLength("/orders", "/orders/");
    }
  }

  /** A GET of a path containing both "/orders/" and "/status/" reads the
      order: the order route is tried first. */
  lemma OrderRouteBeforeStatus(path: string)
    requires Contains(path, "/orders/") && Contains(path, "/status/")
    ensures RouteOf("GET", path) == GetRoute
  {
    CollectionPathIsNotItemPath();
  }

  // ---------------------------------------------------------- pagination

  const DefaultPage := 1
  const DefaultLimit := 10

  /** `int(query.get(name, default))`: None when int() raises. */
  function ParamValue(p: Param, default: int): (v: Option<int>)
    ensures p.Absent? ==> v == Some(default)
    ensures p.Number? ==> v == Some(p.n)
    ensures p.NotANumber? <==> v.None?
  {
    match p
    case Absent => Some(default)
    case Number(n) => Some(n)
    case NotANumber => None
  }

  function Offset(page: int, limit: int): int
  {
    (page - 1) * limit
  }

  /** `(total + limit - 1) // limit`. For a positive limit both operands
      of the division are non-negative, so floor division and Dafny's
      Euclidean division agree. */
  function TotalPages(total: nat, limit: int): int
    requires limit > 0
  {
    (total + limit - 1) / limit
  }

  /** The page count is the ceiling of total / limit. */
  lemma TotalPagesIsCeiling(total: nat, limit: int)
    requires limit > 0
    ensures var tp := TotalPages(total, limit);
      && tp >= 0
      && (tp == 0 <==> total == 0)
      && (total > 0 ==> (tp - 1) * limit < total <= tp * limit)
  {
    var tp := TotalPages(total, limit);
    var q, rem := (total + limit - 1) / limit, (total + limit - 1) % limit;
    assert total + limit - 1 == q * limit + rem;
    assert 0 <= rem < limit;
    if total > 0 {
      assert tp * limit >= total by {
        assert q * limit == total + limit - 1 - rem;
      }
      assert (tp - 1) * limit < total by {
        assert (q - 1) * limit == total - 1 - rem;
      }
    } else {
      assert q * limit <= limit - 1;
      assert q < 1;
    }
  }

  lemma FactorNonNeg(a: int, b: int)
    requires b > 0 && a * b >= 0
    ensures a >= 0
  {
  }

  lemma CancelLess(q: int, t: int, l: int)
    requires l > 0 && q * l < t * l
    ensures q < t
  {
  }

  /** `LIMIT limit OFFSET offset` over the listing. */
  function PageSlice<T>(rows: seq<T>, offset: nat, limit: nat): (r: seq<T>)
    ensures |r| <= limit
    ensures forall k | 0 <= k < |r| :: offset + k < |rows| && r[k] == rows[offset + k]
    ensures offset + limit <= |rows| ==> |r| == limit
  {
    var lo := if offset < |rows| then offset else |rows|;
    var hi := if offset + limit < |rows| then offset + limit else |rows|;
    rows[lo..hi]
  }

  /** Row i of the listing appears, and appears once, on page
      i / limit + 1, at position i % limit, and that page is within
      total_pages. */
  lemma RowOnItsPage<T>(rows: seq<T>, limit: int, i: nat)
    requires limit > 0 && i < |rows|
    ensures var page := i / limit + 1;
      && 1 <= page <= TotalPages(|rows|, limit)
      && Offset(page, limit) >= 0
      && var slice := PageSlice(rows, Offset(page, limit), limit);
         i % limit < |slice| && slice[i % limit] == rows[i]
  {
    var page := i / limit + 1;
    var off := Offset(page, limit);
    assert off == (i / limit) * limit;
    assert off + i % limit == i;
    assert i % limit < limit;
    TotalPagesIsCeiling(|rows|, limit);
    var tp := TotalPages(|rows|, limit);
    assert (i / limit) * limit < tp * limit;
    CancelLess(i / limit, tp, limit);
    var slice := PageSlice(rows, off, limit);
    var hi := if off + limit < |rows| then off + limit else |rows|;
    assert |slice| == hi - off;
  }

  /** `GET /orders`: page and limit default to 1 and 10; a non-numeric
      parameter, a negative LIMIT or OFFSET (the database refuses both)
      and a zero limit (division by zero) are server errors; otherwise the
      reply holds the requested slice of the newest-first listing and the
      paging figures. `total` is the row count of the orders table. */
  function ListOrders(page: Param, limit: Param, total: nat, newestFirst: seq<OrderListing>): (r: Response)
    ensures r.headers == CorsHeaders
    ensures r.statusCode == 200 || r.statusCode == 500
    ensures r.statusCode == 200 <==>
              && ParamValue(page, DefaultPage).Some? && ParamValue(limit, DefaultLimit).Some?
              && ParamValue(page, DefaultPage).value >= 1 && ParamValue(limit, DefaultLimit).value >= 1
    ensures r.statusCode == 200 ==>
              var p, l := ParamValue(page, DefaultPage).value, ParamValue(limit, DefaultLimit).value;
              && r.body.OrderPage?
              && r.body.orders == PageSlice(newestFirst, Offset(p, l), l)
              && r.body.page == p && r.body.limit == l && r.body.total == total
              && r.body.totalPages == TotalPages(total, l)
  {
    var p, l := ParamValue(page, DefaultPage), ParamValue(limit, DefaultLimit);
    if p.None? || l.None? then Respond(500, InternalError(NotANumberParam))
    else
      var offset := Offset(p.value, l.value);
      if l.value < 0 || offset < 0 then Respond(500, InternalError(NegativePaging))
      else if l.value == 0 then Respond(500, InternalError(ZeroLimit))
      else
        FactorNonNeg(p.value - 1, l.value);
        Respond(200, OrderPage(PageSlice(newestFirst, offset, l.value), p.value, l.value, total,
                               TotalPages(total, l.value)))
  }

  // -------------------------------------------------------------- tables

  datatype Customer = Customer(name: string, email: string)

  datatype OrderRow = OrderRow(customerId: string, orderDate: int, status: string, totalAmount: real)

  datatype ItemRow = ItemRow(orderId: string, productId: string, quantity: int, price: real)

  /** Width of the `status` column. */
  const StatusWidth := 20

  const PendingStatus := "pending"

  /** Whether a text can be assigned to the `status` column: it is at
      most StatusWidth long, or everything past StatusWidth is spaces. */
  predicate FitsStatus(s: string)
  {
    |s| <= StatusWidth || forall k | StatusWidth <= k < |s| :: s[k] == ' '
  }

  /** What the column holds after such an assignment: the text cut to
      StatusWidth characters, losing only trailing spaces. */
  function StoredStatus(s: string): (t: string)
    requires FitsStatus(s)
    ensures |t| <= StatusWidth && t <= s
    ensures |s| <= StatusWidth ==> t == s
    ensures |s| > StatusWidth ==> |t| == StatusWidth
    ensures forall k | |t| <= k < |s| :: s[k] == ' '
  {
    if |s| <= StatusWidth then s else s[..StatusWidth]
  }

  /** `sum(item['quantity'] * item['price'] for item in items)`. */
  function OrderTotal(items: seq<ItemInput>): real
  {
    if items == [] then 0.0 else items[0].quantity as real * items[0].price + OrderTotal(items[1..])
  }

  /** Sum of quantity times price over item rows. */
  function RowsTotal(rows: seq<ItemRow>): real
  {
    if rows == [] then 0.0 else rows[0].quantity as real * rows[0].price + RowsTotal(rows[1..])
  }

  /** The item rows inserted for a new order, one per input item, in order. */
  function NewItemRows(orderId: string, items: seq<ItemInput>): (rows: seq<ItemRow>)
    ensures |rows| == |items|
    ensures forall k | 0 <= k < |items| ::
              rows[k] == ItemRow(orderId, items[k].productId, items[k].quantity, items[k].price)
  {
    if items == [] then []
    else NewItemRows(orderId, items[..|items| - 1])
         + [ItemRow(orderId, items[|items| - 1].productId, items[|items| - 1].quantity, items[|items| - 1].price)]
  }

  /** The rows of `rows` that belong to order `id`, in table order. */
  function RowsOf(rows: seq<ItemRow>, id: string): seq<ItemRow>
  {
    if rows == [] then []
    else RowsOf(rows[..|rows| - 1], id) + (if rows[|rows| - 1].orderId == id then [rows[|rows| - 1]] else [])
  }

  /** The rows of `rows` that do not belong to order `id`, in table order. */
  function RowsNotOf(rows: seq<ItemRow>, id: string): seq<ItemRow>
  {
    if rows == [] then []
    else RowsNotOf(rows[..|rows| - 1], id) + (if rows[|rows| - 1].orderId != id then [rows[|rows| - 1]] else [])
  }

  /** The item rows of a new order all carry its id, so they are exactly
      that order's rows. */
  lemma {:induction false} NewRowsAreTheOrdersRows(id: string, items: seq<ItemInput>)
    ensures RowsOf(NewItemRows(id, items), id) == NewItemRows(id, items)
  {
    if items != [] {
      var init := items[..|items| - 1];
      NewRowsAreTheOrdersRows(id, init);
      assert NewItemRows(id, items)[..|items| - 1] == NewItemRows(id, init);
    }
  }

  /** The new order's stored total is the sum over its item rows. */
  lemma {:induction false} NewRowsTotal(id: string, items: seq<ItemInput>)
    ensures RowsTotal(NewItemRows(id, items)) == OrderTotal(items)
  {
    if items != [] {
      var init := items[..|items| - 1];
      var last := items[|items| - 1];
      NewRowsTotal(id, init);
      assert NewItemRows(id, items) == NewItemRows(id, init) + [ItemRow(id, last.productId, last.quantity, last.price)];
      RowsTotalSnoc(NewItemRows(id, init), ItemRow(id, last.productId, last.quantity, last.price));
      assert init + [last] == items;
      OrderTotalSnoc(init, last);
    }
  }

  /** Appending a new order's rows to a table that has none for its id:
      the order's rows are exactly the new ones and sum to its total. */
  lemma NewOrderRows(table: seq<ItemRow>, id: string, items: seq<ItemInput>)
    requires forall k | 0 <= k < |table| :: table[k].orderId != id
    ensures RowsOf(table + NewItemRows(id, items), id) == NewItemRows(id, items)
    ensures RowsTotal(RowsOf(table + NewItemRows(id, items), id)) == OrderTotal(items)
  {
    RowsOfNone(table, id);
    RowsOfAppend(table, NewItemRows(id, items), id);
    NewRowsAreTheOrdersRows(id, items);
    NewRowsTotal(id, items);
  }

  lemma {:induction false} RowsTotalSnoc(rows: seq<ItemRow>, x: ItemRow)
    ensures RowsTotal(rows + [x]) == RowsTotal(rows) + x.quantity as real * x.price
  {
    if rows != [] {
      assert (rows + [x])[1..] == rows[1..] + [x];
      RowsTotalSnoc(rows[1..], x);
    }
  }

  lemma {:induction false} OrderTotalSnoc(items: seq<ItemInput>, x: ItemInput)
    ensures OrderTotal(items + [x]) == OrderTotal(items) + x.quantity as real * x.price
  {
    if items != [] {
      assert (items + [x])[1..] == items[1..] + [x];
      OrderTotalSnoc(items[1..], x);
    }
  }

  lemma {:induction false} RowsOfAppend(a: seq<ItemRow>, b: seq<ItemRow>, id: string)
    ensures RowsOf(a + b, id) == RowsOf(a, id) + RowsOf(b, id)
  {
    if b != [] {
      var init := b[..|b| - 1];
      assert (a + b)[..|a + b| - 1] == a + init;
      RowsOfAppend(a, init, id);
    }
    else {
      assert a + b == a;
    }
  }

  /** Rows that all belong to other orders contribute nothing. */
  lemma {:induction false} RowsOfNone(rows: seq<ItemRow>, id: string)
    requires forall k | 0 <= k < |rows| :: rows[k].orderId != id
    ensures RowsOf(rows, id) == []
  {
    if rows != [] {
      RowsOfNone(rows[..|rows| - 1], id);
    }
  }

  /** Deleting an order's rows keeps the other rows' references valid
      once that order is gone. */
  lemma {:induction false} RowsNotOfReferences(rows: seq<ItemRow>, id: string, orderIds: set<string>, products: set<string>)
    requires forall k | 0 <= k < |rows| :: rows[k].orderId in orderIds && rows[k].productId in products
    ensures forall k | 0 <= k < |RowsNotOf(rows, id)| ::
              RowsNotOf(rows, id)[k].orderId in orderIds - {id} && RowsNotOf(rows, id)[k].productId in products
  {
    if rows != [] {
      var init := rows[..|rows| - 1];
      assert forall k | 0 <= k < |init| :: init[k] == rows[k];
      RowsNotOfReferences(init, id, orderIds, products);
    }
  }

  /** Deleting an order's rows keeps every other row, in order, and no
      row of that order survives. */
  lemma {:induction false} RowsNotOfShape(rows: seq<ItemRow>, id: string)
    ensures forall k | 0 <= k < |RowsNotOf(rows, id)| :: RowsNotOf(rows, id)[k].orderId != id
    ensures forall k | 0 <= k < |RowsNotOf(rows, id)| :: RowsNotOf(rows, id)[k] in rows
    ensures forall k | 0 <= k < |rows| && rows[k].orderId != id :: rows[k] in RowsNotOf(rows, id)
    ensures |RowsNotOf(rows, id)| + |RowsOf(rows, id)| == |rows|
  {
    if rows != [] {
      var init := rows[..|rows| - 1];
      RowsNotOfShape(init, id);
      assert forall k | 0 <= k < |init| :: init[k] == rows[k];
    }
  }

  /** An order joined with its customer. */
  function ListingOf(id: string, o: OrderRow, c: Customer): OrderListing
  {
    OrderListing(id, o.customerId, o.orderDate, o.status, o.totalAmount, c.name, c.email)
  }

  /** The items of order `id` joined with the product table, in table order;
      rows whose product is unknown drop out of the join. */
  function DetailsOf(rows: seq<ItemRow>, id: string, products: map<string, string>): seq<ItemDetail>
  {
    if rows == [] then []
    else
      var last := rows[|rows| - 1];
      DetailsOf(rows[..|rows| - 1], id, products)
      + (if last.orderId == id && last.productId in products
         then [ItemDetail(last.productId, last.quantity, last.price, products[last.productId])]
         else [])
  }

  /** When every row's product exists (the foreign key guarantees it), the
      join loses nothing: one detail per row of the order, same values. */
  lemma {:induction false} DetailsMatchRows(rows: seq<ItemRow>, id: string, products: map<string, string>)
    requires forall k | 0 <= k < |rows| :: rows[k].productId in products
    ensures |DetailsOf(rows, id, products)| == |RowsOf(rows, id)|
    ensures forall k | 0 <= k < |RowsOf(rows, id)| ::
              var d, row := DetailsOf(rows, id, products)[k], RowsOf(rows, id)[k];
              d.productId == row.productId && d.quantity == row.quantity && d.price == row.price
  {
    if rows != [] {
      DetailsMatchRows(rows[..|rows| - 1], id, products);
    }
  }

  class OrderDatabase {
    var customers: map<string, Customer>
    var productNames: map<string, string>
    var orders: map<string, OrderRow>
    var orderItems: seq<ItemRow>

    /** The schema's constraints: every order names a known customer and
        fits its status column, every item row names a known order and a
        known product. */
    ghost predicate Valid()
      reads this
    {
      && (forall id | id in orders :: orders[id].customerId in customers && |orders[id].status| <= StatusWidth)
      && (forall k | 0 <= k < |orderItems| :: orderItems[k].orderId in orders && orderItems[k].productId in productNames)
    }

    constructor (customers0: map<string, Customer>, products0: map<string, string>)
      ensures Valid()
      ensures customers == customers0 && productNames == products0
      ensures orders == map[] && orderItems == []
    {
      customers := customers0;
      productNames := products0;
      orders := map[];
      orderItems := [];
    }

    /** The insert loop of `POST /orders`: one row per item, in order,
        failing at the first item whose product is unknown. */
    method ItemRowsToInsert(newId: string, items: seq<ItemInput>) returns (rows: Option<seq<ItemRow>>)
      ensures rows.Some? <==> forall k | 0 <= k < |items| :: items[k].productId in productNames
      ensures rows.Some? ==> rows.value == NewItemRows(newId, items)
    {
      var acc: seq<ItemRow> := [];
      for i := 0 to |items|
        invariant acc == NewItemRows(newId, items[..i])
        invariant forall k | 0 <= k < i :: items[k].productId in productNames
      {
        var item := items[i];
        if item.productId !in productNames {
          return None;
        }
        assert items[..i + 1][..i] == items[..i];
        acc := acc + [ItemRow(newId, item.productId, item.quantity, item.price)];
      }
      assert items[..|items|] == items;
      rows := Some(acc);
    }

    /** `POST /orders`. A body without customer id or items is refused
        with 400 and no insert. Otherwise one `pending` order whose total is
        the sum of quantity times price, and one item row per item, are
        inserted and committed together, and the reply is 201 with the new
        id. A key violation rolls the whole insert back (500). */
    method CreateOrder(body: Option<Body>, newId: string, now: int) returns (r: Response)
      requires Valid()
      modifies this`orders, this`orderItems
      ensures Valid()
      ensures CreateEffect(body, newId, now, r)
    {
      if body.None? {
        return Respond(500, InternalError(UndecodableBody));
      }
      var b := body.value;
      if !Truthy(b.customerId) || b.items == [] {
        return Respond(400, Message("customer_id and items are required"));
      }
      var customerId := b.customerId.value;
      var total := OrderTotal(b.items);
      if newId in orders {
        return Respond(500, InternalError(DuplicateOrderId));
      }
      if customerId !in customers {
        return Respond(500, InternalError(UnknownCustomer));
      }
      var rows := ItemRowsToInsert(newId, b.items);
      if rows.None? {
        return Respond(500, InternalError(UnknownProduct));
      }
      NewOrderRows(orderItems, newId, b.items);
      orders := orders[newId := OrderRow(customerId, now, PendingStatus, total)];
      orderItems := orderItems + rows.value;
      r := Respond(201, Created("Order created successfully", newId));
    }

    /** The replies and table changes of `POST /orders`. */
    twostate predicate CreateEffect(body: Option<Body>, newId: string, now: int, r: Response)
      reads this
    {
      && r.headers == CorsHeaders
      && r.statusCode in {201, 400, 500}
      && (body.None? ==> r == Respond(500, InternalError(UndecodableBody)))
      && (body.Some? && (!Truthy(body.value.customerId) || body.value.items == []) ==>
            r == Respond(400, Message("customer_id and items are required")))
      && (r.statusCode == 201 <==>
            && body.Some? && Truthy(body.value.customerId) && body.value.items != []
            && newId !in old(orders) && body.value.customerId.value in customers
            && forall k | 0 <= k < |body.value.items| :: body.value.items[k].productId in productNames)
      && (r.statusCode == 201 ==>
            && r.body == Created("Order created successfully", newId)
            && orders == old(orders)[newId := OrderRow(body.value.customerId.value, now, PendingStatus,
                                                       OrderTotal(body.value.items))]
            && orderItems == old(orderItems) + NewItemRows(newId, body.value.items)
            && RowsOf(orderItems, newId) == NewItemRows(newId, body.value.items)
            && RowsTotal(RowsOf(orderItems, newId)) == orders[newId].totalAmount)
      && (body.Some? && Truthy(body.value.customerId) && body.value.items != [] ==>
            if newId in old(orders) then r == Respond(500, InternalError(DuplicateOrderId))
            else if body.value.customerId.value !in customers then r == Respond(500, InternalError(UnknownCustomer))
            else if exists k | 0 <= k < |body.value.items| :: body.value.items[k].productId !in productNames
            then r == Respond(500, InternalError(UnknownProduct))
            else r.statusCode == 201)
      && (r.statusCode != 201 ==> orders == old(orders) && orderItems == old(orderItems))
    }

    /** `GET /orders/{id}`: 400 without an id, 404 when no order with a
        known customer has it, otherwise the order with its items. */
    method GetOrder(id: Option<string>) returns (r: Response)
      ensures GetReply(id, r)
    {
      if !Truthy(id) {
        return Respond(400, Message("order_id is required"));
      }
      var orderId := id.value;
      if orderId !in orders || orders[orderId].customerId !in customers {
        return Respond(404, Message("Order not found"));
      }
      var o := orders[orderId];
      var items: seq<ItemDetail> := [];
      for i := 0 to |orderItems|
        invariant items == DetailsOf(orderItems[..i], orderId, productNames)
      {
        assert orderItems[..i + 1][..i] == orderItems[..i];
        var row := orderItems[i];
        if row.orderId == orderId && row.productId in productNames {
          items := items + [ItemDetail(row.productId, row.quantity, row.price, productNames[row.productId])];
        }
      }
      assert orderItems[..|orderItems|] == orderItems;
      r := Respond(200, OrderDetail(ListingOf(orderId, o, customers[o.customerId]), items));
    }

    /** The replies of `GET /orders/{id}`. */
    predicate GetReply(id: Option<string>, r: Response)
      reads this
    {
      && r.headers == CorsHeaders
      && r.statusCode in {200, 400, 404}
      && (!Truthy(id) ==> r == Respond(400, Message("order_id is required")))
      && (Truthy(id) && (id.value !in orders || orders[id.value].customerId !in customers) ==>
            r == Respond(404, Message("Order not found")))
      && (Truthy(id) && id.value in orders && orders[id.value].customerId in customers ==>
            var o := orders[id.value];
            r == Respond(200, OrderDetail(ListingOf(id.value, o, customers[o.customerId]),
                                          DetailsOf(orderItems, id.value, productNames))))
    }

    /** `PUT /orders/{id}`: 400 without an id or a status. A status the
        column cannot take fails the statement (500) whether or not the
        order exists; otherwise 404 when no order has the id, else only
        that order's status changes, as the column stores it, and the
        change is committed (200). */
    method UpdateOrder(id: Option<string>, body: Option<Body>) returns (r: Response)
      requires Valid()
      modifies this`orders
      ensures Valid()
      ensures UpdateEffect(id, body, r)
    {
      if !Truthy(id) {
        return Respond(400, Message("order_id is required"));
      }
      if body.None? {
        return Respond(500, InternalError(UndecodableBody));
      }
      var status := body.value.status;
      if !Truthy(status) {
        return Respond(400, Message("status is required"));
      }
      if !FitsStatus(status.value) {
        return Respond(500, InternalError(StatusTooLong));
      }
      var orderId := id.value;
      if orderId !in orders {
        return Respond(404, Message("Order not found"));
      }
      orders := orders[orderId := orders[orderId].(status := StoredStatus(status.value))];
      r := Respond(200, Message("Order updated successfully"));
    }

    /** The replies and table changes of `PUT /orders/{id}`. */
    twostate predicate UpdateEffect(id: Option<string>, body: Option<Body>, r: Response)
      reads this
    {
      && r.headers == CorsHeaders
      && r.statusCode in {200, 400, 404, 500}
      && (!Truthy(id) ==> r == Respond(400, Message("order_id is required")))
      && (Truthy(id) && body.None? ==> r == Respond(500, InternalError(UndecodableBody)))
      && (Truthy(id) && body.Some? && !Truthy(body.value.status) ==>
            r == Respond(400, Message("status is required")))
      && (Truthy(id) && body.Some? && Truthy(body.value.status) && !FitsStatus(body.value.status.value) ==>
            r == Respond(500, InternalError(StatusTooLong)))
      && (Truthy(id) && body.Some? && Truthy(body.value.status) && FitsStatus(body.value.status.value)
          && id.value !in old(orders) ==>
            r == Respond(404, Message("Order not found")))
      && (r.statusCode == 200 <==>
            && Truthy(id) && body.Some? && Truthy(body.value.status)
            && FitsStatus(body.value.status.value) && id.value in old(orders))
      && (r.statusCode == 200 ==>
            && r.body == Message("Order updated successfully")
            && orders == old(orders)[id.value := old(orders)[id.value].(status := StoredStatus(body.value.status.value))])
      && (r.statusCode != 200 ==> orders == old(orders))
    }

    /** `DELETE /orders/{id}`: 400 without an id; 404 when no order has the
        id, and then the item deletion is not committed either; otherwise
        the order and all its item rows are removed (200). */
    method DeleteOrder(id: Option<string>) returns (r: Response)
      requires Valid()
      modifies this`orders, this`orderItems
      ensures Valid()
      ensures DeleteEffect(id, r)
    {
      if !Truthy(id) {
        return Respond(400, Message("order_id is required"));
      }
      var orderId := id.value;
      var remaining := RowsNotOf(orderItems, orderId);
      if orderId !in orders {
        // the handler returns before its commit: the row deletion is rolled back
        return Respond(404, Message("Order not found"));
      }
      RowsNotOfReferences(orderItems, orderId, orders.Keys, productNames.Keys);
      RowsOfNone(remaining, orderId);
      orderItems := remaining;
      orders := orders - {orderId};
      r := Respond(200, Message("Order deleted successfully"));
    }

    /** The replies and table changes of `DELETE /orders/{id}`. */
    twostate predicate DeleteEffect(id: Option<string>, r: Response)
      reads this
    {
      && r.headers == CorsHeaders
      && r.statusCode in {200, 400, 404}
      && (!Truthy(id) ==> r == Respond(400, Message("order_id is required")))
      && (Truthy(id) && id.value !in old(orders) ==> r == Respond(404, Message("Order not found")))
      && (r.statusCode == 200 <==> Truthy(id) && id.value in old(orders))
      && (r.statusCode == 200 ==>
            && r.body == Message("Order deleted successfully")
            && orders == old(orders) - {id.value}
            && orderItems == RowsNotOf(old(orderItems), id.value)
            && RowsOf(orderItems, id.value) == [])
      && (r.statusCode != 200 ==> orders == old(orders) && orderItems == old(orderItems))
    }

    /** The API Gateway entry point: dispatch on method and path. The list
        endpoint's newest-first listing, the new order's id and timestamp
        and the workflow lookup's result are inputs. Every reply carries
        the fixed headers; reads and unroutable requests change nothing. */
    method Handle(e: Event, newestFirst: seq<OrderListing>, newId: string, now: int, workflow: WorkflowOutcome)
      returns (r: Response)
      requires Valid()
      modifies this`orders, this`orderItems
      ensures Valid()
      ensures r.headers == CorsHeaders
      ensures r.statusCode in {200, 201, 400, 404, 500}
      ensures RouteOf(e.httpMethod, e.path) == NoRoute ==> r == Respond(400, Message("Invalid request"))
      ensures RouteOf(e.httpMethod, e.path) == ListRoute ==> r == ListOrders(e.page, e.limit, |old(orders)|, newestFirst)
      ensures RouteOf(e.httpMethod, e.path) == CreateRoute ==> CreateEffect(e.body, newId, now, r)
      ensures RouteOf(e.httpMethod, e.path) == GetRoute ==> GetReply(e.id, r)
      ensures RouteOf(e.httpMethod, e.path) == UpdateRoute ==> UpdateEffect(e.id, e.body, r)
      ensures RouteOf(e.httpMethod, e.path) == DeleteRoute ==> DeleteEffect(e.id, r)
      ensures RouteOf(e.httpMethod, e.path) == StatusRoute ==> r == WorkflowStatus(e.id, workflow)
      ensures RouteOf(e.httpMethod, e.path) in {ListRoute, GetRoute, StatusRoute, NoRoute} ==>
                orders == old(orders) && orderItems == old(orderItems)
      ensures RouteOf(e.httpMethod, e.path) != CreateRoute ==> orders.Keys <= old(orders).Keys
    {
      var route := RouteOf(e.httpMethod, e.path);
      match route
      case ListRoute =>
        r := ListOrders(e.page, e.limit, |orders|, newestFirst);
      case CreateRoute =>
        r := CreateOrder(e.body, newId, now);
      case GetRoute =>
        r := GetOrder(e.id);
      case UpdateRoute =>
        r := UpdateOrder(e.id, e.body);
      case DeleteRoute =>
        r := DeleteOrder(e.id);
      case StatusRoute =>
        r := WorkflowStatus(e.id, workflow);
      case NoRoute =>
        r := Respond(400, Message("Invalid request"));
    }
  }

  /** The workflow-status endpoint around the Step Functions lookup. */
  function WorkflowStatus(id: Option<string>, workflow: WorkflowOutcome): (r: Response)
    ensures r.headers == CorsHeaders
    ensures r.statusCode in {200, 400, 404}
    ensures !Truthy(id) ==> r == Respond(400, Message("order_id is required"))
    ensures Truthy(id) ==> (r.statusCode == 200 <==> workflow.Described?)
    ensures Truthy(id) && workflow.Described? ==>
              r.body == WorkflowState(workflow.status, workflow.startDate, workflow.stopDate)
    ensures Truthy(id) && workflow.DescribeFailed? ==>
              r == Respond(404, MessageWithError("Workflow not found", workflow.error))
  {
    if !Truthy(id) then Respond(400, Message("order_id is required"))
    else match workflow
      case Described(status, start, stop) => Respond(200, WorkflowState(status, start, stop))
      case DescribeFailed(error) => Respond(404, MessageWithError("Workflow not found", error))
  }
}
