# Order management dashboard and workflow lambdas: a Dafny model

This project models the logic at the centre of a small order-management
system. The system has a browser dashboard, an order-management backend
behind API Gateway, and two workflow steps run by Step Functions. The model
covers:

- **The dashboard's client-side rules** (`frontend/app.js`). The
  connection settings are held in module-level variables and persisted
  under four storage keys. The model covers their validation and their
  save, load and clear, plus the current orders page and the bounded
  activity log. This state lives in the class `Dashboard.DashboardApp`. The
  request helper `apiCall` is modelled too: its "not configured" refusal,
  the URL and headers it builds, and how a reply becomes a value or an
  error message. The model also covers the status badge, the line items
  the create-order form submits, and the dashboard figures.
- **The order-management handler**
  (`lambda/order_management/lambda_function.py`). It covers routing, the
  paging arithmetic of the list endpoint, the create, get, update and
  delete handlers and the fixed response envelope. The `orders` and
  `order_items` tables, with their key constraints from
  `lambda/init_database/lambda_function.py`, are fields of the class
  `OrderManagement.OrderDatabase`. A handler that fails before its commit
  leaves them as they were.
- **The inventory step** (`lambda/update_inventory/lambda_function.py`).
  It deducts each item from stock in one transaction. The first missing
  product or shortfall rolls the whole batch back. `InventoryUpdate.Apply`
  is the specification and `InventoryUpdate.Inventory.Deduct` is the loop.
- **The notification step** (`lambda/send_notification/lambda_function.py`).
  It picks a subject and message text by notification type, fills in the
  defaults for missing fields, and builds the reply after the publish call.

Modules: `Common` (Option/Result, ECMAScript `trim`, substring test,
decimal rendering), `Settings`, `ApiClient`, `Views`, `Dashboard`,
`OrderManagement`, `InventoryUpdate`, `Notification`.

Some behaviour comes from the database rather than the Python code, and the
handler's status code depends on it. The model writes it out:

- PostgreSQL refuses a negative `LIMIT` or `OFFSET`.
- A primary- or foreign-key violation aborts the insert.
- `status` is a `VARCHAR(20)` column. Assigning a longer text fails, unless
  everything past the twentieth character is spaces; then it is cut to
  twenty characters. This test happens when the statement is prepared, so
  it fails even when no order has the id.
- An `UPDATE` that matches no row raises nothing.

Each failure here surfaces as the handler's catch-all 500 reply.

## Model

| member | source | states |
|---|---|---|
| `Common.Trim` | frontend/app.js:634-635 | The result is a slice of the input. Only white space or line terminators are dropped at either end, and the result neither starts nor ends with one. It is empty exactly when the input is all white space. |
| `Common.TrimIdempotent` | frontend/app.js:634-635 | Trimming twice is trimming once. |
| `Common.NatToStringRoundTrip` | frontend/app.js:166 | The decimal rendering of a number used in messages and paths reads back as the same number. |
| `Settings.ValidateSettings` | frontend/app.js:643-662 | There is no error exactly when the endpoint is non-empty and starts with `http://` or `https://` and the key is non-empty. An empty endpoint reports "Required", not the scheme message. |
| `Settings.LoadedConfig` | frontend/app.js:43-67 | The configuration after a load: each of the four fields takes its stored value when that is non-empty and keeps the current one otherwise; debug is on only for the text "true". |
| `Settings.Stored` | frontend/app.js:46-66 | A stored value counts only when its key is present and the value is non-empty. |
| `Settings.Persisted` | frontend/app.js:666-669 | Saving writes the endpoint, key and region under their keys and the debug flag's text under its key, and leaves every other key as it was. |
| `Settings.Cleared` | frontend/app.js:766-769 | Clearing removes exactly the four keys and leaves every other key as it was. |
| `Settings.FlagText` | frontend/app.js:669 | The debug flag is written as "true" when it is on and "false" when it is off. |
| `Settings.LoadKeepsUnstored` | frontend/app.js:43-67 | Loading changes a field only when its key holds a non-empty value, and never empties a set endpoint or key. |
| `Settings.SaveLoadRoundTrip` | frontend/app.js:666-675 | After saving a configuration whose endpoint, key and region are non-empty, loading restores exactly that configuration, whatever was loaded before. |
| `Settings.EmptyRegionNotRestored` | frontend/app.js:58-61 | An empty saved region reads back as absent, so loading keeps the region the page already had. |
| `Settings.ClearThenLoad` | frontend/app.js:760-775 | After clearing, a fresh load yields the defaults `''`, `''`, `us-east-1`, `false`. |
| `ApiClient.RequestHeaders` | frontend/app.js:139-142 | Every request carries JSON content type and `X-Api-Key` set to the configured key. |
| `ApiClient.BuildRequest` | frontend/app.js:129-153 | The call is refused with "API not configured" exactly when the endpoint or the key is empty. Otherwise the URL is the endpoint followed by the path, with the given method, the key header, and the body only when one is given. |
| `ApiClient.ErrorMessage` | frontend/app.js:164-166 | A non-OK reply yields the server's non-empty `message`, or else "HTTP error! status: " followed by the status. |
| `ApiClient.GenericErrorNamesStatus` | frontend/app.js:166 | Without a server message, different statuses give different error texts. |
| `ApiClient.ReplyOutcome` | frontend/app.js:155-176 | A call succeeds exactly when the reply arrived with a 2xx status and a JSON body, and then yields that body. A non-OK reply fails with `ErrorMessage` (a non-JSON error body counts as `{}`). An OK reply whose body is not JSON fails with the parser's message. A transport failure fails with its own reason. |
| `ApiClient.ActivityLine` | frontend/app.js:170-179 | The activity-log line for a call: method, path, then either the success text with the elapsed milliseconds or "Failed: " with the error. |
| `ApiClient.OrdersPagePath` | frontend/app.js:228 | The orders view's request path: `/orders?page=`, the page in decimal, then `&limit=10`. |
| `ApiClient.OrdersPagePathNamesPage` | frontend/app.js:228 | The orders-page request path determines the page number. |
| `ApiClient.DashboardRequestExample` | frontend/app.js:149-188 | A worked example of the dashboard's request URL, method, key header and missing body. |
| `Views.StatusColor` | frontend/app.js:523-532 | The badge is one of the five badge names: `warning` for pending, `info` for processing, `success` for completed, `error` exactly for cancelled and failed, and `ghost` exactly for every other status. |
| `Views.StatusColorDistinguishes` | frontend/app.js:524-530 | Two known statuses share a badge only if they are equal or are cancelled and failed. |
| `Views.SubmittedItems` | frontend/app.js:475-485 | The items the form submits: in row order, one per row that has a product and a positive quantity, with that row's product, quantity and price. |
| `Views.SubmittedItemsValid` | frontend/app.js:475-485 | Every submitted item has a product and a positive quantity and comes from a row of the form. There are never more items than rows. |
| `Views.SubmittedItemsEmpty` | frontend/app.js:482-490 | No item is submitted exactly when no row has a product and a positive quantity. |
| `Views.CollectItems` | frontend/app.js:472-485 | The form's loop yields exactly the qualifying rows, in row order. |
| `Views.CreateOrder` | frontend/app.js:466-496 | With no customer the form stops with "Please select a customer", and with no qualifying row with "Please add at least one item". Otherwise the request body is the customer and the qualifying items, and it is never empty. |
| `Views.CountStatus` | frontend/app.js:194-195 | The number of fetched orders whose status equals the given one, counted one order at a time. |
| `Views.Statuses` | frontend/app.js:194-195 | The fetched orders' statuses, one per order, in order. |
| `Views.CountStatusIsMultiplicity` | frontend/app.js:194-195 | The count for a status is the number of times that status occurs among the orders' statuses, which is the length of the filtered list. |
| `Views.Revenue` | frontend/app.js:193 | The sum of the fetched orders' amounts. |
| `Views.PendingCompletedBounded` | frontend/app.js:194-195 | The pending and completed counts together are at most the number of orders fetched. |
| `Views.RevenueNonNegative` | frontend/app.js:193 | With no negative amounts the revenue is not negative. |
| `Views.DashboardStats` | frontend/app.js:191-204 | The total is `pagination.total` when it is present and non-zero, else the number of orders. Revenue is the sum of amounts. Pending and completed are the numbers of orders with exactly those statuses, and together at most the number of orders. The recent list is the first `min(5, n)` orders. |
| `Dashboard.Logged` | frontend/app.js:565-570 | The log after an entry is added: the entry, then the old log, cut to its first 20 entries. |
| `Dashboard.LoggedShape` | frontend/app.js:565-570 | After logging, the new entry is first and the log holds at most 20 entries. The survivors are the newest old entries in their old order. |
| `Dashboard.LoggedEvictsOldest` | frontend/app.js:567-570 | Logging into a full log drops exactly the oldest entry. |
| `Dashboard.NextPage` | frontend/app.js:360-362 | The new page is `max(1, page + delta)`. |
| `Dashboard.FirstPageIsSticky` | frontend/app.js:360-362 | Going back from page 1 stays on page 1. |
| `Dashboard.DashboardApp.constructor` | frontend/app.js:16-21 | The page starts unconfigured, on page 1, with an empty log. |
| `Dashboard.DashboardApp.LoadConfiguration` | frontend/app.js:43-67 | The configuration becomes the one loaded from storage over the current one. |
| `Dashboard.DashboardApp.SaveSettings` | frontend/app.js:633-692 | The inputs are trimmed and validated. On any error nothing is stored, the configuration and log are unchanged and nothing is requested. Otherwise the four values are stored and become the configuration, which is then configured, and the dashboard is reloaded: it sends `BuildRequest` of the new configuration for GET `/orders?limit=100`, so the URL is the endpoint followed by that path, the `X-Api-Key` header is the saved key and there is no body; it logs the call and has figures exactly when the reply succeeded. |
| `Dashboard.DashboardApp.ClearAllSettings` | frontend/app.js:760-775 | Declining changes nothing. Confirming removes the four keys and restores the defaults. |
| `Dashboard.DashboardApp.ChangePage` | frontend/app.js:360-364 | The page moves to `NextPage` and stays at least 1. The orders list is then reloaded (`loadOrders`, app.js:226-228) through the request helper: unconfigured, nothing is sent or logged; configured, a GET for that page's path is sent and one log entry records its outcome. |
| `Dashboard.DashboardApp.LogActivity` | frontend/app.js:551-571 | The log becomes `Logged` of the old log and the new entry. Its length stays at most 20. |
| `Dashboard.DashboardApp.ApiCall` | frontend/app.js:127-183 | Unconfigured, the call fails with "API not configured" and sends and logs nothing. Configured, it sends `BuildRequest`, returns `ReplyOutcome`, and logs one line marked as an error exactly when the call failed. |
| `Dashboard.DashboardApp.LoadDashboard` | frontend/app.js:186-204 | Configured, the dashboard sends `BuildRequest` for GET `/orders?limit=100` (the endpoint followed by that path, the configured key in `X-Api-Key`, no body) and logs that call; unconfigured, it requests and logs nothing. The figures are set exactly when the call succeeds, and they are then `DashboardStats` of the reply. |
| `Dashboard.SaveThenReload` | frontend/app.js:666-675 | Saving valid settings and reloading the page from the same storage yields the saved configuration. |
| `OrderManagement.Respond` | lambda/order_management/lambda_function.py:277-287 | Every reply is the status code, the four fixed CORS headers and the body. |
| `OrderManagement.RouteOf` | lambda/order_management/lambda_function.py:33-46 | Each route is characterised exactly by its method and path test. For example, GET is the item read exactly for paths other than `/orders` that contain `/orders/`, and the status read needs `/status/` and no `/orders/`. |
| `OrderManagement.CollectionPathIsNotItemPath` | lambda/order_management/lambda_function.py:33-41 | `/orders` does not contain `/orders/`, so the exact and the prefix routes never compete. |
| `OrderManagement.OrderRouteBeforeStatus` | lambda/order_management/lambda_function.py:37-44 | A GET of a path containing both `/orders/` and `/status/` reads the order. |
| `OrderManagement.ParamValue` | lambda/order_management/lambda_function.py:53-55 | An absent parameter takes its default, a numeric one is its number, and a non-numeric one is an error. |
| `OrderManagement.Offset` | lambda/order_management/lambda_function.py:56 | The offset of a page is `(page - 1) * limit`. |
| `OrderManagement.TotalPages` | lambda/order_management/lambda_function.py:94 | `total_pages` is `(total + limit - 1) // limit` for a positive limit. |
| `OrderManagement.TotalPagesIsCeiling` | lambda/order_management/lambda_function.py:94 | For a positive limit, `total_pages` is the ceiling of total / limit. It is 0 exactly when total is 0, and otherwise `(tp-1)*limit < total <= tp*limit`. |
| `OrderManagement.PageSlice` | lambda/order_management/lambda_function.py:64-71 | `LIMIT`/`OFFSET` returns at most `limit` rows, each the listing's row at offset plus position. It returns exactly `limit` rows when that many exist. |
| `OrderManagement.RowOnItsPage` | lambda/order_management/lambda_function.py:54-94 | Row i of the listing is on page `i / limit + 1` at position `i % limit`, and that page is within `total_pages`. |
| `OrderManagement.ListOrders` | lambda/order_management/lambda_function.py:52-96 | The reply is 200 exactly when page and limit, after their defaults 1 and 10, are numbers of at least 1. It then holds the requested slice and the paging figures. Everything else is a 500. |
| `OrderManagement.FitsStatus` | lambda/init_database/lambda_function.py:29-75 | A text can be assigned to the `status` column when it is at most 20 characters or everything past the twentieth is spaces. |
| `OrderManagement.StoredStatus` | lambda/init_database/lambda_function.py:29-75 | What the column stores of an assignable text: the whole text when it is at most 20 characters, otherwise its first exactly 20 characters, having cut off only spaces. |
| `OrderManagement.OrderTotal` | lambda/order_management/lambda_function.py:111 | The order total is the sum of quantity times price over the submitted items. |
| `OrderManagement.NewItemRows` | lambda/order_management/lambda_function.py:121-125 | There is one item row per input item, in order, carrying the new order's id and the item's product, quantity and price. |
| `OrderManagement.NewRowsAreTheOrdersRows` | lambda/order_management/lambda_function.py:121-125 | The new rows are exactly the rows of the new order. |
| `OrderManagement.NewRowsTotal` | lambda/order_management/lambda_function.py:111-125 | The stored total equals the sum of quantity times price over the new order's item rows. |
| `OrderManagement.NewOrderRows` | lambda/order_management/lambda_function.py:115-127 | After appending a new order's rows to a table without that id, the order's rows are exactly the new ones and they sum to its total. |
| `OrderManagement.RowsOf` | lambda/order_management/lambda_function.py:179-184 | The item rows whose order id is the given one, in table order. |
| `OrderManagement.RowsNotOf` | lambda/order_management/lambda_function.py:246 | The item rows left after deleting those of the given order, in table order. |
| `OrderManagement.RowsOfAppend` | lambda/order_management/lambda_function.py:121-125 | Selecting an order's rows distributes over appending rows. |
| `OrderManagement.RowsNotOfShape` | lambda/order_management/lambda_function.py:246 | Deleting an order's item rows keeps every other row and no row of that order. Together the kept and deleted rows account for the whole table. |
| `OrderManagement.RowsNotOfReferences` | lambda/order_management/lambda_function.py:245-246 | After an order's item rows are deleted along with the order, every remaining row still names an existing order and product. |
| `OrderManagement.DetailsOf` | lambda/order_management/lambda_function.py:179-193 | The joined item list of an order: one entry per row of that order whose product exists, with product, quantity, price and product name. |
| `OrderManagement.DetailsMatchRows` | lambda/order_management/lambda_function.py:179-193 | When every row's product exists, the joined item list has one entry per row of the order, with the same product, quantity and price. |
| `OrderManagement.OrderDatabase.constructor` | lambda/init_database/lambda_function.py:29-75 | The tables start empty over the given customers and products and satisfy the schema's constraints. |
| `OrderManagement.OrderDatabase.ItemRowsToInsert` | lambda/order_management/lambda_function.py:121-125 | The insert loop succeeds exactly when every item's product exists, and then yields `NewItemRows`. |
| `OrderManagement.OrderDatabase.CreateOrder` | lambda/order_management/lambda_function.py:98-155 | A missing customer id or empty items gives 400, and an unreadable body gives 500, both with no insert. 201 means the customer exists, every product exists and the id is new. Then one pending order with the items' total and one row per item are added, and they sum to the total. Otherwise a reused id, an unknown customer or an unknown product, checked in that order, each give 500 with its own error. Any other outcome changes nothing. |
| `OrderManagement.OrderDatabase.GetOrder` | lambda/order_management/lambda_function.py:157-209 | No id gives 400 and an unknown order gives 404. Otherwise the reply is 200 with the order joined with its customer and its joined items. |
| `OrderManagement.OrderDatabase.UpdateOrder` | lambda/order_management/lambda_function.py:211-237 | No id or no status gives 400. A status the column cannot take gives 500 even for an unknown order; an assignable status for an unknown order gives 404. 200 exactly when the order exists and the status is assignable, and then only that order's status changes, to what the column stores. Otherwise nothing changes. |
| `OrderManagement.OrderDatabase.DeleteOrder` | lambda/order_management/lambda_function.py:239-258 | No id gives 400, and an unknown order gives 404 with the item deletion rolled back. On 200 the order and all its item rows are gone and every other row is kept. |
| `OrderManagement.OrderDatabase.Handle` | lambda/order_management/lambda_function.py:27-50 | Every reply carries the four fixed headers and one of the codes 200, 201, 400, 404 or 500. Each route's reply and table changes are those of its handler: the list reply, the create, get, update and delete handlers' replies and effects, and the workflow-status reply. An unroutable request gives 400 "Invalid request". Reads and unroutable requests change no table. Only a create adds orders. |
| `OrderManagement.WorkflowStatus` | lambda/order_management/lambda_function.py:260-275 | No id gives 400 "order_id is required". Otherwise the reply is 200 exactly when the execution could be described, and then carries its status, start date and stop date. A failed describe gives 404 "Workflow not found" with the error's text. |
| `InventoryUpdate.Apply` | lambda/update_inventory/lambda_function.py:31-56 | The batch, item by item: a missing product or a shortfall fails with its message; otherwise the stock is reduced and a record appended, and the next item sees the reduced stock. |
| `InventoryUpdate.RecordsFollowItems` | lambda/update_inventory/lambda_function.py:31-63 | A successful batch has one record per item, in item order. Each new stock is the previous stock less the quantity deducted, and is never negative. |
| `InventoryUpdate.StockAfterBatch` | lambda/update_inventory/lambda_function.py:36-56 | A successful batch keeps the same products and takes from each exactly the sum of the quantities the items ask of it, so a repeated product sees the already-reduced stock. |
| `InventoryUpdate.UntouchedProducts` | lambda/update_inventory/lambda_function.py:52-56 | Products not named by any item keep their stock. |
| `InventoryUpdate.MissingProductFails` | lambda/update_inventory/lambda_function.py:41-43 | An item whose product is not in the table fails the batch. |
| `InventoryUpdate.ErrorsNameAnItem` | lambda/update_inventory/lambda_function.py:42-48 | A failed batch fails with "not found in inventory" or "Insufficient stock" for one of its items' products. |
| `InventoryUpdate.BatchSucceedsIffStockSuffices` | lambda/update_inventory/lambda_function.py:31-56 | With no negative quantities, the batch succeeds exactly when every product named is present with stock at least the total asked of it. |
| `InventoryUpdate.Inventory.Deduct` | lambda/update_inventory/lambda_function.py:18-86 | On success the stock becomes the batch's stock and the reply lists the records. On failure the stock is restored (rollback) and the reply is the failure message. Both carry the event's order id. |
| `InventoryUpdate.EmptyBatch` | lambda/update_inventory/lambda_function.py:24-74 | An empty item list succeeds with no records and leaves the stock unchanged. |
| `Notification.Render` | lambda/send_notification/lambda_function.py:13-69 | A missing field renders as its default. A null renders as "None" in the f-string fields and as "null" in the JSON-rendered low-stock list (line 59). A value renders as its text. |
| `Notification.LowStockItemsAsJson` | lambda/send_notification/lambda_function.py:53-62 | A low-stock alert without a list shows "[]", and one with a null list shows "null". |
| `Notification.Subject` | lambda/send_notification/lambda_function.py:17-74 | The subject of each branch. |
| `Notification.Body` | lambda/send_notification/lambda_function.py:17-75 | The message text of each branch, with the event's fields filled in. |
| `Notification.Compose` | lambda/send_notification/lambda_function.py:14-75 | The notice is the branch's subject and message. |
| `Notification.KindOf` | lambda/send_notification/lambda_function.py:14-73 | A missing type or "order_confirmation" selects the confirmation. "payment_failed", "order_shipped", "low_stock" and "system_error" each select their own branch, and only that type does. A null or unrecognised type selects the catch-all. |
| `Notification.SubjectByType` | lambda/send_notification/lambda_function.py:32-64 | "payment_failed", "order_shipped" and "system_error" give "Payment Failed - ", "Order Shipped - " and "System Error - " followed by the order id; "low_stock" gives the fixed "Low Stock Alert". |
| `Notification.MentionsIsContains` | lambda/send_notification/lambda_function.py:17-72 | The witness form of the substring test used for the notices agrees with the recursive `Contains`, in both directions. |
| `Notification.OrderNoticesNameTheOrder` | lambda/send_notification/lambda_function.py:17-72 | The four order notices end their subject with the order id and carry an "Order ID:" line. |
| `Notification.MissingTransactionIsNA` | lambda/send_notification/lambda_function.py:29 | A confirmation without a transaction id shows "Transaction ID: N/A". |
| `Notification.MissingErrorIsUnknown` | lambda/send_notification/lambda_function.py:69 | A system error without a message shows "Error: Unknown error". |
| `Notification.MissingTypeIsConfirmation` | lambda/send_notification/lambda_function.py:14-18 | A missing type produces exactly the notice of an explicit "order_confirmation". |
| `Notification.LowStockNamesNoOrder` | lambda/send_notification/lambda_function.py:53-62 | The low-stock subject is the fixed "Low Stock Alert", and the notice does not depend on the order id. |
| `Notification.SubjectIdentifiesKind` | lambda/send_notification/lambda_function.py:17-74 | Different branches never produce the same subject, whatever the order ids. |
| `Notification.OtherSendsTheEvent` | lambda/send_notification/lambda_function.py:73-75 | The catch-all subject "Order Management Notification" is used exactly for unrecognised types, and its message is the event rendered as JSON. |
| `Notification.OrderIdOf` | lambda/send_notification/lambda_function.py:13 | The order id is present exactly when the event holds a non-null one. |
| `Notification.Handle` | lambda/send_notification/lambda_function.py:77-97 | The notice handed to the publish service is `Compose` of the event. The reply carries the event's order id and is a success exactly when publishing that notice succeeded, then with its message id. A failure has status `error` and "Notification failed: " with the error. |

## Left out

- Rendering, toasts, modals, tab switching and the configuration warning banner are DOM output. They carry no logic beyond what is modelled.
- Timers and wall-clock readings (`Date.now`, `toLocaleTimeString`, `datetime.now`) become method parameters.
- `fetch` is left out; the reply it would produce is a parameter of `ApiCall`, `LoadDashboard`, `SaveSettings` and `ChangePage`. `testApiConnection` is left out as network I/O.
- Storage calls that throw are not modelled: the map-based storage never fails. Neither the partial load nor the error toast that follow such a failure is modelled.
- Amounts are exact `real`s. IEEE-754 rounding, `toFixed`, and `DECIMAL(10,2)` rounding and overflow of `total_amount` are not modelled.
- `OrderManagement.OrderDatabase.CreateOrder`: does not model the column ranges of `order_items`. A quantity outside the 32-bit `INTEGER` range, a price with more than eight integer digits for `DECIMAL(10,2)`, or an order total too large for `total_amount` fails the insert (500) in the database; the model inserts it.
- `OrderManagement.ListOrders`: does not model the 64-bit range of `LIMIT` and `OFFSET`. A page or limit whose offset falls outside it fails the query (500) in the database; the model answers 200.
- `OrderManagement.DetailsOf`: the item query has no `ORDER BY`, so the database may return an order's items in any order. The model lists them in table order.
- `Views.DashboardStats`: a null `total_amount` counts as 0 in the source; the model takes every amount as a number.
- `Views.StatusColor`: does not model statuses that name inherited properties of a JavaScript object (such as "toString"). The source would return that property instead of `ghost`.
- The SQL text is not modelled. The list endpoint's joined, newest-first listing is a parameter of `OrderManagement.ListOrders`, and so is the loop that copies its rows into dictionaries. The row count of `orders` is taken as the total.
- After a successful commit, `create_order` writes to S3 and starts a Step Functions execution. Both are left out. A failure there would give a 500 for an order that is already committed, and the model does not show that.
- The new order id (`uuid4`) and timestamp are parameters. The Step Functions describe call is a parameter of `OrderManagement.WorkflowStatus`, and the SNS publish is a parameter of `Notification.Handle`.
- Database connection failures and malformed JSON shapes are not modelled. This covers a body that is valid JSON but not an object, an item without `product_id`, and non-integer quantities.
- `InventoryUpdate.Apply`: the 32-bit `stock_quantity` column is not modelled. A negative quantity large enough to push stock past its range would fail the update in the database.
- `Notification.Render`: present values are given as the text Python's `str` makes of them, and a present low-stock list as the text `json.dumps` makes of it. `json.dumps` of the whole event is an input.
- Logging (`console.log`, `print`) is left out.
- `InventoryUpdate.Inventory.Deduct`: assumes each batch runs alone. The source reads `stock_quantity` without `FOR UPDATE` and writes back the value it computed, so two batches running at once on one product can both pass the stock test, and the later write erases the earlier deduction. `BatchSucceedsIffStockSuffices` and `StockAfterBatch` hold for a batch that runs alone.
- `OrderManagement.OrderDatabase.Handle`: assumes each request runs alone against the tables; interleavings of concurrent invocations are not modelled.
- `Dashboard.DashboardApp.SaveSettings`: the source starts the dashboard reload without awaiting it. The model completes the reload inside the save, as if no other event ran in between.
- `Dashboard.DashboardApp.ChangePage`: the source starts the orders reload without awaiting it, and the model completes it inside the page change. Filling the table from the reply is DOM output.
