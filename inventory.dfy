/** The inventory step of the order workflow: after a successful payment,
    each item's quantity is deducted from its product's stock inside one
    transaction. A missing product or a shortfall aborts the batch and the
    transaction is rolled back, so either every deduction happens or none
    does. The `inventory` table is modelled as a map from product id to
    stock quantity. */
module InventoryUpdate {
  import opened Common

  /** One entry of the event's `items` list. */
  datatype Item = Item(productId: string, quantity: int)

  /** One entry of `updated_items`. */
  datatype Record = Record(productId: string, quantityDeducted: int, previousStock: int, newStock: int)

  /** The stock after a batch and the records it produced. */
  datatype Batch = Batch(stock: map<string, int>, records: seq<Record>)

  function NotFoundMsg(productId: string): string
  {
    "Product " + productId + " not found in inventory"
  }

  function InsufficientMsg(productId: string): string
  {
    "Insufficient stock for product " + productId
  }

  const SuccessMsg := "Inventory updated successfully"
  const FailurePrefix := "Inventory update failed: "

  /** The handler's reply: `updated_items` on success, the failure message
      otherwise; both carry the event's `order_id` (None when absent). */
  datatype Outcome =
    | Updated(orderId: Option<string>, records: seq<Record>)
    | Failed(orderId: Option<string>, message: string)
  {
    function Status(): string
    {
      if Updated? then "success" else "error"
    }

    function Message(): string
    {
      if Updated? then SuccessMsg else message
    }
  }

  /** The batch applied item by item from the front: each item reads the
      stock as the previous items left it, and the first missing product
      or shortfall ends the batch with its error. */
  function Apply(stock: map<string, int>, items: seq<Item>): Result<Batch, string>
    decreases |items|
  {
    if items == [] then Ok(Batch(stock, []))
    else
      var p, q := items[0].productId, items[0].quantity;
      if p !in stock then Err(NotFoundMsg(p))
      else if stock[p] < q then Err(InsufficientMsg(p))
      else
        match Apply(stock[p := stock[p] - q], items[1..])
        case Err(e) => Err(e)
        case Ok(b) => Ok(Batch(b.stock, [Record(p, q, stock[p], stock[p] - q)] + b.records))
  }

  /** `r` with `done` placed in front of its records. */
  function Extend(done: seq<Record>, r: Result<Batch, string>): Result<Batch, string>
  {
    match r
    case Err(e) => Err(e)
    case Ok(b) => Ok(Batch(b.stock, done + b.records))
  }

  /** Total quantity the items ask of product `p`. */
  function Demand(items: seq<Item>, p: string): int
    decreases |items|
  {
    if items == [] then 0
    else (if items[0].productId == p then items[0].quantity else 0) + Demand(items[1..], p)
  }

  predicate NonNegativeQuantities(items: seq<Item>)
  {
    forall k | 0 <= k < |items| :: items[k].quantity >= 0
  }

  /** A successful batch records one entry per item, in item order; each
      entry's new stock is its previous stock less the quantity deducted,
      and is never negative. */
  lemma {:induction false} RecordsFollowItems(stock: map<string, int>, items: seq<Item>)
    requires Apply(stock, items).Ok?
    ensures var recs := Apply(stock, items).value.records;
      && |recs| == |items|
      && forall k | 0 <= k < |items| ::
           && recs[k].productId == items[k].productId
           && recs[k].quantityDeducted == items[k].quantity
           && recs[k].newStock == recs[k].previousStock - recs[k].quantityDeducted
           && recs[k].newStock >= 0
    decreases |items|
  {
    if items != [] {
      var p, q := items[0].productId, items[0].quantity;
      var rest := Apply(stock[p := stock[p] - q], items[1..]);
      RecordsFollowItems(stock[p := stock[p] - q], items[1..]);
      var recs := Apply(stock, items).value.records;
      assert recs == [Record(p, q, stock[p], stock[p] - q)] + rest.value.records;
      forall k | 1 <= k < |items|
        ensures recs[k] == rest.value.records[k - 1] && items[k] == items[1..][k - 1]
      {
      }
    }
  }

  /** A successful batch leaves the same products in the table and takes
      from each exactly what the items ask of it: a product named twice
      loses the sum of both quantities, and a product not named keeps its
      stock. */
  lemma {:induction false} StockAfterBatch(stock: map<string, int>, items: seq<Item>)
    requires Apply(stock, items).Ok?
    ensures var after := Apply(stock, items).value.stock;
      && after.Keys == stock.Keys
      && forall p | p in stock :: after[p] == stock[p] - Demand(items, p)
    decreases |items|
  {
    if items != [] {
      var p, q := items[0].productId, items[0].quantity;
      StockAfterBatch(stock[p := stock[p] - q], items[1..]);
    }
  }

  /** Products the items do not name keep their stock. */
  lemma UntouchedProducts(stock: map<string, int>, items: seq<Item>, p: string)
    requires Apply(stock, items).Ok? && p in stock
    requires forall k | 0 <= k < |items| :: items[k].productId != p
    ensures p in Apply(stock, items).value.stock && Apply(stock, items).value.stock[p] == stock[p]
  {
    StockAfterBatch(stock, items);
    DemandOfUnnamed(items, p);
  }

  lemma {:induction false} DemandOfUnnamed(items: seq<Item>, p: string)
    requires forall k | 0 <= k < |items| :: items[k].productId != p
    ensures Demand(items, p) == 0
    decreases |items|
  {
    if items != [] {
      DemandOfUnnamed(items[1..], p);
    }
  }

  /** An item whose product is not in the table fails the whole batch. */
  lemma {:induction false} MissingProductFails(stock: map<string, int>, items: seq<Item>, k: nat)
    requires k < |items| && items[k].productId !in stock
    ensures Apply(stock, items).Err?
    decreases |items|
  {
    if k > 0 && items[0].productId in stock && stock[items[0].productId] >= items[0].quantity {
      var p, q := items[0].productId, items[0].quantity;
      assert items[1..][k - 1] == items[k];
      MissingProductFails(stock[p := stock[p] - q], items[1..], k - 1);
    }
  }

  /** The only errors are the two the loop raises, each naming a product
      of the batch. */
  lemma {:induction false} ErrorsNameAnItem(stock: map<string, int>, items: seq<Item>)
    requires Apply(stock, items).Err?
    ensures exists k | 0 <= k < |items| ::
              Apply(stock, items).error in {NotFoundMsg(items[k].productId), InsufficientMsg(items[k].productId)}
    decreases |items|
  {
    var p, q := items[0].productId, items[0].quantity;
    if p in stock && stock[p] >= q {
      ErrorsNameAnItem(stock[p := stock[p] - q], items[1..]);
      var k :| 0 <= k < |items[1..]| &&
        Apply(stock[p := stock[p] - q], items[1..]).error in
          {NotFoundMsg(items[1..][k].productId), InsufficientMsg(items[1..][k].productId)};
      assert items[1..][k] == items[k + 1];
    } else {
      assert 0 < |items|;
    }
  }

  /** Every product the items name is in the table, with enough stock
      for all the items that name it together. */
  predicate Suffices(stock: map<string, int>, items: seq<Item>)
  {
    forall k | 0 <= k < |items| ::
      items[k].productId in stock && Demand(items, items[k].productId) <= stock[items[k].productId]
  }

  /** With no negative quantities, a batch succeeds exactly when the
      stock suffices for it: the check made for each item sees what the
      earlier items left, and the last item of a product sees the least. */
  lemma {:induction false} BatchSucceedsIffStockSuffices(stock: map<string, int>, items: seq<Item>)
    requires NonNegativeQuantities(items)
    ensures Apply(stock, items).Ok? <==> Suffices(stock, items)
    decreases |items|
  {
    if items != [] {
      var p, q := items[0].productId, items[0].quantity;
      var rest := items[1..];
      assert forall k | 0 <= k < |rest| :: rest[k] == items[k + 1];
      assert NonNegativeQuantities(rest);
      DemandNonNegative(rest, p);
      if p !in stock {
        MissingProductFails(stock, items, 0);
      } else {
        var s' := stock[p := stock[p] - q];
        BatchSucceedsIffStockSuffices(s', rest);
        if Apply(stock, items).Ok? {
          assert Apply(s', rest).Ok?;
          assert Demand(rest, p) <= s'[p] by {
            if forall k | 0 <= k < |rest| :: rest[k].productId != p {
              DemandOfUnnamed(rest, p);
            }
          }
          forall k | 0 <= k < |items|
            ensures items[k].productId in stock && Demand(items, items[k].productId) <= stock[items[k].productId]
          {
            if k > 0 {
              assert items[k] == rest[k - 1];
            }
          }
        }
        if Suffices(stock, items) {
          assert Demand(items, p) <= stock[p];
          forall k | 0 <= k < |rest|
            ensures rest[k].productId in s' && Demand(rest, rest[k].productId) <= s'[rest[k].productId]
          {
            assert rest[k] == items[k + 1];
          }
          assert Suffices(s', rest);
        }
      }
    }
  }

  lemma {:induction false} DemandNonNegative(items: seq<Item>, p: string)
    requires NonNegativeQuantities(items)
    ensures Demand(items, p) >= 0
    decreases |items|
  {
    if items != [] {
      assert NonNegativeQuantities(items[1..]) by {
        forall k | 0 <= k < |items[1..]| ensures items[1..][k].quantity >= 0 {
          assert items[1..][k] == items[k + 1];
        }
      }
      DemandNonNegative(items[1..], p);
    }
  }

  /** Taking one more step of the batch: the step either fails with the
      batch's error or hands its record on to the rest. */
  lemma Step(done: seq<Record>, stock: map<string, int>, items: seq<Item>, i: nat)
    requires i < |items| && items[i].productId in stock && stock[items[i].productId] >= items[i].quantity
    ensures var p, q := items[i].productId, items[i].quantity;
      Extend(done, Apply(stock, items[i..]))
        == Extend(done + [Record(p, q, stock[p], stock[p] - q)], Apply(stock[p := stock[p] - q], items[i + 1..]))
  {
    assert items[i..][1..] == items[i + 1..];
    var p, q := items[i].productId, items[i].quantity;
    match Apply(stock[p := stock[p] - q], items[i + 1..])
    case Err(_) =>
    case Ok(b) =>
      assert done + ([Record(p, q, stock[p], stock[p] - q)] + b.records)
          == (done + [Record(p, q, stock[p], stock[p] - q)]) + b.records;
  }

  class Inventory {
    var stock: map<string, int>

    constructor (initial: map<string, int>)
      ensures stock == initial
    {
      stock := initial;
    }

    /** The handler: deduct every item in turn, updating the table row by
        row, then commit; on the first missing product or shortfall, roll
        every update of the batch back and report the error. */
    method Deduct(orderId: Option<string>, items: seq<Item>) returns (out: Outcome)
      modifies this`stock
      ensures Apply(old(stock), items).Ok? ==>
                && out == Updated(orderId, Apply(old(stock), items).value.records)
                && stock == Apply(old(stock), items).value.stock
      ensures Apply(old(stock), items).Err? ==>
                && out == Failed(orderId, FailurePrefix + Apply(old(stock), items).error)
                && stock == old(stock)
      ensures out.orderId == orderId
    {
      var snapshot := stock;
      var updated: seq<Record> := [];
      assert items[0..] == items;
      match Apply(stock, items) {
        case Err(_) =>
        case Ok(b) => assert [] + b.records == b.records;
      }
      for i := 0 to |items|
        invariant Apply(snapshot, items) == Extend(updated, Apply(stock, items[i..]))
      {
        var p, q := items[i].productId, items[i].quantity;
        if p !in stock {
          stock := snapshot;
          return Failed(orderId, FailurePrefix + NotFoundMsg(p));
        }
        var current := stock[p];
        if current < q {
          stock := snapshot;
          return Failed(orderId, FailurePrefix + InsufficientMsg(p));
        }
        Step(updated, stock, items, i);
        var newStock := current - q;
        stock := stock[p := newStock];
        updated := updated + [Record(p, q, current, newStock)];
      }
      assert items[|items|..] == [];
      out := Updated(orderId, updated);
    }
  }

  /** An empty batch succeeds with no records and changes nothing. */
  method EmptyBatch(initial: map<string, int>, orderId: Option<string>) returns (out: Outcome, after: map<string, int>)
    ensures out == Updated(orderId, []) && out.Status() == "success" && out.Message() == SuccessMsg
    ensures after == initial
  {
    var table := new Inventory(initial);
    out := table.Deduct(orderId, []);
    after := table.stock;
  }
}
