/** The notification step of the order workflow: choosing the subject and
    the text of the message from the event's `notification_type`, with the
    defaults the handler applies to missing fields, and the reply it gives
    once the publish call has succeeded or failed. The publish call itself
    is an input. */
module Notification {
  import opened Common

  /** A field of the event as the handler reads it: absent, JSON null, or
      a value, given as the text Python's `str` makes of it. */
  datatype Field = Missing | Null | Value(text: string)

  /** The event. `rendered` is the whole event as `json.dumps(event,
      indent=2)` writes it. A present `lowStockItems` holds the JSON text
      `json.dumps` makes of its value; the other present fields hold the
      text `str` makes of theirs. */
  datatype Event = Event(
    orderId: Field, notificationType: Field, transactionId: Field,
    totalAmount: Field, lowStockItems: Field, errorMessage: Field,
    rendered: string)

  /** How a field is turned into text: `str` of it, as an f-string does,
      or `json.dumps` of it. They differ only for null. */
  datatype Style = Str | Json

  /** `str(event.get(name, default))` or `json.dumps(event.get(name,
      default), indent=2)`: the default (already rendered in that style)
      when the key is absent, "None" or "null" when it holds null, and
      otherwise the value's text in that style (given). */
  function Render(f: Field, default: string, style: Style := Str): (s: string)
    ensures f.Missing? ==> s == default
    ensures f.Null? && style == Str ==> s == "None"
    ensures f.Null? && style == Json ==> s == "null"
    ensures f.Value? ==> s == f.text
  {
    match f
    case Missing => default
    case Null => if style == Str then "None" else "null"
    case Value(t) => t
  }

  datatype Kind = OrderConfirmation | PaymentFailed | OrderShipped | LowStock | SystemError | Other

  /** The branch the handler takes. A missing type means an order
      confirmation; a null type matches no branch. */
  function KindOf(e: Event): (k: Kind)
    ensures k == OrderConfirmation <==> e.notificationType in {Missing, Value("order_confirmation")}
    ensures k == Other <==>
              e.notificationType.Null?
              || (e.notificationType.Value?
                  && e.notificationType.text !in
                       {"order_confirmation", "payment_failed", "order_shipped", "low_stock", "system_error"})
    ensures k == PaymentFailed <==> e.notificationType == Value("payment_failed")
    ensures k == OrderShipped <==> e.notificationType == Value("order_shipped")
    ensures k == LowStock <==> e.notificationType == Value("low_stock")
    ensures k == SystemError <==> e.notificationType == Value("system_error")
  {
    match e.notificationType
    case Missing => OrderConfirmation
    case Null => Other
    case Value(t) =>
      if t == "order_confirmation" then OrderConfirmation
      else if t == "payment_failed" then PaymentFailed
      else if t == "order_shipped" then OrderShipped
      else if t == "low_stock" then LowStock
      else if t == "system_error" then SystemError
      else Other
  }

  datatype Notice = Notice(subject: string, message: string)

  /** The twelve spaces that close each message template. */
  const Closing := "\n            "

  /** The subject line for each branch. */
  function Subject(e: Event): (s: string)
  {
    var id := Render(e.orderId, "None");
    match KindOf(e)
    case OrderConfirmation => "Order Confirmation - " + id
    case PaymentFailed => "Payment Failed - " + id
    case OrderShipped => "Order Shipped - " + id
    case LowStock => "Low Stock Alert"
    case SystemError => "System Error - " + id
    case Other => "Order Management Notification"
  }

  function ConfirmationText(id: string, transaction: string, amount: string): string
  {
    "\nOrder Confirmation\n" + OrderLine(id)
    + "Status: Confirmed\nPayment: Success\n\n"
    + "Your order has been successfully processed and confirmed.\nThank you for your order!\n\n"
    + "Transaction ID: " + transaction + "\nAmount: $" + amount + Closing
  }

  function PaymentFailedText(id: string): string
  {
    "\nPayment Processing Failed\n" + OrderLine(id)
    + "Status: Payment Failed\n\n"
    + "We were unable to process your payment. \nPlease try again or contact support." + Closing
  }

  function ShippedText(id: string): string
  {
    "\nOrder Shipped\n" + OrderLine(id)
    + "Status: Shipped\n\nYour order has been shipped and is on the way!" + Closing
  }

  function LowStockText(items: string): string
  {
    "\nLow Stock Alert\n\nThe following products have low stock levels:\n"
    + items + "\n\nPlease reorder soon." + Closing
  }

  function SystemErrorText(id: string, error: string): string
  {
    "\nSystem Error Notification\n" + OrderLine(id)
    + "Error: " + error + "\n\nPlease investigate immediately." + Closing
  }

  /** The message body for each branch. */
  function Body(e: Event): (m: string)
  {
    var id := Render(e.orderId, "None");
    match KindOf(e)
    case OrderConfirmation => ConfirmationText(id, Render(e.transactionId, "N/A"), Render(e.totalAmount, "0"))
    case PaymentFailed => PaymentFailedText(id)
    case OrderShipped => ShippedText(id)
    case LowStock => LowStockText(Render(e.lowStockItems, "[]", Json))
    case SystemError => SystemErrorText(id, Render(e.errorMessage, "Unknown error"))
    case Other => e.rendered
  }

  function Compose(e: Event): Notice
  {
    Notice(Subject(e), Body(e))
  }

  /** `part` occurs in `text` (Python's `part in text`). This is
      `Common.Contains` stated by its witnesses (`MentionsIsContains`):
      the recursive form unrolls once per character of a template, the
      witness form takes one split. */
  ghost predicate Mentions(text: string, part: string)
  {
    exists head, tail :: text == head + part + tail
  }

  /** The two substring tests agree. */
  lemma {:induction false} MentionsIsContains(text: string, part: string)
    ensures Mentions(text, part) <==> Contains(text, part)
    decreases |text|
  {
    if Mentions(text, part) {
      var head, tail :| text == head + part + tail;
      ContainsInfix(head, part, tail);
    }
    if Contains(text, part) {
      if part <= text {
        assert text == [] + part + text[|part|..];
      } else {
        MentionsIsContains(text[1..], part);
        var head, tail :| text[1..] == head + part + tail;
        assert text == ([text[0]] + head) + part + tail;
      }
    }
  }

  lemma MentionsInfix(head: string, part: string, tail: string)
    ensures Mentions(head + part + tail, part)
  {
    assert head + part + tail == head + part + tail;
  }

  function OrderLine(id: string): string
  {
    "\nOrder ID: " + id + "\n"
  }

  lemma ConfirmationNamesOrder(id: string, transaction: string, amount: string)
    ensures Mentions(ConfirmationText(id, transaction, amount), OrderLine(id))
  {
    var tail := "Status: Confirmed\nPayment: Success\n\n"
      + "Your order has been successfully processed and confirmed.\nThank you for your order!\n\n"
      + "Transaction ID: " + transaction + "\nAmount: $" + amount + Closing;
    assert ConfirmationText(id, transaction, amount) == "\nOrder Confirmation\n" + OrderLine(id) + tail;
    MentionsInfix("\nOrder Confirmation\n", OrderLine(id), tail);
  }

  lemma PaymentFailedNamesOrder(id: string)
    ensures Mentions(PaymentFailedText(id), OrderLine(id))
  {
    var tail := "Status: Payment Failed\n\n"
      + "We were unable to process your payment. \nPlease try again or contact support." + Closing;
    assert PaymentFailedText(id) == "\nPayment Processing Failed\n" + OrderLine(id) + tail;
    MentionsInfix("\nPayment Processing Failed\n", OrderLine(id), tail);
  }

  lemma ShippedNamesOrder(id: string)
    ensures Mentions(ShippedText(id), OrderLine(id))
  {
    var tail := "Status: Shipped\n\nYour order has been shipped and is on the way!" + Closing;
    assert ShippedText(id) == "\nOrder Shipped\n" + OrderLine(id) + tail;
    MentionsInfix("\nOrder Shipped\n", OrderLine(id), tail);
  }

  lemma SystemErrorNamesOrder(id: string, error: string)
    ensures Mentions(SystemErrorText(id, error), OrderLine(id))
  {
    var tail := "Error: " + error + "\n\nPlease investigate immediately." + Closing;
    assert SystemErrorText(id, error) == "\nSystem Error Notification\n" + OrderLine(id) + tail;
    MentionsInfix("\nSystem Error Notification\n", OrderLine(id), tail);
  }

  /** The four order notices name the order, in the subject after its
      prefix and in the message on an "Order ID:" line. */
  lemma OrderNoticesNameTheOrder(e: Event)
    requires KindOf(e) in {OrderConfirmation, PaymentFailed, OrderShipped, SystemError}
    ensures var id := Render(e.orderId, "None");
      && Subject(e)[|Subject(e)| - |id|..] == id
      && Mentions(Body(e), OrderLine(id))
  {
    var id := Render(e.orderId, "None");
    match KindOf(e)
    case OrderConfirmation =>
      ConfirmationNamesOrder(id, Render(e.transactionId, "N/A"), Render(e.totalAmount, "0"));
    case PaymentFailed =>
      PaymentFailedNamesOrder(id);
    case OrderShipped =>
      ShippedNamesOrder(id);
    case SystemError =>
      SystemErrorNamesOrder(id, Render(e.errorMessage, "Unknown error"));
  }

  lemma ConfirmationShowsTransaction(id: string, transaction: string, amount: string)
    ensures Mentions(ConfirmationText(id, transaction, amount), "Transaction ID: " + transaction + "\n")
  {
    var head := "\nOrder Confirmation\n" + OrderLine(id)
      + "Status: Confirmed\nPayment: Success\n\n"
      + "Your order has been successfully processed and confirmed.\nThank you for your order!\n\n";
    var tail := "Amount: $" + amount + Closing;
    assert ConfirmationText(id, transaction, amount) == head + ("Transaction ID: " + transaction + "\n") + tail;
    MentionsInfix(head, "Transaction ID: " + transaction + "\n", tail);
  }

  lemma SystemErrorShowsError(id: string, error: string)
    ensures Mentions(SystemErrorText(id, error), "Error: " + error + "\n")
  {
    var head := "\nSystem Error Notification\n" + OrderLine(id);
    var tail := "\nPlease investigate immediately." + Closing;
    assert SystemErrorText(id, error) == head + ("Error: " + error + "\n") + tail;
    MentionsInfix(head, "Error: " + error + "\n", tail);
  }

  /** A confirmation without a transaction id says "N/A" for it. */
  lemma MissingTransactionIsNA(e: Event)
    requires KindOf(e) == OrderConfirmation && e.transactionId.Missing?
    ensures Mentions(Body(e), "Transaction ID: N/A\n")
  {
    ConfirmationShowsTransaction(Render(e.orderId, "None"), "N/A", Render(e.totalAmount, "0"));
    assert "Transaction ID: " + "N/A" + "\n" == "Transaction ID: N/A\n";
  }

  /** A system error without an error message says "Unknown error". */
  lemma MissingErrorIsUnknown(e: Event)
    requires KindOf(e) == SystemError && e.errorMessage.Missing?
    ensures Mentions(Body(e), "Error: Unknown error\n")
  {
    SystemErrorShowsError(Render(e.orderId, "None"), "Unknown error");
    assert "Error: " + "Unknown error" + "\n" == "Error: Unknown error\n";
  }

  /** A missing type reads exactly as an explicit "order_confirmation". */
  lemma MissingTypeIsConfirmation(e: Event)
    requires e.notificationType.Missing?
    ensures Compose(e) == Compose(e.(notificationType := Value("order_confirmation")))
    ensures Subject(e) == "Order Confirmation - " + Render(e.orderId, "None")
  {
  }

  /** Each recognised `notification_type` gets its own subject: the
      order id after the type's prefix, or the fixed low-stock title. */
  lemma SubjectByType(e: Event)
    ensures e.notificationType == Value("payment_failed") ==>
              Subject(e) == "Payment Failed - " + Render(e.orderId, "None")
    ensures e.notificationType == Value("order_shipped") ==>
              Subject(e) == "Order Shipped - " + Render(e.orderId, "None")
    ensures e.notificationType == Value("system_error") ==>
              Subject(e) == "System Error - " + Render(e.orderId, "None")
    ensures e.notificationType == Value("low_stock") ==> Subject(e) == "Low Stock Alert"
  {
  }

  /** The low-stock alert names no order: its subject is fixed and
      neither subject nor text depends on the order id. */
  lemma LowStockNamesNoOrder(e: Event, otherId: Field)
    requires KindOf(e) == LowStock
    ensures Subject(e) == "Low Stock Alert"
    ensures Compose(e.(orderId := otherId)) == Compose(e)
  {
  }

  lemma LowStockListsItems(items: string)
    ensures Mentions(LowStockText(items), "levels:\n" + items + "\n")
  {
    var head := "\nLow Stock Alert\n\nThe following products have low stock ";
    var tail := "\nPlease reorder soon." + Closing;
    assert LowStockText(items) == head + ("levels:\n" + items + "\n") + tail;
    MentionsInfix(head, "levels:\n" + items + "\n", tail);
  }

  /** A low-stock alert lists the items as JSON: "[]" when the field is
      missing and "null" when it is null. */
  lemma LowStockItemsAsJson(e: Event)
    requires KindOf(e) == LowStock && !e.lowStockItems.Value?
    ensures e.lowStockItems.Missing? ==> Mentions(Body(e), "levels:\n[]\n")
    ensures e.lowStockItems.Null? ==> Mentions(Body(e), "levels:\nnull\n")
  {
    LowStockListsItems(Render(e.lowStockItems, "[]", Json));
    assert "levels:\n" + "[]" + "\n" == "levels:\n[]\n";
    assert "levels:\n" + "null" + "\n" == "levels:\nnull\n";
  }

  /** The subject tells the branch: no two branches share a subject,
      whatever the order ids. */
  lemma SubjectIdentifiesKind(e1: Event, e2: Event)
    requires Subject(e1) == Subject(e2)
    ensures KindOf(e1) == KindOf(e2)
  {
    var s := Subject(e1);
    var k1, k2 := KindOf(e1), KindOf(e2);
    // Every subject is at least 15 characters long; these three positions
    // already separate the six shapes.
    assert |s| >= 15;
    assert k1 in {OrderConfirmation, OrderShipped, Other} <==> s[0] == 'O';
    assert k2 in {OrderConfirmation, OrderShipped, Other} <==> s[0] == 'O';
    assert s[0] == 'O' ==> (k1 == OrderConfirmation <==> s[6] == 'C') && (k2 == OrderConfirmation <==> s[6] == 'C');
    assert s[0] == 'O' ==> (k1 == OrderShipped <==> s[6] == 'S') && (k2 == OrderShipped <==> s[6] == 'S');
    assert k1 == PaymentFailed <==> s[0] == 'P';
    assert k2 == PaymentFailed <==> s[0] == 'P';
    assert k1 == LowStock <==> s[0] == 'L';
    assert k2 == LowStock <==> s[0] == 'L';
  }

  /** Only the catch-all branch sends the raw event; every other subject
      is fixed text, possibly followed by the order id. */
  lemma OtherSendsTheEvent(e: Event)
    ensures KindOf(e) == Other <==> Subject(e) == "Order Management Notification"
    ensures KindOf(e) == Other ==> Body(e) == e.rendered
  {
    if Subject(e) == "Order Management Notification" {
      assert Subject(e)[6] == 'M';
    }
  }

  /** What the publish call gave back. */
  datatype Publish = Published(messageId: string) | PublishFailed(error: string)

  /** The handler's reply. */
  datatype Outcome =
    | Sent(orderId: Option<string>, messageId: string)
    | Failed(orderId: Option<string>, message: string)
  {
    function Status(): string
    {
      if Sent? then "success" else "error"
    }

    function Message(): string
    {
      if Sent? then "Notification sent successfully" else message
    }
  }

  /** `event.get('order_id')`: None for an absent or null id. */
  function OrderIdOf(e: Event): (id: Option<string>)
    ensures id.Some? <==> e.orderId.Value?
  {
    if e.orderId.Value? then Some(e.orderId.text) else None
  }

  /** The handler: compose the notice, hand it to the publish service
      (`publish`, the SNS call as a function of the notice it is given),
      and report how that went. */
  function Handle(e: Event, publish: Notice -> Publish): (r: Outcome)
    ensures r.orderId == OrderIdOf(e)
    ensures r.Status() == "success" <==> publish(Compose(e)).Published?
    ensures publish(Compose(e)).Published? ==> r == Sent(OrderIdOf(e), publish(Compose(e)).messageId)
    ensures publish(Compose(e)).PublishFailed? ==>
              r.Message() == "Notification failed: " + publish(Compose(e)).error
  {
    match publish(Compose(e))
    case Published(id) => Sent(OrderIdOf(e), id)
    case PublishFailed(err) => Failed(OrderIdOf(e), "Notification failed: " + err)
  }
}
