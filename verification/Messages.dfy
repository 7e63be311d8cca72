/** The messages of the flash-sale system (shared/events.py), the transactional outbox
    rows that carry them, and the routing of each message to its one consuming service. */
module Messages {

  datatype Option<+T> = None | Some(value: T)

  // reason or "unknown"
  function OrUnknown(reason: Option<string>): string {
    if reason.Some? && reason.value != "" then reason.value else "unknown"
  }

  // Orders and payments get fresh UUIDs; the model uses their position in their table.
  type OrderId = nat
  type PaymentId = nat
  type Sku = string

  datatype Message =
    // events
    | OrderCreated(order: OrderId, sku: Sku, qty: int, user: string, amount: int)
    | InventoryReserved(order: OrderId, sku: Sku, qty: int)
    | InventoryReservationFailed(order: OrderId, sku: Sku, qty: int, reason: string)
    | InventoryReleased(order: OrderId, sku: Sku, qty: int)
    | PaymentSucceeded(order: OrderId, payment: PaymentId, amount: int)
    | PaymentFailed(order: OrderId, reason: string)
    | OrderConfirmed(order: OrderId)
    | OrderCancelled(order: OrderId, reason: string)
    // commands
    | ReserveInventory(order: OrderId, sku: Sku, qty: int)
    | ReleaseInventory(order: OrderId, sku: Sku, qty: int)
    | ChargePayment(order: OrderId, user: string, amount: int)
    | ConfirmOrder(order: OrderId)
    | CancelOrder(order: OrderId, reason: string)

  datatype Service = OrderService | SagaCoordinator | InventoryService | PaymentService | NotificationService

  // The service whose outbox a message is written to.
  function Producer(m: Message): Service {
    match m
    case OrderCreated(_, _, _, _, _) => OrderService
    case OrderConfirmed(_) => OrderService
    case OrderCancelled(_, _) => OrderService
    case InventoryReserved(_, _, _) => InventoryService
    case InventoryReservationFailed(_, _, _, _) => InventoryService
    case InventoryReleased(_, _, _) => InventoryService
    case PaymentSucceeded(_, _, _) => PaymentService
    case PaymentFailed(_, _) => PaymentService
    case _ => SagaCoordinator
  }

  // The service whose queue is bound to a message's routing key.
  function Consumer(m: Message): Service {
    match m
    case OrderConfirmed(_) => NotificationService
    case OrderCancelled(_, _) => NotificationService
    case ReserveInventory(_, _, _) => InventoryService
    case ReleaseInventory(_, _, _) => InventoryService
    case ChargePayment(_, _, _) => PaymentService
    case ConfirmOrder(_) => OrderService
    case CancelOrder(_, _) => OrderService
    case _ => SagaCoordinator
  }

  // An outbox row: its message, how many copies the broker has received, and the published flag.
  datatype Row = Row(msg: Message, sends: nat, published: bool)

  function Append(rows: seq<Row>, m: Message): seq<Row> {
    rows + [Row(m, 0, false)]
  }

  // Rows are never deleted, so an outbox records every message its service ever emitted.
  ghost function Emitted(rows: seq<Row>): set<Message> {
    if rows == [] then {} else Emitted(rows[..|rows| - 1]) + {rows[|rows| - 1].msg}
  }

  lemma EmittedAppend(rows: seq<Row>, m: Message)
    ensures Emitted(Append(rows, m)) == Emitted(rows) + {m}
  {
    assert Append(rows, m)[..|rows|] == rows;
  }

  lemma {:induction false} EmittedUpdate(rows: seq<Row>, i: nat, r: Row)
    requires i < |rows| && r.msg == rows[i].msg
    ensures Emitted(rows[i := r]) == Emitted(rows)
  {
    var n := |rows| - 1;
    if i < n {
      EmittedUpdate(rows[..n], i, r);
      assert rows[i := r][..n] == rows[..n][i := r];
    } else {
      assert rows[i := r][..n] == rows[..n];
    }
  }

  lemma {:induction false} EmittedHasRow(rows: seq<Row>, i: nat)
    requires i < |rows|
    ensures rows[i].msg in Emitted(rows)
  {
    if i < |rows| - 1 {
      EmittedHasRow(rows[..|rows| - 1], i);
    }
  }

  lemma {:induction false} EmittedRow(rows: seq<Row>, m: Message) returns (i: nat)
    requires m in Emitted(rows)
    ensures i < |rows| && rows[i].msg == m
  {
    i := |rows| - 1;
    if rows[i].msg != m {
      i := EmittedRow(rows[..|rows| - 1], m);
    }
  }

  // The messages about one order, oldest first.
  ghost function About(rows: seq<Row>, o: OrderId): seq<Message> {
    if rows == [] then [] else
      About(rows[..|rows| - 1], o) +
      (if rows[|rows| - 1].msg.order == o then [rows[|rows| - 1].msg] else [])
  }

  lemma AboutAppend(rows: seq<Row>, m: Message, o: OrderId)
    ensures About(Append(rows, m), o) == About(rows, o) + (if m.order == o then [m] else [])
  {
    assert Append(rows, m)[..|rows|] == rows;
  }

  lemma {:induction false} AboutUpdate(rows: seq<Row>, i: nat, r: Row, o: OrderId)
    requires i < |rows| && r.msg == rows[i].msg
    ensures About(rows[i := r], o) == About(rows, o)
  {
    var n := |rows| - 1;
    if i < n {
      AboutUpdate(rows[..n], i, r, o);
      assert rows[i := r][..n] == rows[..n][i := r];
    } else {
      assert rows[i := r][..n] == rows[..n];
    }
  }

  lemma {:induction false} AboutIsEmitted(rows: seq<Row>, m: Message)
    ensures m in Emitted(rows) <==> m in About(rows, m.order)
  {
    if rows != [] {
      AboutIsEmitted(rows[..|rows| - 1], m);
    }
  }
}
