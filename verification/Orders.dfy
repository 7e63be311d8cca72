/** The order service (order_service/main.py) and the notification service that ends the chain
    (notification_service/main.py). */
module Orders {
  import opened Messages

  datatype OrderStatus = PENDING | CONFIRMED | CANCELLED

  datatype Order = Order(user: string, sku: Sku, qty: int, amount: int, status: OrderStatus)

  datatype OrderDb = OrderDb(orders: seq<Order>, outbox: seq<Row>)

  const EmptyOrderDb := OrderDb([], [])

  function Created(o: OrderId, order: Order): Message {
    OrderCreated(o, order.sku, order.qty, order.user, order.amount)
  }

  function Checkout(db: OrderDb, user: string, sku: Sku, qty: int, amount: int): OrderDb {
    var order := Order(user, sku, qty, amount, PENDING);
    OrderDb(db.orders + [order], Append(db.outbox, Created(|db.orders|, order)))
  }

  // The final status a command sets, without looking at the current one.
  function Handle(db: OrderDb, m: Message): OrderDb {
    if m.order >= |db.orders| then db else
      match m
      case ConfirmOrder(o) =>
        OrderDb(db.orders[o := db.orders[o].(status := CONFIRMED)], Append(db.outbox, OrderConfirmed(o)))
      case CancelOrder(o, reason) =>
        OrderDb(db.orders[o := db.orders[o].(status := CANCELLED)], Append(db.outbox, OrderCancelled(o, reason)))
      case _ => db
  }

  /** A final command sets its status whatever the order's status was, and is answered by one event
      every time; other orders are not touched. A command for an unknown order changes nothing. */
  lemma FinalCommandsAreUnguarded(db: OrderDb, o: OrderId, reason: string)
    ensures var confirmed, cancelled := Handle(db, ConfirmOrder(o)), Handle(db, CancelOrder(o, reason));
            if o >= |db.orders| then confirmed == db && cancelled == db
            else
              && |confirmed.orders| == |db.orders| == |cancelled.orders|
              && confirmed.orders[o] == db.orders[o].(status := CONFIRMED)
              && cancelled.orders[o] == db.orders[o].(status := CANCELLED)
              && (forall p :: 0 <= p < |db.orders| && p != o ==> confirmed.orders[p] == db.orders[p] == cancelled.orders[p])
              && confirmed.outbox == db.outbox + [Row(OrderConfirmed(o), 0, false)]
              && cancelled.outbox == db.outbox + [Row(OrderCancelled(o, reason), 0, false)]
  {
  }

  class OrderDesk {
    var orders: seq<Order>
    var outbox: seq<Row>

    ghost function Db(): OrderDb
      reads this
    {
      OrderDb(orders, outbox)
    }

    constructor ()
      ensures Db() == EmptyOrderDb
    {
      orders, outbox := [], [];
    }

    // checkout: request validation turns non-positive quantities and amounts away.
    method PlaceOrder(user: string, sku: Sku, qty: int, amount: int) returns (id: Option<OrderId>)
      modifies this
      ensures id == if qty > 0 && amount > 0 then Some(|old(orders)|) else None
      ensures Db() == if qty > 0 && amount > 0 then Checkout(old(Db()), user, sku, qty, amount) else old(Db())
    {
      if qty <= 0 || amount <= 0 {
        return None;
      }
      var o := |orders|;
      orders := orders + [Order(user, sku, qty, amount, PENDING)];
      outbox := outbox + [Row(OrderCreated(o, sku, qty, user, amount), 0, false)];
      return Some(o);
    }

    method Consume(m: Message)
      modifies this
      ensures Db() == Handle(old(Db()), m)
    {
      if m.order >= |orders| {
        return;
      }
      var o := m.order;
      var event;
      if m.ConfirmOrder? {
        orders := orders[o := orders[o].(status := CONFIRMED)];
        event := OrderConfirmed(o);
      } else if m.CancelOrder? {
        orders := orders[o := orders[o].(status := CANCELLED)];
        event := OrderCancelled(o, m.reason);
      } else {
        return;
      }
      outbox := outbox + [Row(event, 0, false)];
    }
  }

  // ---- Notifications ----

  datatype NotificationType = ORDER_CONFIRMED | ORDER_CANCELLED

  // The four texts a customer can be sent.
  datatype Text = OnItsWay | PaymentDeclined | SoldOut | OtherReason(reason: string)

  datatype Notification = Notification(order: OrderId, kind: NotificationType, text: Text)

  function FriendlyCancellationMessage(reason: string): Text {
    if "payment_failed" <= reason then PaymentDeclined
    else if "inventory_unavailable" <= reason then SoldOut
    else OtherReason(reason)
  }

  function Notify(notifications: seq<Notification>, m: Message): seq<Notification> {
    match m
    case OrderConfirmed(o) => notifications + [Notification(o, ORDER_CONFIRMED, OnItsWay)]
    case OrderCancelled(o, reason) =>
      notifications + [Notification(o, ORDER_CANCELLED, FriendlyCancellationMessage(reason))]
    case _ => notifications
  }

  class Notifier {
    var notifications: seq<Notification>

    constructor ()
      ensures notifications == []
    {
      notifications := [];
    }

    method Consume(m: Message)
      modifies this
      ensures notifications == Notify(old(notifications), m)
    {
      var text, kind;
      if m.OrderConfirmed? {
        text, kind := OnItsWay, ORDER_CONFIRMED;
      } else if m.OrderCancelled? {
        text, kind := FriendlyCancellationMessage(m.reason), ORDER_CANCELLED;
      } else {
        return;
      }
      notifications := notifications + [Notification(m.order, kind, text)];
    }
  }
}
