/** The composed checkout protocol: five services, four outboxes and an at-least-once broker.
    Any number of orders, SKUs, copies and steps; messages may be duplicated and reordered at
    will, but a copy leaves the queue only when its handler has succeeded and was acknowledged. */
module System {
  import opened Messages
  import Saga
  import Inventory
  import Payments
  import Orders

  datatype World = World(
    ord: Orders.OrderDb,
    saga: Saga.SagaDb,
    inv: Inventory.InventoryDb,
    pay: Payments.PaymentDb,
    notes: seq<Orders.Notification>,
    queue: multiset<Message>,        // the broker's queues; Consumer(m) says in which one m waits
    seeded: map<Sku, int>)           // history: what was ever put on sale

  const Start := World(Orders.EmptyOrderDb, Saga.EmptySagaDb, Inventory.EmptyInventoryDb,
                       Payments.EmptyPaymentDb, [], multiset{}, map[])

  // What a handler cannot know in advance: Redis' answers and the gateway's.
  datatype Env = Env(attempt: Inventory.Attempt, gateway: Payments.GatewayResult)

  datatype Action =
    | Checkout(user: string, sku: Sku, qty: int, amount: int)
    | Seed(sku: Sku, qty: int)
    | Send(svc: Service, row: nat, copies: nat)     // one publish() of an unpublished row
    | Mark(svc: Service, row: nat)                  // the dispatcher commits published = True
    | Deliver(msg: Message, env: Env, acked: bool)  // the handler runs; an unacked copy comes back
    | Nack(msg: Message)                            // the handler raised before committing
    | Duplicate(msg: Message)                       // the broker redelivers a message it had

  function Outbox(w: World, svc: Service): seq<Row> {
    match svc
    case OrderService => w.ord.outbox
    case SagaCoordinator => w.saga.outbox
    case InventoryService => w.inv.outbox
    case PaymentService => w.pay.outbox
    case NotificationService => []
  }

  function SetOutbox(w: World, svc: Service, rows: seq<Row>): World {
    match svc
    case OrderService => w.(ord := w.ord.(outbox := rows))
    case SagaCoordinator => w.(saga := w.saga.(outbox := rows))
    case InventoryService => w.(inv := w.inv.(outbox := rows))
    case PaymentService => w.(pay := w.pay.(outbox := rows))
    case NotificationService => w
  }

  // A handler as one atomic transaction; None when it raises.
  function Handle(w: World, m: Message, env: Env): Option<World> {
    match Consumer(m)
    case SagaCoordinator => Some(w.(saga := Saga.Handle(w.saga, m)))
    case InventoryService =>
      (match Inventory.Handle(w.inv, m, env.attempt)
       case None => None
       case Some(inv) => Some(w.(inv := inv)))
    case PaymentService =>
      (match Payments.Handle(w.pay, m, env.attempt.lockAcquired, env.gateway)
       case None => None
       case Some(pay) => Some(w.(pay := pay)))
    case OrderService => Some(w.(ord := Orders.Handle(w.ord, m)))
    case NotificationService => Some(w.(notes := Orders.Notify(w.notes, m)))
  }

  ghost predicate WasSent(w: World, m: Message) {
    exists i :: 0 <= i < |Outbox(w, Producer(m))| && Outbox(w, Producer(m))[i].msg == m && Outbox(w, Producer(m))[i].sends > 0
  }

  ghost predicate Legal(w: World, a: Action) {
    match a
    case Checkout(_, _, qty, amount) => qty > 0 && amount > 0
    case Seed(_, qty) => qty > 0
    case Send(svc, i, _) => i < |Outbox(w, svc)| && !Outbox(w, svc)[i].published
    case Mark(svc, i) => i < |Outbox(w, svc)| && Outbox(w, svc)[i].sends > 0
    case Deliver(m, _, _) => m in w.queue
    case Nack(m) => m in w.queue
    case Duplicate(m) => WasSent(w, m)
  }

  ghost function Next(w: World, a: Action): World
    requires Legal(w, a)
  {
    match a
    case Checkout(user, sku, qty, amount) => w.(ord := Orders.Checkout(w.ord, user, sku, qty, amount))
    case Seed(sku, qty) =>
      w.(inv := Inventory.Seed(w.inv, sku, qty),
         seeded := w.seeded[sku := (if sku in w.seeded then w.seeded[sku] else 0) + qty])
    case Send(svc, i, copies) => Sent(w, svc, i, copies)
    case Mark(svc, i) => Marked(w, svc, i)
    case Deliver(m, env, acked) =>
      (match Handle(w, m, env)
       case None => w
       case Some(done) => if acked then done.(queue := w.queue - multiset{m}) else done)
    case Nack(_) => w
    case Duplicate(m) => w.(queue := w.queue + multiset{m})
  }

  // A publishing step replaces one row and the queue, and touches nothing else.
  function Replace(w: World, svc: Service, i: nat, r: Row, q: multiset<Message>): World
    requires i < |Outbox(w, svc)|
  {
    SetOutbox(w, svc, Outbox(w, svc)[i := r]).(queue := q)
  }

  function SendCopies(r: Row, copies: nat): Row {
    r.(sends := r.sends + copies)
  }

  function AddCopies(queue: multiset<Message>, m: Message, copies: nat): multiset<Message> {
    queue[m := queue[m] + copies]
  }

  // The broker has received `copies` more copies of a row's message.
  function Sent(w: World, svc: Service, i: nat, copies: nat): World
    requires i < |Outbox(w, svc)|
  {
    Replace(w, svc, i, SendCopies(Outbox(w, svc)[i], copies), AddCopies(w.queue, Outbox(w, svc)[i].msg, copies))
  }

  function Marked(w: World, svc: Service, i: nat): World
    requires i < |Outbox(w, svc)|
  {
    Replace(w, svc, i, Outbox(w, svc)[i].(published := true), w.queue)
  }

  ghost predicate LegalRun(w: World, run: seq<Action>)
    decreases |run|
  {
    run != [] ==> Legal(w, run[0]) && LegalRun(Next(w, run[0]), run[1..])
  }

  ghost function Outcome(w: World, run: seq<Action>): World
    requires LegalRun(w, run)
    decreases |run|
  {
    if run == [] then w else Outcome(Next(w, run[0]), run[1..])
  }

  ghost predicate Reachable(w: World) {
    exists run :: LegalRun(Start, run) && Outcome(Start, run) == w
  }

  // ---- The invariant, one predicate per pair of services that must agree ----

  ghost predicate SagasFollowTheScript(saga: Saga.SagaDb) {
    forall o: OrderId :: Saga.OnScript(saga, o)
  }

  predicate Carries(order: Orders.Order, row: Saga.SagaRow) {
    row.sku == order.sku && row.qty == order.qty && row.user == order.user && row.amount == order.amount
  }

  ghost predicate OrderMessageOk(ord: Orders.OrderDb, saga: Saga.SagaDb, m: Message) {
    && m.order < |ord.orders|
    && match m
       case OrderCreated(o, _, _, _, _) => m == Orders.Created(o, ord.orders[o])
       case OrderConfirmed(o) => ord.orders[o].status == Orders.CONFIRMED
       case OrderCancelled(o, reason) =>
         ord.orders[o].status == Orders.CANCELLED && CancelOrder(o, reason) in Emitted(saga.outbox)
       case _ => false
  }

  ghost predicate OrderRowOk(ord: Orders.OrderDb, saga: Saga.SagaDb, o: OrderId)
    requires o < |ord.orders|
  {
    var order := ord.orders[o];
    && order.qty > 0 && order.amount > 0
    && Orders.Created(o, order) in Emitted(ord.outbox)
    && (o in saga.sagas ==> Carries(order, saga.sagas[o]))
    && (order.status == Orders.CONFIRMED ==> o in saga.sagas && saga.sagas[o].state == Saga.Confirmed)
    && (order.status == Orders.CANCELLED ==> o in saga.sagas && saga.sagas[o].state == Saga.Cancelled)
  }

  ghost predicate OrdersAgreeWithSagas(ord: Orders.OrderDb, saga: Saga.SagaDb) {
    && (forall o :: o in saga.sagas ==> o < |ord.orders|)
    && (forall o :: 0 <= o < |ord.orders| ==> OrderRowOk(ord, saga, o))
    && (forall m :: m in Emitted(ord.outbox) ==> OrderMessageOk(ord, saga, m))
  }

  ghost predicate Holds(inv: Inventory.InventoryDb, o: OrderId) {
    o in inv.reservations && inv.reservations[o].success
  }

  ghost predicate ReleaseOrdered(saga: Saga.SagaDb, o: OrderId) {
    o in saga.sagas && ReleaseInventory(o, saga.sagas[o].sku, saga.sagas[o].qty) in Emitted(saga.outbox)
  }

  ghost predicate ChargeOrdered(saga: Saga.SagaDb, o: OrderId) {
    o in saga.sagas && ChargePayment(o, saga.sagas[o].user, saga.sagas[o].amount) in Emitted(saga.outbox)
  }

  ghost predicate StockMessageOk(saga: Saga.SagaDb, inv: Inventory.InventoryDb, m: Message) {
    && m.order in saga.sagas
    && match m
       case InventoryReserved(o, sku, qty) =>
         Holds(inv, o) && sku == saga.sagas[o].sku && qty == saga.sagas[o].qty
       case InventoryReservationFailed(o, sku, qty, reason) =>
         && sku == saga.sagas[o].sku && qty == saga.sagas[o].qty
         && (|| Inventory.Transient(reason)
             || (o in inv.reservations && inv.reservations[o] == Inventory.Reservation(false, Some(reason))))
       case InventoryReleased(o, _, _) => o in inv.released
       case _ => false
  }

  ghost predicate StockAgreesWithSagas(saga: Saga.SagaDb, inv: Inventory.InventoryDb) {
    && (forall o :: o in inv.reservations ==>
          && o in saga.sagas
          && (if inv.reservations[o].success then
                && inv.reservations[o].reason.None? && saga.sagas[o].sku in inv.items
                && InventoryReserved(o, saga.sagas[o].sku, saga.sagas[o].qty) in Emitted(inv.outbox)
              else inv.reservations[o].reason.Some? && Inventory.Lasting(inv.reservations[o].reason.value)))
    && (forall o :: o in inv.released ==> Holds(inv, o) && ReleaseOrdered(saga, o))
    && (forall m :: m in Emitted(inv.outbox) ==> StockMessageOk(saga, inv, m))
  }

  ghost predicate PaymentMessageOk(pay: Payments.PaymentDb, m: Message) {
    m.order in pay.charges && m == Payments.EventFromCachedCharge(m.order, pay.charges[m.order])
  }

  ghost predicate ChargeOk(saga: Saga.SagaDb, pay: Payments.PaymentDb, o: OrderId)
    requires o in pay.charges
  {
    var c := pay.charges[o];
    && ChargeOrdered(saga, o)
    && c.payment < |pay.payments|
    && c.amount == saga.sagas[o].amount
    && Payments.EventFromCachedCharge(o, c) in Emitted(pay.outbox)
    && pay.payments[c.payment] == Payments.Payment(o, saga.sagas[o].user, c.amount, c.status, c.failure)
  }

  ghost predicate PaymentsAgreeWithSagas(saga: Saga.SagaDb, pay: Payments.PaymentDb) {
    && (forall o :: o in pay.charges ==> ChargeOk(saga, pay, o))
    && (forall i :: 0 <= i < |pay.payments| ==>
          pay.payments[i].order in pay.charges && pay.charges[pay.payments[i].order].payment == i)
    && (forall m :: m in Emitted(pay.outbox) ==> PaymentMessageOk(pay, m))
  }

  ghost predicate Paid(pay: Payments.PaymentDb, o: OrderId) {
    o in pay.charges && pay.charges[o].status == Payments.SUCCEEDED
  }

  ghost predicate Declined(pay: Payments.PaymentDb, o: OrderId, reason: Option<string>) {
    && o in pay.charges && pay.charges[o].status == Payments.FAILED
    && reason == Some(OrUnknown(pay.charges[o].failure))
  }

  // Why a saga is where it is, in terms of what the other services really did.
  ghost predicate Justified(saga: Saga.SagaDb, inv: Inventory.InventoryDb, pay: Payments.PaymentDb, o: OrderId)
    requires o in saga.sagas
  {
    var s := saga.sagas[o];
    match s.state
    case Reserving => true
    case Charging => Holds(inv, o)
    case Confirmed => Holds(inv, o) && Paid(pay, o) && s.payment == Some(pay.charges[o].payment)
    case Compensating => Holds(inv, o) && Declined(pay, o, s.failure)
    case Cancelled =>
      if ReleaseOrdered(saga, o) then Declined(pay, o, s.failure) && o in inv.released
      else s.failure.Some? && InventoryReservationFailed(o, s.sku, s.qty, s.failure.value) in Emitted(inv.outbox)
  }

  ghost predicate SagasAreJustified(saga: Saga.SagaDb, inv: Inventory.InventoryDb, pay: Payments.PaymentDb) {
    forall o :: o in saga.sagas ==> Justified(saga, inv, pay, o)
  }

  ghost predicate NoteOk(ord: Orders.OrderDb, n: Orders.Notification) {
    match n.kind
    case ORDER_CONFIRMED => OrderConfirmed(n.order) in Emitted(ord.outbox) && n.text == Orders.OnItsWay
    case ORDER_CANCELLED =>
      exists reason :: OrderCancelled(n.order, reason) in Emitted(ord.outbox)
                       && n.text == Orders.FriendlyCancellationMessage(reason)
  }

  ghost predicate NotesAgreeWithOrders(ord: Orders.OrderDb, notes: seq<Orders.Notification>) {
    forall n :: n in notes ==> NoteOk(ord, n)
  }

  // Orders whose stock is set aside: reserved, and not given back.
  ghost function Holders(inv: Inventory.InventoryDb): set<OrderId> {
    (set o | o in inv.reservations && inv.reservations[o].success) - inv.released
  }

  // The quantity of a SKU in the orders of a set, over the first n orders.
  ghost function QtyOf(orders: seq<Orders.Order>, who: set<OrderId>, sku: Sku, n: nat): int
    requires n <= |orders|
  {
    if n == 0 then 0 else
      QtyOf(orders, who, sku, n - 1) +
      (if n - 1 in who && orders[n - 1].sku == sku then orders[n - 1].qty else 0)
  }

  ghost predicate LedgerOk(orders: seq<Orders.Order>, inv: Inventory.InventoryDb, seeded: map<Sku, int>, sku: Sku)
    requires sku in inv.items
  {
    var item := inv.items[sku];
    && sku in seeded
    && item.available >= 0
    && item.available + item.reserved == seeded[sku]
    && item.reserved == QtyOf(orders, Holders(inv), sku, |orders|)
  }

  ghost predicate LedgerBalances(orders: seq<Orders.Order>, inv: Inventory.InventoryDb, seeded: map<Sku, int>) {
    && inv.items.Keys == seeded.Keys
    && (forall sku :: sku in inv.items ==> LedgerOk(orders, inv, seeded, sku))
  }

  ghost predicate QueueIsGenuine(w: World) {
    forall m :: m in w.queue ==> m in Emitted(Outbox(w, Producer(m)))
  }

  ghost predicate Answered(rows: seq<Row>, o: OrderId) {
    exists m :: m in Emitted(rows) && m.order == o && (m.InventoryReserved? || m.InventoryReservationFailed?)
  }

  // What handling a message brings about, and nothing takes back.
  ghost predicate Effect(w: World, m: Message) {
    var o := m.order;
    match m
    case OrderCreated(_, _, _, _, _) => o in w.saga.sagas
    case InventoryReserved(_, _, _) => Saga.Rank(Saga.Lookup(w.saga, o)) > 1
    case InventoryReservationFailed(_, _, _, _) => Saga.Rank(Saga.Lookup(w.saga, o)) > 1
    case PaymentSucceeded(_, _, _) => Saga.Rank(Saga.Lookup(w.saga, o)) > 2
    case PaymentFailed(_, _) => Saga.Rank(Saga.Lookup(w.saga, o)) > 2
    case InventoryReleased(_, _, _) => Saga.Rank(Saga.Lookup(w.saga, o)) > 3
    case ReserveInventory(_, _, _) => Answered(w.inv.outbox, o)
    case ReleaseInventory(_, sku, qty) => InventoryReleased(o, sku, qty) in Emitted(w.inv.outbox)
    case ChargePayment(_, _, _) =>
      o in w.pay.charges && Payments.EventFromCachedCharge(o, w.pay.charges[o]) in Emitted(w.pay.outbox)
    case ConfirmOrder(_) => OrderConfirmed(o) in Emitted(w.ord.outbox)
    case CancelOrder(_, reason) => OrderCancelled(o, reason) in Emitted(w.ord.outbox)
    case OrderConfirmed(_) => exists n :: n in w.notes && n.order == o && n.kind == Orders.ORDER_CONFIRMED
    case OrderCancelled(_, _) => exists n :: n in w.notes && n.order == o && n.kind == Orders.ORDER_CANCELLED
  }

  ghost predicate RowOk(w: World, r: Row) {
    && (r.published ==> r.sends > 0)
    && (r.sends > 0 ==> r.msg in w.queue || Effect(w, r.msg))
  }

  ghost predicate NothingIsLost(w: World) {
    forall svc, i :: 0 <= i < |Outbox(w, svc)| ==> RowOk(w, Outbox(w, svc)[i])
  }

  ghost predicate Agreement(w: World) {
    && SagasFollowTheScript(w.saga)
    && OrdersAgreeWithSagas(w.ord, w.saga)
    && StockAgreesWithSagas(w.saga, w.inv)
    && PaymentsAgreeWithSagas(w.saga, w.pay)
    && SagasAreJustified(w.saga, w.inv, w.pay)
    && NotesAgreeWithOrders(w.ord, w.notes)
    && LedgerBalances(w.ord.orders, w.inv, w.seeded)
  }

  ghost predicate BrokerOk(w: World) {
    NothingIsLost(w) && QueueIsGenuine(w)
  }

  ghost predicate Inv(w: World) {
    Agreement(w) && BrokerOk(w)
  }

  // ---- What the command script says about single messages ----

  ghost predicate ScriptFacts(saga: Saga.SagaDb, o: OrderId) {
    if o !in saga.sagas then
      forall m :: m in Emitted(saga.outbox) ==> m.order != o
    else
      var s := saga.sagas[o];
      && (forall m :: m in Emitted(saga.outbox) && m.order == o ==>
            match m
            case ReserveInventory(_, sku, qty) => sku == s.sku && qty == s.qty
            case ChargePayment(_, user, amount) => user == s.user && amount == s.amount
            case ReleaseInventory(_, sku, qty) => sku == s.sku && qty == s.qty
            case ConfirmOrder(_) => s.state == Saga.Confirmed
            case CancelOrder(_, reason) => s.state == Saga.Cancelled && reason == CancelReason(saga, o)
            case _ => false)
      && ReserveInventory(o, s.sku, s.qty) in Emitted(saga.outbox)
      && (ChargeOrdered(saga, o) <==> s.state !in {Saga.Reserving, Saga.Cancelled} || ReleaseOrdered(saga, o))
      && (ReleaseOrdered(saga, o) ==> s.state in {Saga.Compensating, Saga.Cancelled})
      && (s.state == Saga.Compensating ==> ReleaseOrdered(saga, o))
      && (s.state == Saga.Confirmed ==> ConfirmOrder(o) in Emitted(saga.outbox))
      && (s.state == Saga.Cancelled ==> CancelOrder(o, CancelReason(saga, o)) in Emitted(saga.outbox))
  }

  ghost function CancelReason(saga: Saga.SagaDb, o: OrderId): string
    requires o in saga.sagas
  {
    if ReleaseOrdered(saga, o) || saga.sagas[o].failure.None? then Saga.PaymentCause(saga.sagas[o].failure)
    else Saga.StockCause(saga.sagas[o].failure.value)
  }

  lemma EmittedIsAbout(rows: seq<Row>, o: OrderId)
    ensures forall m: Message :: m.order == o ==> (m in Emitted(rows) <==> m in About(rows, o))
  {
    forall m: Message | m.order == o
      ensures m in Emitted(rows) <==> m in About(rows, o)
    {
      AboutIsEmitted(rows, m);
    }
  }

  lemma CancelledScriptDecides(saga: Saga.SagaDb, o: OrderId)
    requires Saga.OnScript(saga, o) && o in saga.sagas && saga.sagas[o].state == Saga.Cancelled
    ensures ScriptFacts(saga, o)
  {
    EmittedIsAbout(saga.outbox, o);
    var s := saga.sagas[o];
    var reserve := ReserveInventory(o, s.sku, s.qty);
    var charge := ChargePayment(o, s.user, s.amount);
    var release := ReleaseInventory(o, s.sku, s.qty);
    var cancel := CancelOrder(o, CancelReason(saga, o));
    if About(saga.outbox, o) == [reserve, charge, release, CancelOrder(o, Saga.PaymentCause(s.failure))] {
      assert release in About(saga.outbox, o);
      assert About(saga.outbox, o) == [reserve, charge, release, cancel];
    } else {
      assert release !in About(saga.outbox, o);
      assert About(saga.outbox, o) == [reserve, cancel];
    }
  }

  lemma ScriptDecides(saga: Saga.SagaDb, o: OrderId)
    requires Saga.OnScript(saga, o)
    ensures ScriptFacts(saga, o)
  {
    EmittedIsAbout(saga.outbox, o);
    if o in saga.sagas {
      var s := saga.sagas[o];
      var reserve := ReserveInventory(o, s.sku, s.qty);
      var charge := ChargePayment(o, s.user, s.amount);
      match s.state
      case Reserving =>
        assert About(saga.outbox, o) == [reserve];
      case Charging =>
        assert About(saga.outbox, o) == [reserve, charge];
      case Confirmed =>
        assert About(saga.outbox, o) == [reserve, charge, ConfirmOrder(o)];
      case Compensating =>
        assert About(saga.outbox, o) == [reserve, charge, ReleaseInventory(o, s.sku, s.qty)];
      case Cancelled =>
        CancelledScriptDecides(saga, o);
    }
  }
}
