/** The payment service's charge path (payment_service/main.py), as one atomic delivery. */
module Payments {
  import opened Messages

  datatype PaymentStatus = SUCCEEDED | FAILED

  datatype GatewayResult = GatewayResult(success: bool, failure: Option<string>)

  datatype Payment = Payment(order: OrderId, user: string, amount: int, status: PaymentStatus, failure: Option<string>)

  // What idempotency:charge:{order_id} holds.
  datatype CachedCharge = CachedCharge(status: PaymentStatus, payment: PaymentId, amount: int, failure: Option<string>)

  datatype PaymentDb = PaymentDb(payments: seq<Payment>, charges: map<OrderId, CachedCharge>, outbox: seq<Row>)

  const EmptyPaymentDb := PaymentDb([], map[], [])

  function EventFromCachedCharge(o: OrderId, cached: CachedCharge): Message {
    if cached.status == SUCCEEDED then PaymentSucceeded(o, cached.payment, cached.amount)
    else PaymentFailed(o, OrUnknown(cached.failure))
  }

  // The cache entry a fresh charge leaves behind.
  function FreshCharge(payments: seq<Payment>, amount: int, result: GatewayResult): CachedCharge {
    CachedCharge(if result.success then SUCCEEDED else FAILED, |payments|, amount, result.failure)
  }

  /** The atomic check-or-charge step: answer from the cache, or charge once and remember. */
  function Charge(db: PaymentDb, o: OrderId, user: string, amount: int, result: GatewayResult): PaymentDb {
    if o in db.charges then
      db.(outbox := Append(db.outbox, EventFromCachedCharge(o, db.charges[o])))
    else
      var charge := FreshCharge(db.payments, amount, result);
      PaymentDb(
        db.payments + [Payment(o, user, amount, charge.status, charge.failure)],
        db.charges[o := charge],
        Append(db.outbox, EventFromCachedCharge(o, charge)))
  }

  /** One delivery; None when the order's lock could not be had in time and the message is requeued. */
  function Handle(db: PaymentDb, m: Message, lockAcquired: bool, result: GatewayResult): Option<PaymentDb> {
    match m
    case ChargePayment(o, user, amount) =>
      if !lockAcquired then None else Some(Charge(db, o, user, amount, result))
    case _ => Some(db)
  }

  // ---- What a delivery leaves behind, spelled out ----

  /** A fresh charge is what the gateway said: one new row, SUCCEEDED exactly when the gateway
      approved, and one event with that row's id and the amount, or with the gateway's reason. */
  lemma FreshChargesFollowTheGateway(db: PaymentDb, o: OrderId, user: string, amount: int, result: GatewayResult)
    requires o !in db.charges
    ensures var done := Handle(db, ChargePayment(o, user, amount), true, result);
            && done.Some?
            && done.value.payments == db.payments
               + [Payment(o, user, amount, if result.success then SUCCEEDED else FAILED, result.failure)]
            && done.value.outbox == db.outbox
               + [Row(if result.success then PaymentSucceeded(o, |db.payments|, amount)
                      else PaymentFailed(o, if result.failure == None || result.failure == Some("") then "unknown" else result.failure.value),
                      0, false)]
            && o in done.value.charges
            && forall p :: p != o ==> (p in done.value.charges <==> p in db.charges)
                                      && (p in db.charges ==> done.value.charges[p] == db.charges[p])
  {
  }

  // One message as the consumer sees it, with what Redis and the gateway would answer.
  datatype Delivery = Delivery(msg: Message, lockAcquired: bool, result: GatewayResult)

  // A handler that raises commits nothing.
  ghost function Deliver(db: PaymentDb, d: Delivery): PaymentDb {
    var done := Handle(db, d.msg, d.lockAcquired, d.result);
    if done.Some? then done.value else db
  }

  ghost function Run(db: PaymentDb, deliveries: seq<Delivery>): PaymentDb {
    if deliveries == [] then db else
      Deliver(Run(db, deliveries[..|deliveries| - 1]), deliveries[|deliveries| - 1])
  }

  lemma {:induction false} ChargesStay(db: PaymentDb, deliveries: seq<Delivery>, o: OrderId)
    requires o in db.charges
    ensures o in Run(db, deliveries).charges && Run(db, deliveries).charges[o] == db.charges[o]
  {
    if deliveries != [] {
      ChargesStay(db, deliveries[..|deliveries| - 1], o);
    }
  }

  /** However much later, and whatever the gateway would say now, every further copy repeats the event
      of the first charge and adds no payment. */
  lemma CopiesRepeatTheFirstCharge(db: PaymentDb, first: Delivery, between: seq<Delivery>, again: Delivery)
    requires first.msg.ChargePayment? && first.lockAcquired && first.msg.order !in db.charges
    requires again.msg.ChargePayment? && again.lockAcquired && again.msg.order == first.msg.order
    ensures var charged := Deliver(db, first);
            var later := Run(charged, between);
            && |charged.outbox| == |db.outbox| + 1
            && Deliver(later, again).outbox == later.outbox + [charged.outbox[|db.outbox|]]
            && Deliver(later, again).payments == later.payments
            && Deliver(later, again).charges == later.charges
  {
    ChargesStay(Deliver(db, first), between, first.msg.order);
  }

  // How many of the first n payment rows belong to an order.
  function PaymentsOf(payments: seq<Payment>, o: OrderId, n: nat): nat
    requires n <= |payments|
  {
    if n == 0 then 0 else PaymentsOf(payments, o, n - 1) + if payments[n - 1].order == o then 1 else 0
  }

  class Cashier {
    var payments: seq<Payment>
    var charges: map<OrderId, CachedCharge>
    var outbox: seq<Row>

    ghost function Db(): PaymentDb
      reads this
    {
      PaymentDb(payments, charges, outbox)
    }

    constructor ()
      ensures Db() == EmptyPaymentDb
    {
      payments, charges, outbox := [], map[], [];
    }

    // _handle_charge, once the lock is held. A fresh charge builds its event from the gateway's
    // result, a repeated one from the cache; both are the event of the cached charge.
    method HandleCharge(o: OrderId, user: string, amount: int, result: GatewayResult)
      modifies this
      ensures Db() == Charge(old(Db()), o, user, amount, result)
    {
      if o in charges {
        var cached := charges[o];
        outbox := outbox + [Row(EventFromCachedCharge(o, cached), 0, false)];
        return;
      }
      var paymentId := |payments|;
      var status := if result.success then SUCCEEDED else FAILED;
      payments := payments + [Payment(o, user, amount, status, result.failure)];
      var event;
      if result.success {
        event := PaymentSucceeded(o, paymentId, amount);
      } else {
        event := PaymentFailed(o, if result.failure.Some? && result.failure.value != "" then result.failure.value else "unknown");
      }
      outbox := outbox + [Row(event, 0, false)];
      charges := charges[o := CachedCharge(status, paymentId, amount, result.failure)];
    }

    method Consume(m: Message, lockAcquired: bool, result: GatewayResult) returns (handled: bool)
      modifies this
      ensures handled <==> m.ChargePayment? ==> lockAcquired
      ensures !handled ==> Db() == old(Db())
      ensures Db() == if handled then Handle(old(Db()), m, lockAcquired, result).value else old(Db())
    {
      match m
      case ChargePayment(o, user, amount) =>
        if !lockAcquired {
          return false;
        }
        HandleCharge(o, user, amount, result);
        return true;
      case _ =>
        return true;
    }
  }
}
