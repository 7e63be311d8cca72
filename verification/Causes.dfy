/** Why an order ended as it did: the gateway's first answer decides, and cancellations quote their
    cause. Stated over runs, in terms of what was delivered. */
module Causes {
  import opened Messages
  import Payments
  import Orders
  import opened System
  import opened Invariance
  import opened Theorems
  import opened Stranding

  // The order's ChargePayment is handled under its lock.
  predicate Charges(a: Action, o: OrderId) {
    a.Deliver? && a.msg.ChargePayment? && a.msg.order == o && a.env.attempt.lockAcquired
  }

  // What the gateway would say to the first of them; it is not asked by the others.
  function FirstCharge(run: seq<Action>, o: OrderId): Option<Payments.GatewayResult> {
    if run == [] then None
    else if Charges(run[0], o) then Some(run[0].env.gateway)
    else FirstCharge(run[1..], o)
  }

  // The cached charge says what the gateway said.
  ghost predicate Records(pay: Payments.PaymentDb, o: OrderId, said: Payments.GatewayResult) {
    && o in pay.charges
    && (pay.charges[o].status == Payments.SUCCEEDED <==> said.success)
    && pay.charges[o].failure == said.failure
  }

  lemma OtherStepsSpareThePayments(w: World, a: Action)
    requires Legal(w, a) && !(a.Deliver? && Consumer(a.msg) == PaymentService)
    ensures Next(w, a).pay.charges == w.pay.charges
  {
    if a.Deliver? && Handle(w, a.msg, a.env).Some? {
      OtherServicesSpareThePayments(w, a.msg, a.env);
    }
  }

  lemma OtherServicesSpareThePayments(w: World, m: Message, env: Env)
    requires Handle(w, m, env).Some? && Consumer(m) != PaymentService
    ensures Handle(w, m, env).value.pay == w.pay
  {
  }

  lemma CommandsMoveThePayments(w: World, m: Message, env: Env, acked: bool)
    requires m in w.queue && Consumer(m) == PaymentService
    ensures var handled := Payments.Handle(w.pay, m, env.attempt.lockAcquired, env.gateway);
            Next(w, Deliver(m, env, acked)).pay == if handled.Some? then handled.value else w.pay
  {
  }

  lemma StepCharges(w: World, a: Action, o: OrderId)
    requires Legal(w, a)
    ensures o in w.pay.charges ==> o in Next(w, a).pay.charges && Next(w, a).pay.charges[o] == w.pay.charges[o]
    ensures o !in w.pay.charges ==>
              if Charges(a, o) then Records(Next(w, a).pay, o, a.env.gateway) else o !in Next(w, a).pay.charges
  {
    if a.Deliver? && Consumer(a.msg) == PaymentService {
      CommandsMoveThePayments(w, a.msg, a.env, a.acked);
    } else {
      OtherStepsSpareThePayments(w, a);
    }
  }

  lemma {:induction false} RunCharges(w: World, run: seq<Action>, o: OrderId)
    requires LegalRun(w, run)
    ensures o in w.pay.charges ==> o in Outcome(w, run).pay.charges && Outcome(w, run).pay.charges[o] == w.pay.charges[o]
    ensures o !in w.pay.charges ==>
              match FirstCharge(run, o)
              case None => o !in Outcome(w, run).pay.charges
              case Some(said) => Records(Outcome(w, run).pay, o, said)
    decreases |run|
  {
    if run != [] {
      StepCharges(w, run[0], o);
      RunCharges(Next(w, run[0]), run[1..], o);
    }
  }

  // The gateway's reason, or "unknown".
  function Decline(said: Payments.GatewayResult): string {
    if said.failure == None || said.failure == Some("") then "unknown" else said.failure.value
  }

  // A cancellation of this order was ordered with this reason, and never with another.
  ghost predicate CancelledFor(w: World, o: OrderId, reason: string) {
    && CancelOrder(o, reason) in Emitted(w.saga.outbox)
    && forall r :: CancelOrder(o, r) in Emitted(w.saga.outbox) ==> r == reason
  }

  lemma ChargedMeansOrdered(w: World, o: OrderId)
    requires PaymentsAgreeWithSagas(w.saga, w.pay) && o in w.pay.charges
    ensures ChargeOrdered(w.saga, o)
  {
    assert ChargeOk(w.saga, w.pay, o);
  }

  lemma ConfirmedWasPaid(w: World, o: OrderId)
    requires Agreement(w) && IsConfirmed(w, o)
    ensures o in w.pay.charges && w.pay.charges[o].status == Payments.SUCCEEDED
  {
    assert OrderRowOk(w.ord, w.saga, o);
    assert Justified(w.saga, w.inv, w.pay, o);
  }

  lemma CancelledWasDeclined(w: World, o: OrderId)
    requires Agreement(w) && IsCancelled(w, o) && ChargeOrdered(w.saga, o)
    ensures o in w.pay.charges && w.pay.charges[o].status == Payments.FAILED
    ensures CancelledFor(w, o, "payment_failed:" + OrUnknown(w.pay.charges[o].failure))
  {
    assert OrderRowOk(w.ord, w.saga, o);
    ScriptDecides(w.saga, o);
    assert Justified(w.saga, w.inv, w.pay, o);
  }

  lemma TheRecordDecides(w: World, o: OrderId, said: Option<Payments.GatewayResult>)
    requires Agreement(w) && (said.None? ==> o !in w.pay.charges) && (said.Some? ==> Records(w.pay, o, said.value))
    ensures IsConfirmed(w, o) ==> said.Some? && said.value.success
    ensures IsCancelled(w, o) ==> (said.Some? <==> ChargeOrdered(w.saga, o))
    ensures IsCancelled(w, o) && said.Some? ==>
              !said.value.success && CancelledFor(w, o, "payment_failed:" + Decline(said.value))
  {
    if o in w.pay.charges {
      ChargedMeansOrdered(w, o);
    }
    if IsConfirmed(w, o) {
      ConfirmedWasPaid(w, o);
    } else if IsCancelled(w, o) && ChargeOrdered(w.saga, o) {
      CancelledWasDeclined(w, o);
    }
  }

  /** The gateway decides. After any run a CONFIRMED order is one whose first handled ChargePayment was
      approved. A CANCELLED one was never charged, or its first handled ChargePayment was declined and
      the cancellation quotes the gateway's reason. */
  lemma TheGatewayDecides(run: seq<Action>, o: OrderId)
    requires LegalRun(Start, run)
    ensures var w, said := Outcome(Start, run), FirstCharge(run, o);
            && (IsConfirmed(w, o) ==> said.Some? && said.value.success)
            && (IsCancelled(w, o) ==> (said.Some? <==> ChargeOrdered(w.saga, o)))
            && (IsCancelled(w, o) && said.Some? ==>
                  !said.value.success && CancelledFor(w, o, "payment_failed:" + Decline(said.value)))
  {
    RunIsInvariant(run);
    RunCharges(Start, run, o);
    TheRecordDecides(Outcome(Start, run), o, FirstCharge(run, o));
  }

  // ---- Cancellations quote their cause ----

  lemma DeclineWasEmitted(w: World, o: OrderId)
    requires Agreement(w) && o in w.saga.sagas && Declined(w.pay, o, w.saga.sagas[o].failure)
    ensures w.saga.sagas[o].failure.Some? && PaymentFailed(o, w.saga.sagas[o].failure.value) in Emitted(w.pay.outbox)
  {
    assert ChargeOk(w.saga, w.pay, o);
  }

  /** Every OrderCancelled says why, in words that were really said: the reason of a rejection that the
      inventory service emitted for an order that was never charged, or of a decline that the payment
      service emitted for one that was. */
  lemma CancellationsQuoteTheCause(w: World, o: OrderId, reason: string) returns (said: string)
    requires Reachable(w) && OrderCancelled(o, reason) in Emitted(w.ord.outbox)
    ensures ChargeOrdered(w.saga, o) ==>
              reason == "payment_failed:" + said && PaymentFailed(o, said) in Emitted(w.pay.outbox)
    ensures !ChargeOrdered(w.saga, o) ==>
              && reason == "inventory_unavailable:" + said
              && exists sku, qty :: InventoryReservationFailed(o, sku, qty, said) in Emitted(w.inv.outbox)
  {
    ReachableIsInvariant(w);
    assert OrderMessageOk(w.ord, w.saga, OrderCancelled(o, reason));
    ScriptDecides(w.saga, o);
    assert Justified(w.saga, w.inv, w.pay, o);
    said := w.saga.sagas[o].failure.value;
    if ChargeOrdered(w.saga, o) {
      DeclineWasEmitted(w, o);
    } else {
      assert InventoryReservationFailed(o, w.saga.sagas[o].sku, w.saga.sagas[o].qty, said) in Emitted(w.inv.outbox);
    }
  }
}
