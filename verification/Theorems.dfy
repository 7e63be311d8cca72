/** What the checkout promises its customers, over every reachable state. */
module Theorems {
  import opened Messages
  import Saga
  import Inventory
  import Payments
  import Orders
  import opened System
  import opened Invariance

  // ---- Vocabulary ----

  ghost predicate Quiescent(w: World) {
    && w.queue == multiset{}
    && (forall svc, i :: 0 <= i < |Outbox(w, svc)| ==> Outbox(w, svc)[i].published)
  }

  ghost predicate Pending(w: World, o: OrderId) {
    o < |w.ord.orders| && w.ord.orders[o].status == Orders.PENDING
  }

  ghost predicate IsConfirmed(w: World, o: OrderId) {
    o < |w.ord.orders| && w.ord.orders[o].status == Orders.CONFIRMED
  }

  ghost predicate IsCancelled(w: World, o: OrderId) {
    o < |w.ord.orders| && w.ord.orders[o].status == Orders.CANCELLED
  }

  // A message on its way: in the queue, or in an outbox row that was not sent yet.
  ghost predicate OnItsWay(w: World, m: Message) {
    || m in w.queue
    || exists i :: 0 <= i < |Outbox(w, Producer(m))| && Outbox(w, Producer(m))[i] == Row(m, 0, false)
  }

  // The order's payment rows are exactly one, with this status.
  ghost predicate OnlyPayment(w: World, o: OrderId, status: Payments.PaymentStatus) {
    && (exists i :: 0 <= i < |w.pay.payments| && w.pay.payments[i].order == o && w.pay.payments[i].status == status)
    && (forall i, j | 0 <= i < |w.pay.payments| && 0 <= j < |w.pay.payments| ::
          w.pay.payments[i].order == o && w.pay.payments[j].order == o ==> i == j)
  }

  ghost predicate NoPayment(w: World, o: OrderId, status: Payments.PaymentStatus) {
    forall i :: 0 <= i < |w.pay.payments| && w.pay.payments[i].order == o ==> w.pay.payments[i].status != status
  }

  // ---- No order is stuck ----

  lemma EmittedIsOnItsWayOrDone(w: World, m: Message)
    requires BrokerOk(w) && m in Emitted(Outbox(w, Producer(m))) && !Effect(w, m)
    ensures OnItsWay(w, m)
  {
    var i := EmittedRow(Outbox(w, Producer(m)), m);
    assert RowOk(w, Outbox(w, Producer(m))[i]);
  }

  // The first message of a pending order's chain that has not taken effect.
  lemma PendingChain(w: World, o: OrderId) returns (m: Message)
    requires Agreement(w) && Pending(w, o)
    ensures m.order == o && m in Emitted(Outbox(w, Producer(m))) && !Effect(w, m)
  {
    assert OrderRowOk(w.ord, w.saga, o);
    m := Orders.Created(o, w.ord.orders[o]);
    if Effect(w, m) {
      ScriptDecides(w.saga, o);
      if w.saga.sagas[o].state in {Saga.Confirmed, Saga.Cancelled} {
        m := SettledChain(w, o);
      } else {
        m := OpenChain(w, o);
      }
    }
  }

  lemma SettledChain(w: World, o: OrderId) returns (m: Message)
    requires Agreement(w) && Pending(w, o) && o in w.saga.sagas && ScriptFacts(w.saga, o)
    requires w.saga.sagas[o].state in {Saga.Confirmed, Saga.Cancelled}
    ensures m.order == o && m in Emitted(w.saga.outbox) && !Effect(w, m) && Producer(m) == SagaCoordinator
  {
    if w.saga.sagas[o].state == Saga.Confirmed {
      m := ConfirmOrder(o);
      NoFinalEventYet(w, OrderConfirmed(o));
    } else {
      m := CancelOrder(o, CancelReason(w.saga, o));
      NoFinalEventYet(w, OrderCancelled(o, m.reason));
    }
  }

  // The open command, or its answer.
  lemma OpenChain(w: World, o: OrderId) returns (m: Message)
    requires o in w.saga.sagas && ScriptFacts(w.saga, o)
    requires w.saga.sagas[o].state !in {Saga.Confirmed, Saga.Cancelled}
    ensures m.order == o && m in Emitted(Outbox(w, Producer(m))) && !Effect(w, m)
  {
    var s := w.saga.sagas[o];
    match s.state
    case Reserving =>
      m := ReserveInventory(o, s.sku, s.qty);
      if Effect(w, m) {
        m :| m in Emitted(w.inv.outbox) && m.order == o && (m.InventoryReserved? || m.InventoryReservationFailed?);
      }
    case Charging =>
      m := ChargePayment(o, s.user, s.amount);
      if Effect(w, m) {
        m := Payments.EventFromCachedCharge(o, w.pay.charges[o]);
      }
    case Compensating =>
      m := ReleaseInventory(o, s.sku, s.qty);
      if Effect(w, m) {
        m := InventoryReleased(o, s.sku, s.qty);
      }
  }

  lemma NoFinalEventYet(w: World, event: Message)
    requires Agreement(w) && Pending(w, event.order) && (event.OrderConfirmed? || event.OrderCancelled?)
    ensures event !in Emitted(w.ord.outbox)
  {
    assert event in Emitted(w.ord.outbox) ==> OrderMessageOk(w.ord, w.saga, event);
  }

  /** A PENDING order always has a message on its way whose handling moves it forward: that
      message has not taken effect yet, and every successful handling of it will make it so. */
  lemma PendingOrdersHaveWork(w: World, o: OrderId) returns (m: Message)
    requires Reachable(w) && Pending(w, o)
    ensures m.order == o && OnItsWay(w, m) && !Effect(w, m)
    ensures forall env :: Handle(w, m, env).Some? ==> Effect(Handle(w, m, env).value, m)
  {
    ReachableIsInvariant(w);
    m := PendingChain(w, o);
    EmittedIsOnItsWayOrDone(w, m);
    forall env | Handle(w, m, env).Some?
      ensures Effect(Handle(w, m, env).value, m)
    {
      HandlingHasItsEffect(w, m, env);
    }
  }

  /** When everything has been published and consumed, every order is settled. */
  lemma NoOrderIsStuck(w: World, o: OrderId)
    requires Reachable(w) && Quiescent(w) && o < |w.ord.orders|
    ensures IsConfirmed(w, o) || IsCancelled(w, o)
  {
    if Pending(w, o) {
      var m := PendingOrdersHaveWork(w, o);
      assert false;
    }
  }

  // ---- All or nothing ----

  lemma PaymentsMatchCharges(w: World, o: OrderId)
    requires PaymentsAgreeWithSagas(w.saga, w.pay)
    ensures o in w.pay.charges ==> OnlyPayment(w, o, w.pay.charges[o].status)
    ensures o !in w.pay.charges ==> forall i :: 0 <= i < |w.pay.payments| ==> w.pay.payments[i].order != o
  {
    if o in w.pay.charges {
      assert ChargeOk(w.saga, w.pay, o);
      var i := w.pay.charges[o].payment;
      assert w.pay.payments[i].order == o && w.pay.payments[i].status == w.pay.charges[o].status;
    }
  }

  // What the final status says about stock and money; Stranding says which cancelled orders the
  // last clause is about.
  lemma FinalStatusDecides(w: World, o: OrderId)
    requires Agreement(w)
    ensures IsConfirmed(w, o) ==> o in Holders(w.inv) && OnlyPayment(w, o, Payments.SUCCEEDED)
    ensures IsCancelled(w, o) ==> NoPayment(w, o, Payments.SUCCEEDED)
    ensures IsCancelled(w, o) ==> (o in Holders(w.inv) <==> Holds(w.inv, o) && !ChargeOrdered(w.saga, o))
  {
    PaymentsMatchCharges(w, o);
    if o < |w.ord.orders| && !Pending(w, o) {
      assert OrderRowOk(w.ord, w.saga, o);
      assert Justified(w.saga, w.inv, w.pay, o);
      ScriptDecides(w.saga, o);
      assert o in w.pay.charges ==> ChargeOk(w.saga, w.pay, o);
    }
  }

  /** At quiescence, money and outcome agree: an order is CONFIRMED iff its card was charged. */
  lemma PaidIffConfirmed(w: World, o: OrderId)
    requires Reachable(w) && Quiescent(w) && o < |w.ord.orders|
    ensures IsConfirmed(w, o) <==> OnlyPayment(w, o, Payments.SUCCEEDED)
    ensures IsCancelled(w, o) <==> NoPayment(w, o, Payments.SUCCEEDED)
  {
    NoOrderIsStuck(w, o);
    ReachableIsInvariant(w);
    FinalStatusDecides(w, o);
  }

  // ---- One charge, one outcome ----

  /** In every reachable state there is at most one payment row per order, and every payment event
      ever emitted for an order, fresh or replayed, is the same message. */
  lemma OnePaymentOneOutcome(w: World, i: nat, j: nat, a: Message, b: Message)
    requires Reachable(w)
    requires i < |w.pay.payments| && j < |w.pay.payments|
    requires a in Emitted(w.pay.outbox) && b in Emitted(w.pay.outbox)
    ensures w.pay.payments[i].order == w.pay.payments[j].order ==> i == j
    ensures a.order == b.order ==> a == b
  {
    ReachableIsInvariant(w);
    assert PaymentMessageOk(w.pay, a) && PaymentMessageOk(w.pay, b);
  }

  /** The right customer pays the right price: every payment row is for an existing order, by the
      user and over the amount of that order's checkout. */
  lemma PaymentsAreForTheOrder(w: World, i: nat)
    requires Reachable(w) && i < |w.pay.payments|
    ensures var p := w.pay.payments[i];
            && p.order < |w.ord.orders|
            && p.user == w.ord.orders[p.order].user && p.amount == w.ord.orders[p.order].amount
  {
    ReachableIsInvariant(w);
    var o := w.pay.payments[i].order;
    assert ChargeOk(w.saga, w.pay, o);
    assert OrderRowOk(w.ord, w.saga, o);
  }

  // ---- The ledger ----

  /** All stock commands about an order name that order's SKU and quantity, which is why a lock per
      SKU is enough to guard caches kept per order. */
  lemma StockCommandsCarryTheOrder(w: World, m: Message)
    requires Reachable(w) && m in w.queue && (m.ReserveInventory? || m.ReleaseInventory?)
    ensures m.order < |w.ord.orders|
    ensures m.sku == w.ord.orders[m.order].sku && m.qty == w.ord.orders[m.order].qty
  {
    ReachableIsInvariant(w);
    StockCommandsMatch(w.ord, w.saga, m);
  }

  lemma StockCommandsMatch(ord: Orders.OrderDb, saga: Saga.SagaDb, m: Message)
    requires SagasFollowTheScript(saga) && OrdersAgreeWithSagas(ord, saga)
    requires m in Emitted(saga.outbox) && (m.ReserveInventory? || m.ReleaseInventory?)
    ensures m.order in saga.sagas && m.order < |ord.orders|
    ensures m.sku == ord.orders[m.order].sku == saga.sagas[m.order].sku && m.qty == ord.orders[m.order].qty
    ensures m.ReleaseInventory? ==> ReleaseOrdered(saga, m.order)
  {
    ScriptDecides(saga, m.order);
    assert OrderRowOk(ord, saga, m.order);
  }

  ghost function ConfirmedOrders(orders: seq<Orders.Order>): set<OrderId> {
    set o: OrderId | o < |orders| && orders[o].status == Orders.CONFIRMED
  }

  /** Stock is conserved and never oversold: for every SKU the two columns stay non-negative and
      add up to what was seeded; the reserved column is, to the unit, what the orders holding a
      reservation asked for, and it covers all CONFIRMED orders. */
  lemma NeverOversold(w: World, sku: Sku)
    requires Reachable(w) && sku in w.inv.items
    ensures var item := w.inv.items[sku];
            && sku in w.seeded
            && item.available >= 0 && item.reserved >= 0
            && item.available + item.reserved == w.seeded[sku]
            && item.reserved == QtyOf(w.ord.orders, Holders(w.inv), sku, |w.ord.orders|)
            && 0 <= QtyOf(w.ord.orders, ConfirmedOrders(w.ord.orders), sku, |w.ord.orders|) <= item.reserved
  {
    ReachableIsInvariant(w);
    assert LedgerOk(w.ord.orders, w.inv, w.seeded, sku);
    PositiveQuantities(w);
    forall o | o in ConfirmedOrders(w.ord.orders)
      ensures o in Holders(w.inv)
    {
      assert IsConfirmed(w, o);
      FinalStatusDecides(w, o);
    }
    QtyOfMonotone(w.ord.orders, ConfirmedOrders(w.ord.orders), Holders(w.inv), sku, |w.ord.orders|);
  }

  lemma PositiveQuantities(w: World)
    requires OrdersAgreeWithSagas(w.ord, w.saga)
    ensures forall o :: 0 <= o < |w.ord.orders| ==> w.ord.orders[o].qty > 0
  {
    forall o | 0 <= o < |w.ord.orders|
      ensures w.ord.orders[o].qty > 0
    {
      assert OrderRowOk(w.ord, w.saga, o);
    }
  }

  /** The clamp in release_reservation is never needed: whenever a release is about to move stock,
      the SKU exists and at least that much of it is reserved. */
  lemma ReleaseNeverClamps(w: World, o: OrderId, sku: Sku, qty: int)
    requires Reachable(w) && ReleaseInventory(o, sku, qty) in w.queue && o !in w.inv.released
    ensures sku in w.inv.items && w.inv.items[sku].reserved >= qty
  {
    ReachableIsInvariant(w);
    assert ReleaseInventory(o, sku, qty) in Emitted(w.saga.outbox);
    ReleasesAreCovered(w, o, sku, qty);
  }

  lemma ReleasesAreCovered(w: World, o: OrderId, sku: Sku, qty: int)
    requires Agreement(w) && ReleaseInventory(o, sku, qty) in Emitted(w.saga.outbox) && o !in w.inv.released
    ensures sku in w.inv.items && w.inv.items[sku].reserved >= qty
  {
    StockCommandsMatch(w.ord, w.saga, ReleaseInventory(o, sku, qty));
    ReleaseOrderedMeansHeld(w, o);
    PositiveQuantities(w);
    ReleaseKeepsLedger(w.ord.orders, w.inv, w.seeded, o);
  }

  // ---- Events are never early ----

  lemma NeverEarly(w: World, m: Message)
    requires Inv(w) && m in w.queue && Consumer(m) == SagaCoordinator
    ensures Saga.Rank(Saga.Lookup(w.saga, m.order)) >= Saga.AcceptedAt(m)
  {
    Saga.AppliesExactlyAtItsRank(w.saga, m);
    LifecycleEventsHaveEffects(w, m);
  }

  /** No event reaches the coordinator before its time: a skipped event is one the saga has
      already moved past, so skipping it cannot lose anything. */
  lemma EventsAreNeverEarly(w: World, m: Message)
    requires Reachable(w) && m in w.queue && Consumer(m) == SagaCoordinator
    ensures Saga.Rank(Saga.Lookup(w.saga, m.order)) >= Saga.AcceptedAt(m)
    ensures Saga.Handle(w.saga, m) == w.saga <==> Saga.Rank(Saga.Lookup(w.saga, m.order)) > Saga.AcceptedAt(m)
  {
    ReachableIsInvariant(w);
    Saga.AppliesExactlyAtItsRank(w.saga, m);
    NeverEarly(w, m);
  }

  // ---- Final statuses and notifications ----

  ghost predicate MayTouch(m: Message, o: OrderId) {
    m.order == o && (m.ConfirmOrder? || m.CancelOrder?)
  }

  lemma OnlyFinalCommandsTouchOrders(w: World, m: Message, env: Env, o: OrderId)
    requires Handle(w, m, env).Some? && o < |w.ord.orders| && !MayTouch(m, o)
    ensures var ord' := Handle(w, m, env).value.ord; o < |ord'.orders| && ord'.orders[o] == w.ord.orders[o]
  {
  }

  lemma OnlyDeliveriesTouchOrders(w: World, a: Action, o: OrderId)
    requires Legal(w, a) && o < |w.ord.orders|
    requires a.Deliver? ==> !MayTouch(a.msg, o)
    ensures o < |Next(w, a).ord.orders| && Next(w, a).ord.orders[o] == w.ord.orders[o]
  {
    if a.Deliver? && Handle(w, a.msg, a.env).Some? {
      OnlyFinalCommandsTouchOrders(w, a.msg, a.env, o);
    }
  }

  lemma FinalCommandsRepeatThemselves(w: World, m: Message)
    requires Agreement(w) && m in Emitted(w.saga.outbox) && (m.ConfirmOrder? || m.CancelOrder?)
    ensures IsConfirmed(w, m.order) ==> m.ConfirmOrder?
    ensures IsCancelled(w, m.order) ==> m.CancelOrder?
  {
    ScriptDecides(w.saga, m.order);
    assert m.order < |w.ord.orders| ==> OrderRowOk(w.ord, w.saga, m.order);
  }

  lemma StepsKeepFinalStatus(w: World, a: Action, o: OrderId)
    requires Inv(w) && Legal(w, a)
    ensures IsConfirmed(w, o) ==> IsConfirmed(Next(w, a), o)
    ensures IsCancelled(w, o) ==> IsCancelled(Next(w, a), o)
  {
    if o < |w.ord.orders| {
      if a.Deliver? && MayTouch(a.msg, o) {
        FinalCommandsRepeatThemselves(w, a.msg);
      } else {
        OnlyDeliveriesTouchOrders(w, a, o);
      }
    }
  }

  lemma {:induction false} RunsKeepFinalStatus(w: World, run: seq<Action>, o: OrderId)
    requires Inv(w) && LegalRun(w, run)
    ensures IsConfirmed(w, o) ==> IsConfirmed(Outcome(w, run), o)
    ensures IsCancelled(w, o) ==> IsCancelled(Outcome(w, run), o)
    decreases |run|
  {
    if run != [] {
      StepsKeepFinalStatus(w, run[0], o);
      StepKeepsInvariant(w, run[0]);
      RunsKeepFinalStatus(Next(w, run[0]), run[1..], o);
    }
  }

  /** The order handler writes the status without looking, and still a final status never flips,
      over any further run. */
  lemma FinalStatusNeverFlips(w: World, run: seq<Action>, o: OrderId)
    requires Reachable(w) && LegalRun(w, run)
    ensures IsConfirmed(w, o) ==> IsConfirmed(Outcome(w, run), o)
    ensures IsCancelled(w, o) ==> IsCancelled(Outcome(w, run), o)
  {
    ReachableIsInvariant(w);
    RunsKeepFinalStatus(w, run, o);
  }

  lemma CauseIsTheStockPrefix(reason: string)
    ensures Orders.FriendlyCancellationMessage(Saga.StockCause(reason)) == Orders.SoldOut
  {
    var cause := Saga.StockCause(reason);
    assert cause[..21] == "inventory_unavailable";
    assert cause[0] == 'i' && "payment_failed"[0] == 'p';
  }

  lemma CauseIsThePaymentPrefix(failure: Option<string>)
    ensures Orders.FriendlyCancellationMessage(Saga.PaymentCause(failure)) == Orders.PaymentDeclined
  {
    assert Saga.PaymentCause(failure)[..14] == "payment_failed";
  }

  // The coordinator's last word on an order cancelled before any charge: the rejection it recorded.
  ghost predicate WasRejected(w: World, o: OrderId) {
    && o in w.saga.sagas && w.saga.sagas[o].failure.Some?
    && InventoryReservationFailed(o, w.saga.sagas[o].sku, w.saga.sagas[o].qty, w.saga.sagas[o].failure.value) in Emitted(w.inv.outbox)
  }

  /** Every notification agrees with the order's final status, so a customer never gets two kinds.
      A cancellation tells payment from stock: "declined" exactly when the gateway declined the
      order's only charge, "sold out" exactly when no charge was ever attempted, and then only if a
      reservation was rejected. The fallback text is never sent. Stranding.SoldOutIffFoundShort says
      when "sold out" is true. */
  lemma NotificationsMatchTheOutcome(w: World, n: Orders.Notification)
    requires Reachable(w) && n in w.notes
    ensures n.kind == Orders.ORDER_CONFIRMED <==> IsConfirmed(w, n.order)
    ensures n.kind == Orders.ORDER_CANCELLED <==> IsCancelled(w, n.order)
    ensures n.kind == Orders.ORDER_CANCELLED ==>
              && !n.text.OtherReason?
              && (n.text.PaymentDeclined? <==> OnlyPayment(w, n.order, Payments.FAILED))
              && (n.text.SoldOut? <==> forall i :: 0 <= i < |w.pay.payments| ==> w.pay.payments[i].order != n.order)
    ensures n.text.SoldOut? ==> IsCancelled(w, n.order) && !ChargeOrdered(w.saga, n.order) && WasRejected(w, n.order)
  {
    ReachableIsInvariant(w);
    var o := n.order;
    assert NoteOk(w.ord, n);
    if n.kind == Orders.ORDER_CONFIRMED {
      assert OrderMessageOk(w.ord, w.saga, OrderConfirmed(o));
    } else {
      var reason :| OrderCancelled(o, reason) in Emitted(w.ord.outbox) && n.text == Orders.FriendlyCancellationMessage(reason);
      assert OrderMessageOk(w.ord, w.saga, OrderCancelled(o, reason));
      CancellationsNameTheCause(w, o, reason);
    }
  }

  lemma CancellationsNameTheCause(w: World, o: OrderId, reason: string)
    requires Agreement(w) && CancelOrder(o, reason) in Emitted(w.saga.outbox)
    ensures var text := Orders.FriendlyCancellationMessage(reason);
            && !text.OtherReason?
            && (text.PaymentDeclined? <==> OnlyPayment(w, o, Payments.FAILED))
            && (text.SoldOut? <==> forall i :: 0 <= i < |w.pay.payments| ==> w.pay.payments[i].order != o)
            && (text.SoldOut? ==> !ChargeOrdered(w.saga, o) && WasRejected(w, o))
  {
    assert o in w.pay.charges ==> ChargeOk(w.saga, w.pay, o);
    PaymentsMatchCharges(w, o);
    ScriptDecides(w.saga, o);
    assert Justified(w.saga, w.inv, w.pay, o);
    var s := w.saga.sagas[o];
    if ReleaseOrdered(w.saga, o) {
      CauseIsThePaymentPrefix(s.failure);
    } else {
      CauseIsTheStockPrefix(s.failure.value);
    }
  }

  lemma QuietMeansDone(w: World, m: Message)
    requires BrokerOk(w) && Quiescent(w) && m in Emitted(Outbox(w, Producer(m)))
    ensures Effect(w, m)
  {
    var i := EmittedRow(Outbox(w, Producer(m)), m);
    assert RowOk(w, Outbox(w, Producer(m))[i]);
  }

  lemma FinalEventOf(w: World, o: OrderId) returns (m: Message)
    requires Agreement(w) && o < |w.ord.orders| && !Pending(w, o)
    ensures m.order == o && m in Emitted(w.saga.outbox)
    ensures if IsConfirmed(w, o) then m.ConfirmOrder? else m.CancelOrder?
  {
    assert OrderRowOk(w.ord, w.saga, o);
    ScriptDecides(w.saga, o);
    m := if IsConfirmed(w, o) then ConfirmOrder(o) else CancelOrder(o, CancelReason(w.saga, o));
  }

  /** No customer is left in the dark: when everything has been published and consumed, each order
      has a notification of its final outcome. */
  lemma EveryCustomerIsTold(w: World, o: OrderId) returns (n: Orders.Notification)
    requires Reachable(w) && Quiescent(w) && o < |w.ord.orders|
    ensures n in w.notes && n.order == o
    ensures n.kind == if IsConfirmed(w, o) then Orders.ORDER_CONFIRMED else Orders.ORDER_CANCELLED
  {
    NoOrderIsStuck(w, o);
    ReachableIsInvariant(w);
    var command := FinalEventOf(w, o);
    QuietMeansDone(w, command);
    var event := if command.ConfirmOrder? then OrderConfirmed(o) else OrderCancelled(o, command.reason);
    QuietMeansDone(w, event);
    n :| n in w.notes && n.order == o
         && n.kind == if event.OrderConfirmed? then Orders.ORDER_CONFIRMED else Orders.ORDER_CANCELLED;
  }
}
