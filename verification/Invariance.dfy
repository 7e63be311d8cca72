/** Every step keeps the invariant of the composed protocol, handler by handler. */
module Invariance {
  import opened Messages
  import Saga
  import Inventory
  import Payments
  import Orders
  import opened System

  // ---- Growth: what no step ever takes back ----

  ghost predicate SagaGrows(a: Saga.SagaDb, b: Saga.SagaDb) {
    && Emitted(a.outbox) <= Emitted(b.outbox)
    && (forall o :: o in a.sagas ==>
          && o in b.sagas
          && b.sagas[o].sku == a.sagas[o].sku && b.sagas[o].qty == a.sagas[o].qty
          && b.sagas[o].user == a.sagas[o].user && b.sagas[o].amount == a.sagas[o].amount
          && Saga.Rank(Saga.Lookup(a, o)) <= Saga.Rank(Saga.Lookup(b, o))
          && (a.sagas[o].state in {Saga.Confirmed, Saga.Cancelled} ==> b.sagas[o] == a.sagas[o]))
  }

  lemma HandleGrows(saga: Saga.SagaDb, m: Message)
    ensures SagaGrows(saga, Saga.Handle(saga, m))
  {
    var reaction := Saga.React(Saga.Lookup(saga, m.order), m);
    if reaction.Some? {
      EmittedAppend(saga.outbox, reaction.value.1);
    }
  }

  lemma StockAgreementSurvives(saga: Saga.SagaDb, saga': Saga.SagaDb, inv: Inventory.InventoryDb)
    requires StockAgreesWithSagas(saga, inv) && SagaGrows(saga, saga')
    ensures StockAgreesWithSagas(saga', inv)
  {
    forall m | m in Emitted(inv.outbox)
      ensures StockMessageOk(saga', inv, m)
    {
      assert StockMessageOk(saga, inv, m);
    }
  }

  lemma PaymentAgreementSurvives(saga: Saga.SagaDb, saga': Saga.SagaDb, pay: Payments.PaymentDb)
    requires PaymentsAgreeWithSagas(saga, pay) && SagaGrows(saga, saga')
    ensures PaymentsAgreeWithSagas(saga', pay)
  {
    forall o | o in pay.charges
      ensures ChargeOk(saga', pay, o)
    {
      assert ChargeOk(saga, pay, o);
    }
  }

  // ---- Deliveries to the saga coordinator ----

  lemma SagaKeepsOrders(ord: Orders.OrderDb, saga: Saga.SagaDb, m: Message)
    requires OrdersAgreeWithSagas(ord, saga)
    requires m.OrderCreated? ==> m in Emitted(ord.outbox)
    ensures OrdersAgreeWithSagas(ord, Saga.Handle(saga, m))
  {
    var saga' := Saga.Handle(saga, m);
    HandleGrows(saga, m);
    assert m.OrderCreated? ==> OrderMessageOk(ord, saga, m);
    forall o | 0 <= o < |ord.orders|
      ensures OrderRowOk(ord, saga', o)
    {
      assert OrderRowOk(ord, saga, o);
    }
    forall n | n in Emitted(ord.outbox)
      ensures OrderMessageOk(ord, saga', n)
    {
      assert OrderMessageOk(ord, saga, n);
    }
  }

  lemma SagaKeepsOthersJustified(saga: Saga.SagaDb, inv: Inventory.InventoryDb, pay: Payments.PaymentDb, m: Message, o: OrderId)
    requires o in saga.sagas && Justified(saga, inv, pay, o) && o != m.order
    ensures o in Saga.Handle(saga, m).sagas && Justified(Saga.Handle(saga, m), inv, pay, o)
  {
    var reaction := Saga.React(Saga.Lookup(saga, m.order), m);
    if reaction.Some? {
      EmittedAppend(saga.outbox, reaction.value.1);
      assert ReleaseOrdered(Saga.Handle(saga, m), o) <==> ReleaseOrdered(saga, o);
    }
  }

  lemma StockEventKeepsJustified(saga: Saga.SagaDb, inv: Inventory.InventoryDb, pay: Payments.PaymentDb, m: Message)
    requires ScriptFacts(saga, m.order) && StockMessageOk(saga, inv, m) && m in Emitted(inv.outbox)
    requires Justified(saga, inv, pay, m.order)
    ensures Justified(Saga.Handle(saga, m), inv, pay, m.order)
  {
    var reaction := Saga.React(Saga.Lookup(saga, m.order), m);
    if reaction.Some? {
      EmittedAppend(saga.outbox, reaction.value.1);
      assert ReleaseOrdered(Saga.Handle(saga, m), m.order) <==> ReleaseOrdered(saga, m.order);
    }
  }

  lemma PaymentEventKeepsJustified(saga: Saga.SagaDb, inv: Inventory.InventoryDb, pay: Payments.PaymentDb, m: Message)
    requires m.order in saga.sagas && PaymentMessageOk(pay, m)
    requires Justified(saga, inv, pay, m.order)
    ensures Justified(Saga.Handle(saga, m), inv, pay, m.order)
  {
  }

  lemma SagaKeepsOwnJustified(w: World, m: Message)
    requires Agreement(w) && m in Emitted(Outbox(w, Producer(m)))
    requires m.order in Saga.Handle(w.saga, m).sagas
    ensures Justified(Saga.Handle(w.saga, m), w.inv, w.pay, m.order)
  {
    ScriptDecides(w.saga, m.order);
    if Producer(m) == InventoryService {
      assert StockMessageOk(w.saga, w.inv, m);
      StockEventKeepsJustified(w.saga, w.inv, w.pay, m);
    } else if Producer(m) == PaymentService {
      assert PaymentMessageOk(w.pay, m);
      assert ChargeOk(w.saga, w.pay, m.order);
      PaymentEventKeepsJustified(w.saga, w.inv, w.pay, m);
    }
  }

  lemma SagaDeliveryKeepsAgreement(w: World, m: Message)
    requires Agreement(w) && m in Emitted(Outbox(w, Producer(m)))
    ensures Agreement(w.(saga := Saga.Handle(w.saga, m)))
  {
    var saga' := Saga.Handle(w.saga, m);
    HandleGrows(w.saga, m);
    forall o: OrderId
      ensures Saga.OnScript(saga', o)
    {
      Saga.HandleKeepsScript(w.saga, m, o);
    }
    SagaKeepsOrders(w.ord, w.saga, m);
    StockAgreementSurvives(w.saga, saga', w.inv);
    PaymentAgreementSurvives(w.saga, saga', w.pay);
    forall o | o in saga'.sagas
      ensures Justified(saga', w.inv, w.pay, o)
    {
      if o == m.order {
        SagaKeepsOwnJustified(w, m);
      } else {
        SagaKeepsOthersJustified(w.saga, w.inv, w.pay, m, o);
      }
    }
  }

  // ---- The ledger ----

  lemma {:induction false} QtyOfSame(a: seq<Orders.Order>, b: seq<Orders.Order>, s: set<OrderId>, t: set<OrderId>, sku: Sku, n: nat)
    requires n <= |a| && n <= |b|
    requires forall i :: 0 <= i < n ==> a[i].sku == b[i].sku && a[i].qty == b[i].qty
    requires forall i :: 0 <= i < n && a[i].sku == sku ==> (i in s <==> i in t)
    ensures QtyOf(a, s, sku, n) == QtyOf(b, t, sku, n)
  {
    if n > 0 {
      QtyOfSame(a, b, s, t, sku, n - 1);
    }
  }

  lemma {:induction false} QtyOfJoin(orders: seq<Orders.Order>, s: set<OrderId>, o: OrderId, n: nat)
    requires o < n <= |orders| && o !in s
    ensures QtyOf(orders, s + {o}, orders[o].sku, n) == QtyOf(orders, s, orders[o].sku, n) + orders[o].qty
  {
    if n - 1 == o {
      QtyOfSame(orders, orders, s + {o}, s, orders[o].sku, n - 1);
    } else {
      QtyOfJoin(orders, s, o, n - 1);
    }
  }

  // Quantities are positive, so more orders never weigh less.
  lemma {:induction false} QtyOfMonotone(orders: seq<Orders.Order>, s: set<OrderId>, t: set<OrderId>, sku: Sku, n: nat)
    requires n <= |orders|
    requires forall i :: 0 <= i < n ==> orders[i].qty > 0
    requires forall i :: 0 <= i < n && i in s && orders[i].sku == sku ==> i in t
    ensures 0 <= QtyOf(orders, s, sku, n) <= QtyOf(orders, t, sku, n)
  {
    if n > 0 {
      QtyOfMonotone(orders, s, t, sku, n - 1);
    }
  }

  lemma ReserveKeepsLedger(orders: seq<Orders.Order>, inv: Inventory.InventoryDb, seeded: map<Sku, int>, o: OrderId, attempt: Inventory.Attempt)
    requires LedgerBalances(orders, inv, seeded) && o < |orders|
    requires o in inv.released ==> Holds(inv, o)
    ensures LedgerBalances(orders, Inventory.Reserve(inv, o, orders[o].sku, orders[o].qty, attempt), seeded)
  {
    var sku, qty := orders[o].sku, orders[o].qty;
    var inv' := Inventory.Reserve(inv, o, sku, qty, attempt);
    if Inventory.Decisive(inv, o, attempt) {
      var taken := inv'.reservations[o].success;
      assert Holders(inv') == if taken then Holders(inv) + {o} else Holders(inv);
      forall k | k in inv'.items
        ensures LedgerOk(orders, inv', seeded, k)
      {
        assert LedgerOk(orders, inv, seeded, k);
        if taken && k == sku {
          QtyOfJoin(orders, Holders(inv), o, |orders|);
        } else {
          QtyOfSame(orders, orders, Holders(inv), Holders(inv'), k, |orders|);
        }
      }
    }
  }

  lemma ReleaseKeepsLedger(orders: seq<Orders.Order>, inv: Inventory.InventoryDb, seeded: map<Sku, int>, o: OrderId)
    requires LedgerBalances(orders, inv, seeded) && o < |orders|
    requires forall i :: 0 <= i < |orders| ==> orders[i].qty > 0
    requires Holds(inv, o)
    ensures LedgerBalances(orders, Inventory.Release(inv, o, orders[o].sku, orders[o].qty), seeded)
    // the clamp to zero never bites
    ensures o !in inv.released && orders[o].sku in inv.items ==> inv.items[orders[o].sku].reserved >= orders[o].qty
  {
    var sku, qty := orders[o].sku, orders[o].qty;
    var inv' := Inventory.Release(inv, o, sku, qty);
    if o !in inv.released && sku in inv.items {
      assert Holders(inv) == Holders(inv') + {o};
      assert LedgerOk(orders, inv, seeded, sku);
      QtyOfJoin(orders, Holders(inv'), o, |orders|);
      QtyOfMonotone(orders, Holders(inv'), Holders(inv'), sku, |orders|);
      forall k | k in inv'.items
        ensures LedgerOk(orders, inv', seeded, k)
      {
        assert LedgerOk(orders, inv, seeded, k);
        if k != sku {
          QtyOfSame(orders, orders, Holders(inv), Holders(inv'), k, |orders|);
        }
      }
    }
  }

  // ---- Deliveries to the inventory service ----

  ghost predicate StockGrows(a: Inventory.InventoryDb, b: Inventory.InventoryDb) {
    && Emitted(a.outbox) <= Emitted(b.outbox)
    && a.released <= b.released
    && a.items.Keys <= b.items.Keys
    && (forall o :: o in a.reservations ==> o in b.reservations && b.reservations[o] == a.reservations[o])
  }

  lemma InventoryHandleGrows(inv: Inventory.InventoryDb, m: Message, attempt: Inventory.Attempt)
    requires Inventory.Handle(inv, m, attempt).Some?
    ensures StockGrows(inv, Inventory.Handle(inv, m, attempt).value)
  {
    var inv' := Inventory.Handle(inv, m, attempt).value;
    if inv'.outbox != inv.outbox {
      EmittedAppend(inv.outbox, inv'.outbox[|inv'.outbox| - 1].msg);
    }
  }

  lemma JustificationSurvivesStock(saga: Saga.SagaDb, inv: Inventory.InventoryDb, inv': Inventory.InventoryDb, pay: Payments.PaymentDb)
    requires SagasAreJustified(saga, inv, pay) && StockGrows(inv, inv')
    ensures SagasAreJustified(saga, inv', pay)
  {
    forall o | o in saga.sagas
      ensures Justified(saga, inv', pay, o)
    {
      assert Justified(saga, inv, pay, o);
    }
  }

  lemma ReserveKeepsStock(saga: Saga.SagaDb, inv: Inventory.InventoryDb, o: OrderId, attempt: Inventory.Attempt)
    requires StockAgreesWithSagas(saga, inv) && o in saga.sagas
    ensures StockAgreesWithSagas(saga,
      Inventory.Handle(inv, ReserveInventory(o, saga.sagas[o].sku, saga.sagas[o].qty), attempt).value)
  {
    var sku, qty := saga.sagas[o].sku, saga.sagas[o].qty;
    var m := ReserveInventory(o, sku, qty);
    var inv' := Inventory.Handle(inv, m, attempt).value;
    var answer := Inventory.Answer(inv, o, sku, qty, attempt);
    var event := Inventory.ReservationEvent(o, sku, qty, answer);
    EmittedAppend(inv.outbox, event);
    assert StockMessageOk(saga, inv', event);
    forall n | n in Emitted(inv'.outbox)
      ensures StockMessageOk(saga, inv', n)
    {
      if n != event {
        assert StockMessageOk(saga, inv, n);
      }
    }
  }

  lemma ReleaseKeepsStock(saga: Saga.SagaDb, inv: Inventory.InventoryDb, o: OrderId, attempt: Inventory.Attempt)
    requires StockAgreesWithSagas(saga, inv) && ReleaseOrdered(saga, o) && Holds(inv, o) && attempt.lockAcquired
    ensures StockAgreesWithSagas(saga,
      Inventory.Handle(inv, ReleaseInventory(o, saga.sagas[o].sku, saga.sagas[o].qty), attempt).value)
  {
    var sku, qty := saga.sagas[o].sku, saga.sagas[o].qty;
    var m := ReleaseInventory(o, sku, qty);
    var inv' := Inventory.Handle(inv, m, attempt).value;
    var event := InventoryReleased(o, sku, qty);
    EmittedAppend(inv.outbox, event);
    forall n | n in Emitted(inv'.outbox)
      ensures StockMessageOk(saga, inv', n)
    {
      if n != event {
        assert StockMessageOk(saga, inv, n);
      }
    }
  }

  // An order whose release was ordered had its stock reserved.
  lemma ReleaseOrderedMeansHeld(w: World, o: OrderId)
    requires Agreement(w) && ReleaseOrdered(w.saga, o)
    ensures Holds(w.inv, o)
  {
    ScriptDecides(w.saga, o);
    assert Justified(w.saga, w.inv, w.pay, o);
  }

  lemma InventoryDeliveryKeepsAgreement(w: World, m: Message, env: Env)
    requires Agreement(w) && m in Emitted(w.saga.outbox)
    requires Consumer(m) == InventoryService && Handle(w, m, env).Some?
    ensures Agreement(Handle(w, m, env).value)
  {
    var o := m.order;
    ScriptDecides(w.saga, o);
    var row := w.saga.sagas[o];
    assert OrderRowOk(w.ord, w.saga, o);
    InventoryHandleGrows(w.inv, m, env.attempt);
    JustificationSurvivesStock(w.saga, w.inv, Handle(w, m, env).value.inv, w.pay);
    if m.ReserveInventory? {
      ReserveKeepsStock(w.saga, w.inv, o, env.attempt);
      ReserveKeepsLedger(w.ord.orders, w.inv, w.seeded, o, env.attempt);
      LedgerIgnoresOutbox(w.ord.orders, Inventory.Reserve(w.inv, o, row.sku, row.qty, env.attempt), w.seeded, Handle(w, m, env).value.inv);
    } else {
      ReleaseOrderedMeansHeld(w, o);
      ReleaseKeepsStock(w.saga, w.inv, o, env.attempt);
      forall i | 0 <= i < |w.ord.orders|
        ensures w.ord.orders[i].qty > 0
      {
        assert OrderRowOk(w.ord, w.saga, i);
      }
      ReleaseKeepsLedger(w.ord.orders, w.inv, w.seeded, o);
      LedgerIgnoresOutbox(w.ord.orders, Inventory.Release(w.inv, o, row.sku, row.qty), w.seeded, Handle(w, m, env).value.inv);
    }
  }

  lemma LedgerIgnoresOutbox(orders: seq<Orders.Order>, inv: Inventory.InventoryDb, seeded: map<Sku, int>, inv': Inventory.InventoryDb)
    requires LedgerBalances(orders, inv, seeded) && inv' == inv.(outbox := inv'.outbox)
    ensures LedgerBalances(orders, inv', seeded)
  {
    assert Holders(inv') == Holders(inv);
    forall k | k in inv'.items
      ensures LedgerOk(orders, inv', seeded, k)
    {
      assert LedgerOk(orders, inv, seeded, k);
    }
  }

  // ---- Deliveries to the payment service ----

  ghost predicate PaymentsGrow(a: Payments.PaymentDb, b: Payments.PaymentDb) {
    && Emitted(a.outbox) <= Emitted(b.outbox)
    && (forall o :: o in a.charges ==> o in b.charges && b.charges[o] == a.charges[o])
  }

  lemma PaymentHandleGrows(pay: Payments.PaymentDb, m: Message, lockAcquired: bool, result: Payments.GatewayResult)
    requires Payments.Handle(pay, m, lockAcquired, result).Some?
    ensures PaymentsGrow(pay, Payments.Handle(pay, m, lockAcquired, result).value)
  {
    var pay' := Payments.Handle(pay, m, lockAcquired, result).value;
    if m.ChargePayment? {
      EmittedAppend(pay.outbox, pay'.outbox[|pay'.outbox| - 1].msg);
    }
  }

  lemma ChargeKeepsCharges(saga: Saga.SagaDb, pay: Payments.PaymentDb, o: OrderId, result: Payments.GatewayResult, p: OrderId)
    requires PaymentsAgreeWithSagas(saga, pay) && ChargeOrdered(saga, o)
    requires p in Payments.Charge(pay, o, saga.sagas[o].user, saga.sagas[o].amount, result).charges
    ensures ChargeOk(saga, Payments.Charge(pay, o, saga.sagas[o].user, saga.sagas[o].amount, result), p)
  {
    var pay' := Payments.Charge(pay, o, saga.sagas[o].user, saga.sagas[o].amount, result);
    EmittedAppend(pay.outbox, Payments.EventFromCachedCharge(o, pay'.charges[o]));
    assert p in pay.charges ==> ChargeOk(saga, pay, p);
  }

  lemma ChargeKeepsPayments(saga: Saga.SagaDb, pay: Payments.PaymentDb, o: OrderId, result: Payments.GatewayResult)
    requires PaymentsAgreeWithSagas(saga, pay) && ChargeOrdered(saga, o)
    ensures PaymentsAgreeWithSagas(saga, Payments.Charge(pay, o, saga.sagas[o].user, saga.sagas[o].amount, result))
  {
    var pay' := Payments.Charge(pay, o, saga.sagas[o].user, saga.sagas[o].amount, result);
    forall p | p in pay'.charges
      ensures ChargeOk(saga, pay', p)
    {
      ChargeKeepsCharges(saga, pay, o, result, p);
    }
    ChargeKeepsPaymentMessages(pay, o, saga.sagas[o].user, saga.sagas[o].amount, result);
  }

  lemma ChargeKeepsPaymentMessages(pay: Payments.PaymentDb, o: OrderId, user: string, amount: int, result: Payments.GatewayResult)
    requires forall m :: m in Emitted(pay.outbox) ==> PaymentMessageOk(pay, m)
    ensures var pay' := Payments.Charge(pay, o, user, amount, result);
            forall m :: m in Emitted(pay'.outbox) ==> PaymentMessageOk(pay', m)
  {
    var pay' := Payments.Charge(pay, o, user, amount, result);
    EmittedAppend(pay.outbox, Payments.EventFromCachedCharge(o, pay'.charges[o]));
    forall m | m in Emitted(pay'.outbox)
      ensures PaymentMessageOk(pay', m)
    {
      assert m in Emitted(pay.outbox) ==> PaymentMessageOk(pay, m);
    }
  }

  lemma JustificationSurvivesPayments(saga: Saga.SagaDb, inv: Inventory.InventoryDb, pay: Payments.PaymentDb, pay': Payments.PaymentDb)
    requires SagasAreJustified(saga, inv, pay) && PaymentsGrow(pay, pay')
    ensures SagasAreJustified(saga, inv, pay')
  {
    forall o | o in saga.sagas
      ensures Justified(saga, inv, pay', o)
    {
      assert Justified(saga, inv, pay, o);
    }
  }

  lemma ChargeKeepsAgreement(w: World, o: OrderId, result: Payments.GatewayResult)
    requires Agreement(w) && ChargeOrdered(w.saga, o)
    ensures Agreement(w.(pay := Payments.Charge(w.pay, o, w.saga.sagas[o].user, w.saga.sagas[o].amount, result)))
  {
    var row := w.saga.sagas[o];
    var pay' := Payments.Charge(w.pay, o, row.user, row.amount, result);
    ChargeKeepsPayments(w.saga, w.pay, o, result);
    PaymentHandleGrows(w.pay, ChargePayment(o, row.user, row.amount), true, result);
    JustificationSurvivesPayments(w.saga, w.inv, w.pay, pay');
  }

  lemma PaymentDeliveryKeepsAgreement(w: World, m: Message, env: Env)
    requires Agreement(w) && m in Emitted(w.saga.outbox)
    requires m.ChargePayment? && Handle(w, m, env).Some?
    ensures Agreement(Handle(w, m, env).value)
  {
    ChargeCommandsComeFromTheRow(w.saga, m);
    ChargeKeepsAgreement(w, m.order, env.gateway);
    HandlingACharge(w, m, env);
  }

  lemma HandlingACharge(w: World, m: Message, env: Env)
    requires m.ChargePayment? && Handle(w, m, env).Some?
    ensures Handle(w, m, env).value == w.(pay := Payments.Charge(w.pay, m.order, m.user, m.amount, env.gateway))
  {
  }

  lemma ChargeCommandsComeFromTheRow(saga: Saga.SagaDb, m: Message)
    requires SagasFollowTheScript(saga) && m in Emitted(saga.outbox) && m.ChargePayment?
    ensures ChargeOrdered(saga, m.order)
    ensures m == ChargePayment(m.order, saga.sagas[m.order].user, saga.sagas[m.order].amount)
  {
    ScriptDecides(saga, m.order);
  }

  // ---- Deliveries to the order and notification services ----

  ghost predicate OrdersGrow(a: Orders.OrderDb, b: Orders.OrderDb) {
    && Emitted(a.outbox) <= Emitted(b.outbox)
    && |a.orders| <= |b.orders|
    && (forall o :: 0 <= o < |a.orders| ==> b.orders[o].(status := a.orders[o].status) == a.orders[o])
  }

  lemma OrderHandleGrows(ord: Orders.OrderDb, m: Message)
    ensures OrdersGrow(ord, Orders.Handle(ord, m))
  {
    var ord' := Orders.Handle(ord, m);
    if ord'.outbox != ord.outbox {
      EmittedAppend(ord.outbox, ord'.outbox[|ord'.outbox| - 1].msg);
    }
  }

  lemma NotesSurvive(ord: Orders.OrderDb, ord': Orders.OrderDb, notes: seq<Orders.Notification>)
    requires NotesAgreeWithOrders(ord, notes) && Emitted(ord.outbox) <= Emitted(ord'.outbox)
    ensures NotesAgreeWithOrders(ord', notes)
  {
    forall n | n in notes
      ensures NoteOk(ord', n)
    {
      assert NoteOk(ord, n);
    }
  }

  lemma FinalCommandKeepsOrders(ord: Orders.OrderDb, saga: Saga.SagaDb, m: Message)
    requires OrdersAgreeWithSagas(ord, saga) && SagasFollowTheScript(saga)
    requires m in Emitted(saga.outbox) && (m.ConfirmOrder? || m.CancelOrder?)
    ensures OrdersAgreeWithSagas(Orders.Handle(ord, m), saga)
  {
    ScriptDecides(saga, m.order);
    var o := m.order;
    var ord' := Orders.Handle(ord, m);
    var event := if m.ConfirmOrder? then OrderConfirmed(o) else OrderCancelled(o, m.reason);
    EmittedAppend(ord.outbox, event);
    assert OrderRowOk(ord, saga, o);
    forall p | 0 <= p < |ord'.orders|
      ensures OrderRowOk(ord', saga, p)
    {
      assert OrderRowOk(ord, saga, p);
    }
    forall n | n in Emitted(ord'.outbox)
      ensures OrderMessageOk(ord', saga, n)
    {
      if n != event {
        assert OrderMessageOk(ord, saga, n);
      }
    }
  }

  lemma OrderDeliveryKeepsAgreement(w: World, m: Message)
    requires Agreement(w) && m in Emitted(w.saga.outbox) && Consumer(m) == OrderService
    ensures Agreement(w.(ord := Orders.Handle(w.ord, m)))
  {
    var ord' := Orders.Handle(w.ord, m);
    OrderHandleGrows(w.ord, m);
    FinalCommandKeepsOrders(w.ord, w.saga, m);
    NotesSurvive(w.ord, ord', w.notes);
    LedgerIgnoresStatus(w.ord.orders, ord'.orders, w.inv, w.seeded);
  }

  lemma LedgerIgnoresStatus(orders: seq<Orders.Order>, orders': seq<Orders.Order>, inv: Inventory.InventoryDb, seeded: map<Sku, int>)
    requires LedgerBalances(orders, inv, seeded) && |orders'| == |orders|
    requires forall o :: 0 <= o < |orders| ==> orders'[o].sku == orders[o].sku && orders'[o].qty == orders[o].qty
    ensures LedgerBalances(orders', inv, seeded)
  {
    forall k | k in inv.items
      ensures LedgerOk(orders', inv, seeded, k)
    {
      assert LedgerOk(orders, inv, seeded, k);
      QtyOfSame(orders, orders', Holders(inv), Holders(inv), k, |orders|);
    }
  }

  lemma NotificationKeepsAgreement(w: World, m: Message)
    requires Agreement(w) && m in Emitted(w.ord.outbox)
    ensures Agreement(w.(notes := Orders.Notify(w.notes, m)))
  {
    var notes' := Orders.Notify(w.notes, m);
    forall n | n in notes'
      ensures NoteOk(w.ord, n)
    {
      if n in w.notes {
        assert NoteOk(w.ord, n);
      }
    }
  }

  // Every delivery, whatever the handler's luck.
  lemma DeliveryKeepsAgreement(w: World, m: Message, env: Env)
    requires Agreement(w) && m in Emitted(Outbox(w, Producer(m))) && Handle(w, m, env).Some?
    ensures Agreement(Handle(w, m, env).value)
  {
    match Consumer(m)
    case SagaCoordinator => SagaDeliveryKeepsAgreement(w, m);
    case InventoryService => InventoryDeliveryKeepsAgreement(w, m, env);
    case PaymentService => PaymentDeliveryKeepsAgreement(w, m, env);
    case OrderService => OrderDeliveryKeepsAgreement(w, m);
    case NotificationService => NotificationKeepsAgreement(w, m);
  }

  // ---- Checkout and seeding ----

  lemma CheckoutKeepsAgreement(w: World, user: string, sku: Sku, qty: int, amount: int)
    requires Agreement(w) && qty > 0 && amount > 0
    ensures Agreement(w.(ord := Orders.Checkout(w.ord, user, sku, qty, amount)))
  {
    var ord' := Orders.Checkout(w.ord, user, sku, qty, amount);
    var n := |w.ord.orders|;
    EmittedAppend(w.ord.outbox, Orders.Created(n, ord'.orders[n]));
    forall o | 0 <= o < |ord'.orders|
      ensures OrderRowOk(ord', w.saga, o)
    {
      if o < n {
        assert OrderRowOk(w.ord, w.saga, o);
      }
    }
    forall m | m in Emitted(ord'.outbox)
      ensures OrderMessageOk(ord', w.saga, m)
    {
      if m in Emitted(w.ord.outbox) {
        assert OrderMessageOk(w.ord, w.saga, m);
      }
    }
    NotesSurvive(w.ord, ord', w.notes);
    assert n !in Holders(w.inv);
    forall k | k in w.inv.items
      ensures LedgerOk(ord'.orders, w.inv, w.seeded, k)
    {
      assert LedgerOk(w.ord.orders, w.inv, w.seeded, k);
      QtyOfSame(w.ord.orders, ord'.orders, Holders(w.inv), Holders(w.inv), k, n);
    }
  }

  lemma SeedKeepsAgreement(w: World, sku: Sku, qty: int)
    requires Agreement(w) && qty > 0
    ensures Agreement(Next(w, Seed(sku, qty)))
  {
    var w' := Next(w, Seed(sku, qty));
    assert Holders(w'.inv) == Holders(w.inv);
    forall m | m in Emitted(w'.inv.outbox)
      ensures StockMessageOk(w.saga, w'.inv, m)
    {
      assert StockMessageOk(w.saga, w.inv, m);
    }
    forall o | o in w.saga.sagas
      ensures Justified(w.saga, w'.inv, w.pay, o)
    {
      assert Justified(w.saga, w.inv, w.pay, o);
    }
    forall k | k in w'.inv.items
      ensures LedgerOk(w'.ord.orders, w'.inv, w'.seeded, k)
    {
      if k in w.inv.items {
        assert LedgerOk(w.ord.orders, w.inv, w.seeded, k);
      } else {
        NobodyHolds(w, k, |w.ord.orders|);
      }
    }
  }

  lemma {:induction false} NobodyHolds(w: World, sku: Sku, n: nat)
    requires Agreement(w) && sku !in w.inv.items && n <= |w.ord.orders|
    ensures QtyOf(w.ord.orders, Holders(w.inv), sku, n) == 0
  {
    if n > 0 {
      NobodyHolds(w, sku, n - 1);
      assert OrderRowOk(w.ord, w.saga, n - 1);
    }
  }

  // ---- Publishing: only the counters of rows change ----

  lemma RowChangeKeepsAgreement(w: World, svc: Service, i: nat, r: Row)
    requires Agreement(w) && i < |Outbox(w, svc)| && r.msg == Outbox(w, svc)[i].msg
    ensures Agreement(SetOutbox(w, svc, Outbox(w, svc)[i := r]))
  {
    match svc
    case OrderService => OrderRowChangeKeepsAgreement(w, i, r);
    case SagaCoordinator => SagaRowChangeKeepsAgreement(w, i, r);
    case InventoryService => StockRowChangeKeepsAgreement(w, i, r);
    case PaymentService => PaymentRowChangeKeepsAgreement(w, i, r);
    case NotificationService => assert false;
  }

  lemma OrderRowChangeKeepsAgreement(w: World, i: nat, r: Row)
    requires Agreement(w) && i < |w.ord.outbox| && r.msg == w.ord.outbox[i].msg
    ensures Agreement(w.(ord := w.ord.(outbox := w.ord.outbox[i := r])))
  {
    var ord' := w.ord.(outbox := w.ord.outbox[i := r]);
    EmittedUpdate(w.ord.outbox, i, r);
    NotesSurvive(w.ord, ord', w.notes);
    forall m | m in Emitted(ord'.outbox)
      ensures OrderMessageOk(ord', w.saga, m)
    {
      assert OrderMessageOk(w.ord, w.saga, m);
    }
    forall o | 0 <= o < |w.ord.orders|
      ensures OrderRowOk(ord', w.saga, o)
    {
      assert OrderRowOk(w.ord, w.saga, o);
    }
  }

  lemma StockRowChangeKeepsAgreement(w: World, i: nat, r: Row)
    requires Agreement(w) && i < |w.inv.outbox| && r.msg == w.inv.outbox[i].msg
    ensures Agreement(w.(inv := w.inv.(outbox := w.inv.outbox[i := r])))
  {
    var inv' := w.inv.(outbox := w.inv.outbox[i := r]);
    EmittedUpdate(w.inv.outbox, i, r);
    JustificationSurvivesStock(w.saga, w.inv, inv', w.pay);
    LedgerIgnoresOutbox(w.ord.orders, w.inv, w.seeded, inv');
    forall m | m in Emitted(inv'.outbox)
      ensures StockMessageOk(w.saga, inv', m)
    {
      assert StockMessageOk(w.saga, w.inv, m);
    }
  }

  lemma PaymentRowChangeKeepsAgreement(w: World, i: nat, r: Row)
    requires Agreement(w) && i < |w.pay.outbox| && r.msg == w.pay.outbox[i].msg
    ensures Agreement(w.(pay := w.pay.(outbox := w.pay.outbox[i := r])))
  {
    var pay' := w.pay.(outbox := w.pay.outbox[i := r]);
    EmittedUpdate(w.pay.outbox, i, r);
    JustificationSurvivesPayments(w.saga, w.inv, w.pay, pay');
    PaymentsIgnoreRows(w.saga, w.pay, pay');
  }

  lemma PaymentsIgnoreRows(saga: Saga.SagaDb, pay: Payments.PaymentDb, pay': Payments.PaymentDb)
    requires PaymentsAgreeWithSagas(saga, pay)
    requires pay' == pay.(outbox := pay'.outbox) && Emitted(pay'.outbox) == Emitted(pay.outbox)
    ensures PaymentsAgreeWithSagas(saga, pay')
  {
    forall o | o in pay'.charges
      ensures ChargeOk(saga, pay', o)
    {
      assert ChargeOk(saga, pay, o);
    }
  }

  lemma SagaRowChangeKeepsAgreement(w: World, i: nat, r: Row)
    requires Agreement(w) && i < |w.saga.outbox| && r.msg == w.saga.outbox[i].msg
    ensures Agreement(w.(saga := w.saga.(outbox := w.saga.outbox[i := r])))
  {
    var saga' := w.saga.(outbox := w.saga.outbox[i := r]);
    EmittedUpdate(w.saga.outbox, i, r);
    forall o: OrderId
      ensures Saga.OnScript(saga', o)
    {
      AboutUpdate(w.saga.outbox, i, r, o);
      assert Saga.OnScript(w.saga, o);
    }
    assert SagaGrows(w.saga, saga');
    StockAgreementSurvives(w.saga, saga', w.inv);
    PaymentAgreementSurvives(w.saga, saga', w.pay);
    forall o | 0 <= o < |w.ord.orders|
      ensures OrderRowOk(w.ord, saga', o)
    {
      assert OrderRowOk(w.ord, w.saga, o);
    }
    forall m | m in Emitted(w.ord.outbox)
      ensures OrderMessageOk(w.ord, saga', m)
    {
      assert OrderMessageOk(w.ord, w.saga, m);
    }
    forall o | o in saga'.sagas
      ensures Justified(saga', w.inv, w.pay, o)
    {
      assert Justified(w.saga, w.inv, w.pay, o);
      assert ReleaseOrdered(saga', o) <==> ReleaseOrdered(w.saga, o);
    }
  }

  // ---- Effects: handling a message has one, and it lasts ----

  ghost predicate Grows(a: World, b: World) {
    && SagaGrows(a.saga, b.saga)
    && StockGrows(a.inv, b.inv)
    && PaymentsGrow(a.pay, b.pay)
    && OrdersGrow(a.ord, b.ord)
    && (forall n :: n in a.notes ==> n in b.notes)
  }

  lemma EffectsLast(a: World, b: World, m: Message)
    requires Grows(a, b) && Effect(a, m)
    ensures Effect(b, m)
  {
    if m.ReserveInventory? {
      var answer :| answer in Emitted(a.inv.outbox) && answer.order == m.order
                    && (answer.InventoryReserved? || answer.InventoryReservationFailed?);
      assert answer in Emitted(b.inv.outbox);
    }
  }

  lemma HandlingGrows(w: World, m: Message, env: Env)
    requires Handle(w, m, env).Some?
    ensures Grows(w, Handle(w, m, env).value)
  {
    match Consumer(m)
    case SagaCoordinator => HandleGrows(w.saga, m);
    case InventoryService => InventoryHandleGrows(w.inv, m, env.attempt);
    case PaymentService => PaymentHandleGrows(w.pay, m, env.attempt.lockAcquired, env.gateway);
    case OrderService => OrderHandleGrows(w.ord, m);
    case NotificationService =>
  }

  lemma LifecycleEventsHaveEffects(w: World, m: Message)
    requires Agreement(w) && m in Emitted(Outbox(w, Producer(m))) && Consumer(m) == SagaCoordinator
    ensures Effect(w.(saga := Saga.Handle(w.saga, m)), m)
  {
    Saga.AppliesExactlyAtItsRank(w.saga, m);
    if Producer(m) == InventoryService {
      assert StockMessageOk(w.saga, w.inv, m);
      ScriptDecides(w.saga, m.order);
    } else if Producer(m) == PaymentService {
      assert PaymentMessageOk(w.pay, m);
      assert ChargeOk(w.saga, w.pay, m.order);
      ScriptDecides(w.saga, m.order);
    }
  }

  lemma StockCommandsHaveEffects(w: World, m: Message, env: Env)
    requires Consumer(m) == InventoryService && Handle(w, m, env).Some?
    ensures Effect(Handle(w, m, env).value, m)
  {
    var w' := Handle(w, m, env).value;
    var event := w'.inv.outbox[|w.inv.outbox|].msg;
    EmittedAppend(w.inv.outbox, event);
    assert event in Emitted(w'.inv.outbox);
  }

  lemma ChargesHaveEffects(w: World, m: Message, env: Env)
    requires Consumer(m) == PaymentService && Handle(w, m, env).Some?
    ensures Effect(Handle(w, m, env).value, m)
  {
    var w' := Handle(w, m, env).value;
    EmittedAppend(w.pay.outbox, w'.pay.outbox[|w.pay.outbox|].msg);
  }

  lemma FinalCommandsHaveEffects(w: World, m: Message)
    requires Agreement(w) && m in Emitted(w.saga.outbox) && Consumer(m) == OrderService
    ensures Effect(w.(ord := Orders.Handle(w.ord, m)), m)
  {
    var ord' := Orders.Handle(w.ord, m);
    ScriptDecides(w.saga, m.order);
    EmittedAppend(w.ord.outbox, ord'.outbox[|w.ord.outbox|].msg);
  }

  lemma HandlingHasItsEffect(w: World, m: Message, env: Env)
    requires Agreement(w) && m in Emitted(Outbox(w, Producer(m))) && Handle(w, m, env).Some?
    ensures Effect(Handle(w, m, env).value, m)
  {
    match Consumer(m)
    case SagaCoordinator => LifecycleEventsHaveEffects(w, m);
    case InventoryService => StockCommandsHaveEffects(w, m, env);
    case PaymentService => ChargesHaveEffects(w, m, env);
    case OrderService => FinalCommandsHaveEffects(w, m);
    case NotificationService =>
      var notes' := Orders.Notify(w.notes, m);
      assert notes'[|w.notes|] in notes';
  }

  // ---- The broker ----

  ghost predicate OnlyFreshRows(a: seq<Row>, b: seq<Row>) {
    && |a| <= |b|
    && (forall i :: 0 <= i < |a| ==> b[i] == a[i])
    && (forall i :: |a| <= i < |b| ==> b[i].sends == 0 && !b[i].published)
  }

  lemma HandlingAddsFreshRows(w: World, m: Message, env: Env, svc: Service)
    requires Handle(w, m, env).Some?
    ensures OnlyFreshRows(Outbox(w, svc), Outbox(Handle(w, m, env).value, svc))
  {
  }

  lemma EmittedOnlyGrows(a: World, b: World, svc: Service)
    requires Grows(a, b)
    ensures Emitted(Outbox(a, svc)) <= Emitted(Outbox(b, svc))
  {
  }

  lemma RowStaysOk(a: World, b: World, r: Row)
    requires RowOk(a, r) && Grows(a, b)
    requires r.msg in a.queue ==> r.msg in b.queue || Effect(b, r.msg)
    ensures RowOk(b, r)
  {
    if r.sends > 0 && r.msg !in a.queue {
      EffectsLast(a, b, r.msg);
    }
  }

  lemma QueueStaysGenuine(a: World, b: World)
    requires QueueIsGenuine(a) && Grows(a, b)
    requires forall m :: m in b.queue ==> m in a.queue || m in Emitted(Outbox(b, Producer(m)))
    ensures QueueIsGenuine(b)
  {
    forall m | m in b.queue
      ensures m in Emitted(Outbox(b, Producer(m)))
    {
      EmittedOnlyGrows(a, b, Producer(m));
    }
  }

  // A step that only adds fresh rows loses nothing, if what leaves the queue has taken effect.
  lemma GrowthLosesNothing(a: World, b: World)
    requires BrokerOk(a) && Grows(a, b)
    requires forall svc :: OnlyFreshRows(Outbox(a, svc), Outbox(b, svc))
    requires forall m :: m in a.queue ==> m in b.queue || Effect(b, m)
    requires forall m :: m in b.queue ==> m in a.queue
    ensures BrokerOk(b)
  {
    forall svc, i | 0 <= i < |Outbox(b, svc)|
      ensures RowOk(b, Outbox(b, svc)[i])
    {
      assert OnlyFreshRows(Outbox(a, svc), Outbox(b, svc));
      if i < |Outbox(a, svc)| {
        RowStaysOk(a, b, Outbox(a, svc)[i]);
      }
    }
    QueueStaysGenuine(a, b);
  }

  // The queue is no service's business but the broker's.
  lemma QueueIsApart(w: World, q: multiset<Message>)
    ensures Grows(w, w.(queue := q))
    ensures forall m :: Effect(w.(queue := q), m) <==> Effect(w, m)
    ensures forall svc :: Outbox(w.(queue := q), svc) == Outbox(w, svc)
    ensures Agreement(w.(queue := q)) <==> Agreement(w)
  {
  }

  // After a handler has run, its message may leave the queue.
  lemma ConsumingLosesNothing(w: World, done: World, m: Message, q: multiset<Message>)
    requires BrokerOk(w) && Grows(w, done) && done.queue == w.queue && Effect(done, m)
    requires forall svc :: OnlyFreshRows(Outbox(w, svc), Outbox(done, svc))
    requires q == w.queue || q == w.queue - multiset{m}
    ensures BrokerOk(done.(queue := q))
  {
    GrowthLosesNothing(w, done);
    QueueIsApart(done, q);
    GrowthLosesNothing(done, done.(queue := q));
  }

  lemma HandlingLeavesTheBroker(w: World, m: Message, env: Env)
    requires Handle(w, m, env).Some?
    ensures var done := Handle(w, m, env).value;
            Grows(w, done) && done.queue == w.queue
            && forall svc :: OnlyFreshRows(Outbox(w, svc), Outbox(done, svc))
  {
    HandlingGrows(w, m, env);
    forall svc: Service
      ensures OnlyFreshRows(Outbox(w, svc), Outbox(Handle(w, m, env).value, svc))
    {
      HandlingAddsFreshRows(w, m, env, svc);
    }
  }

  lemma RowChangeGrows(w: World, svc: Service, i: nat, r: Row)
    requires i < |Outbox(w, svc)| && r.msg == Outbox(w, svc)[i].msg
    ensures Grows(w, SetOutbox(w, svc, Outbox(w, svc)[i := r]))
  {
    EmittedUpdate(Outbox(w, svc), i, r);
  }

  lemma RowChangeIsLocal(w: World, svc: Service, rows: seq<Row>, k: Service)
    requires svc != NotificationService
    ensures Outbox(SetOutbox(w, svc, rows), k) == if k == svc then rows else Outbox(w, k)
  {
  }

  // A row's counters may move forward as long as its message is waiting or has taken effect.
  lemma RowChangeLosesNothing(w: World, svc: Service, i: nat, r: Row, q: multiset<Message>)
    requires BrokerOk(w) && i < |Outbox(w, svc)| && r.msg == Outbox(w, svc)[i].msg
    requires svc == Producer(r.msg) && r.msg in Emitted(Outbox(w, svc))
    requires r.published ==> r.sends > 0
    requires r.sends > 0 ==> Outbox(w, svc)[i].sends > 0 || r.msg in q
    requires forall m :: m in w.queue ==> m in q
    requires forall m :: m in q ==> m in w.queue || m == r.msg
    ensures BrokerOk(Replace(w, svc, i, r, q))
  {
    var rows := Outbox(w, svc)[i := r];
    var set' := SetOutbox(w, svc, rows);
    var w' := set'.(queue := q);
    RowChangeGrows(w, svc, i, r);
    QueueIsApart(set', q);
    forall k, j | 0 <= j < |Outbox(w', k)|
      ensures RowOk(w', Outbox(w', k)[j])
    {
      RowChangeIsLocal(w, svc, rows, k);
      RowStaysOk(w, w', Outbox(w, k)[j]);
    }
    EmittedOnlyGrows(w, w', svc);
    QueueStaysGenuine(w, w');
  }

  // A row's message belongs to the service that wrote it.
  lemma RowLives(w: World, svc: Service, i: nat)
    requires Agreement(w) && i < |Outbox(w, svc)|
    ensures Producer(Outbox(w, svc)[i].msg) == svc
    ensures Outbox(w, svc)[i].msg in Emitted(Outbox(w, svc))
  {
    var m := Outbox(w, svc)[i].msg;
    EmittedHasRow(Outbox(w, svc), i);
    match svc
    case OrderService => assert OrderMessageOk(w.ord, w.saga, m);
    case SagaCoordinator => ScriptDecides(w.saga, m.order);
    case InventoryService => assert StockMessageOk(w.saga, w.inv, m);
    case PaymentService => assert PaymentMessageOk(w.pay, m);
    case NotificationService => assert false;
  }

  lemma CheckoutGrows(w: World, user: string, sku: Sku, qty: int, amount: int)
    ensures var w' := w.(ord := Orders.Checkout(w.ord, user, sku, qty, amount));
            Grows(w, w') && w'.queue == w.queue && forall svc :: OnlyFreshRows(Outbox(w, svc), Outbox(w', svc))
  {
    var ord' := Orders.Checkout(w.ord, user, sku, qty, amount);
    EmittedAppend(w.ord.outbox, ord'.outbox[|w.ord.outbox|].msg);
  }

  lemma SeedGrows(w: World, sku: Sku, qty: int, seeded: map<Sku, int>)
    ensures var w' := w.(inv := Inventory.Seed(w.inv, sku, qty), seeded := seeded);
            Grows(w, w') && w'.queue == w.queue && forall svc :: OnlyFreshRows(Outbox(w, svc), Outbox(w', svc))
  {
  }

  // ---- Every step, every run ----

  lemma PublishingKeepsAgreement(w: World, svc: Service, i: nat, r: Row, q: multiset<Message>)
    requires Agreement(w) && i < |Outbox(w, svc)| && r.msg == Outbox(w, svc)[i].msg
    ensures Agreement(Replace(w, svc, i, r, q))
  {
    RowChangeKeepsAgreement(w, svc, i, r);
    QueueIsApart(SetOutbox(w, svc, Outbox(w, svc)[i := r]), q);
  }

  lemma AfterwardsAgreementStays(w: World, q: multiset<Message>)
    requires Agreement(w)
    ensures Agreement(w.(queue := q))
  {
  }

  lemma DeliverKeepsAgreement(w: World, m: Message, env: Env, acked: bool)
    requires Agreement(w) && m in Emitted(Outbox(w, Producer(m))) && m in w.queue
    ensures Agreement(Next(w, Deliver(m, env, acked)))
  {
    if Handle(w, m, env).Some? {
      var done := Handle(w, m, env).value;
      DeliveryKeepsAgreement(w, m, env);
      HandlingLeavesTheBroker(w, m, env);
      AfterwardsAgreementStays(done, w.queue - multiset{m});
      assert Next(w, Deliver(m, env, acked)) == if acked then done.(queue := w.queue - multiset{m}) else done;
    }
  }

  lemma StepKeepsAgreement(w: World, a: Action)
    requires Agreement(w) && QueueIsGenuine(w) && Legal(w, a)
    ensures Agreement(Next(w, a))
  {
    match a
    case Checkout(user, sku, qty, amount) => CheckoutKeepsAgreement(w, user, sku, qty, amount);
    case Seed(sku, qty) => SeedKeepsAgreement(w, sku, qty);
    case Send(svc, i, copies) =>
      var r := Outbox(w, svc)[i];
      PublishingKeepsAgreement(w, svc, i, SendCopies(r, copies), AddCopies(w.queue, r.msg, copies));
    case Mark(svc, i) =>
      PublishingKeepsAgreement(w, svc, i, Outbox(w, svc)[i].(published := true), w.queue);
    case Deliver(m, env, acked) => DeliverKeepsAgreement(w, m, env, acked);
    case Nack(_) =>
    case Duplicate(m) => QueueIsApart(w, w.queue + multiset{m});
  }

  // What a publishing step needs to know about its row.
  ghost predicate OwnRow(w: World, svc: Service, i: nat) {
    && i < |Outbox(w, svc)|
    && Producer(Outbox(w, svc)[i].msg) == svc
    && Outbox(w, svc)[i].msg in Emitted(Outbox(w, svc))
  }

  lemma SendKeepsBroker(w: World, svc: Service, i: nat, copies: nat)
    requires BrokerOk(w) && OwnRow(w, svc, i) && !Outbox(w, svc)[i].published
    ensures BrokerOk(Sent(w, svc, i, copies))
  {
    var r := Outbox(w, svc)[i];
    CopiesJoinTheQueue(w.queue, r.msg, copies);
    RowChangeLosesNothing(w, svc, i, SendCopies(r, copies), AddCopies(w.queue, r.msg, copies));
  }

  lemma CopiesJoinTheQueue(queue: multiset<Message>, m: Message, copies: nat)
    ensures var q := AddCopies(queue, m, copies);
            && (forall n :: n in queue ==> n in q)
            && (forall n :: n in q ==> n in queue || n == m)
            && (copies > 0 ==> m in q)
  {
  }

  lemma MarkKeepsBroker(w: World, svc: Service, i: nat)
    requires BrokerOk(w) && OwnRow(w, svc, i) && Outbox(w, svc)[i].sends > 0
    ensures BrokerOk(Marked(w, svc, i))
  {
    var r := Outbox(w, svc)[i].(published := true);
    RowChangeLosesNothing(w, svc, i, r, w.queue);
  }

  lemma DuplicateKeepsBroker(w: World, m: Message, i: nat)
    requires BrokerOk(w) && OwnRow(w, Producer(m), i)
    requires Outbox(w, Producer(m))[i].msg == m && Outbox(w, Producer(m))[i].sends > 0
    ensures BrokerOk(w.(queue := w.queue + multiset{m}))
  {
    var rows := Outbox(w, Producer(m));
    RowChangeLosesNothing(w, Producer(m), i, rows[i], w.queue + multiset{m});
    assert rows[i := rows[i]] == rows;
    assert SetOutbox(w, Producer(m), rows) == w;
  }

  lemma CheckoutKeepsBroker(w: World, user: string, sku: Sku, qty: int, amount: int)
    requires BrokerOk(w)
    ensures BrokerOk(w.(ord := Orders.Checkout(w.ord, user, sku, qty, amount)))
  {
    CheckoutGrows(w, user, sku, qty, amount);
    GrowthLosesNothing(w, w.(ord := Orders.Checkout(w.ord, user, sku, qty, amount)));
  }

  lemma SeedKeepsBroker(w: World, sku: Sku, qty: int, seeded: map<Sku, int>)
    requires BrokerOk(w)
    ensures BrokerOk(w.(inv := Inventory.Seed(w.inv, sku, qty), seeded := seeded))
  {
    SeedGrows(w, sku, qty, seeded);
    GrowthLosesNothing(w, w.(inv := Inventory.Seed(w.inv, sku, qty), seeded := seeded));
  }

  lemma DuplicateStepKeepsBroker(w: World, m: Message)
    requires Agreement(w) && BrokerOk(w) && WasSent(w, m)
    ensures BrokerOk(w.(queue := w.queue + multiset{m}))
  {
    var i := SentRow(w, m);
    DuplicateKeepsBroker(w, m, i);
  }

  lemma SentRow(w: World, m: Message) returns (i: nat)
    requires Agreement(w) && WasSent(w, m)
    ensures OwnRow(w, Producer(m), i)
    ensures Outbox(w, Producer(m))[i].msg == m && Outbox(w, Producer(m))[i].sends > 0
  {
    i :| 0 <= i < |Outbox(w, Producer(m))| && Outbox(w, Producer(m))[i].msg == m && Outbox(w, Producer(m))[i].sends > 0;
    RowLives(w, Producer(m), i);
  }

  lemma StepKeepsBroker(w: World, a: Action)
    requires Agreement(w) && BrokerOk(w) && Legal(w, a)
    ensures BrokerOk(Next(w, a))
  {
    match a
    case Checkout(user, sku, qty, amount) => CheckoutKeepsBroker(w, user, sku, qty, amount);
    case Seed(sku, qty) => SeedKeepsBroker(w, sku, qty, Next(w, a).seeded);
    case Send(svc, i, copies) => RowLives(w, svc, i); SendKeepsBroker(w, svc, i, copies);
    case Mark(svc, i) => RowLives(w, svc, i); MarkKeepsBroker(w, svc, i);
    case Deliver(m, env, acked) => DeliverKeepsBroker(w, m, env, acked);
    case Nack(_) =>
    case Duplicate(m) => DuplicateStepKeepsBroker(w, m);
  }

  lemma DeliverKeepsBroker(w: World, m: Message, env: Env, acked: bool)
    requires Agreement(w) && BrokerOk(w) && m in w.queue
    ensures BrokerOk(Next(w, Deliver(m, env, acked)))
  {
    if Handle(w, m, env).Some? {
      var done := Handle(w, m, env).value;
      HandlingHasItsEffect(w, m, env);
      HandlingLeavesTheBroker(w, m, env);
      var q := if acked then w.queue - multiset{m} else w.queue;
      ConsumingLosesNothing(w, done, m, q);
      assert Next(w, Deliver(m, env, acked)) == done.(queue := q);
    }
  }

  lemma StepKeepsInvariant(w: World, a: Action)
    requires Inv(w) && Legal(w, a)
    ensures Inv(Next(w, a))
  {
    StepKeepsAgreement(w, a);
    StepKeepsBroker(w, a);
  }

  lemma StartIsFine()
    ensures Inv(Start)
  {
  }

  lemma {:induction false} RunKeepsInvariant(w: World, run: seq<Action>)
    requires Inv(w) && LegalRun(w, run)
    ensures Inv(Outcome(w, run))
    decreases |run|
  {
    if run != [] {
      StepKeepsInvariant(w, run[0]);
      RunKeepsInvariant(Next(w, run[0]), run[1..]);
    }
  }

  lemma ReachableIsInvariant(w: World)
    requires Reachable(w)
    ensures Inv(w)
  {
    var run :| LegalRun(Start, run) && Outcome(Start, run) == w;
    StartIsFine();
    RunKeepsInvariant(Start, run);
  }

  lemma RunStarts(w: World, a: Action, rest: seq<Action>)
    requires Legal(w, a) && LegalRun(Next(w, a), rest)
    ensures LegalRun(w, [a] + rest) && Outcome(w, [a] + rest) == Outcome(Next(w, a), rest)
  {
    assert ([a] + rest)[1..] == rest;
  }

  lemma RunGoesOn(w: World, run: seq<Action>)
    requires LegalRun(w, run) && run != []
    ensures Legal(w, run[0]) && LegalRun(Next(w, run[0]), run[1..])
    ensures Outcome(w, run) == Outcome(Next(w, run[0]), run[1..])
  {
  }

  lemma {:induction false} RunsCompose(w: World, a: seq<Action>, b: seq<Action>)
    requires LegalRun(w, a) && LegalRun(Outcome(w, a), b)
    ensures LegalRun(w, a + b) && Outcome(w, a + b) == Outcome(Outcome(w, a), b)
    decreases |a|
  {
    if a == [] {
      assert a + b == b;
    } else {
      RunGoesOn(w, a);
      var rest := a[1..] + b;
      assert LegalRun(Next(w, a[0]), rest) && Outcome(Next(w, a[0]), rest) == Outcome(Outcome(w, a), b) by {
        RunsCompose(Next(w, a[0]), a[1..], b);
      }
      RunStarts(w, a[0], rest);
      assert a + b == [a[0]] + rest;
    }
  }

  lemma RunsStayReachable(w: World, run: seq<Action>)
    requires Reachable(w) && LegalRun(w, run)
    ensures Reachable(Outcome(w, run))
  {
    var first :| LegalRun(Start, first) && Outcome(Start, first) == w;
    RunsCompose(Start, first, run);
  }
}
