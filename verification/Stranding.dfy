/** Which orders are left with stock they will never pay for: an exact answer in terms of what was
    delivered during the run. */
module Stranding {
  import opened Messages
  import Saga
  import Inventory
  import Payments
  import Orders
  import opened System
  import opened Invariance
  import opened Theorems

  // ---- Deliveries that matter ----

  // The order's ReserveInventory is handled.
  predicate Asks(a: Action, o: OrderId) {
    a.Deliver? && a.msg.ReserveInventory? && a.msg.order == o
  }

  // try_reserve runs into the lock's timeout, or finds no cached answer and no token.
  ghost predicate TurnsAway(w: World, a: Action, o: OrderId) {
    Asks(a, o) && (!a.env.attempt.lockAcquired || (!a.env.attempt.tokenGranted && o !in w.inv.reservations))
  }

  // try_reserve gets as far as the stock, and there is enough of it.
  ghost predicate TakesStock(w: World, a: Action, o: OrderId) {
    && Asks(a, o) && Inventory.Decisive(w.inv, o, a.env.attempt)
    && a.msg.sku in w.inv.items && a.msg.qty <= w.inv.items[a.msg.sku].available
  }

  // try_reserve gets as far as the stock, and there is not enough of it.
  ghost predicate FindsShort(w: World, a: Action, o: OrderId) {
    && Asks(a, o) && Inventory.Decisive(w.inv, o, a.env.attempt)
    && a.msg.sku in w.inv.items && a.msg.qty > w.inv.items[a.msg.sku].available
  }

  ghost predicate TurnedAway(w: World, run: seq<Action>, o: OrderId)
    requires LegalRun(w, run)
    decreases |run|
  {
    run != [] && (TurnsAway(w, run[0], o) || TurnedAway(Next(w, run[0]), run[1..], o))
  }

  ghost predicate TookStock(w: World, run: seq<Action>, o: OrderId)
    requires LegalRun(w, run)
    decreases |run|
  {
    run != [] && (TakesStock(w, run[0], o) || TookStock(Next(w, run[0]), run[1..], o))
  }

  ghost predicate FoundShort(w: World, run: seq<Action>, o: OrderId)
    requires LegalRun(w, run)
    decreases |run|
  {
    run != [] && (FindsShort(w, run[0], o) || FoundShort(Next(w, run[0]), run[1..], o))
  }

  // How often the order's ReserveInventory was handled.
  function TimesAsked(run: seq<Action>, o: OrderId): nat {
    if run == [] then 0 else (if Asks(run[0], o) then 1 else 0) + TimesAsked(run[1..], o)
  }

  predicate IsAnswer(m: Message, o: OrderId) {
    m.order == o && (m.InventoryReserved? || m.InventoryReservationFailed?)
  }

  // The answer of the inventory service that the coordinator handles first.
  function FirstAnswer(run: seq<Action>, o: OrderId): (m: Option<Message>)
    ensures m.Some? ==> IsAnswer(m.value, o)
  {
    if run == [] then None
    else if run[0].Deliver? && IsAnswer(run[0].msg, o) then Some(run[0].msg)
    else FirstAnswer(run[1..], o)
  }

  predicate RejectedFirst(run: seq<Action>, o: OrderId) {
    FirstAnswer(run, o).Some? && FirstAnswer(run, o).value.InventoryReservationFailed?
  }

  // ---- The stock side ----

  ghost predicate Short(inv: Inventory.InventoryDb, o: OrderId) {
    o in inv.reservations && inv.reservations[o].reason == Some("insufficient_stock")
  }

  ghost predicate TransientlyRejected(inv: Inventory.InventoryDb, o: OrderId) {
    exists sku, qty, reason :: Inventory.Transient(reason) && InventoryReservationFailed(o, sku, qty, reason) in Emitted(inv.outbox)
  }

  // Publishing changes counters only.
  lemma PublishingSparesMessages(w: World, svc: Service, i: nat, r: Row, q: multiset<Message>)
    requires i < |Outbox(w, svc)| && r.msg == Outbox(w, svc)[i].msg
    ensures var w' := Replace(w, svc, i, r, q);
            && w'.saga.sagas == w.saga.sagas && Emitted(w'.saga.outbox) == Emitted(w.saga.outbox)
            && w'.inv.reservations == w.inv.reservations && Emitted(w'.inv.outbox) == Emitted(w.inv.outbox)
  {
    EmittedUpdate(Outbox(w, svc), i, r);
  }

  // A delivery is the business of one service.
  lemma DeliveriesSpareOthers(w: World, m: Message, env: Env, acked: bool)
    requires m in w.queue
    ensures var w' := Next(w, Deliver(m, env, acked));
            && (Consumer(m) != SagaCoordinator ==> w'.saga == w.saga)
            && (Consumer(m) != InventoryService ==> w'.inv == w.inv)
  {
  }

  // A step that is not a command for the inventory service leaves answers and events alone.
  lemma OtherStepsSpareTheStock(w: World, a: Action)
    requires Legal(w, a) && !(a.Deliver? && Consumer(a.msg) == InventoryService)
    ensures Next(w, a).inv.reservations == w.inv.reservations && Emitted(Next(w, a).inv.outbox) == Emitted(w.inv.outbox)
  {
    match a
    case Send(svc, i, copies) =>
      var r := Outbox(w, svc)[i];
      PublishingSparesMessages(w, svc, i, SendCopies(r, copies), AddCopies(w.queue, r.msg, copies));
    case Mark(svc, i) => PublishingSparesMessages(w, svc, i, Outbox(w, svc)[i].(published := true), w.queue);
    case Deliver(m, env, acked) => DeliveriesSpareOthers(w, m, env, acked);
    case _ =>
  }

  lemma CommandsMoveTheStock(w: World, m: Message, env: Env, acked: bool)
    requires m in w.queue && Consumer(m) == InventoryService
    ensures var handled := Inventory.Handle(w.inv, m, env.attempt);
            Next(w, Deliver(m, env, acked)).inv == if handled.Some? then handled.value else w.inv
  {
  }

  // What a command does to the cached answer of an order.
  lemma CommandsAnswer(inv: Inventory.InventoryDb, m: Message, attempt: Inventory.Attempt, o: OrderId)
    requires Inventory.Handle(inv, m, attempt).Some?
    ensures var inv' := Inventory.Handle(inv, m, attempt).value;
            inv'.reservations ==
            if m.ReserveInventory? && Inventory.Decisive(inv, m.order, attempt)
            then inv.reservations[m.order := Inventory.Decide(inv.items, m.sku, m.qty)] else inv.reservations
  {
  }

  lemma StepReserves(w: World, a: Action, o: OrderId)
    requires Legal(w, a)
    ensures Holds(Next(w, a).inv, o) <==> Holds(w.inv, o) || TakesStock(w, a, o)
    ensures Short(Next(w, a).inv, o) <==> Short(w.inv, o) || FindsShort(w, a, o)
  {
    if a.Deliver? && Consumer(a.msg) == InventoryService {
      CommandsMoveTheStock(w, a.msg, a.env, a.acked);
      if Inventory.Handle(w.inv, a.msg, a.env.attempt).Some? {
        CommandsAnswer(w.inv, a.msg, a.env.attempt, o);
      }
      assert "unknown_sku"[0] != "insufficient_stock"[0];
    } else {
      OtherStepsSpareTheStock(w, a);
    }
  }

  lemma {:induction false} RunReserves(w: World, run: seq<Action>, o: OrderId)
    requires LegalRun(w, run)
    ensures Holds(Outcome(w, run).inv, o) <==> Holds(w.inv, o) || TookStock(w, run, o)
    ensures Short(Outcome(w, run).inv, o) <==> Short(w.inv, o) || FoundShort(w, run, o)
    decreases |run|
  {
    if run != [] {
      StepReserves(w, run[0], o);
      RunReserves(Next(w, run[0]), run[1..], o);
    }
  }

  predicate IsTransientRejection(m: Message, o: OrderId) {
    m.InventoryReservationFailed? && m.order == o && Inventory.Transient(m.reason)
  }

  lemma OneMoreEvent(inv: Inventory.InventoryDb, inv': Inventory.InventoryDb, event: Message, o: OrderId)
    requires inv'.outbox == Append(inv.outbox, event)
    ensures TransientlyRejected(inv', o) <==> TransientlyRejected(inv, o) || IsTransientRejection(event, o)
  {
    EmittedAppend(inv.outbox, event);
    if IsTransientRejection(event, o) {
      assert InventoryReservationFailed(o, event.sku, event.qty, event.reason) in Emitted(inv'.outbox);
    }
    if TransientlyRejected(inv, o) {
      var sku, qty, reason :| Inventory.Transient(reason) && InventoryReservationFailed(o, sku, qty, reason) in Emitted(inv.outbox);
      assert InventoryReservationFailed(o, sku, qty, reason) in Emitted(inv'.outbox);
    }
  }

  // A delivery that is turned away is answered by a transient rejection, and no other is.
  lemma CommandsReject(inv: Inventory.InventoryDb, m: Message, attempt: Inventory.Attempt, o: OrderId)
    requires Inventory.Handle(inv, m, attempt).Some? && Consumer(m) == InventoryService
    requires forall p :: p in inv.reservations && !inv.reservations[p].success ==>
               inv.reservations[p].reason.Some? && Inventory.Lasting(inv.reservations[p].reason.value)
    ensures var inv' := Inventory.Handle(inv, m, attempt).value;
            && |inv'.outbox| == |inv.outbox| + 1 && inv'.outbox == Append(inv.outbox, inv'.outbox[|inv.outbox|].msg)
            && (IsTransientRejection(inv'.outbox[|inv.outbox|].msg, o) <==>
                  m.ReserveInventory? && m.order == o
                  && (!attempt.lockAcquired || (!attempt.tokenGranted && o !in inv.reservations)))
  {
    var event := Inventory.Handle(inv, m, attempt).value.outbox[|inv.outbox|].msg;
    if m.ReserveInventory? {
      Inventory.ReservationsAreAnswered(inv, m.order, m.sku, m.qty, attempt);
      if event.InventoryReservationFailed? {
        Inventory.LastingIsNotTransient(event.reason);
      }
    }
  }

  lemma StepRejects(w: World, a: Action, o: OrderId)
    requires Inv(w) && Legal(w, a)
    ensures TransientlyRejected(Next(w, a).inv, o) <==> TransientlyRejected(w.inv, o) || TurnsAway(w, a, o)
  {
    if a.Deliver? && Consumer(a.msg) == InventoryService {
      CommandsMoveTheStock(w, a.msg, a.env, a.acked);
      if Inventory.Handle(w.inv, a.msg, a.env.attempt).Some? {
        CommandsReject(w.inv, a.msg, a.env.attempt, o);
        var inv' := Inventory.Handle(w.inv, a.msg, a.env.attempt).value;
        OneMoreEvent(w.inv, inv', inv'.outbox[|w.inv.outbox|].msg, o);
      }
    } else {
      OtherStepsSpareTheStock(w, a);
    }
  }

  lemma {:induction false} RunRejects(w: World, run: seq<Action>, o: OrderId)
    requires Inv(w) && LegalRun(w, run)
    ensures TransientlyRejected(Outcome(w, run).inv, o) <==> TransientlyRejected(w.inv, o) || TurnedAway(w, run, o)
    decreases |run|
  {
    if run != [] {
      StepRejects(w, run[0], o);
      StepKeepsInvariant(w, run[0]);
      RunRejects(Next(w, run[0]), run[1..], o);
    }
  }

  /** A transient rejection is emitted exactly for the deliveries that are turned away for want of the
      lock, decided before or not, or of a token. */
  lemma RejectedIffTurnedAway(run: seq<Action>, o: OrderId)
    requires LegalRun(Start, run)
    ensures TransientlyRejected(Outcome(Start, run).inv, o) <==> TurnedAway(Start, run, o)
  {
    StartIsFine();
    RunRejects(Start, run, o);
  }

  // A delivery is turned away, takes stock or finds too little, and never two of these.
  lemma {:induction false} OneOutcomeEach(w: World, run: seq<Action>, o: OrderId)
    requires LegalRun(w, run)
    ensures TimesAsked(run, o) >= (if TurnedAway(w, run, o) then 1 else 0)
                                  + (if TookStock(w, run, o) then 1 else 0) + (if FoundShort(w, run, o) then 1 else 0)
    decreases |run|
  {
    if run != [] {
      OneOutcomeEach(Next(w, run[0]), run[1..], o);
    }
  }

  // ---- The coordinator's side ----

  ghost predicate Undecided(saga: Saga.SagaDb, o: OrderId) {
    Saga.Rank(Saga.Lookup(saga, o)) <= 1
  }

  ghost predicate Rejected(saga: Saga.SagaDb, o: OrderId) {
    o in saga.sagas && saga.sagas[o].state == Saga.Cancelled && !ChargeOrdered(saga, o)
  }

  // A step that is not an event for the coordinator leaves sagas and commands alone.
  lemma OtherStepsSpareTheSagas(w: World, a: Action)
    requires Legal(w, a) && !(a.Deliver? && Consumer(a.msg) == SagaCoordinator)
    ensures Next(w, a).saga.sagas == w.saga.sagas && Emitted(Next(w, a).saga.outbox) == Emitted(w.saga.outbox)
  {
    match a
    case Send(svc, i, copies) =>
      var r := Outbox(w, svc)[i];
      PublishingSparesMessages(w, svc, i, SendCopies(r, copies), AddCopies(w.queue, r.msg, copies));
    case Mark(svc, i) => PublishingSparesMessages(w, svc, i, Outbox(w, svc)[i].(published := true), w.queue);
    case Deliver(m, env, acked) => DeliveriesSpareOthers(w, m, env, acked);
    case _ =>
  }

  lemma EventsMoveTheSagas(w: World, m: Message, env: Env, acked: bool)
    requires m in w.queue && Consumer(m) == SagaCoordinator
    ensures Next(w, Deliver(m, env, acked)).saga == Saga.Handle(w.saga, m)
  {
  }

  // Another order's events are none of this order's business.
  lemma OthersEvents(saga: Saga.SagaDb, m: Message, o: OrderId)
    requires m.order != o
    ensures Saga.Lookup(Saga.Handle(saga, m), o) == Saga.Lookup(saga, o)
    ensures ChargeOrdered(Saga.Handle(saga, m), o) <==> ChargeOrdered(saga, o)
  {
    var reaction := Saga.React(Saga.Lookup(saga, m.order), m);
    if reaction.Some? {
      EmittedAppend(saga.outbox, reaction.value.1);
    }
  }

  lemma OwnEvents(saga: Saga.SagaDb, m: Message)
    requires Saga.IsLifecycleEvent(m) && Saga.OnScript(saga, m.order)
    requires Saga.Rank(Saga.Lookup(saga, m.order)) >= Saga.AcceptedAt(m)
    ensures Rejected(saga, m.order) || ChargeOrdered(saga, m.order) ==>
              (Rejected(Saga.Handle(saga, m), m.order) <==> Rejected(saga, m.order))
              && (ChargeOrdered(saga, m.order) ==> ChargeOrdered(Saga.Handle(saga, m), m.order))
    ensures Undecided(saga, m.order) ==>
              if m.InventoryReserved? then ChargeOrdered(Saga.Handle(saga, m), m.order)
              else if m.InventoryReservationFailed? then Rejected(Saga.Handle(saga, m), m.order)
              else Undecided(Saga.Handle(saga, m), m.order)
  {
    Saga.AppliesExactlyAtItsRank(saga, m);
    ScriptDecides(saga, m.order);
    var reaction := Saga.React(Saga.Lookup(saga, m.order), m);
    if reaction.Some? {
      EmittedAppend(saga.outbox, reaction.value.1);
    }
  }

  lemma StepDecides(w: World, a: Action, o: OrderId)
    requires Inv(w) && Legal(w, a)
    ensures Rejected(w.saga, o) ==> Rejected(Next(w, a).saga, o)
    ensures ChargeOrdered(w.saga, o) ==> ChargeOrdered(Next(w, a).saga, o)
    ensures Undecided(w.saga, o) ==>
              if !(a.Deliver? && IsAnswer(a.msg, o)) then Undecided(Next(w, a).saga, o)
              else if a.msg.InventoryReserved? then ChargeOrdered(Next(w, a).saga, o)
              else Rejected(Next(w, a).saga, o)
  {
    if a.Deliver? && Consumer(a.msg) == SagaCoordinator {
      EventsMoveTheSagas(w, a.msg, a.env, a.acked);
      if a.msg.order == o {
        NeverEarly(w, a.msg);
        OwnEvents(w.saga, a.msg);
      } else {
        OthersEvents(w.saga, a.msg, o);
      }
    } else {
      OtherStepsSpareTheSagas(w, a);
    }
  }

  lemma {:induction false} DecisionsStand(w: World, run: seq<Action>, o: OrderId)
    requires Inv(w) && LegalRun(w, run)
    ensures Rejected(w.saga, o) ==> Rejected(Outcome(w, run).saga, o)
    ensures ChargeOrdered(w.saga, o) ==> ChargeOrdered(Outcome(w, run).saga, o)
    decreases |run|
  {
    if run != [] {
      StepDecides(w, run[0], o);
      StepKeepsInvariant(w, run[0]);
      DecisionsStand(Next(w, run[0]), run[1..], o);
    }
  }

  // The first answer decides.
  lemma {:induction false} FirstAnswerDecides(w: World, run: seq<Action>, o: OrderId)
    requires Inv(w) && LegalRun(w, run) && Undecided(w.saga, o)
    ensures match FirstAnswer(run, o)
            case None => Undecided(Outcome(w, run).saga, o)
            case Some(m) => if m.InventoryReserved? then ChargeOrdered(Outcome(w, run).saga, o) else Rejected(Outcome(w, run).saga, o)
    decreases |run|
  {
    if run != [] {
      StepDecides(w, run[0], o);
      StepKeepsInvariant(w, run[0]);
      if run[0].Deliver? && IsAnswer(run[0].msg, o) {
        DecisionsStand(Next(w, run[0]), run[1..], o);
      } else {
        FirstAnswerDecides(Next(w, run[0]), run[1..], o);
      }
    }
  }

  // ---- All or nothing ----

  /** Stock was taken for the order, and the coordinator heard of a rejection first. */
  ghost predicate Stranded(run: seq<Action>, o: OrderId)
    requires LegalRun(Start, run)
  {
    TookStock(Start, run, o) && RejectedFirst(run, o)
  }

  lemma RunIsInvariant(run: seq<Action>)
    requires LegalRun(Start, run)
    ensures Reachable(Outcome(Start, run)) && Inv(Outcome(Start, run))
  {
    ReachableIsInvariant(Outcome(Start, run));
  }

  lemma CancelledIsDecided(w: World, o: OrderId)
    requires Agreement(w) && IsCancelled(w, o)
    ensures !Undecided(w.saga, o) && (Rejected(w.saga, o) <==> !ChargeOrdered(w.saga, o))
  {
    assert OrderRowOk(w.ord, w.saga, o);
  }

  lemma CancelledWasAnswered(run: seq<Action>, o: OrderId)
    requires LegalRun(Start, run) && IsCancelled(Outcome(Start, run), o)
    ensures RejectedFirst(run, o) <==> !ChargeOrdered(Outcome(Start, run).saga, o)
  {
    StartIsFine();
    RunIsInvariant(run);
    FirstAnswerDecides(Start, run, o);
    CancelledIsDecided(Outcome(Start, run), o);
  }

  /** After any run a CONFIRMED order holds its stock and was paid exactly once. A CANCELLED one was
      not paid, and it holds stock if and only if it is stranded: one delivery of its ReserveInventory
      took stock, and the first answer the coordinator handled was a rejection. */
  lemma AllOrNothing(run: seq<Action>, o: OrderId)
    requires LegalRun(Start, run)
    ensures var w := Outcome(Start, run);
            && (IsConfirmed(w, o) ==> o in Holders(w.inv) && OnlyPayment(w, o, Payments.SUCCEEDED))
            && (IsCancelled(w, o) ==> NoPayment(w, o, Payments.SUCCEEDED))
            && (IsCancelled(w, o) ==> (o in Holders(w.inv) <==> Stranded(run, o)))
            && (Quiescent(w) && Stranded(run, o) ==> IsCancelled(w, o))
  {
    var w := Outcome(Start, run);
    RunIsInvariant(run);
    FinalStatusDecides(w, o);
    RunReserves(Start, run, o);
    if IsCancelled(w, o) {
      CancelledWasAnswered(run, o);
    }
    if Quiescent(w) && Stranded(run, o) {
      StrandedIsCancelled(run, o);
    }
  }

  lemma StrandedIsCancelled(run: seq<Action>, o: OrderId)
    requires LegalRun(Start, run) && Quiescent(Outcome(Start, run)) && RejectedFirst(run, o)
    ensures IsCancelled(Outcome(Start, run), o)
  {
    var w := Outcome(Start, run);
    StartIsFine();
    RunIsInvariant(run);
    FirstAnswerDecides(Start, run, o);
    NoOrderIsStuck(w, o);
    assert OrderRowOk(w.ord, w.saga, o);
  }

  /** It takes a turned-away delivery and another one: an order whose ReserveInventory was never
      turned away for want of the lock or a token, or was handled only once, is not stranded. */
  lemma OnlyRetriedOrdersStrand(run: seq<Action>, o: OrderId)
    requires LegalRun(Start, run) && Stranded(run, o)
    ensures TurnedAway(Start, run, o) && TimesAsked(run, o) >= 2
  {
    var w := Outcome(Start, run);
    StartIsFine();
    RunIsInvariant(run);
    RunReserves(Start, run, o);
    FirstAnswerDecides(Start, run, o);
    RejectedWhileHolding(w, o);
    RunRejects(Start, run, o);
    OneOutcomeEach(Start, run, o);
  }

  lemma RejectedWhileHolding(w: World, o: OrderId)
    requires Agreement(w) && Rejected(w.saga, o) && Holds(w.inv, o)
    ensures TransientlyRejected(w.inv, o)
  {
    ScriptDecides(w.saga, o);
    assert Justified(w.saga, w.inv, w.pay, o);
    var s := w.saga.sagas[o];
    var failed := InventoryReservationFailed(o, s.sku, s.qty, s.failure.value);
    assert StockMessageOk(w.saga, w.inv, failed);
  }

  /** Compensation is exact in every run in which no delivery of the order's ReserveInventory was
      turned away, and in every run in which it was handled at most once. */
  lemma CancelledMeansNothingHeld(run: seq<Action>, o: OrderId)
    requires LegalRun(Start, run) && IsCancelled(Outcome(Start, run), o)
    requires !TurnedAway(Start, run, o) || TimesAsked(run, o) <= 1
    ensures o !in Holders(Outcome(Start, run).inv)
  {
    AllOrNothing(run, o);
    if Stranded(run, o) {
      OnlyRetriedOrdersStrand(run, o);
    }
  }

  // ---- When "sold out" is true ----

  // The recorded rejection came from the delivery of a ReserveInventory.
  lemma RejectionsHaveReasons(w: World, o: OrderId)
    requires Agreement(w) && WasRejected(w, o)
    ensures var reason := w.saga.sagas[o].failure.value;
            Inventory.Transient(reason) || (Inventory.Lasting(reason) && o in w.inv.reservations
                                            && w.inv.reservations[o] == Inventory.Reservation(false, Some(reason)))
  {
    var s := w.saga.sagas[o];
    assert StockMessageOk(w.saga, w.inv, InventoryReservationFailed(o, s.sku, s.qty, s.failure.value));
  }

  /** The customer is told "sold out" for every rejected reservation. The item had really run short
      for that order if the coordinator recorded "insufficient_stock"; if it recorded "unknown_sku" it
      had not. If it recorded a transient reason, the order was turned away for want of the lock or a
      token, whatever the stock: then a further copy may have found it short, or taken it, and in the
      latter case the stock is held for the very order that is told so. So unless an order is turned
      away and asked again, "sold out" is true if and only if the reason is "insufficient_stock". */
  lemma SoldOutIffFoundShort(run: seq<Action>, n: Orders.Notification)
    requires LegalRun(Start, run) && n in Outcome(Start, run).notes && n.text.SoldOut?
    ensures WasRejected(Outcome(Start, run), n.order)
    ensures var w, o := Outcome(Start, run), n.order;
            var reason := w.saga.sagas[o].failure.value;
            && (!Inventory.Transient(reason) || !TurnedAway(Start, run, o) || TimesAsked(run, o) <= 1 ==>
                  (FoundShort(Start, run, o) <==> reason == "insufficient_stock"))
            && (Inventory.Transient(reason) ==> TurnedAway(Start, run, o))
            && (o in Holders(w.inv) <==> TookStock(Start, run, o))
            && (TookStock(Start, run, o) ==> Inventory.Transient(reason) && !FoundShort(Start, run, o))
  {
    var w, o := Outcome(Start, run), n.order;
    StartIsFine();
    RunIsInvariant(run);
    NotificationsMatchTheOutcome(w, n);
    FinalStatusDecides(w, o);
    RejectionsHaveReasons(w, o);
    RunReserves(Start, run, o);
    OneOutcomeEach(Start, run, o);
    var reason := w.saga.sagas[o].failure.value;
    Inventory.LastingIsNotTransient(reason);
    if Inventory.Transient(reason) {
      RunRejects(Start, run, o);
    }
    HoldersAreNotShort(w, o);
  }

  lemma HoldersAreNotShort(w: World, o: OrderId)
    requires Agreement(w)
    ensures !(Holds(w.inv, o) && Short(w.inv, o))
  {
  }
}
