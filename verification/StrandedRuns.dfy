/** Runs that strand stock: the exception in AllOrNothing is real, from any state in which an order
    is waiting for its reservation. */
module StrandedRuns {
  import opened Messages
  import Saga
  import Inventory
  import Payments
  import Orders
  import opened System
  import opened Invariance
  import opened Theorems
  import opened Stranding
  import opened Audit
  import opened Progress

  const Admitted := Env(Inventory.Attempt(true, true), Payments.GatewayResult(true, None))

  // What try_reserve answers when it has to turn a request away.
  function Refusal(attempt: Inventory.Attempt): string {
    if !attempt.lockAcquired then "lock_timeout" else "rate_limited"
  }

  // The coordinator waits for this order's reservation, and there is stock for it.
  ghost predicate Waiting(w: World, o: OrderId) {
    && o in w.saga.sagas && w.saga.sagas[o].state == Saga.Reserving
    && o !in w.inv.reservations
    && w.saga.sagas[o].sku in w.inv.items
    && w.saga.sagas[o].qty <= w.inv.items[w.saga.sagas[o].sku].available
  }

  ghost function Command(w: World, o: OrderId): Message
    requires o in w.saga.sagas
  {
    ReserveInventory(o, w.saga.sagas[o].sku, w.saga.sagas[o].qty)
  }

  ghost function Rejection(w: World, o: OrderId, attempt: Inventory.Attempt): Message
    requires o in w.saga.sagas
  {
    InventoryReservationFailed(o, w.saga.sagas[o].sku, w.saga.sagas[o].qty, Refusal(attempt))
  }

  // One copy of the command is turned away.
  lemma OneCopyIsTurnedAway(w: World, o: OrderId, env: Env)
    requires Waiting(w, o) && Command(w, o) in w.queue
    requires !env.attempt.lockAcquired || !env.attempt.tokenGranted
    ensures Next(w, Deliver(Command(w, o), env, false)) ==
            w.(inv := w.inv.(outbox := Append(w.inv.outbox, Rejection(w, o, env.attempt))))
  {
    var reason := Refusal(env.attempt);
    assert reason[0] == 'l' || reason[0] == 'r';
  }

  // Another is admitted.
  lemma OneCopyIsAdmitted(w: World, o: OrderId)
    requires Waiting(w, o) && Command(w, o) in w.queue
    ensures var w' := Next(w, Deliver(Command(w, o), Admitted, true));
            && w'.saga == w.saga && Holds(w'.inv, o)
            && |w'.inv.outbox| == |w.inv.outbox| + 1 && w'.inv.outbox[..|w.inv.outbox|] == w.inv.outbox
  {
  }

  lemma TheRejectionIsSent(w: World, i: nat)
    requires i < |w.inv.outbox| && w.inv.outbox[i].sends == 0 && !w.inv.outbox[i].published
    ensures Legal(w, Send(InventoryService, i, 1)) && Productive(w, Send(InventoryService, i, 1))
    ensures var w' := Next(w, Send(InventoryService, i, 1));
            w'.saga == w.saga && w.inv.outbox[i].msg in w'.queue
  {
  }

  // Both answers are in the outbox, the rejection first.
  ghost predicate BothAnswers(w: World, w': World, o: OrderId, rejection: Message, i: nat) {
    && Inv(w') && w'.saga == w.saga && Holds(w'.inv, o)
    && i < |w'.inv.outbox| && w'.inv.outbox[i] == Row(rejection, 0, false)
    && w'.seeded == w.seeded && |w'.ord.orders| == |w.ord.orders|
  }

  lemma TurnedAwayAndAdmitted(w: World, o: OrderId, refused: Env)
    requires Inv(w) && Waiting(w, o) && Command(w, o) in w.queue
    requires !refused.attempt.lockAcquired || !refused.attempt.tokenGranted
    ensures var w1 := Next(w, Deliver(Command(w, o), refused, false));
            && Legal(w1, Deliver(Command(w, o), Admitted, true))
            && BothAnswers(w, Next(w1, Deliver(Command(w, o), Admitted, true)), o, Rejection(w, o, refused.attempt), |w.inv.outbox|)
  {
    var m, n := Command(w, o), |w.inv.outbox|;
    OneCopyIsTurnedAway(w, o, refused);
    StepKeepsInvariant(w, Deliver(m, refused, false));
    var w1 := Next(w, Deliver(m, refused, false));
    OneCopyIsAdmitted(w1, o);
    StepKeepsInvariant(w1, Deliver(m, Admitted, true));
    ProductiveStepsAddNothing(w1, Deliver(m, Admitted, true));
    var w2 := Next(w1, Deliver(m, Admitted, true));
    assert w2.inv.outbox[n] == w2.inv.outbox[..n + 1][n];
  }

  // Then the rejection is on its way to the coordinator.
  lemma AnsweredTwice(w: World, o: OrderId, refused: Env) returns (run: seq<Action>, rejection: Message)
    requires Inv(w) && Waiting(w, o) && Command(w, o) in w.queue
    requires !refused.attempt.lockAcquired || !refused.attempt.tokenGranted
    ensures LegalRun(w, run) && rejection.InventoryReservationFailed? && rejection.order == o
    ensures var w' := Outcome(w, run);
            && Inv(w') && w'.saga == w.saga && Holds(w'.inv, o) && rejection in w'.queue
            && w'.seeded == w.seeded && |w'.ord.orders| == |w.ord.orders|
  {
    rejection := Rejection(w, o, refused.attempt);
    TurnedAwayAndAdmitted(w, o, refused);
    var first, second := Deliver(Command(w, o), refused, false), Deliver(Command(w, o), Admitted, true);
    var w2, send := Next(Next(w, first), second), Send(InventoryService, |w.inv.outbox|, 1);
    TheRejectionIsSent(w2, |w.inv.outbox|);
    StepKeepsInvariant(w2, send);
    ProductiveStepsAddNothing(w2, send);
    StepReserves(w2, send, o);
    run := ThreeSteps(w, first, second, send);
  }

  lemma ThreeSteps(w: World, a: Action, b: Action, c: Action) returns (run: seq<Action>)
    requires Legal(w, a) && Legal(Next(w, a), b) && Legal(Next(Next(w, a), b), c)
    ensures LegalRun(w, run) && Outcome(w, run) == Next(Next(Next(w, a), b), c)
  {
    var w1 := Next(w, a);
    var w2 := Next(w1, b);
    assert LegalRun(Next(w2, c), []) && Outcome(Next(w2, c), []) == Next(w2, c);
    RunStarts(w2, c, []);
    RunStarts(w1, b, [c] + []);
    RunStarts(w, a, [b] + ([c] + []));
    run := [a] + ([b] + ([c] + []));
  }

  // The coordinator hears of the rejection first, and everything else takes its course.
  lemma RejectedThenSettled(w: World, o: OrderId, rejection: Message) returns (run: seq<Action>)
    requires Inv(w) && Undecided(w.saga, o) && Holds(w.inv, o)
    requires rejection in w.queue && rejection.InventoryReservationFailed? && rejection.order == o
    ensures LegalRun(w, run)
    ensures var end := Outcome(w, run);
            && Quiescent(end) && Rejected(end.saga, o) && Holds(end.inv, o)
            && end.seeded == w.seeded && |end.ord.orders| == |w.ord.orders|
  {
    var a := Deliver(rejection, Admitted, true);
    StepDecides(w, a, o);
    StepReserves(w, a, o);
    StepKeepsInvariant(w, a);
    ProductiveStepsAddNothing(w, a);
    var rest := SystemSettles(Next(w, a), Admitted);
    RunStarts(w, a, rest);
    DecisionsStand(Next(w, a), rest, o);
    RunReserves(Next(w, a), rest, o);
    run := [a] + rest;
  }

  lemma ChargedWasOrdered(w: World, o: OrderId)
    requires PaymentsAgreeWithSagas(w.saga, w.pay) && o in w.pay.charges
    ensures ChargeOrdered(w.saga, o)
  {
    assert ChargeOk(w.saga, w.pay, o);
  }

  // What is left of such an order.
  lemma RejectedHolder(w: World, o: OrderId)
    requires Reachable(w) && Quiescent(w) && Rejected(w.saga, o) && Holds(w.inv, o)
    ensures IsCancelled(w, o) && o in Holders(w.inv)
    ensures forall i :: 0 <= i < |w.pay.payments| ==> w.pay.payments[i].order != o
    ensures w.ord.orders[o].sku in w.inv.items
  {
    ReachableIsInvariant(w);
    NoOrderIsStuck(w, o);
    assert OrderRowOk(w.ord, w.saga, o);
    FinalStatusDecides(w, o);
    PaymentsMatchCharges(w, o);
    if o in w.pay.charges {
      ChargedWasOrdered(w, o);
    }
  }

  // The audit notices.
  lemma HoldersAreAudited(w: World, o: OrderId)
    requires Reachable(w) && Quiescent(w) && IsCancelled(w, o) && o in Holders(w.inv)
    requires w.ord.orders[o].sku in w.inv.items
    ensures var sku := w.ord.orders[o].sku; !Clean(w.ord.orders, Some(w.inv.items[sku]), w.pay.payments, sku)
  {
    var run :| LegalRun(Start, run) && Outcome(Start, run) == w;
    AllOrNothing(run, o);
    AuditFindsExactlyTheStranded(run, w.ord.orders[o].sku);
  }

  /** Stock can be stranded. From every reachable state in which an order waits for its reservation
      with its command queued and stock enough, and for every way a copy of the command can be turned
      away, there is a run to quiescence after which the order is CANCELLED and was never charged,
      its stock is still set aside, the customer is told "sold out", and the audit is not clean. */
  lemma StockCanBeStranded(w: World, o: OrderId, refused: Env) returns (run: seq<Action>, n: Orders.Notification)
    requires Reachable(w) && Waiting(w, o) && Command(w, o) in w.queue
    requires !refused.attempt.lockAcquired || !refused.attempt.tokenGranted
    ensures LegalRun(w, run) && Reachable(Outcome(w, run)) && Quiescent(Outcome(w, run))
    ensures var end := Outcome(w, run);
            && IsCancelled(end, o) && o in Holders(end.inv)
            && (forall i :: 0 <= i < |end.pay.payments| ==> end.pay.payments[i].order != o)
            && n in end.notes && n.order == o && n.text == Orders.SoldOut
            && end.ord.orders[o].sku in end.inv.items
            && !Clean(end.ord.orders, Some(end.inv.items[end.ord.orders[o].sku]), end.pay.payments, end.ord.orders[o].sku)
            && end.seeded == w.seeded && |end.ord.orders| == |w.ord.orders|
  {
    ReachableIsInvariant(w);
    var first, rejection := AnsweredTwice(w, o, refused);
    var rest := RejectedThenSettled(Outcome(w, first), o, rejection);
    RunsCompose(w, first, rest);
    run := first + rest;
    var end := Outcome(w, run);
    RunsStayReachable(w, run);
    RejectedHolder(end, o);
    HoldersAreAudited(end, o);
    n := EveryCustomerIsTold(end, o);
    NotificationsMatchTheOutcome(end, n);
  }

  // ---- The refused copy may come second ----

  // Without the lock the cached decision is not even looked at.
  lemma LateCopyIsTurnedAway(w: World, o: OrderId, refused: Env)
    requires o in w.saga.sagas && Command(w, o) in w.queue && !refused.attempt.lockAcquired
    ensures Next(w, Deliver(Command(w, o), refused, true)) ==
            w.(inv := w.inv.(outbox := Append(w.inv.outbox, Rejection(w, o, refused.attempt))),
               queue := w.queue - multiset{Command(w, o)})
  {
    var s := w.saga.sagas[o];
    Inventory.ReservationsAreAnswered(w.inv, o, s.sku, s.qty, refused.attempt);
  }

  // The stock is held, a further copy is turned away, and the rejection is on its way.
  lemma RejectedLate(w: World, o: OrderId, refused: Env) returns (run: seq<Action>, rejection: Message)
    requires Inv(w) && o in w.saga.sagas && Holds(w.inv, o) && Command(w, o) in w.queue && !refused.attempt.lockAcquired
    ensures LegalRun(w, run) && rejection.InventoryReservationFailed? && rejection.order == o
    ensures run != [] && run[0] == Deliver(Command(w, o), refused, true)
    ensures var w' := Outcome(w, run);
            && Inv(w') && w'.saga == w.saga && Holds(w'.inv, o) && rejection in w'.queue
            && w'.seeded == w.seeded && |w'.ord.orders| == |w.ord.orders|
  {
    var first, send := Deliver(Command(w, o), refused, true), Send(InventoryService, |w.inv.outbox|, 1);
    rejection := Rejection(w, o, refused.attempt);
    LateCopyIsTurnedAway(w, o, refused);
    StepKeepsInvariant(w, first);
    var w1 := Next(w, first);
    assert w1.inv.outbox[|w.inv.outbox|] == Row(rejection, 0, false);
    TheRejectionIsSent(w1, |w.inv.outbox|);
    StepKeepsInvariant(w1, send);
    ProductiveStepsAddNothing(w1, send);
    StepReserves(w1, send, o);
    assert LegalRun(Next(w1, send), []) && Outcome(Next(w1, send), []) == Next(w1, send);
    RunStarts(w1, send, []);
    RunStarts(w, first, [send] + []);
    run := [first] + ([send] + []);
  }

  /** A reservation that succeeded can be lost to a later copy: from every reachable state in which the
      stock is already set aside, the coordinator still waits and a copy of the command is queued,
      there is a run that begins with that copy timing out on the lock, and after which the order is
      CANCELLED, was never charged, and still holds its stock. */
  lemma LateRefusalStrandsHeldStock(w: World, o: OrderId, refused: Env) returns (run: seq<Action>, n: Orders.Notification)
    requires Reachable(w) && o in w.saga.sagas && w.saga.sagas[o].state == Saga.Reserving
    requires Holds(w.inv, o) && Command(w, o) in w.queue && !refused.attempt.lockAcquired
    ensures LegalRun(w, run) && Reachable(Outcome(w, run)) && Quiescent(Outcome(w, run))
    ensures run != [] && run[0] == Deliver(Command(w, o), refused, true)
    ensures var end := Outcome(w, run);
            && IsCancelled(end, o) && o in Holders(end.inv)
            && (forall i :: 0 <= i < |end.pay.payments| ==> end.pay.payments[i].order != o)
            && n in end.notes && n.order == o && n.text == Orders.SoldOut
  {
    ReachableIsInvariant(w);
    var first, rejection := RejectedLate(w, o, refused);
    var rest := RejectedThenSettled(Outcome(w, first), o, rejection);
    RunsCompose(w, first, rest);
    run := first + rest;
    RunsStayReachable(w, run);
    RejectedHolder(Outcome(w, run), o);
    n := EveryCustomerIsTold(Outcome(w, run), o);
    NotificationsMatchTheOutcome(Outcome(w, run), n);
  }

  lemma AdmittedAndKept(w: World, o: OrderId)
    requires Waiting(w, o) && Command(w, o) in w.queue
    ensures var w' := Next(w, Deliver(Command(w, o), Admitted, false));
            w'.saga == w.saga && Holds(w'.inv, o) && w'.queue == w.queue
  {
  }

  /** Such states follow from every state in which an order waits for stock that is there: its command
      is handled, and delivered again before the acknowledgement gets through. */
  lemma TakenThenRefused(w: World, o: OrderId, refused: Env) returns (run: seq<Action>)
    requires Reachable(w) && Waiting(w, o) && Command(w, o) in w.queue && !refused.attempt.lockAcquired
    ensures LegalRun(w, run) && Quiescent(Outcome(w, run))
    ensures |run| >= 2 && run[0] == Deliver(Command(w, o), Admitted, false) && run[1] == Deliver(Command(w, o), refused, true)
    ensures IsCancelled(Outcome(w, run), o) && o in Holders(Outcome(w, run).inv)
  {
    var take := Deliver(Command(w, o), Admitted, false);
    AdmittedAndKept(w, o);
    StepStaysReachable(w, take);
    var rest, n := LateRefusalStrandsHeldStock(Next(w, take), o, refused);
    RunStarts(w, take, rest);
    run := [take] + rest;
  }

  // ---- There are such states ----

  lemma StepStaysReachable(w: World, a: Action)
    requires Reachable(w) && Legal(w, a)
    ensures Reachable(Next(w, a))
  {
    assert LegalRun(Next(w, a), []);
    assert [a][1..] == [] && LegalRun(w, [a]);
    assert Outcome(w, [a]) == Outcome(Next(w, a), []);
    RunsStayReachable(w, [a]);
  }

  // One order for all the stock there is.
  lemma OrderPlaced(sku: Sku, user: string, qty: int, amount: int) returns (w: World)
    requires qty > 0 && amount > 0
    ensures Reachable(w)
    ensures w == Start.(ord := Orders.OrderDb([Orders.Order(user, sku, qty, amount, Orders.PENDING)],
                                              [Row(OrderCreated(0, sku, qty, user, amount), 0, false)]),
                        inv := Inventory.EmptyInventoryDb.(items := map[sku := Inventory.Item(qty, 0)]),
                        seeded := map[sku := qty])
  {
    assert LegalRun(Start, []) && Outcome(Start, []) == Start;
    StepStaysReachable(Start, Seed(sku, qty));
    w := Next(Start, Seed(sku, qty));
    StepStaysReachable(w, Checkout(user, sku, qty, amount));
    w := Next(w, Checkout(user, sku, qty, amount));
  }

  // Its OrderCreated reaches the coordinator.
  lemma OrderStarted(sku: Sku, user: string, qty: int, amount: int) returns (w: World)
    requires qty > 0 && amount > 0
    ensures Reachable(w) && w.seeded == map[sku := qty]
    ensures w.ord.orders == [Orders.Order(user, sku, qty, amount, Orders.PENDING)]
    ensures w.saga == Saga.SagaDb(map[0 := Saga.SagaRow(Saga.Reserving, sku, qty, user, amount, None, None)],
                                  [Row(ReserveInventory(0, sku, qty), 0, false)])
    ensures w.inv == Inventory.EmptyInventoryDb.(items := map[sku := Inventory.Item(qty, 0)])
  {
    w := OrderPlaced(sku, user, qty, amount);
    var created := OrderCreated(0, sku, qty, user, amount);
    StepStaysReachable(w, Send(OrderService, 0, 1));
    w := Next(w, Send(OrderService, 0, 1));
    StepStaysReachable(w, Deliver(created, Admitted, true));
    w := Next(w, Deliver(created, Admitted, true));
  }

  lemma OrderWaits(sku: Sku, user: string, qty: int, amount: int) returns (w: World)
    requires qty > 0 && amount > 0
    ensures Reachable(w) && Waiting(w, 0) && Command(w, 0) in w.queue
    ensures w.seeded == map[sku := qty] && w.ord.orders == [Orders.Order(user, sku, qty, amount, Orders.PENDING)]
  {
    w := OrderStarted(sku, user, qty, amount);
    StepStaysReachable(w, Send(SagaCoordinator, 0, 1));
    w := Next(w, Send(SagaCoordinator, 0, 1));
  }

  // A step never changes what an order is about.
  lemma StepKeepsTheOrder(w: World, a: Action, o: OrderId)
    requires Legal(w, a) && o < |w.ord.orders|
    ensures o < |Next(w, a).ord.orders|
    ensures Next(w, a).ord.orders[o].sku == w.ord.orders[o].sku && Next(w, a).ord.orders[o].qty == w.ord.orders[o].qty
  {
    if a.Deliver? && Consumer(a.msg) == OrderService {
      OrderHandleGrows(w.ord, a.msg);
    } else {
      OnlyDeliveriesTouchOrders(w, a, o);
    }
  }

  lemma {:induction false} RunKeepsTheOrder(w: World, run: seq<Action>, o: OrderId)
    requires LegalRun(w, run) && o < |w.ord.orders|
    ensures o < |Outcome(w, run).ord.orders|
    ensures Outcome(w, run).ord.orders[o].sku == w.ord.orders[o].sku && Outcome(w, run).ord.orders[o].qty == w.ord.orders[o].qty
    decreases |run|
  {
    if run != [] {
      StepKeepsTheOrder(w, run[0], o);
      RunKeepsTheOrder(Next(w, run[0]), run[1..], o);
    }
  }

  // With one order for all the stock, which is held for it and was never paid for.
  lemma AllIsHeld(w: World, sku: Sku, qty: int)
    requires Reachable(w) && w.seeded == map[sku := qty] && |w.ord.orders| == 1 && 0 in Holders(w.inv)
    requires w.ord.orders[0].sku == sku && w.ord.orders[0].qty == qty
    requires forall i :: 0 <= i < |w.pay.payments| ==> w.pay.payments[i].order != 0
    ensures w.inv.items == map[sku := Inventory.Item(0, qty)] && w.pay.payments == []
  {
    ReachableIsInvariant(w);
    NeverOversold(w, sku);
    assert QtyOf(w.ord.orders, Holders(w.inv), sku, 0) == 0;
    if w.pay.payments != [] {
      PaymentsAreForTheOrder(w, 0);
    }
  }

  /** The smallest case: one order for all there is, its command redelivered while a slow first
      delivery holds the lock, so that the second times out and is the first to commit. In the end everything is set aside for a cancelled order
      that was never charged, and its customer is told "sold out", though no delivery found the item
      short. */
  lemma SoldOutIsSaidOfHeldStock(sku: Sku, user: string, qty: int, amount: int) returns (run: seq<Action>, n: Orders.Notification)
    requires qty > 0 && amount > 0
    ensures LegalRun(Start, run) && Quiescent(Outcome(Start, run))
    ensures var w := Outcome(Start, run);
            && IsCancelled(w, 0) && Stranded(run, 0) && w.pay.payments == []
            && w.inv.items == map[sku := Inventory.Item(0, qty)] && 0 in Holders(w.inv)
            && n in w.notes && n.order == 0 && n.text == Orders.SoldOut
            && !FoundShort(Start, run, 0)
            && !Clean(w.ord.orders, Some(w.inv.items[sku]), w.pay.payments, sku)
  {
    var start := OrderWaits(sku, user, qty, amount);
    var timedOut := Env(Inventory.Attempt(false, false), Payments.GatewayResult(true, None));
    var rest;
    rest, n := StockCanBeStranded(start, 0, timedOut);
    var first :| LegalRun(Start, first) && Outcome(Start, first) == start;
    RunsCompose(Start, first, rest);
    run := first + rest;
    RunKeepsTheOrder(start, rest, 0);
    AllIsHeld(Outcome(Start, run), sku, qty);
    AllOrNothing(run, 0);
    SoldOutIffFoundShort(run, n);
  }
}
