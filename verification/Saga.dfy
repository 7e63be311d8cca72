/** The saga coordinator (saga_coordinator/transitions.py and main.py). */
module Saga {
  import opened Messages

  datatype SagaState = Reserving | Charging | Confirmed | Compensating | Cancelled

  datatype SagaRow = SagaRow(
    state: SagaState, sku: Sku, qty: int, user: string, amount: int,
    payment: Option<PaymentId>, failure: Option<string>)

  datatype SagaDb = SagaDb(sagas: map<OrderId, SagaRow>, outbox: seq<Row>)

  const EmptySagaDb := SagaDb(map[], [])

  // The two reasons a CancelOrder can carry.
  function StockCause(reason: string): string { "inventory_unavailable:" + reason }
  function PaymentCause(failure: Option<string>): string {
    "payment_failed:" + if failure.Some? then failure.value else "None"
  }

  /** The transition table: what an event does to an order's saga row and which command follows.
      None means the event is skipped. */
  function React(saga: Option<SagaRow>, event: Message): Option<(SagaRow, Message)> {
    match (saga, event)
    case (None, OrderCreated(o, sku, qty, user, amount)) =>
      Some((SagaRow(Reserving, sku, qty, user, amount, None, None), ReserveInventory(o, sku, qty)))
    case (Some(s), InventoryReserved(o, _, _)) =>
      if s.state != Reserving then None else
        Some((s.(state := Charging), ChargePayment(o, s.user, s.amount)))
    case (Some(s), InventoryReservationFailed(o, _, _, reason)) =>
      if s.state != Reserving then None else
        Some((s.(state := Cancelled, failure := Some(reason)), CancelOrder(o, StockCause(reason))))
    case (Some(s), PaymentSucceeded(o, payment, _)) =>
      if s.state != Charging then None else
        Some((s.(state := Confirmed, payment := Some(payment)), ConfirmOrder(o)))
    case (Some(s), PaymentFailed(o, reason)) =>
      if s.state != Charging then None else
        Some((s.(state := Compensating, failure := Some(reason)), ReleaseInventory(o, s.sku, s.qty)))
    case (Some(s), InventoryReleased(o, _, _)) =>
      if s.state != Compensating then None else
        Some((s.(state := Cancelled), CancelOrder(o, PaymentCause(s.failure))))
    case _ => None
  }

  function Lookup(db: SagaDb, o: OrderId): Option<SagaRow> {
    if o in db.sagas then Some(db.sagas[o]) else None
  }

  function Handle(db: SagaDb, event: Message): SagaDb {
    match React(Lookup(db, event.order), event)
    case None => db
    case Some((row, command)) => SagaDb(db.sagas[event.order := row], Append(db.outbox, command))
  }

  datatype TransitionOutcome =
    | Applied
    | SagaAlreadyExists
    | UnknownSaga
    | UnexpectedState(state: SagaState)
    | NoHandler

  // The guard: the saga must exist and be in the expected state.
  function Guarded(sagas: map<OrderId, SagaRow>, o: OrderId, expected: SagaState): (outcome: TransitionOutcome)
    ensures outcome.Applied? <==> o in sagas && sagas[o].state == expected
    ensures outcome.UnknownSaga? <==> o !in sagas
    ensures outcome.UnexpectedState? ==> o in sagas && outcome.state == sagas[o].state
    ensures !outcome.SagaAlreadyExists? && !outcome.NoHandler?
  {
    if o !in sagas then UnknownSaga
    else if sagas[o].state != expected then UnexpectedState(sagas[o].state)
    else Applied
  }

  class Coordinator {
    var sagas: map<OrderId, SagaRow>
    var outbox: seq<Row>

    ghost function Db(): SagaDb
      reads this
    {
      SagaDb(sagas, outbox)
    }

    constructor ()
      ensures Db() == EmptySagaDb
    {
      sagas, outbox := map[], [];
    }

    method Emit(m: Message)
      modifies this`outbox
      ensures outbox == Append(old(outbox), m)
    {
      outbox := outbox + [Row(m, 0, false)];
    }

    method HandleOrderCreated(event: Message) returns (outcome: TransitionOutcome)
      requires event.OrderCreated?
      modifies this
      ensures Db() == Handle(old(Db()), event)
      ensures outcome == if event.order in old(sagas) then SagaAlreadyExists else Applied
    {
      if event.order in sagas {
        return SagaAlreadyExists;
      }
      var saga := SagaRow(Reserving, event.sku, event.qty, event.user, event.amount, None, None);
      sagas := sagas[event.order := saga];
      Emit(ReserveInventory(event.order, event.sku, event.qty));
      return Applied;
    }

    // The guard shared by the five other handlers.
    method Expect(o: OrderId, state: SagaState) returns (outcome: TransitionOutcome)
      ensures outcome == Guarded(sagas, o, state)
    {
      if o !in sagas {
        return UnknownSaga;
      }
      if sagas[o].state != state {
        return UnexpectedState(sagas[o].state);
      }
      return Applied;
    }

    method HandleInventoryReserved(event: Message) returns (outcome: TransitionOutcome)
      requires event.InventoryReserved?
      modifies this
      ensures Db() == Handle(old(Db()), event)
      ensures outcome == Guarded(old(sagas), event.order, Reserving)
    {
      outcome := Expect(event.order, Reserving);
      if outcome.Applied? {
        var saga := sagas[event.order].(state := Charging);
        sagas := sagas[event.order := saga];
        Emit(ChargePayment(event.order, saga.user, saga.amount));
      }
    }

    method HandleInventoryReservationFailed(event: Message) returns (outcome: TransitionOutcome)
      requires event.InventoryReservationFailed?
      modifies this
      ensures Db() == Handle(old(Db()), event)
      ensures outcome == Guarded(old(sagas), event.order, Reserving)
    {
      outcome := Expect(event.order, Reserving);
      if outcome.Applied? {
        var saga := sagas[event.order].(state := Cancelled);
        saga := saga.(failure := Some(event.reason));
        sagas := sagas[event.order := saga];
        Emit(CancelOrder(event.order, "inventory_unavailable:" + event.reason));
      }
    }

    method HandlePaymentSucceeded(event: Message) returns (outcome: TransitionOutcome)
      requires event.PaymentSucceeded?
      modifies this
      ensures Db() == Handle(old(Db()), event)
      ensures outcome == Guarded(old(sagas), event.order, Charging)
    {
      outcome := Expect(event.order, Charging);
      if outcome.Applied? {
        var saga := sagas[event.order].(state := Confirmed);
        saga := saga.(payment := Some(event.payment));
        sagas := sagas[event.order := saga];
        Emit(ConfirmOrder(event.order));
      }
    }

    method HandlePaymentFailed(event: Message) returns (outcome: TransitionOutcome)
      requires event.PaymentFailed?
      modifies this
      ensures Db() == Handle(old(Db()), event)
      ensures outcome == Guarded(old(sagas), event.order, Charging)
    {
      outcome := Expect(event.order, Charging);
      if outcome.Applied? {
        var saga := sagas[event.order].(state := Compensating);
        saga := saga.(failure := Some(event.reason));
        sagas := sagas[event.order := saga];
        Emit(ReleaseInventory(event.order, saga.sku, saga.qty));
      }
    }

    method HandleInventoryReleased(event: Message) returns (outcome: TransitionOutcome)
      requires event.InventoryReleased?
      modifies this
      ensures Db() == Handle(old(Db()), event)
      ensures outcome == Guarded(old(sagas), event.order, Compensating)
    {
      outcome := Expect(event.order, Compensating);
      if outcome.Applied? {
        var saga := sagas[event.order].(state := Cancelled);
        sagas := sagas[event.order := saga];
        Emit(CancelOrder(event.order, PaymentCause(saga.failure)));
      }
    }

    // One delivery to the coordinator's queue; an unapplied outcome leaves the database alone.
    method Consume(event: Message) returns (outcome: TransitionOutcome)
      modifies this
      ensures Db() == Handle(old(Db()), event)
      ensures !outcome.Applied? ==> Db() == old(Db())
    {
      match event
      case OrderCreated(_, _, _, _, _) => outcome := HandleOrderCreated(event);
      case InventoryReserved(_, _, _) => outcome := HandleInventoryReserved(event);
      case InventoryReservationFailed(_, _, _, _) => outcome := HandleInventoryReservationFailed(event);
      case PaymentSucceeded(_, _, _) => outcome := HandlePaymentSucceeded(event);
      case PaymentFailed(_, _) => outcome := HandlePaymentFailed(event);
      case InventoryReleased(_, _, _) => outcome := HandleInventoryReleased(event);
      case _ => outcome := NoHandler;
    }
  }

  // ---- Ranks: how far a saga has come, and where each event is accepted ----

  function Rank(saga: Option<SagaRow>): nat {
    match saga
    case None => 0
    case Some(s) =>
      match s.state
      case Reserving => 1
      case Charging => 2
      case Compensating => 3
      case Confirmed => 4
      case Cancelled => 4
  }

  predicate IsLifecycleEvent(m: Message) {
    Consumer(m) == Service.SagaCoordinator
  }

  function AcceptedAt(event: Message): nat
    requires IsLifecycleEvent(event)
  {
    match event
    case OrderCreated(_, _, _, _, _) => 0
    case InventoryReserved(_, _, _) => 1
    case InventoryReservationFailed(_, _, _, _) => 1
    case PaymentSucceeded(_, _, _) => 2
    case PaymentFailed(_, _) => 2
    case InventoryReleased(_, _, _) => 3
  }

  // The guards in one number: an event applies exactly at its rank, and then the rank grows.
  lemma AppliesExactlyAtItsRank(db: SagaDb, event: Message)
    requires IsLifecycleEvent(event)
    ensures Handle(db, event) != db <==> Rank(Lookup(db, event.order)) == AcceptedAt(event)
    ensures Handle(db, event) != db ==>
              Rank(Lookup(Handle(db, event), event.order)) > Rank(Lookup(db, event.order))
    ensures forall o :: o != event.order ==> Lookup(Handle(db, event), o) == Lookup(db, o)
  {
    if Rank(Lookup(db, event.order)) == AcceptedAt(event) {
      assert |Handle(db, event).outbox| == |db.outbox| + 1;
    }
  }

  // ---- Command traces over any event sequence ----

  ghost function Run(db: SagaDb, events: seq<Message>): SagaDb {
    if events == [] then db else
      Handle(Run(db, events[..|events| - 1]), events[|events| - 1])
  }

  /** What the outbox holds about an order, given its saga row: the commands, in order. */
  ghost predicate OnScript(db: SagaDb, o: OrderId) {
    var commands := About(db.outbox, o);
    match Lookup(db, o)
    case None => commands == []
    case Some(s) =>
      var reserve := ReserveInventory(o, s.sku, s.qty);
      var charge := ChargePayment(o, s.user, s.amount);
      var release := ReleaseInventory(o, s.sku, s.qty);
      && (s.payment.Some? <==> s.state == Confirmed)
      && match s.state
         case Reserving => s.failure.None? && commands == [reserve]
         case Charging => s.failure.None? && commands == [reserve, charge]
         case Confirmed => s.failure.None? && commands == [reserve, charge, ConfirmOrder(o)]
         case Compensating => s.failure.Some? && commands == [reserve, charge, release]
         case Cancelled =>
           && s.failure.Some?
           && (|| commands == [reserve, CancelOrder(o, StockCause(s.failure.value))]
               || commands == [reserve, charge, release, CancelOrder(o, PaymentCause(s.failure))])
  }

  lemma HandleKeepsScript(db: SagaDb, event: Message, o: OrderId)
    requires OnScript(db, o)
    ensures OnScript(Handle(db, event), o)
  {
    var reaction := React(Lookup(db, event.order), event);
    if reaction.Some? {
      AboutAppend(db.outbox, reaction.value.1, o);
    }
  }

  lemma {:induction false} RunsFollowTheScript(events: seq<Message>, o: OrderId)
    ensures OnScript(Run(EmptySagaDb, events), o)
  {
    if events != [] {
      var n := |events| - 1;
      RunsFollowTheScript(events[..n], o);
      HandleKeepsScript(Run(EmptySagaDb, events[..n]), events[n], o);
    }
  }

  /** For every event sequence, the commands about an order are a prefix of one of the three
      scripts, whose payloads all come from the one saga row. */
  lemma CommandTraces(events: seq<Message>, o: OrderId) returns (row: SagaRow)
    ensures o in Run(EmptySagaDb, events).sagas ==> row == Run(EmptySagaDb, events).sagas[o]
    ensures var commands := About(Run(EmptySagaDb, events).outbox, o);
            var reserve := ReserveInventory(o, row.sku, row.qty);
            var charge := ChargePayment(o, row.user, row.amount);
            var reason := if row.failure.Some? then row.failure.value else "";
            || commands <= [reserve, charge, ConfirmOrder(o)]
            || commands <= [reserve, CancelOrder(o, StockCause(reason))]
            || commands <= [reserve, charge, ReleaseInventory(o, row.sku, row.qty), CancelOrder(o, PaymentCause(row.failure))]
  {
    var db := Run(EmptySagaDb, events);
    RunsFollowTheScript(events, o);
    row := if o in db.sagas then db.sagas[o] else SagaRow(Reserving, "", 0, "", 0, None, None);
    assert [ReserveInventory(o, row.sku, row.qty)]
           <= [ReserveInventory(o, row.sku, row.qty), ChargePayment(o, row.user, row.amount), ConfirmOrder(o)];
  }

  ghost function Own(events: seq<Message>, o: OrderId): seq<Message> {
    if events == [] then [] else
      Own(events[..|events| - 1], o) +
      (if events[|events| - 1].order == o then [events[|events| - 1]] else [])
  }

  /** An order's saga row and commands depend on that order's own events only. */
  lemma {:induction false} OrdersAreIndependent(events: seq<Message>, o: OrderId)
    ensures var all, own := Run(EmptySagaDb, events), Run(EmptySagaDb, Own(events, o));
            Lookup(all, o) == Lookup(own, o) && About(all.outbox, o) == About(own.outbox, o)
  {
    if events != [] {
      var n := |events| - 1;
      var before, event := Run(EmptySagaDb, events[..n]), events[n];
      var mine := Own(events[..n], o);
      OrdersAreIndependent(events[..n], o);
      var reaction := React(Lookup(before, event.order), event);
      if reaction.Some? {
        AboutAppend(before.outbox, reaction.value.1, o);
      }
      if event.order == o {
        assert (mine + [event])[..|mine|] == mine;
        if reaction.Some? {
          AboutAppend(Run(EmptySagaDb, mine).outbox, reaction.value.1, o);
        }
      } else {
        assert mine + [] == mine;
      }
    }
  }

  lemma {:induction false} RankNeverFalls(db: SagaDb, events: seq<Message>, o: OrderId)
    ensures Rank(Lookup(Run(db, events), o)) >= Rank(Lookup(db, o))
  {
    if events != [] {
      var n := |events| - 1;
      RankNeverFalls(db, events[..n], o);
      var before := Run(db, events[..n]);
      if IsLifecycleEvent(events[n]) {
        AppliesExactlyAtItsRank(before, events[n]);
      }
    }
  }

  lemma {:induction false} RunSplits(db: SagaDb, a: seq<Message>, b: seq<Message>)
    ensures Run(db, a + b) == Run(Run(db, a), b)
  {
    if b == [] {
      assert a + b == a;
    } else {
      var n := |b| - 1;
      RunSplits(db, a, b[..n]);
      assert (a + b)[..|a + b| - 1] == a + b[..n];
    }
  }

  // ---- Commands spelled out, from the events alone ----

  // None of these events is one the order's saga would take now.
  ghost predicate Idle(db: SagaDb, events: seq<Message>, o: OrderId) {
    forall e :: e in events && e.order == o && IsLifecycleEvent(e) ==> AcceptedAt(e) != Rank(Lookup(db, o))
  }

  lemma IdleStep(db: SagaDb, event: Message, o: OrderId)
    requires event.order == o && IsLifecycleEvent(event) ==> AcceptedAt(event) != Rank(Lookup(db, o))
    ensures Lookup(Handle(db, event), o) == Lookup(db, o) && About(Handle(db, event).outbox, o) == About(db.outbox, o)
  {
    var reaction := React(Lookup(db, event.order), event);
    if reaction.Some? {
      AboutAppend(db.outbox, reaction.value.1, o);
    }
  }

  lemma {:induction false} IdleRuns(db: SagaDb, events: seq<Message>, o: OrderId)
    requires Idle(db, events, o)
    ensures Lookup(Run(db, events), o) == Lookup(db, o) && About(Run(db, events).outbox, o) == About(db.outbox, o)
  {
    if events != [] {
      var n := |events| - 1;
      IdleRuns(db, events[..n], o);
      IdleStep(Run(db, events[..n]), events[n], o);
    }
  }

  // The saga idles, then takes an event.
  lemma TakesEvent(db: SagaDb, idle: seq<Message>, event: Message)
    requires IsLifecycleEvent(event) && AcceptedAt(event) == Rank(Lookup(db, event.order)) && Idle(db, idle, event.order)
    ensures var o, reaction := event.order, React(Lookup(db, event.order), event);
            && reaction.Some?
            && Lookup(Run(db, idle + [event]), o) == Some(reaction.value.0)
            && About(Run(db, idle + [event]).outbox, o) == About(db.outbox, o) + [reaction.value.1]
  {
    var o := event.order;
    IdleRuns(db, idle, o);
    assert (idle + [event])[..|idle|] == idle;
    var before := Run(db, idle);
    AboutAppend(before.outbox, React(Lookup(before, o), event).value.1, o);
  }

  predicate NoneOf(events: seq<Message>, o: OrderId, rank: nat) {
    forall e :: e in events && e.order == o && IsLifecycleEvent(e) ==> AcceptedAt(e) != rank
  }

  // From the beginning to the first answer about the stock.
  lemma FirstAnswerTaken(e0: seq<Message>, created: Message, e1: seq<Message>, answer: Message)
    requires created.OrderCreated? && NoneOf(e0, created.order, 0)
    requires (answer.InventoryReserved? || answer.InventoryReservationFailed?) && answer.order == created.order
    requires NoneOf(e1, created.order, 1)
    ensures var o, db := created.order, Run(EmptySagaDb, (e0 + [created]) + (e1 + [answer]));
            var row := SagaRow(Reserving, created.sku, created.qty, created.user, created.amount, None, None);
            && Lookup(db, o) == Some(if answer.InventoryReserved? then row.(state := Charging)
                                     else row.(state := Cancelled, failure := Some(answer.reason)))
            && About(db.outbox, o) ==
               [ReserveInventory(o, created.sku, created.qty),
                if answer.InventoryReserved? then ChargePayment(o, created.user, created.amount)
                else CancelOrder(o, "inventory_unavailable:" + answer.reason)]
  {
    TakesEvent(EmptySagaDb, e0, created);
    var started := Run(EmptySagaDb, e0 + [created]);
    TakesEvent(started, e1, answer);
    RunSplits(EmptySagaDb, e0 + [created], e1 + [answer]);
  }

  /** A rejected reservation: for every sequence of events in which the first answer about the stock
      is a rejection, the commands are the reservation and a cancellation that quotes its reason. */
  lemma RejectedOrders(e0: seq<Message>, created: Message, e1: seq<Message>, rejection: Message, e2: seq<Message>)
    requires created.OrderCreated? && NoneOf(e0, created.order, 0)
    requires rejection.InventoryReservationFailed? && rejection.order == created.order && NoneOf(e1, created.order, 1)
    ensures About(Run(EmptySagaDb, (e0 + [created]) + (e1 + [rejection]) + e2).outbox, created.order) ==
            [ReserveInventory(created.order, created.sku, created.qty),
             CancelOrder(created.order, "inventory_unavailable:" + rejection.reason)]
  {
    FirstAnswerTaken(e0, created, e1, rejection);
    var head := (e0 + [created]) + (e1 + [rejection]);
    IdleRuns(Run(EmptySagaDb, head), e2, created.order);
    RunSplits(EmptySagaDb, head, e2);
  }

  /** A paid order: reservation, charge, confirmation. */
  lemma PaidOrders(e0: seq<Message>, created: Message, e1: seq<Message>, reserved: Message, e2: seq<Message>, paid: Message, e3: seq<Message>)
    requires created.OrderCreated? && NoneOf(e0, created.order, 0)
    requires reserved.InventoryReserved? && reserved.order == created.order && NoneOf(e1, created.order, 1)
    requires paid.PaymentSucceeded? && paid.order == created.order && NoneOf(e2, created.order, 2)
    ensures var o, db := created.order, Run(EmptySagaDb, (e0 + [created]) + (e1 + [reserved]) + (e2 + [paid]) + e3);
            && About(db.outbox, o) ==
               [ReserveInventory(o, created.sku, created.qty), ChargePayment(o, created.user, created.amount), ConfirmOrder(o)]
            && Lookup(db, o) ==
               Some(SagaRow(Confirmed, created.sku, created.qty, created.user, created.amount, Some(paid.payment), None))
  {
    FirstAnswerTaken(e0, created, e1, reserved);
    var head := (e0 + [created]) + (e1 + [reserved]);
    var charging := Run(EmptySagaDb, head);
    TakesEvent(charging, e2, paid);
    RunSplits(EmptySagaDb, head, e2 + [paid]);
    IdleRuns(Run(EmptySagaDb, head + (e2 + [paid])), e3, created.order);
    RunSplits(EmptySagaDb, head + (e2 + [paid]), e3);
  }

  lemma ChargeDeclined(db: SagaDb, s: SagaRow, e2: seq<Message>, declined: Message)
    requires declined.PaymentFailed? && NoneOf(e2, declined.order, 2) && Lookup(db, declined.order) == Some(s) && s.state == Charging
    ensures var o, db' := declined.order, Run(db, e2 + [declined]);
            && Lookup(db', o) == Some(s.(state := Compensating, failure := Some(declined.reason)))
            && About(db'.outbox, o) == About(db.outbox, o) + [ReleaseInventory(o, s.sku, s.qty)]
  {
    TakesEvent(db, e2, declined);
  }

  lemma ReleaseConfirmed(db: SagaDb, s: SagaRow, e3: seq<Message>, released: Message, e4: seq<Message>)
    requires released.InventoryReleased? && NoneOf(e3, released.order, 3) && Lookup(db, released.order) == Some(s)
    requires s.state == Compensating && s.failure.Some?
    ensures About(Run(db, e3 + [released] + e4).outbox, released.order)
            == About(db.outbox, released.order) + [CancelOrder(released.order, "payment_failed:" + s.failure.value)]
  {
    TakesEvent(db, e3, released);
    IdleRuns(Run(db, e3 + [released]), e4, released.order);
    RunSplits(db, e3 + [released], e4);
  }

  /** A declined order: reservation, charge, release, and a cancellation that quotes the decline. */
  lemma DeclinedOrders(e0: seq<Message>, created: Message, e1: seq<Message>, reserved: Message, e2: seq<Message>, declined: Message,
                       e3: seq<Message>, released: Message, e4: seq<Message>)
    requires created.OrderCreated? && NoneOf(e0, created.order, 0)
    requires reserved.InventoryReserved? && reserved.order == created.order && NoneOf(e1, created.order, 1)
    requires declined.PaymentFailed? && declined.order == created.order && NoneOf(e2, created.order, 2)
    requires released.InventoryReleased? && released.order == created.order && NoneOf(e3, created.order, 3)
    ensures var o := created.order;
            About(Run(EmptySagaDb, (e0 + [created]) + (e1 + [reserved]) + (e2 + [declined]) + (e3 + [released] + e4)).outbox, o) ==
            [ReserveInventory(o, created.sku, created.qty), ChargePayment(o, created.user, created.amount),
             ReleaseInventory(o, created.sku, created.qty), CancelOrder(o, "payment_failed:" + declined.reason)]
  {
    FirstAnswerTaken(e0, created, e1, reserved);
    var head := (e0 + [created]) + (e1 + [reserved]);
    var charging := Run(EmptySagaDb, head);
    ChargeDeclined(charging, charging.sagas[created.order], e2, declined);
    RunSplits(EmptySagaDb, head, e2 + [declined]);
    var compensating := Run(EmptySagaDb, head + (e2 + [declined]));
    ReleaseConfirmed(compensating, compensating.sagas[created.order], e3, released, e4);
    RunSplits(EmptySagaDb, head + (e2 + [declined]), e3 + [released] + e4);
  }

  /** Redelivery is harmless: once an event has been accepted, or the saga has moved past its
      state in any other way, a later copy anywhere in the run changes nothing at all. */
  lemma LateCopiesChangeNothing(before: seq<Message>, event: Message, between: seq<Message>, copy: Message, after: seq<Message>)
    requires IsLifecycleEvent(event) && IsLifecycleEvent(copy)
    requires copy.order == event.order && AcceptedAt(copy) == AcceptedAt(event)
    requires Rank(Lookup(Run(EmptySagaDb, before), event.order)) >= AcceptedAt(event)
    ensures Run(EmptySagaDb, before + [event] + between + [copy] + after)
         == Run(EmptySagaDb, before + [event] + between + after)
  {
    var start := Run(EmptySagaDb, before);
    var head := before + [event] + between;
    RunSplits(EmptySagaDb, before + [event], between);
    AppliesExactlyAtItsRank(start, event);
    assert (before + [event])[..|before|] == before;
    RankNeverFalls(Run(EmptySagaDb, before + [event]), between, event.order);
    AppliesExactlyAtItsRank(Run(EmptySagaDb, head), copy);
    RunSplits(EmptySagaDb, head, [copy]);
    RunSplits(EmptySagaDb, head + [copy], after);
    RunSplits(EmptySagaDb, head, after);
    assert [copy][..0] == [];
  }
}
