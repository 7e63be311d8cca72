/** The inventory service (inventory_service/reservation.py and main.py): deduplicated
    reservations and releases of stock, and the greedy allocator they refine. */
module Inventory {
  import opened Messages

  datatype Item = Item(available: int, reserved: int)

  datatype Reservation = Reservation(success: bool, reason: Option<string>)

  // What Redis decides during one attempt: the SKU lock, and the token bucket if it is asked.
  datatype Attempt = Attempt(lockAcquired: bool, tokenGranted: bool)

  datatype InventoryDb = InventoryDb(
    items: map<Sku, Item>,
    reservations: map<OrderId, Reservation>,   // idempotency:reserve:{order_id}
    released: set<OrderId>,                    // idempotency:release:{order_id}
    outbox: seq<Row>)

  const EmptyInventoryDb := InventoryDb(map[], map[], {}, [])

  // Answers that are not cached.
  predicate Transient(reason: string) {
    reason == "rate_limited" || reason == "lock_timeout"
  }

  // The reasons a decision is cached with.
  predicate Lasting(reason: string) {
    reason == "unknown_sku" || reason == "insufficient_stock"
  }

  lemma LastingIsNotTransient(reason: string)
    ensures !(Lasting(reason) && Transient(reason))
    ensures Lasting(reason) || Transient(reason) ==> reason != ""
  {
    if Lasting(reason) {
      assert reason[0] == 'u' || reason[0] == 'i';
    } else if Transient(reason) {
      assert reason[0] == 'r' || reason[0] == 'l';
    }
  }

  // ---- Stock moves ----

  function Decide(items: map<Sku, Item>, sku: Sku, qty: int): Reservation {
    if sku !in items then Reservation(false, Some("unknown_sku"))
    else if items[sku].available < qty then Reservation(false, Some("insufficient_stock"))
    else Reservation(true, None)
  }

  function Take(items: map<Sku, Item>, sku: Sku, qty: int): map<Sku, Item> {
    if Decide(items, sku, qty).success then
      items[sku := Item(items[sku].available - qty, items[sku].reserved + qty)]
    else items
  }

  function GiveBack(items: map<Sku, Item>, sku: Sku, qty: int): map<Sku, Item> {
    if sku !in items then items else
      items[sku := Item(items[sku].available + qty,
                        if items[sku].reserved < qty then 0 else items[sku].reserved - qty)]
  }

  // ---- Handlers ----

  // The answer to one attempt: the cache wins over a fresh decision, the lock over the cache.
  function Answer(db: InventoryDb, o: OrderId, sku: Sku, qty: int, attempt: Attempt): Reservation {
    if !attempt.lockAcquired then Reservation(false, Some("lock_timeout"))
    else if o in db.reservations then db.reservations[o]
    else if !attempt.tokenGranted then Reservation(false, Some("rate_limited"))
    else Decide(db.items, sku, qty)
  }

  // An attempt reaches a decision, and changes state, only in this case.
  predicate Decisive(db: InventoryDb, o: OrderId, attempt: Attempt) {
    attempt.lockAcquired && attempt.tokenGranted && o !in db.reservations
  }

  function Reserve(db: InventoryDb, o: OrderId, sku: Sku, qty: int, attempt: Attempt): InventoryDb {
    if Decisive(db, o, attempt) then
      db.(items := Take(db.items, sku, qty),
          reservations := db.reservations[o := Decide(db.items, sku, qty)])
    else db
  }

  function Release(db: InventoryDb, o: OrderId, sku: Sku, qty: int): InventoryDb {
    if o in db.released || sku !in db.items then db
    else db.(items := GiveBack(db.items, sku, qty), released := db.released + {o})
  }

  function ReservationEvent(o: OrderId, sku: Sku, qty: int, answer: Reservation): Message {
    if answer.success then InventoryReserved(o, sku, qty)
    else InventoryReservationFailed(o, sku, qty, OrUnknown(answer.reason))
  }

  /** One delivery. None means the handler raised (a release that could not get the lock),
      so the message is requeued and nothing is committed. */
  function Handle(db: InventoryDb, m: Message, attempt: Attempt): Option<InventoryDb> {
    match m
    case ReserveInventory(o, sku, qty) =>
      var answer := Answer(db, o, sku, qty, attempt);
      Some(Reserve(db, o, sku, qty, attempt).(outbox := Append(db.outbox, ReservationEvent(o, sku, qty, answer))))
    case ReleaseInventory(o, sku, qty) =>
      if !attempt.lockAcquired then None
      else Some(Release(db, o, sku, qty).(outbox := Append(db.outbox, InventoryReleased(o, sku, qty))))
    case _ => Some(db)
  }

  function Seed(db: InventoryDb, sku: Sku, qty: int): InventoryDb {
    var item := if sku in db.items then db.items[sku] else Item(0, 0);
    db.(items := db.items[sku := item.(available := item.available + qty)])
  }

  class Warehouse {
    var items: map<Sku, Item>
    var reservations: map<OrderId, Reservation>
    var released: set<OrderId>
    var outbox: seq<Row>

    ghost function Db(): InventoryDb
      reads this
    {
      InventoryDb(items, reservations, released, outbox)
    }

    constructor ()
      ensures Db() == EmptyInventoryDb
    {
      items, reservations, released, outbox := map[], map[], {}, [];
    }

    // seed_inventory: a non-positive quantity is rejected by request validation.
    method SeedInventory(sku: Sku, qty: int) returns (accepted: bool)
      modifies this
      ensures accepted <==> qty > 0
      ensures Db() == if qty > 0 then Seed(old(Db()), sku, qty) else old(Db())
    {
      if qty <= 0 {
        return false;
      }
      if sku !in items {
        items := items[sku := Item(qty, 0)];
      } else {
        var item := items[sku];
        item := item.(available := item.available + qty);
        items := items[sku := item];
      }
      return true;
    }

    method TryReserve(o: OrderId, sku: Sku, qty: int, attempt: Attempt) returns (outcome: Reservation)
      modifies this
      ensures outcome == Answer(old(Db()), o, sku, qty, attempt)
      ensures Db() == Reserve(old(Db()), o, sku, qty, attempt)
    {
      if !attempt.lockAcquired {
        return Reservation(false, Some("lock_timeout"));
      }
      if o in reservations {
        return reservations[o];
      }
      if !attempt.tokenGranted {
        return Reservation(false, Some("rate_limited"));
      }
      if sku !in items {
        outcome := Reservation(false, Some("unknown_sku"));
      } else if items[sku].available < qty {
        outcome := Reservation(false, Some("insufficient_stock"));
      } else {
        var item := items[sku];
        item := item.(available := item.available - qty);
        item := item.(reserved := item.reserved + qty);
        items := items[sku := item];
        outcome := Reservation(true, None);
      }
      reservations := reservations[o := outcome];
    }

    method ReleaseReservation(o: OrderId, sku: Sku, qty: int)
      modifies this
      ensures Db() == Release(old(Db()), o, sku, qty)
    {
      if o in released {
        return;
      }
      if sku !in items {
        return;
      }
      var item := items[sku];
      item := item.(reserved := if item.reserved - qty > 0 then item.reserved - qty else 0);
      item := item.(available := item.available + qty);
      items := items[sku := item];
      released := released + {o};
    }

    // handled == false: the handler raised and the message is requeued.
    method Consume(m: Message, attempt: Attempt) returns (handled: bool)
      modifies this
      ensures handled <==> m.ReleaseInventory? ==> attempt.lockAcquired
      ensures !handled ==> Db() == old(Db())
      ensures Db() == if handled then Handle(old(Db()), m, attempt).value else old(Db())
    {
      match m
      case ReserveInventory(o, sku, qty) =>
        var result := TryReserve(o, sku, qty, attempt);
        var event;
        if result.success {
          event := InventoryReserved(o, sku, qty);
        } else {
          event := InventoryReservationFailed(o, sku, qty, OrUnknown(result.reason));
        }
        outbox := outbox + [Row(event, 0, false)];
        return true;
      case ReleaseInventory(o, sku, qty) =>
        if !attempt.lockAcquired {
          return false;
        }
        ReleaseReservation(o, sku, qty);
        outbox := outbox + [Row(InventoryReleased(o, sku, qty), 0, false)];
        return true;
      case _ =>
        return true;
    }
  }

  // ---- What a delivery leaves behind, spelled out ----

  /** The lock comes before the cache, the cache before the bucket, the bucket before the stock. A
      ReserveInventory handled without the lock is answered "lock_timeout", decided before or not. */
  lemma ReservationsAreAnswered(db: InventoryDb, o: OrderId, sku: Sku, qty: int, attempt: Attempt)
    ensures var done := Handle(db, ReserveInventory(o, sku, qty), attempt);
            && done.Some?
            && (!attempt.lockAcquired ==>
                  done.value == db.(outbox := db.outbox + [Row(InventoryReservationFailed(o, sku, qty, "lock_timeout"), 0, false)]))
            && (attempt.lockAcquired && o !in db.reservations && !attempt.tokenGranted ==>
                  done.value == db.(outbox := db.outbox + [Row(InventoryReservationFailed(o, sku, qty, "rate_limited"), 0, false)]))
  {
    assert "lock_timeout" != "" && "rate_limited" != "";
  }

  /** With the lock and a token, a new order is decided by the stock, and the decision is cached. */
  lemma DecisionsFollowTheStock(db: InventoryDb, o: OrderId, sku: Sku, qty: int)
    requires o !in db.reservations
    ensures var done := Handle(db, ReserveInventory(o, sku, qty), Attempt(true, true));
            && done.Some? && o in done.value.reservations && done.value.released == db.released
            && (sku !in db.items ==>
                  done.value.items == db.items
                  && done.value.outbox == db.outbox + [Row(InventoryReservationFailed(o, sku, qty, "unknown_sku"), 0, false)])
            && (sku in db.items && db.items[sku].available < qty ==>
                  done.value.items == db.items
                  && done.value.outbox == db.outbox + [Row(InventoryReservationFailed(o, sku, qty, "insufficient_stock"), 0, false)])
            && (sku in db.items && db.items[sku].available >= qty ==>
                  done.value.items == db.items[sku := Item(db.items[sku].available - qty, db.items[sku].reserved + qty)]
                  && done.value.outbox == db.outbox + [Row(InventoryReserved(o, sku, qty), 0, false)])
  {
    assert "unknown_sku" != "" && "insufficient_stock" != "";
  }

  /** A release needs the lock. It moves the stock back once per order, and not below zero reserved,
      and is confirmed every time. */
  lemma ReleasesGiveBack(db: InventoryDb, o: OrderId, sku: Sku, qty: int, attempt: Attempt)
    ensures var done := Handle(db, ReleaseInventory(o, sku, qty), attempt);
            && (done.Some? <==> attempt.lockAcquired)
            && (done.Some? ==>
                  && done.value.outbox == db.outbox + [Row(InventoryReleased(o, sku, qty), 0, false)]
                  && done.value.reservations == db.reservations
                  && if o !in db.released && sku in db.items then
                       var left := db.items[sku].reserved - qty;
                       && done.value.items == db.items[sku := Item(db.items[sku].available + qty, if left > 0 then left else 0)]
                       && done.value.released == db.released + {o}
                     else done.value.items == db.items && done.value.released == db.released)
  {
  }

  datatype Delivery = Delivery(msg: Message, attempt: Attempt)

  // A handler that raises commits nothing.
  ghost function Deliver(db: InventoryDb, d: Delivery): InventoryDb {
    var done := Handle(db, d.msg, d.attempt);
    if done.Some? then done.value else db
  }

  ghost function RunDeliveries(db: InventoryDb, deliveries: seq<Delivery>): InventoryDb {
    if deliveries == [] then db else
      Deliver(RunDeliveries(db, deliveries[..|deliveries| - 1]), deliveries[|deliveries| - 1])
  }

  lemma {:induction false} DecisionsStay(db: InventoryDb, deliveries: seq<Delivery>, o: OrderId)
    requires o in db.reservations
    ensures o in RunDeliveries(db, deliveries).reservations
    ensures RunDeliveries(db, deliveries).reservations[o] == db.reservations[o]
  {
    if deliveries != [] {
      DecisionsStay(db, deliveries[..|deliveries| - 1], o);
    }
  }

  /** Once an order is decided, every further copy handled under the lock repeats the event of the
      decision, whatever the bucket says and whatever has happened to the stock. */
  lemma CopiesRepeatTheDecision(db: InventoryDb, ask: Message, between: seq<Delivery>, token: bool)
    requires ask.ReserveInventory? && ask.order !in db.reservations
    ensures var decided := Deliver(db, Delivery(ask, Attempt(true, true)));
            var later := RunDeliveries(decided, between);
            && |decided.outbox| == |db.outbox| + 1
            && Deliver(later, Delivery(ask, Attempt(true, token)))
               == later.(outbox := later.outbox + [decided.outbox[|db.outbox|]])
  {
    DecisionsStay(Deliver(db, Delivery(ask, Attempt(true, true))), between, ask.order);
  }

  // ---- Deduplication refines a greedy allocator ----

  // Everything that can happen to the stock, in the order in which it is committed.
  datatype Command =
    | Ask(order: OrderId, sku: Sku, qty: int, attempt: Attempt)         // a ReserveInventory is handled
    | Return(order: OrderId, sku: Sku, qty: int, lockAcquired: bool)    // a ReleaseInventory is handled
    | Stock(sku: Sku, qty: int)                                         // seed_inventory

  function Obey(db: InventoryDb, c: Command): InventoryDb {
    match c
    case Ask(o, sku, qty, attempt) => Reserve(db, o, sku, qty, attempt)
    case Return(o, sku, qty, lockAcquired) => if lockAcquired then Release(db, o, sku, qty) else db
    case Stock(sku, qty) => if qty > 0 then Seed(db, sku, qty) else db
  }

  ghost function Run(db: InventoryDb, commands: seq<Command>): InventoryDb {
    if commands == [] then db else
      Obey(Run(db, commands[..|commands| - 1]), commands[|commands| - 1])
  }

  ghost predicate Asked(commands: seq<Command>, o: OrderId) {
    exists c :: c in commands && c.Ask? && c.order == o
  }

  ghost predicate Returned(commands: seq<Command>, o: OrderId) {
    exists c :: c in commands && c.Return? && c.order == o
  }

  ghost predicate Stocked(commands: seq<Command>, sku: Sku) {
    exists c :: c in commands && c.Stock? && c.sku == sku
  }

  // Whether a command adds anything to the ones that counted before it, on a store that sold
  // `known` from the beginning.
  ghost predicate Counts(known: set<Sku>, earlier: seq<Command>, c: Command) {
    match c
    case Ask(o, _, _, attempt) => attempt == Attempt(true, true) && !Asked(earlier, o)
    case Return(o, sku, _, lockAcquired) => lockAcquired && !Returned(earlier, o) && (sku in known || Stocked(earlier, sku))
    case Stock(_, qty) => qty > 0
  }

  // What was meant: the first admitted ask of each order, its first return of a SKU that is on
  // sale, and all seeds.
  ghost function Meant(known: set<Sku>, commands: seq<Command>): seq<Command> {
    if commands == [] then [] else
      var earlier, last := Meant(known, commands[..|commands| - 1]), commands[|commands| - 1];
      if Counts(known, earlier, last) then earlier + [last] else earlier
  }

  // First come, first served: no cache, no lock, no limiter.
  function Allocate(items: map<Sku, Item>, c: Command): map<Sku, Item> {
    match c
    case Ask(_, sku, qty, _) => Take(items, sku, qty)
    case Return(_, sku, qty, _) => GiveBack(items, sku, qty)
    case Stock(sku, qty) =>
      var item := if sku in items then items[sku] else Item(0, 0);
      items[sku := item.(available := item.available + qty)]
  }

  ghost function Greedy(items: map<Sku, Item>, commands: seq<Command>): map<Sku, Item> {
    if commands == [] then items else
      Allocate(Greedy(items, commands[..|commands| - 1]), commands[|commands| - 1])
  }

  ghost function GreedyAnswers(items: map<Sku, Item>, commands: seq<Command>): map<OrderId, Reservation> {
    if commands == [] then map[] else
      var rest, last := commands[..|commands| - 1], commands[|commands| - 1];
      var answers := GreedyAnswers(items, rest);
      if last.Ask? then answers[last.order := Decide(Greedy(items, rest), last.sku, last.qty)] else answers
  }

  lemma {:induction false} OneAnswerPerAsk(items: map<Sku, Item>, commands: seq<Command>, o: OrderId)
    ensures o in GreedyAnswers(items, commands) <==> Asked(commands, o)
  {
    if commands != [] {
      var n := |commands| - 1;
      OneAnswerPerAsk(items, commands[..n], o);
      assert commands == commands[..n] + [commands[n]];
    }
  }

  lemma {:induction false} OnSale(items: map<Sku, Item>, commands: seq<Command>, sku: Sku)
    ensures sku in Greedy(items, commands) <==> sku in items || Stocked(commands, sku)
  {
    if commands != [] {
      var n := |commands| - 1;
      OnSale(items, commands[..n], sku);
      assert commands == commands[..n] + [commands[n]];
    }
  }

  // The state is what a greedy allocator made of these commands, and remembers their keys.
  ghost predicate IsGreedy(db: InventoryDb, items: map<Sku, Item>, commands: seq<Command>) {
    && db.items == Greedy(items, commands)
    && db.reservations == GreedyAnswers(items, commands)
    && (forall o :: o in db.released <==> Returned(commands, o))
  }

  lemma CommandsThatDoNotCount(items: map<Sku, Item>, db: InventoryDb, earlier: seq<Command>, last: Command)
    requires IsGreedy(db, items, earlier) && !Counts(items.Keys, earlier, last)
    ensures Obey(db, last) == db
  {
    OnSale(items, earlier, last.sku);
    if last.Ask? {
      OneAnswerPerAsk(items, earlier, last.order);
    }
  }

  lemma CommandsThatCount(items: map<Sku, Item>, db: InventoryDb, earlier: seq<Command>, last: Command)
    requires IsGreedy(db, items, earlier) && Counts(items.Keys, earlier, last)
    ensures Obey(db, last).items == Allocate(db.items, last)
    ensures Obey(db, last).reservations ==
            if last.Ask? then db.reservations[last.order := Decide(db.items, last.sku, last.qty)] else db.reservations
    ensures Obey(db, last).released == if last.Return? then db.released + {last.order} else db.released
  {
    OnSale(items, earlier, last.sku);
    if last.Ask? {
      OneAnswerPerAsk(items, earlier, last.order);
    }
  }

  lemma GreedyGrows(items: map<Sku, Item>, earlier: seq<Command>, last: Command)
    ensures Greedy(items, earlier + [last]) == Allocate(Greedy(items, earlier), last)
    ensures GreedyAnswers(items, earlier + [last]) ==
            var answers := GreedyAnswers(items, earlier);
            if last.Ask? then answers[last.order := Decide(Greedy(items, earlier), last.sku, last.qty)] else answers
  {
    assert (earlier + [last])[..|earlier|] == earlier;
  }

  lemma ReturnedGrows(commands: seq<Command>, c: Command, o: OrderId)
    ensures Returned(commands + [c], o) <==> Returned(commands, o) || (c.Return? && c.order == o)
  {
    assert forall x :: x in commands + [c] <==> x in commands || x == c;
  }

  lemma OneMoreCommand(items: map<Sku, Item>, db: InventoryDb, earlier: seq<Command>, last: Command)
    requires IsGreedy(db, items, earlier)
    ensures IsGreedy(Obey(db, last), items, if Counts(items.Keys, earlier, last) then earlier + [last] else earlier)
  {
    if Counts(items.Keys, earlier, last) {
      CommandsThatCount(items, db, earlier, last);
      GreedyGrows(items, earlier, last);
      var db' := Obey(db, last);
      forall o: OrderId
        ensures o in db'.released <==> Returned(earlier + [last], o)
      {
        ReturnedGrows(earlier, last, o);
      }
    } else {
      CommandsThatDoNotCount(items, db, earlier, last);
    }
  }

  /** Whatever is redelivered, throttled, timed out, compensated or restocked on the way: the stock,
      the cached answers and the orders given back are those of an allocator without cache, lock and
      limiter that is asked each thing once. */
  lemma {:induction false} DeduplicationIsGreedy(items: map<Sku, Item>, commands: seq<Command>)
    ensures var db, meant := Run(EmptyInventoryDb.(items := items), commands), Meant(items.Keys, commands);
            && db.items == Greedy(items, meant)
            && db.reservations == GreedyAnswers(items, meant)
            && forall o :: o in db.released <==> Returned(meant, o)
  {
    if commands != [] {
      var n := |commands| - 1;
      DeduplicationIsGreedy(items, commands[..n]);
      OneMoreCommand(items, Run(EmptyInventoryDb.(items := items), commands[..n]), Meant(items.Keys, commands[..n]), commands[n]);
    }
  }

  // ---- A compensated reservation leaves no trace ----

  // The stock of an order that is set aside in `held` is still for sale in `free`.
  predicate HeldApart(free: map<Sku, Item>, held: map<Sku, Item>, sku: Sku, qty: int) {
    && sku in free && free[sku].reserved >= 0
    && held == free[sku := Item(free[sku].available - qty, free[sku].reserved + qty)]
  }

  // The command finds the stock it asks for, and gives back no more than others have set aside,
  // on a store where qty units of sku are set aside for somebody else.
  predicate Smooth(held: map<Sku, Item>, c: Command, sku: Sku, qty: int) {
    c.sku in held ==>
      && (c.Ask? ==> 0 < c.qty <= held[c.sku].available)
      && (c.Return? ==> 0 < c.qty <= held[c.sku].reserved - if c.sku == sku then qty else 0)
  }

  ghost predicate AllSmooth(held: map<Sku, Item>, commands: seq<Command>, sku: Sku, qty: int) {
    commands != [] ==>
      var n := |commands| - 1;
      AllSmooth(held, commands[..n], sku, qty) && Smooth(Greedy(held, commands[..n]), commands[n], sku, qty)
  }

  lemma AllocatingApart(free: map<Sku, Item>, held: map<Sku, Item>, c: Command, sku: Sku, qty: int)
    requires qty > 0 && HeldApart(free, held, sku, qty) && Smooth(held, c, sku, qty)
    ensures HeldApart(Allocate(free, c), Allocate(held, c), sku, qty)
  {
    var free', held' := Allocate(free, c), Allocate(held, c);
    assert held' == free'[sku := held'[sku]];
  }

  lemma {:induction false} RunningApart(free: map<Sku, Item>, held: map<Sku, Item>, commands: seq<Command>, sku: Sku, qty: int)
    requires qty > 0 && HeldApart(free, held, sku, qty) && AllSmooth(held, commands, sku, qty)
    ensures HeldApart(Greedy(free, commands), Greedy(held, commands), sku, qty)
  {
    if commands != [] {
      var n := |commands| - 1;
      RunningApart(free, held, commands[..n], sku, qty);
      AllocatingApart(Greedy(free, commands[..n]), Greedy(held, commands[..n]), commands[n], sku, qty);
    }
  }

  /** Compensation is complete: after a reservation, anything that others do, and the release, the
      stock is what the others alone would have made of it, provided that the reservation cost none
      of them a sale and no return gives back what its order never had. */
  lemma CompensationLeavesNoTrace(items: map<Sku, Item>, sku: Sku, qty: int, others: seq<Command>)
    requires qty > 0 && sku in items && 0 <= items[sku].reserved && Decide(items, sku, qty).success
    requires AllSmooth(Take(items, sku, qty), others, sku, qty)
    ensures GiveBack(Greedy(Take(items, sku, qty), others), sku, qty) == Greedy(items, others)
  {
    RunningApart(items, Take(items, sku, qty), others, sku, qty);
    var free, held := Greedy(items, others), Greedy(Take(items, sku, qty), others);
    assert held[sku := free[sku]] == free;
  }
}
