/** Counting over runs: each order is one checkout, each notification one handled event, and each
    message in the queues one copy that was sent and not yet consumed. */
module Accounts {
  import opened Messages
  import Orders
  import opened System
  import opened Invariance

  // ---- Orders ----

  // The accepted checkouts, oldest first.
  function Checkouts(run: seq<Action>): seq<Action> {
    if run == [] then [] else (if run[0].Checkout? then [run[0]] else []) + Checkouts(run[1..])
  }

  // An order is what its checkout asked for, whatever has become of it since.
  predicate IsOrderOf(order: Orders.Order, a: Action) {
    a.Checkout? && order.user == a.user && order.sku == a.sku && order.qty == a.qty && order.amount == a.amount
  }

  lemma HandlingKeepsOrders(w: World, m: Message, env: Env)
    requires Handle(w, m, env).Some?
    ensures OrdersGrow(w.ord, Handle(w, m, env).value.ord) && |Handle(w, m, env).value.ord.orders| == |w.ord.orders|
  {
    HandlingGrows(w, m, env);
  }

  lemma StepPlacesOrders(w: World, a: Action)
    requires Legal(w, a)
    ensures var orders, orders' := w.ord.orders, Next(w, a).ord.orders;
            && |orders'| == |orders| + (if a.Checkout? then 1 else 0)
            && (forall o :: 0 <= o < |orders| ==> orders'[o].(status := orders[o].status) == orders[o])
            && (a.Checkout? ==> orders'[|orders|] == Orders.Order(a.user, a.sku, a.qty, a.amount, Orders.PENDING))
  {
    if a.Deliver? && Handle(w, a.msg, a.env).Some? {
      HandlingKeepsOrders(w, a.msg, a.env);
    }
  }

  lemma {:induction false} RunPlacesOrders(w: World, run: seq<Action>)
    requires LegalRun(w, run)
    ensures var orders, orders' := w.ord.orders, Outcome(w, run).ord.orders;
            && |orders'| == |orders| + |Checkouts(run)|
            && (forall o :: 0 <= o < |orders| ==> orders'[o].(status := orders[o].status) == orders[o])
            && forall k :: 0 <= k < |Checkouts(run)| ==> IsOrderOf(orders'[|orders| + k], Checkouts(run)[k])
    decreases |run|
  {
    if run != [] {
      StepPlacesOrders(w, run[0]);
      RunPlacesOrders(Next(w, run[0]), run[1..]);
      var rest, n := Checkouts(run[1..]), |w.ord.orders|;
      forall k | 0 <= k < |Checkouts(run)|
        ensures IsOrderOf(Outcome(w, run).ord.orders[n + k], Checkouts(run)[k])
      {
        if run[0].Checkout? && k > 0 {
          assert Checkouts(run)[k] == rest[k - 1];
        }
      }
    }
  }

  /** The table of orders is the list of checkouts: one order for each, in their order, saying what was
      asked for. */
  lemma OrdersAreTheCheckouts(run: seq<Action>, o: OrderId)
    requires LegalRun(Start, run)
    ensures |Outcome(Start, run).ord.orders| == |Checkouts(run)|
    ensures o < |Checkouts(run)| ==> IsOrderOf(Outcome(Start, run).ord.orders[o], Checkouts(run)[o])
  {
    RunPlacesOrders(Start, run);
  }

  // ---- Events of the order service ----

  predicate Finishes(a: Action) {
    a.Deliver? && (a.msg.ConfirmOrder? || a.msg.CancelOrder?)
  }

  function TimesFinished(run: seq<Action>): nat {
    if run == [] then 0 else (if Finishes(run[0]) then 1 else 0) + TimesFinished(run[1..])
  }

  lemma CommandsMoveTheOrders(w: World, m: Message, env: Env, acked: bool)
    requires m in w.queue
    ensures Next(w, Deliver(m, env, acked)).ord == if Consumer(m) == OrderService then Orders.Handle(w.ord, m) else w.ord
  {
  }

  lemma PublishingSparesTheOrders(w: World, svc: Service, i: nat, r: Row, q: multiset<Message>)
    requires i < |Outbox(w, svc)|
    ensures |Replace(w, svc, i, r, q).ord.outbox| == |w.ord.outbox|
  {
  }

  lemma StepEmitsOrderEvents(w: World, a: Action)
    requires Inv(w) && Legal(w, a)
    ensures |Next(w, a).ord.outbox| == |w.ord.outbox| + (if a.Checkout? || Finishes(a) then 1 else 0)
  {
    match a
    case Deliver(m, env, acked) =>
      CommandsMoveTheOrders(w, m, env, acked);
      if Consumer(m) == OrderService {
        FinalCommandsAreEmitted(w, m);
        Orders.FinalCommandsAreUnguarded(w.ord, m.order, if m.CancelOrder? then m.reason else "");
      }
    case Send(svc, i, copies) =>
      var r := Outbox(w, svc)[i];
      PublishingSparesTheOrders(w, svc, i, SendCopies(r, copies), AddCopies(w.queue, r.msg, copies));
    case Mark(svc, i) => PublishingSparesTheOrders(w, svc, i, Outbox(w, svc)[i].(published := true), w.queue);
    case _ =>
  }

  lemma FinalCommandsAreEmitted(w: World, m: Message)
    requires Inv(w) && m in w.queue && Consumer(m) == OrderService
    ensures m.order < |w.ord.orders|
  {
    ScriptDecides(w.saga, m.order);
  }

  lemma {:induction false} RunEmitsOrderEvents(w: World, run: seq<Action>)
    requires Inv(w) && LegalRun(w, run)
    ensures |Outcome(w, run).ord.outbox| == |w.ord.outbox| + |Checkouts(run)| + TimesFinished(run)
    decreases |run|
  {
    if run != [] {
      StepEmitsOrderEvents(w, run[0]);
      StepKeepsInvariant(w, run[0]);
      RunEmitsOrderEvents(Next(w, run[0]), run[1..]);
    }
  }

  /** The order service has no guard: it emits one event for each checkout and one for each final
      command it handles, copies included. */
  lemma OneEventPerCommand(run: seq<Action>)
    requires LegalRun(Start, run)
    ensures |Outcome(Start, run).ord.outbox| == |Checkouts(run)| + TimesFinished(run)
  {
    StartIsFine();
    RunEmitsOrderEvents(Start, run);
  }

  // ---- Notifications ----

  // The notification service handles an outcome of this order.
  predicate Tells(a: Action, o: OrderId) {
    a.Deliver? && a.msg.order == o && (a.msg.OrderConfirmed? || a.msg.OrderCancelled?)
  }

  function TimesTold(run: seq<Action>, o: OrderId): nat {
    if run == [] then 0 else (if Tells(run[0], o) then 1 else 0) + TimesTold(run[1..], o)
  }

  ghost function NotesFor(notes: seq<Orders.Notification>, o: OrderId): nat {
    if notes == [] then 0 else NotesFor(notes[..|notes| - 1], o) + if notes[|notes| - 1].order == o then 1 else 0
  }

  lemma OtherStepsSpareTheNotes(w: World, a: Action)
    requires Legal(w, a) && !(a.Deliver? && Consumer(a.msg) == NotificationService)
    ensures Next(w, a).notes == w.notes
  {
  }

  lemma NotesMove(w: World, m: Message, env: Env, acked: bool, o: OrderId)
    requires m in w.queue && Consumer(m) == NotificationService
    ensures NotesFor(Next(w, Deliver(m, env, acked)).notes, o) == NotesFor(w.notes, o) + if m.order == o then 1 else 0
  {
    var notes' := Next(w, Deliver(m, env, acked)).notes;
    assert notes' == w.notes + [notes'[|w.notes|]];
    assert notes'[..|w.notes|] == w.notes;
  }

  lemma {:induction false} RunTells(w: World, run: seq<Action>, o: OrderId)
    requires LegalRun(w, run)
    ensures NotesFor(Outcome(w, run).notes, o) == NotesFor(w.notes, o) + TimesTold(run, o)
    decreases |run|
  {
    if run != [] {
      var a := run[0];
      if a.Deliver? && Consumer(a.msg) == NotificationService {
        NotesMove(w, a.msg, a.env, a.acked, o);
      } else {
        OtherStepsSpareTheNotes(w, a);
      }
      RunTells(Next(w, a), run[1..], o);
    }
  }

  /** One row per handled event: a customer has as many notifications as outcome events of the order
      were handled. */
  lemma NotesAreTheHandledOutcomes(run: seq<Action>, o: OrderId)
    requires LegalRun(Start, run)
    ensures NotesFor(Outcome(Start, run).notes, o) == TimesTold(run, o)
  {
    RunTells(Start, run, o);
  }

  // ---- Copies ----

  ghost predicate Takes(w: World, a: Action, m: Message) {
    a.Deliver? && a.msg == m && a.acked && Handle(w, m, a.env).Some?
  }

  ghost function Puts(w: World, a: Action, m: Message): nat
    requires Legal(w, a)
  {
    match a
    case Send(svc, i, copies) => if Outbox(w, svc)[i].msg == m then copies else 0
    case Duplicate(d) => if d == m then 1 else 0
    case _ => 0
  }

  lemma HandlingSparesTheQueue(w: World, m: Message, env: Env)
    requires Handle(w, m, env).Some?
    ensures Handle(w, m, env).value.queue == w.queue
  {
  }

  /** Every copy is accounted for: one leaves the queues only when its handler has succeeded and the
      acknowledgement got through, and one comes in only by a send or a redelivery. */
  lemma CopiesAreAccountedFor(w: World, a: Action, m: Message)
    requires Legal(w, a)
    ensures Next(w, a).queue[m] + (if Takes(w, a, m) then 1 else 0) == w.queue[m] + Puts(w, a, m)
  {
    match a
    case Deliver(d, env, acked) =>
      if Handle(w, d, env).Some? {
        HandlingSparesTheQueue(w, d, env);
      }
    case Send(svc, i, copies) => SendQueues(w, svc, i, copies);
    case _ =>
  }

  lemma SendQueues(w: World, svc: Service, i: nat, copies: nat)
    requires i < |Outbox(w, svc)|
    ensures Sent(w, svc, i, copies).queue == w.queue[Outbox(w, svc)[i].msg := w.queue[Outbox(w, svc)[i].msg] + copies]
  {
  }
}
