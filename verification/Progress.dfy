/** Termination of whole runs: a potential that every fault-free step spends. */
module Progress {
  import opened Messages
  import opened System
  import opened Invariance
  import opened Theorems

  // How many messages can still follow from one message.
  function Followers(m: Message): nat {
    match m
    case OrderCreated(_, _, _, _, _) => 9
    case ReserveInventory(_, _, _) => 8
    case InventoryReserved(_, _, _) => 7
    case InventoryReservationFailed(_, _, _, _) => 7
    case ChargePayment(_, _, _) => 6
    case PaymentSucceeded(_, _, _) => 5
    case PaymentFailed(_, _) => 5
    case ReleaseInventory(_, _, _) => 4
    case InventoryReleased(_, _, _) => 3
    case ConfirmOrder(_) => 1
    case CancelOrder(_, _) => 1
    case OrderConfirmed(_) => 0
    case OrderCancelled(_, _) => 0
  }

  // What it takes to finish a copy in the queue: handle it, then send, mark and finish its followers.
  function CopyCost(m: Message): nat { 1 + 3 * Followers(m) }

  function RowCost(r: Row): nat {
    if r.published then 0 else if r.sends > 0 then 1 else 2 + CopyCost(r.msg)
  }

  ghost function RowsCost(rows: seq<Row>): nat {
    if rows == [] then 0 else RowsCost(rows[..|rows| - 1]) + RowCost(rows[|rows| - 1])
  }

  ghost function QueueCost(q: multiset<Message>): nat
    decreases |q|
  {
    if q == multiset{} then 0 else
      var m :| m in q;
      CopyCost(m) + QueueCost(q - multiset{m})
  }

  ghost function Potential(w: World): nat {
    RowsCost(w.ord.outbox) + RowsCost(w.saga.outbox) + RowsCost(w.inv.outbox) + RowsCost(w.pay.outbox) + QueueCost(w.queue)
  }

  // ---- Cost arithmetic ----

  lemma {:induction false} QueueCostSplits(q: multiset<Message>, m: Message)
    requires m in q
    ensures QueueCost(q) == CopyCost(m) + QueueCost(q - multiset{m})
    decreases |q|
  {
    var n :| n in q && QueueCost(q) == CopyCost(n) + QueueCost(q - multiset{n});
    if n != m {
      QueueCostSplits(q - multiset{n}, m);
      QueueCostSplits(q - multiset{m}, n);
      assert q - multiset{n} - multiset{m} == q - multiset{m} - multiset{n};
    }
  }

  lemma QueueCostGrows(q: multiset<Message>, m: Message)
    ensures QueueCost(q + multiset{m}) == CopyCost(m) + QueueCost(q)
  {
    QueueCostSplits(q + multiset{m}, m);
    assert q + multiset{m} - multiset{m} == q;
  }

  lemma OneCopyAtATime(q: multiset<Message>, m: Message, copies: nat)
    requires copies > 0
    ensures AddCopies(q, m, copies - 1) + multiset{m} == AddCopies(q, m, copies)
  {
  }

  lemma OneMoreCopy(q: multiset<Message>, m: Message, copies: nat)
    requires copies > 0
    ensures QueueCost(AddCopies(q, m, copies)) == CopyCost(m) + QueueCost(AddCopies(q, m, copies - 1))
  {
    OneCopyAtATime(q, m, copies);
    QueueCostGrows(AddCopies(q, m, copies - 1), m);
  }

  lemma NoMoreCopies(q: multiset<Message>, m: Message)
    ensures AddCopies(q, m, 0) == q
  {
  }

  lemma {:induction false} QueueCostOfCopies(q: multiset<Message>, m: Message, copies: nat)
    ensures QueueCost(q) <= QueueCost(AddCopies(q, m, copies)) <= QueueCost(q) + 28 * copies
    ensures copies == 1 ==> QueueCost(AddCopies(q, m, copies)) == QueueCost(q) + CopyCost(m)
    decreases copies
  {
    NoMoreCopies(q, m);
    if copies > 0 {
      OneMoreCopy(q, m, copies);
      QueueCostOfCopies(q, m, copies - 1);
    }
  }

  lemma RowsCostAppend(rows: seq<Row>, m: Message)
    ensures RowsCost(Append(rows, m)) == RowsCost(rows) + 2 + CopyCost(m)
  {
    assert Append(rows, m)[..|rows|] == rows;
  }

  lemma {:induction false} RowsCostUpdate(rows: seq<Row>, i: nat, r: Row)
    requires i < |rows|
    ensures RowsCost(rows[i := r]) + RowCost(rows[i]) == RowsCost(rows) + RowCost(r)
  {
    var n := |rows| - 1;
    if i < n {
      RowsCostUpdate(rows[..n], i, r);
      assert rows[i := r][..n] == rows[..n][i := r];
    } else {
      assert rows[i := r][..n] == rows[..n];
    }
  }

  lemma PotentialOfRowChange(w: World, svc: Service, i: nat, r: Row)
    requires i < |Outbox(w, svc)|
    ensures Potential(SetOutbox(w, svc, Outbox(w, svc)[i := r])) + RowCost(Outbox(w, svc)[i]) == Potential(w) + RowCost(r)
  {
    RowsCostUpdate(Outbox(w, svc), i, r);
  }

  // ---- Productive steps pay, the others borrow ----

  /** The steps of a system in which nothing goes wrong: each publish() delivers one copy, each
      handler that can get its lock succeeds and is acknowledged. */
  predicate Productive(w: World, a: Action) {
    match a
    case Send(svc, i, copies) => i < |Outbox(w, svc)| && Outbox(w, svc)[i].sends == 0 && copies == 1
    case Mark(svc, i) => i < |Outbox(w, svc)| && !Outbox(w, svc)[i].published
    case Deliver(m, env, acked) => acked && env.attempt.lockAcquired
    case _ => false
  }

  // The most work a step can add.
  function Loan(w: World, a: Action): nat {
    match a
    case Checkout(_, _, _, _) => 30
    case Send(svc, i, copies) => 28 * copies
    case Deliver(_, _, _) => 27
    case Duplicate(_) => 28
    case _ => 0
  }

  // A handler writes at most one row, and its message is closer to the end of the chain.
  lemma HandlersEmitAtMostOne(w: World, m: Message, env: Env) returns (svc: Service, child: Option<Message>)
    requires Handle(w, m, env).Some?
    ensures Handle(w, m, env).value.queue == w.queue
    ensures child.Some? ==> Followers(child.value) < Followers(m) && svc != NotificationService
    ensures forall k :: Outbox(Handle(w, m, env).value, k) ==
              if k == svc && child.Some? then Append(Outbox(w, k), child.value) else Outbox(w, k)
  {
    var done := Handle(w, m, env).value;
    svc := Consumer(m);
    child := if Outbox(done, svc) == Outbox(w, svc) then None else Some(Outbox(done, svc)[|Outbox(w, svc)|].msg);
  }

  lemma HandlingCosts(w: World, m: Message, env: Env)
    requires Handle(w, m, env).Some?
    ensures Handle(w, m, env).value.queue == w.queue
    ensures Potential(Handle(w, m, env).value) <= Potential(w) + 3 * Followers(m)
  {
    var svc, child := HandlersEmitAtMostOne(w, m, env);
    EmittingCosts(w, Handle(w, m, env).value, svc, child);
  }

  lemma EmittingCosts(w: World, done: World, svc: Service, child: Option<Message>)
    requires done.queue == w.queue && (child.Some? ==> svc != NotificationService)
    requires forall k :: Outbox(done, k) == if k == svc && child.Some? then Append(Outbox(w, k), child.value) else Outbox(w, k)
    ensures Potential(done) == Potential(w) + if child.Some? then 2 + CopyCost(child.value) else 0
  {
    assert Outbox(done, OrderService) == done.ord.outbox && Outbox(done, SagaCoordinator) == done.saga.outbox;
    assert Outbox(done, InventoryService) == done.inv.outbox && Outbox(done, PaymentService) == done.pay.outbox;
    if child.Some? {
      RowsCostAppend(Outbox(w, svc), child.value);
    }
  }

  lemma ConsumingCosts(w: World, m: Message)
    requires m in w.queue
    ensures Potential(w.(queue := w.queue - multiset{m})) + CopyCost(m) == Potential(w)
  {
    QueueCostSplits(w.queue, m);
  }

  lemma DeliveryCosts(w: World, m: Message, env: Env, acked: bool)
    requires m in w.queue
    ensures Potential(Next(w, Deliver(m, env, acked))) <= Potential(w) + 27
    ensures acked && Handle(w, m, env).Some? ==> Potential(Next(w, Deliver(m, env, acked))) < Potential(w)
  {
    if Handle(w, m, env).Some? {
      var done := Handle(w, m, env).value;
      HandlingCosts(w, m, env);
      if acked {
        ConsumingCosts(done, m);
        assert Next(w, Deliver(m, env, acked)) == done.(queue := done.queue - multiset{m});
      }
    }
  }

  lemma PotentialOfPublishing(w: World, svc: Service, i: nat, r: Row, q: multiset<Message>)
    requires i < |Outbox(w, svc)|
    ensures Potential(Replace(w, svc, i, r, q)) + RowCost(Outbox(w, svc)[i]) + QueueCost(w.queue)
            == Potential(w) + RowCost(r) + QueueCost(q)
  {
    PotentialOfRowChange(w, svc, i, r);
    SetOutboxKeepsQueue(w, svc, Outbox(w, svc)[i := r]);
    QueueingCosts(SetOutbox(w, svc, Outbox(w, svc)[i := r]), q);
  }

  lemma SetOutboxKeepsQueue(w: World, svc: Service, rows: seq<Row>)
    ensures SetOutbox(w, svc, rows).queue == w.queue
  {
  }

  lemma SendingMovesRowAndQueue(w: World, svc: Service, i: nat, copies: nat)
    requires i < |Outbox(w, svc)|
    ensures var r := Outbox(w, svc)[i];
            Potential(Sent(w, svc, i, copies)) + RowCost(r) + QueueCost(w.queue)
            == Potential(w) + RowCost(SendCopies(r, copies))
               + QueueCost(AddCopies(w.queue, r.msg, copies))
  {
    var r := Outbox(w, svc)[i];
    PotentialOfPublishing(w, svc, i, SendCopies(r, copies), AddCopies(w.queue, r.msg, copies));
  }

  lemma SendingCosts(w: World, svc: Service, i: nat, copies: nat)
    requires i < |Outbox(w, svc)| && !Outbox(w, svc)[i].published
    ensures Potential(Sent(w, svc, i, copies)) <= Potential(w) + 28 * copies
    ensures copies == 1 && Outbox(w, svc)[i].sends == 0 ==> Potential(Sent(w, svc, i, copies)) < Potential(w)
  {
    SendingMovesRowAndQueue(w, svc, i, copies);
    QueueCostOfCopies(w.queue, Outbox(w, svc)[i].msg, copies);
  }

  lemma QueueingCosts(w: World, q: multiset<Message>)
    ensures Potential(w.(queue := q)) + QueueCost(w.queue) == Potential(w) + QueueCost(q)
  {
  }

  lemma StepsPayOrBorrow(w: World, a: Action)
    requires Legal(w, a)
    ensures Potential(Next(w, a)) <= Potential(w) + Loan(w, a)
    ensures Productive(w, a) ==> Potential(Next(w, a)) < Potential(w)
  {
    match a
    case Checkout(_, _, _, _) =>
      RowsCostAppend(w.ord.outbox, Next(w, a).ord.outbox[|w.ord.outbox|].msg);
    case Seed(_, _) =>
    case Send(svc, i, copies) => SendingCosts(w, svc, i, copies);
    case Mark(svc, i) => PotentialOfPublishing(w, svc, i, Outbox(w, svc)[i].(published := true), w.queue);
    case Deliver(m, env, acked) => DeliveryCosts(w, m, env, acked);
    case Nack(_) =>
    case Duplicate(m) => QueueCostGrows(w.queue, m);
  }

  // ---- Whole runs ----

  ghost function ProductiveSteps(w: World, run: seq<Action>): nat
    requires LegalRun(w, run)
    decreases |run|
  {
    if run == [] then 0 else
      (if Productive(w, run[0]) then 1 else 0) + ProductiveSteps(Next(w, run[0]), run[1..])
  }

  ghost function Loans(w: World, run: seq<Action>): nat
    requires LegalRun(w, run)
    decreases |run|
  {
    if run == [] then 0 else
      (if Productive(w, run[0]) then 0 else Loan(w, run[0])) + Loans(Next(w, run[0]), run[1..])
  }

  /** Every run is bounded: the fault-free steps of any run are no more than 30 for every checkout,
      28 for every spare copy and 27 for every delivery that went wrong, plus what was open before. */
  lemma {:induction false} RunsAreBounded(w: World, run: seq<Action>)
    requires LegalRun(w, run)
    ensures ProductiveSteps(w, run) + Potential(Outcome(w, run)) <= Potential(w) + Loans(w, run)
    decreases |run|
  {
    if run != [] {
      StepsPayOrBorrow(w, run[0]);
      RunsAreBounded(Next(w, run[0]), run[1..]);
    }
  }

  // As long as anything is open, some fault-free step can be taken.
  lemma SomethingToDo(w: World, env: Env) returns (a: Action)
    requires BrokerOk(w) && !Quiescent(w) && env.attempt.lockAcquired
    ensures Legal(w, a) && Productive(w, a)
  {
    if w.queue != multiset{} {
      var m :| m in w.queue;
      a := Deliver(m, env, true);
    } else {
      var svc, i :| 0 <= i < |Outbox(w, svc)| && !Outbox(w, svc)[i].published;
      a := if Outbox(w, svc)[i].sends > 0 then Mark(svc, i) else Send(svc, i, 1);
    }
  }

  ghost predicate AllProductive(w: World, run: seq<Action>)
    requires LegalRun(w, run)
    decreases |run|
  {
    run != [] ==> Productive(w, run[0]) && AllProductive(Next(w, run[0]), run[1..])
  }

  lemma {:induction false} ProductiveRunsTakeNoLoan(w: World, run: seq<Action>)
    requires LegalRun(w, run) && AllProductive(w, run)
    ensures ProductiveSteps(w, run) == |run| && Loans(w, run) == 0
    decreases |run|
  {
    if run != [] {
      ProductiveRunsTakeNoLoan(Next(w, run[0]), run[1..]);
    }
  }

  /** Once faults stop, the system settles, whatever order things happen in: from any reachable state
      every fault-free run has at most Potential(w) steps, and when it can go no further everything is
      published and consumed and every order is CONFIRMED or CANCELLED. */
  lemma FaultFreeRunsSettle(w: World, run: seq<Action>, env: Env)
    requires Reachable(w) && LegalRun(w, run) && AllProductive(w, run) && env.attempt.lockAcquired
    ensures |run| <= Potential(w)
    ensures var end := Outcome(w, run);
            (forall a :: Legal(end, a) ==> !Productive(end, a)) ==>
              && Quiescent(end)
              && forall o :: 0 <= o < |end.ord.orders| ==> IsConfirmed(end, o) || IsCancelled(end, o)
  {
    var end := Outcome(w, run);
    ProductiveRunsTakeNoLoan(w, run);
    RunsAreBounded(w, run);
    RunsStayReachable(w, run);
    ReachableIsInvariant(end);
    if forall a :: Legal(end, a) ==> !Productive(end, a) {
      if !Quiescent(end) {
        var a := SomethingToDo(end, env);
        assert false;
      }
      forall o | 0 <= o < |end.ord.orders|
        ensures IsConfirmed(end, o) || IsCancelled(end, o)
      {
        NoOrderIsStuck(end, o);
      }
    }
  }

  lemma HandlingAddsNothing(w: World, m: Message, env: Env)
    requires Handle(w, m, env).Some?
    ensures Handle(w, m, env).value.seeded == w.seeded && |Handle(w, m, env).value.ord.orders| == |w.ord.orders|
  {
  }

  lemma PublishingAddsNothing(w: World, svc: Service, i: nat, r: Row, q: multiset<Message>)
    requires i < |Outbox(w, svc)|
    ensures Replace(w, svc, i, r, q).seeded == w.seeded && Replace(w, svc, i, r, q).ord.orders == w.ord.orders
  {
  }

  lemma ProductiveStepsAddNothing(w: World, a: Action)
    requires Legal(w, a) && Productive(w, a)
    ensures Next(w, a).seeded == w.seeded && |Next(w, a).ord.orders| == |w.ord.orders|
  {
    match a
    case Send(svc, i, copies) =>
      var r := Outbox(w, svc)[i];
      PublishingAddsNothing(w, svc, i, SendCopies(r, copies), AddCopies(w.queue, r.msg, copies));
    case Mark(svc, i) => PublishingAddsNothing(w, svc, i, Outbox(w, svc)[i].(published := true), w.queue);
    case Deliver(m, env, _) =>
      if Handle(w, m, env).Some? {
        HandlingAddsNothing(w, m, env);
      }
  }

  /** And there is such a run: every reachable system can settle, without new orders or stock. */
  lemma {:induction false} SystemSettles(w: World, env: Env) returns (run: seq<Action>)
    requires Inv(w) && env.attempt.lockAcquired
    ensures LegalRun(w, run) && AllProductive(w, run)
    ensures Quiescent(Outcome(w, run))
    ensures Outcome(w, run).seeded == w.seeded && |Outcome(w, run).ord.orders| == |w.ord.orders|
    decreases Potential(w)
  {
    if Quiescent(w) {
      run := [];
    } else {
      var a := SomethingToDo(w, env);
      StepsPayOrBorrow(w, a);
      StepKeepsInvariant(w, a);
      ProductiveStepsAddNothing(w, a);
      var rest := SystemSettles(Next(w, a), env);
      run := [a] + rest;
      RunStarts(w, a, rest);
      assert run[0] == a && run[1..] == rest;
    }
  }
}
