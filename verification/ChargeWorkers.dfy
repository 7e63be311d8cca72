/** Any number of workers in _handle_charge at once, for any orders, one statement at a time under
    their order's lock (payment_service/main.py, shared/redis_client.py). */
module ChargeWorkers {
  import opened Messages
  import opened Locks
  import opened Payments

  // Where a worker is; the states from Entered to Leaving are inside the lock.
  datatype Pc =
    | Waiting
    | Entered
    | Missed                             // the cache had nothing
    | Hit(cached: CachedCharge)          // the cache had this
    | Called(result: GatewayResult)      // the gateway has answered
    | Committed(charge: CachedCharge)    // payment and outbox rows are in, the cache is not
    | Leaving
    | Gone

  // The ChargePayment a worker delivers.
  datatype Charging = Charging(order: OrderId, user: string, amount: int)

  datatype Worker = Worker(job: Charging, pc: Pc, since: int)

  datatype Shop = Shop(
    now: int,
    keys: map<OrderId, Key>,             // lock:payment:{order_id}
    workers: seq<Worker>,                // a worker's position is its lock token
    db: PaymentDb,
    calls: multiset<OrderId>,            // history: gateway calls,
    failedCommits: multiset<OrderId>,    //   those whose transaction was then rolled back,
    lostWrites: multiset<OrderId>)       //   those committed but never written to the cache

  datatype Step =
    | Tick(ms: nat)
    | TakeLock(w: nat)
    | GiveUp(w: nat)                        // LockAcquisitionError: nack and requeue
    | ReadCache(w: nat)
    | Replay(w: nat)
    | CallGateway(w: nat, result: GatewayResult)
    | Commit(w: nat)
    | StoreResult(w: nat)
    | Fail(w: nat)                          // an exception anywhere inside: nack and requeue
    | Unlocked(w: nat)
    | LeftLocked(w: nat)                    // release() itself fails, or the process dies

  predicate Inside(pc: Pc) {
    !pc.Waiting? && !pc.Gone?
  }

  function KeyOf(s: Shop, o: OrderId): Key {
    if o in s.keys then s.keys[o] else None
  }

  predicate Enabled(s: Shop, a: Step) {
    a.Tick? || (a.w < |s.workers| && CanDo(s, a, s.workers[a.w]))
  }

  predicate CanDo(s: Shop, a: Step, me: Worker) {
    match a
    case Tick(_) => true
    case TakeLock(_) => me.pc.Waiting? && Live(KeyOf(s, me.job.order), s.now).None?
    case GiveUp(_) => me.pc.Waiting?
    case ReadCache(_) => me.pc.Entered?
    case Replay(_) => me.pc.Hit?
    case CallGateway(_, _) => me.pc.Missed?
    case Commit(_) => me.pc.Called?
    case StoreResult(_) => me.pc.Committed?
    case Fail(_) => Inside(me.pc) && !me.pc.Leaving?
    case Unlocked(_) => me.pc.Leaving?
    case LeftLocked(_) => me.pc.Leaving?
  }

  function Goto(s: Shop, w: nat, pc: Pc): Shop
    requires w < |s.workers|
  {
    s.(workers := s.workers[w := s.workers[w].(pc := pc)])
  }

  function Do(s: Shop, a: Step, ttl: nat): Shop
    requires Enabled(s, a)
  {
    if a.Tick? then s.(now := s.now + a.ms) else
      var w, job, pc := a.w, s.workers[a.w].job, s.workers[a.w].pc;
      var o := job.order;
      match a
      case TakeLock(_) =>
        s.(keys := s.keys[o := SetNx(KeyOf(s, o), w, ttl, s.now)], workers := s.workers[w := Worker(job, Entered, s.now)])
      case GiveUp(_) => Goto(s, w, Gone)
      case ReadCache(_) => Goto(s, w, if o in s.db.charges then Hit(s.db.charges[o]) else Missed)
      case Replay(_) => Goto(s, w, Leaving).(db := s.db.(outbox := Append(s.db.outbox, EventFromCachedCharge(o, pc.cached))))
      case CallGateway(_, result) => Goto(s, w, Called(result)).(calls := s.calls + multiset{o})
      case Commit(_) =>
        var charge := FreshCharge(s.db.payments, job.amount, pc.result);
        Goto(s, w, Committed(charge)).(db := s.db.(
          payments := s.db.payments + [Payment(o, job.user, job.amount, charge.status, charge.failure)],
          outbox := Append(s.db.outbox, EventFromCachedCharge(o, charge))))
      case StoreResult(_) => Goto(s, w, Leaving).(db := s.db.(charges := s.db.charges[o := pc.charge]))
      case Fail(_) =>
        Goto(s, w, Leaving).(failedCommits := if pc.Called? then s.failedCommits + multiset{o} else s.failedCommits,
                             lostWrites := if pc.Committed? then s.lostWrites + multiset{o} else s.lostWrites)
      case Unlocked(_) => Goto(s, w, Gone).(keys := s.keys[o := Unlock(KeyOf(s, o), w, s.now)])
      case LeftLocked(_) => Goto(s, w, Gone)
  }

  // ---- Runs ----

  ghost predicate Legal(s: Shop, run: seq<Step>, ttl: nat)
    decreases |run|
  {
    run != [] ==> Enabled(s, run[0]) && Legal(Do(s, run[0], ttl), run[1..], ttl)
  }

  ghost function After(s: Shop, run: seq<Step>, ttl: nat): Shop
    requires Legal(s, run, ttl)
    decreases |run|
  {
    if run == [] then s else After(Do(s, run[0], ttl), run[1..], ttl)
  }

  // No critical section has lasted longer than d milliseconds so far.
  ghost predicate Timely(s: Shop, d: nat) {
    forall w :: 0 <= w < |s.workers| && Inside(s.workers[w].pc) ==> s.now <= s.workers[w].since + d
  }

  ghost predicate AlwaysTimely(s: Shop, run: seq<Step>, ttl: nat, d: nat)
    requires Legal(s, run, ttl)
    decreases |run|
  {
    && Timely(s, d)
    && (run != [] ==> AlwaysTimely(Do(s, run[0], ttl), run[1..], ttl, d))
  }

  // Workers about to deliver their commands, on any database.
  ghost function Opening(jobs: seq<Charging>, db: PaymentDb): Shop {
    Shop(0, map[], seq(|jobs|, i requires 0 <= i < |jobs| => Worker(jobs[i], Waiting, 0)), db, multiset{}, multiset{}, multiset{})
  }

  // ---- Mutual exclusion, whatever else overruns ----

  ghost predicate OnTime(s: Shop, w: nat, ttl: nat)
    requires w < |s.workers|
  {
    Inside(s.workers[w].pc) && s.now <= s.workers[w].since + ttl
  }

  ghost predicate Owns(s: Shop, w: nat, ttl: nat)
    requires w < |s.workers|
  {
    KeyOf(s, s.workers[w].job.order) == Some(Lease(w, s.workers[w].since + ttl))
  }

  // Whoever is inside and on time holds its order's key, with the lease it took on entering.
  ghost predicate Owned(s: Shop, ttl: nat) {
    forall w :: 0 <= w < |s.workers| && OnTime(s, w, ttl) ==> Owns(s, w, ttl)
  }

  lemma StepKeepsOwned(s: Shop, a: Step, ttl: nat)
    requires Owned(s, ttl) && Enabled(s, a)
    ensures Owned(Do(s, a, ttl), ttl)
  {
    var s' := Do(s, a, ttl);
    forall w | 0 <= w < |s'.workers| && OnTime(s', w, ttl)
      ensures Owns(s', w, ttl)
    {
      if !(a.TakeLock? && a.w == w) {
        assert OnTime(s, w, ttl) && Owns(s, w, ttl);
      }
    }
  }

  lemma {:induction false} RunKeepsOwned(s: Shop, run: seq<Step>, ttl: nat)
    requires Legal(s, run, ttl) && Owned(s, ttl)
    ensures Owned(After(s, run, ttl), ttl)
    decreases |run|
  {
    if run != [] {
      StepKeepsOwned(s, run[0], ttl);
      RunKeepsOwned(Do(s, run[0], ttl), run[1..], ttl);
    }
  }

  /** Holders within their TTL exclude each other: in any run, after any overruns, failures and
      crashes of others, two workers that are inside the lock of one order and have not outlived
      their lease are the same worker. */
  lemma HoldersOnTimeExclude(jobs: seq<Charging>, db: PaymentDb, run: seq<Step>, ttl: nat, v: nat, w: nat)
    requires Legal(Opening(jobs, db), run, ttl)
    requires var s := After(Opening(jobs, db), run, ttl);
             && v < |s.workers| && w < |s.workers|
             && OnTime(s, v, ttl) && OnTime(s, w, ttl) && s.workers[v].job.order == s.workers[w].job.order
    ensures v == w
  {
    RunKeepsOwned(Opening(jobs, db), run, ttl);
    var s := After(Opening(jobs, db), run, ttl);
    assert Owns(s, v, ttl) && Owns(s, w, ttl);
  }

  lemma {:induction false} TimelyAtTheEnd(s: Shop, run: seq<Step>, ttl: nat, d: nat)
    requires Legal(s, run, ttl) && AlwaysTimely(s, run, ttl, d)
    ensures Timely(After(s, run, ttl), d)
    decreases |run|
  {
    if run != [] {
      TimelyAtTheEnd(Do(s, run[0], ttl), run[1..], ttl, d);
    }
  }

  /** Mutual exclusion: when critical sections fit into the TTL, at most one worker per order is inside. */
  lemma NeverTwoInside(jobs: seq<Charging>, db: PaymentDb, run: seq<Step>, ttl: nat, d: nat, v: nat, w: nat)
    requires Legal(Opening(jobs, db), run, ttl) && AlwaysTimely(Opening(jobs, db), run, ttl, d) && d <= ttl
    requires var s := After(Opening(jobs, db), run, ttl);
             && v < |s.workers| && w < |s.workers|
             && Inside(s.workers[v].pc) && Inside(s.workers[w].pc) && s.workers[v].job.order == s.workers[w].job.order
    ensures v == w
  {
    TimelyAtTheEnd(Opening(jobs, db), run, ttl, d);
    HoldersOnTimeExclude(jobs, db, run, ttl, v, w);
  }

  lemma OnlyTheHolderReleases(s: Shop, a: Step, ttl: nat, o: OrderId)
    requires Enabled(s, a) && Live(KeyOf(s, o), s.now).Some?
    ensures var s' := Do(s, a, ttl);
            KeyOf(s', o) == KeyOf(s, o) || (a == Unlocked(KeyOf(s, o).value.token) && KeyOf(s', o) == None)
  {
  }

  lemma {:induction false} TimeMovesForward(s: Shop, run: seq<Step>, ttl: nat)
    requires Legal(s, run, ttl)
    ensures s.now <= After(s, run, ttl).now
    decreases |run|
  {
    if run != [] {
      TimeMovesForward(Do(s, run[0], ttl), run[1..], ttl);
    }
  }

  /** Late or not, no worker can remove another's key: over any run a lease stands until it expires
      or its own holder releases it. */
  lemma {:induction false} LeasesStand(s: Shop, run: seq<Step>, ttl: nat, o: OrderId, lease: Lease)
    requires Legal(s, run, ttl) && KeyOf(s, o) == Some(lease)
    requires After(s, run, ttl).now <= lease.expires && Unlocked(lease.token) !in run
    ensures KeyOf(After(s, run, ttl), o) == Some(lease)
    decreases |run|
  {
    if run != [] {
      TimeMovesForward(s, run, ttl);
      OnlyTheHolderReleases(s, run[0], ttl, o);
      LeasesStand(Do(s, run[0], ttl), run[1..], ttl, o, lease);
    }
  }

  // ---- What the workers inside know ----

  ghost predicate Knows(s: Shop, w: nat)
    requires w < |s.workers|
  {
    var o := s.workers[w].job.order;
    match s.workers[w].pc
    case Missed => o !in s.db.charges
    case Hit(cached) => o in s.db.charges && s.db.charges[o] == cached
    case Called(_) => o !in s.db.charges
    case Committed(_) => o !in s.db.charges
    case _ => true
  }

  ghost predicate Safe(s: Shop, ttl: nat) {
    && Owned(s, ttl)
    && forall w :: 0 <= w < |s.workers| ==> Knows(s, w)
  }

  // Nobody else is inside the same order's lock.
  ghost predicate Alone(s: Shop, w: nat)
    requires w < |s.workers|
  {
    forall v :: 0 <= v < |s.workers| && Inside(s.workers[v].pc) && s.workers[v].job.order == s.workers[w].job.order ==> v == w
  }

  lemma InsideMeansAlone(s: Shop, ttl: nat, d: nat, w: nat)
    requires Owned(s, ttl) && Timely(s, d) && d <= ttl
    requires w < |s.workers| && Inside(s.workers[w].pc)
    ensures Alone(s, w)
  {
    assert OnTime(s, w, ttl) && Owns(s, w, ttl);
    forall v | 0 <= v < |s.workers| && Inside(s.workers[v].pc) && s.workers[v].job.order == s.workers[w].job.order
      ensures v == w
    {
      assert OnTime(s, v, ttl) && Owns(s, v, ttl);
    }
  }

  lemma InsideMeansLocked(s: Shop, ttl: nat, d: nat, w: nat)
    requires Owned(s, ttl) && Timely(s, d) && d <= ttl
    requires w < |s.workers| && Inside(s.workers[w].pc)
    ensures Live(KeyOf(s, s.workers[w].job.order), s.now).Some?
  {
    assert OnTime(s, w, ttl) && Owns(s, w, ttl);
  }

  lemma TakingTheLockMeansAlone(s: Shop, ttl: nat, d: nat, w: nat)
    requires Owned(s, ttl) && Timely(s, d) && d <= ttl && Enabled(s, TakeLock(w))
    ensures Alone(s, w)
  {
    forall v | 0 <= v < |s.workers| && s.workers[v].job.order == s.workers[w].job.order
      ensures !Inside(s.workers[v].pc)
    {
      if Inside(s.workers[v].pc) {
        InsideMeansLocked(s, ttl, d, v);
      }
    }
  }

  // Everybody who acts on an order, except to give up, does so alone.
  lemma ActingAlone(s: Shop, a: Step, ttl: nat, d: nat)
    requires Owned(s, ttl) && Timely(s, d) && d <= ttl && Enabled(s, a) && !a.Tick? && !a.GiveUp?
    ensures Alone(s, a.w)
  {
    if a.TakeLock? {
      TakingTheLockMeansAlone(s, ttl, d, a.w);
    } else {
      InsideMeansAlone(s, ttl, d, a.w);
    }
  }

  lemma StepIsSafe(s: Shop, a: Step, ttl: nat, d: nat)
    requires Safe(s, ttl) && Timely(s, d) && d <= ttl && Enabled(s, a)
    ensures Safe(Do(s, a, ttl), ttl)
  {
    var s' := Do(s, a, ttl);
    StepKeepsOwned(s, a, ttl);
    if a.StoreResult? {
      ActingAlone(s, a, ttl, d);
    }
    forall w | 0 <= w < |s'.workers|
      ensures Knows(s', w)
    {
      assert Knows(s, w);
    }
  }

  // ---- The books of one order ----

  ghost predicate CommittedOn(s: Shop, o: OrderId) {
    exists w :: 0 <= w < |s.workers| && s.workers[w].pc.Committed? && s.workers[w].job.order == o
  }

  ghost predicate CalledOn(s: Shop, o: OrderId) {
    exists w :: 0 <= w < |s.workers| && s.workers[w].pc.Called? && s.workers[w].job.order == o
  }

  ghost function Rows(s: Shop, o: OrderId): nat {
    PaymentsOf(s.db.payments, o, |s.db.payments|)
  }

  // Every payment row is cached, about to be, or its cache write was lost; every gateway call led
  // to a payment row, is about to, or was rolled back.
  ghost predicate Books(s: Shop, o: OrderId) {
    && Rows(s, o) == (if o in s.db.charges then 1 else 0) + (if CommittedOn(s, o) then 1 else 0) + s.lostWrites[o]
    && s.calls[o] == Rows(s, o) + s.failedCommits[o] + (if CalledOn(s, o) then 1 else 0)
  }

  lemma PaymentsOfAppend(payments: seq<Payment>, p: Payment, o: OrderId)
    ensures PaymentsOf(payments + [p], o, |payments| + 1)
         == PaymentsOf(payments, o, |payments|) + if p.order == o then 1 else 0
  {
    PaymentsOfPrefix(payments, [p], o, |payments|);
  }

  lemma {:induction false} PaymentsOfPrefix(payments: seq<Payment>, more: seq<Payment>, o: OrderId, n: nat)
    requires n <= |payments|
    ensures PaymentsOf(payments + more, o, n) == PaymentsOf(payments, o, n)
  {
    if n > 0 {
      PaymentsOfPrefix(payments, more, o, n - 1);
    }
  }

  // Worker w moves on; what that means for who has committed and who has called.
  lemma MovingOn(s: Shop, s': Shop, w: nat, o: OrderId)
    requires w < |s.workers| && |s'.workers| == |s.workers| && s'.workers[w].job == s.workers[w].job
    requires s'.workers == s.workers[w := s'.workers[w]]
    requires Alone(s, w) || (!Inside(s.workers[w].pc) && !Inside(s'.workers[w].pc))
    ensures CommittedOn(s', o) <==>
            if o == s.workers[w].job.order && Alone(s, w) then s'.workers[w].pc.Committed? else CommittedOn(s, o)
    ensures CalledOn(s', o) <==>
            if o == s.workers[w].job.order && Alone(s, w) then s'.workers[w].pc.Called? else CalledOn(s, o)
  {
    assert forall v :: 0 <= v < |s.workers| && v != w ==> s'.workers[v] == s.workers[v];
  }

  lemma AloneDecides(s: Shop, w: nat)
    requires w < |s.workers| && Alone(s, w)
    ensures CommittedOn(s, s.workers[w].job.order) <==> s.workers[w].pc.Committed?
    ensures CalledOn(s, s.workers[w].job.order) <==> s.workers[w].pc.Called?
  {
  }

  // What a worker's step adds to the figures of an order.
  lemma StepCounts(s: Shop, a: Step, ttl: nat, o: OrderId)
    requires Enabled(s, a) && !a.Tick?
    ensures var s', mine := Do(s, a, ttl), s.workers[a.w].job.order == o;
            && Rows(s', o) == Rows(s, o) + (if mine && a.Commit? then 1 else 0)
            && s'.calls[o] == s.calls[o] + (if mine && a.CallGateway? then 1 else 0)
            && s'.failedCommits[o] == s.failedCommits[o] + (if mine && a.Fail? && s.workers[a.w].pc.Called? then 1 else 0)
            && s'.lostWrites[o] == s.lostWrites[o] + (if mine && a.Fail? && s.workers[a.w].pc.Committed? then 1 else 0)
            && (o in s'.db.charges <==> o in s.db.charges || (mine && a.StoreResult?))
  {
    if a.Commit? {
      PaymentsOfAppend(s.db.payments, Do(s, a, ttl).db.payments[|s.db.payments|], o);
    }
  }

  lemma TickKeepsBooks(s: Shop, ms: nat, ttl: nat, o: OrderId)
    requires Books(s, o)
    ensures Books(Do(s, Tick(ms), ttl), o)
  {
    var s' := Do(s, Tick(ms), ttl);
    assert CommittedOn(s', o) <==> CommittedOn(s, o);
    assert CalledOn(s', o) <==> CalledOn(s, o);
  }

  lemma StepKeepsBooks(s: Shop, a: Step, ttl: nat, d: nat, o: OrderId)
    requires Safe(s, ttl) && Books(s, o) && Timely(s, d) && d <= ttl && Enabled(s, a)
    ensures Books(Do(s, a, ttl), o)
  {
    if a.Tick? {
      TickKeepsBooks(s, a.ms, ttl, o);
    } else {
      if !a.GiveUp? {
        ActingAlone(s, a, ttl, d);
        AloneDecides(s, a.w);
      }
      MovingOn(s, Do(s, a, ttl), a.w, o);
      StepCounts(s, a, ttl, o);
      assert Knows(s, a.w);
    }
  }

  lemma {:induction false} RunIsSafe(s: Shop, run: seq<Step>, ttl: nat, d: nat)
    requires Legal(s, run, ttl) && AlwaysTimely(s, run, ttl, d) && d <= ttl && Safe(s, ttl)
    ensures Safe(After(s, run, ttl), ttl)
    decreases |run|
  {
    if run != [] {
      StepIsSafe(s, run[0], ttl, d);
      RunIsSafe(Do(s, run[0], ttl), run[1..], ttl, d);
    }
  }

  lemma {:induction false} RunKeepsBooks(s: Shop, run: seq<Step>, ttl: nat, d: nat, o: OrderId)
    requires Legal(s, run, ttl) && AlwaysTimely(s, run, ttl, d) && d <= ttl && Safe(s, ttl) && Books(s, o)
    ensures Books(After(s, run, ttl), o)
    decreases |run|
  {
    if run != [] {
      StepIsSafe(s, run[0], ttl, d);
      StepKeepsBooks(s, run[0], ttl, d, o);
      RunKeepsBooks(Do(s, run[0], ttl), run[1..], ttl, d, o);
    }
  }

  ghost predicate Unseen(db: PaymentDb, o: OrderId) {
    o !in db.charges && PaymentsOf(db.payments, o, |db.payments|) == 0
  }

  /** However many workers deliver whatever commands, and however their statements interleave: if
      every critical section fits into the lock's TTL, an order the database had not seen gets one
      payment row, and one more for each lost cache write; and one gateway call, one more for each
      lost cache write and each commit that failed. */
  lemma AtMostOneCharge(jobs: seq<Charging>, db: PaymentDb, run: seq<Step>, ttl: nat, d: nat, o: OrderId)
    requires Legal(Opening(jobs, db), run, ttl) && AlwaysTimely(Opening(jobs, db), run, ttl, d) && d <= ttl
    requires Unseen(db, o)
    ensures var s := After(Opening(jobs, db), run, ttl);
            && Rows(s, o) <= 1 + s.lostWrites[o]
            && s.calls[o] <= 1 + s.failedCommits[o] + s.lostWrites[o]
  {
    var start := Opening(jobs, db);
    var s := After(start, run, ttl);
    assert !CommittedOn(start, o) && !CalledOn(start, o);
    RunIsSafe(start, run, ttl, d);
    RunKeepsBooks(start, run, ttl, d, o);
    TimelyAtTheEnd(start, run, ttl, d);
    AtMostOneOpen(s, ttl, d, o);
  }

  lemma AtMostOneOpen(s: Shop, ttl: nat, d: nat, o: OrderId)
    requires Safe(s, ttl) && Timely(s, d) && d <= ttl
    ensures CommittedOn(s, o) ==> o !in s.db.charges && !CalledOn(s, o)
    ensures CalledOn(s, o) ==> o !in s.db.charges
  {
    forall w | 0 <= w < |s.workers| && s.workers[w].job.order == o && (s.workers[w].pc.Committed? || s.workers[w].pc.Called?)
      ensures o !in s.db.charges && (s.workers[w].pc.Committed? ==> !CalledOn(s, o))
    {
      assert Knows(s, w);
      InsideMeansAlone(s, ttl, d, w);
      AloneDecides(s, w);
    }
  }

  // ---- Refinement: interleavings of many orders are sequences of atomic charges ----

  // No two workers are between commit and cache write on one order.
  ghost predicate OneCommitter(s: Shop) {
    forall v, w | 0 <= v < |s.workers| && 0 <= w < |s.workers| ::
      s.workers[v].pc.Committed? && s.workers[w].pc.Committed? && s.workers[v].job.order == s.workers[w].job.order ==> v == w
  }

  ghost function Committing(s: Shop): set<OrderId> {
    set w | 0 <= w < |s.workers| && s.workers[w].pc.Committed? :: s.workers[w].job.order
  }

  ghost function ChargeOf(s: Shop, o: OrderId): CachedCharge
    requires o in Committing(s)
  {
    var w :| 0 <= w < |s.workers| && s.workers[w].pc.Committed? && s.workers[w].job.order == o;
    s.workers[w].pc.charge
  }

  ghost function Pending(s: Shop): map<OrderId, CachedCharge> {
    map o | o in Committing(s) :: ChargeOf(s, o)
  }

  // The database as atomic handlers would leave it: a committed charge counts as cached.
  ghost function Abstract(s: Shop): PaymentDb {
    s.db.(charges := s.db.charges + Pending(s))
  }

  lemma OnlyOneCommitter(s: Shop, ttl: nat, d: nat)
    requires Owned(s, ttl) && Timely(s, d) && d <= ttl
    ensures OneCommitter(s)
  {
    forall v, w | 0 <= v < |s.workers| && 0 <= w < |s.workers| && s.workers[v].pc.Committed? && s.workers[w].pc.Committed?
                  && s.workers[v].job.order == s.workers[w].job.order
      ensures v == w
    {
      InsideMeansAlone(s, ttl, d, w);
    }
  }

  lemma PendingAt(s: Shop, w: nat)
    requires OneCommitter(s) && w < |s.workers| && s.workers[w].pc.Committed?
    ensures s.workers[w].job.order in Pending(s) && Pending(s)[s.workers[w].job.order] == s.workers[w].pc.charge
  {
    assert s.workers[w].job.order in Committing(s);
  }

  lemma PendingElsewhere(s: Shop, s': Shop, w: nat, o: OrderId)
    requires OneCommitter(s) && OneCommitter(s')
    requires w < |s.workers| && |s'.workers| == |s.workers| && s'.workers == s.workers[w := s'.workers[w]]
    requires s'.workers[w].job == s.workers[w].job && o != s.workers[w].job.order
    ensures o in Pending(s') <==> o in Pending(s)
    ensures o in Pending(s) ==> Pending(s')[o] == Pending(s)[o]
  {
    if v :| 0 <= v < |s.workers| && s.workers[v].pc.Committed? && s.workers[v].job.order == o {
      PendingAt(s, v);
      PendingAt(s', v);
    }
  }

  lemma PendingHere(s: Shop, w: nat)
    requires OneCommitter(s) && w < |s.workers| && Alone(s, w)
    ensures s.workers[w].job.order in Pending(s) <==> s.workers[w].pc.Committed?
    ensures s.workers[w].pc.Committed? ==> Pending(s)[s.workers[w].job.order] == s.workers[w].pc.charge
  {
    if s.workers[w].pc.Committed? {
      PendingAt(s, w);
    }
  }

  lemma AloneStays(s: Shop, s': Shop, w: nat)
    requires w < |s.workers| && Alone(s, w) && |s'.workers| == |s.workers| && s'.workers == s.workers[w := s'.workers[w]]
    requires s'.workers[w].job == s.workers[w].job
    ensures Alone(s', w)
  {
  }

  // Two maps that agree everywhere but on one key.
  lemma OneKeyApart(p: map<OrderId, CachedCharge>, p': map<OrderId, CachedCharge>, o: OrderId)
    requires forall k :: k != o ==> (k in p' <==> k in p)
    requires forall k :: k != o && k in p ==> p'[k] == p[k]
    ensures p' == if o in p' then p[o := p'[o]] else p - {o}
  {
  }

  lemma PendingMoves(s: Shop, s': Shop, w: nat)
    requires OneCommitter(s) && OneCommitter(s') && w < |s.workers| && Alone(s, w)
    requires |s'.workers| == |s.workers| && s'.workers == s.workers[w := s'.workers[w]]
    requires s'.workers[w].job == s.workers[w].job
    ensures var o := s.workers[w].job.order;
            && (o in Pending(s) <==> s.workers[w].pc.Committed?)
            && Pending(s') == if s'.workers[w].pc.Committed? then Pending(s)[o := s'.workers[w].pc.charge] else Pending(s) - {o}
  {
    forall o | o != s.workers[w].job.order
      ensures o in Pending(s') <==> o in Pending(s)
      ensures o in Pending(s) ==> Pending(s')[o] == Pending(s)[o]
    {
      PendingElsewhere(s, s', w, o);
    }
    AloneStays(s, s', w);
    PendingHere(s, w);
    PendingHere(s', w);
    OneKeyApart(Pending(s), Pending(s'), s.workers[w].job.order);
  }

  lemma NothingMoves(s: Shop, s': Shop)
    requires OneCommitter(s) && |s'.workers| == |s.workers|
    requires forall w | 0 <= w < |s.workers| ::
               s'.workers[w].job == s.workers[w].job &&
               (s'.workers[w].pc == s.workers[w].pc || (!s'.workers[w].pc.Committed? && !s.workers[w].pc.Committed?))
    ensures Pending(s') == Pending(s)
  {
    assert forall o :: o in Committing(s') <==> o in Committing(s);
    forall o | o in Committing(s)
      ensures ChargeOf(s', o) == ChargeOf(s, o)
    {
      var w :| 0 <= w < |s.workers| && s.workers[w].pc.Committed? && s.workers[w].job.order == o;
      PendingAt(s, w);
      PendingAt(s', w);
    }
  }

  // What a statement does to the abstract database: nothing, one atomic delivery, or, when a cache
  // write is lost, a charge that was made is forgotten.
  datatype Atomic = Charged(job: Charging, result: GatewayResult) | Forgotten(order: OrderId)

  function Perform(db: PaymentDb, b: Atomic): PaymentDb {
    match b
    case Charged(job, result) => Charge(db, job.order, job.user, job.amount, result)
    case Forgotten(o) => db.(charges := db.charges - {o})
  }

  // A replay takes place when its event is committed, a charge when its payment is. A replay never
  // asks the gateway, so any answer will do.
  ghost function Visible(s: Shop, a: Step): Option<Atomic>
    requires Enabled(s, a)
  {
    match a
    case Replay(w) => Some(Charged(s.workers[w].job, GatewayResult(true, None)))
    case Commit(w) => Some(Charged(s.workers[w].job, s.workers[w].pc.result))
    case Fail(w) => if s.workers[w].pc.Committed? then Some(Forgotten(s.workers[w].job.order)) else None
    case _ => None
  }

  /** Each statement of a worker is invisible, or is the whole atomic step of the protocol, whatever
      other orders' workers are in the middle of. */
  lemma StepsRefineAtomicCharges(s: Shop, a: Step, ttl: nat, d: nat)
    requires Safe(s, ttl) && Timely(s, d) && d <= ttl && Enabled(s, a) && Timely(Do(s, a, ttl), d)
    ensures var before, after := Abstract(s), Abstract(Do(s, a, ttl));
            after == if Visible(s, a).Some? then Perform(before, Visible(s, a).value) else before
  {
    var s' := Do(s, a, ttl);
    StepKeepsOwned(s, a, ttl);
    OnlyOneCommitter(s, ttl, d);
    OnlyOneCommitter(s', ttl, d);
    if a.Tick? || a.GiveUp? {
      NothingMoves(s, s');
    } else {
      ActingAlone(s, a, ttl, d);
      PendingMoves(s, s', a.w);
      assert Knows(s, a.w);
      if a.StoreResult? {
        PendingAt(s, a.w);
      }
      ChargesAddUp(s.db.charges, Pending(s), s.workers[a.w].job.order, s'.workers[a.w].pc);
    }
  }

  // Adding a key to the right, or moving one from right to left, in a merged map.
  lemma ChargesAddUp(charges: map<OrderId, CachedCharge>, p: map<OrderId, CachedCharge>, o: OrderId, pc: Pc)
    ensures pc.Committed? ==> charges + p[o := pc.charge] == (charges + p)[o := pc.charge]
    ensures o !in p ==> p - {o} == p
    ensures o in p ==> charges[o := p[o]] + (p - {o}) == charges + p
    ensures o !in charges ==> charges + (p - {o}) == (charges + p) - {o}
  {
  }

  ghost function Serial(s: Shop, run: seq<Step>, ttl: nat): seq<Atomic>
    requires Legal(s, run, ttl)
    decreases |run|
  {
    if run == [] then [] else
      (if Visible(s, run[0]).Some? then [Visible(s, run[0]).value] else []) + Serial(Do(s, run[0], ttl), run[1..], ttl)
  }

  ghost function PerformAll(db: PaymentDb, steps: seq<Atomic>): PaymentDb
    decreases |steps|
  {
    if steps == [] then db else PerformAll(Perform(db, steps[0]), steps[1..])
  }

  lemma {:induction false} RunsRefineAtomicCharges(s: Shop, run: seq<Step>, ttl: nat, d: nat)
    requires Legal(s, run, ttl) && AlwaysTimely(s, run, ttl, d) && d <= ttl && Safe(s, ttl)
    ensures Abstract(After(s, run, ttl)) == PerformAll(Abstract(s), Serial(s, run, ttl))
    decreases |run|
  {
    if run != [] {
      var s' := Do(s, run[0], ttl);
      StepIsSafe(s, run[0], ttl, d);
      StepsRefineAtomicCharges(s, run[0], ttl, d);
      RunsRefineAtomicCharges(s', run[1..], ttl, d);
      var rest := Serial(s', run[1..], ttl);
      if Visible(s, run[0]).Some? {
        assert ([Visible(s, run[0]).value] + rest)[1..] == rest;
      } else {
        assert [] + rest == rest;
      }
    }
  }

  lemma {:induction false} ForgettingIsALostWrite(s: Shop, run: seq<Step>, ttl: nat, o: OrderId)
    requires Legal(s, run, ttl)
    ensures s.lostWrites <= After(s, run, ttl).lostWrites
    ensures Forgotten(o) in Serial(s, run, ttl) ==> After(s, run, ttl).lostWrites[o] > 0
    decreases |run|
  {
    if run != [] {
      ForgettingIsALostWrite(Do(s, run[0], ttl), run[1..], ttl, o);
    }
  }

  /** Serialisability, over any number of orders and from any database: once no worker is inside, the
      database is what atomic handlers, one after the other in the order of their commits, would have
      made of it. Only a lost cache write makes them forget a charge. */
  lemma InterleavingsAreSerial(jobs: seq<Charging>, db: PaymentDb, run: seq<Step>, ttl: nat, d: nat)
    requires Legal(Opening(jobs, db), run, ttl) && AlwaysTimely(Opening(jobs, db), run, ttl, d) && d <= ttl
    requires forall w :: 0 <= w < |After(Opening(jobs, db), run, ttl).workers| ==>
                           !Inside(After(Opening(jobs, db), run, ttl).workers[w].pc)
    ensures After(Opening(jobs, db), run, ttl).db == PerformAll(db, Serial(Opening(jobs, db), run, ttl))
    ensures forall o :: Forgotten(o) in Serial(Opening(jobs, db), run, ttl) ==> After(Opening(jobs, db), run, ttl).lostWrites[o] > 0
  {
    var start := Opening(jobs, db);
    RunsRefineAtomicCharges(start, run, ttl, d);
    assert Pending(start) == map[] && Pending(After(start, run, ttl)) == map[];
    assert db.charges + map[] == db.charges;
    forall o | Forgotten(o) in Serial(start, run, ttl)
      ensures After(start, run, ttl).lostWrites[o] > 0
    {
      ForgettingIsALostWrite(start, run, ttl, o);
    }
  }

  // ---- The conditions are exact ----

  // One more statement at the end of a run.
  lemma {:induction false} RunGoesOn(s: Shop, run: seq<Step>, a: Step, ttl: nat, d: nat)
    requires Legal(s, run, ttl) && AlwaysTimely(s, run, ttl, d)
    requires Enabled(After(s, run, ttl), a) && Timely(Do(After(s, run, ttl), a, ttl), d)
    ensures Legal(s, run + [a], ttl) && AlwaysTimely(s, run + [a], ttl, d)
    ensures After(s, run + [a], ttl) == Do(After(s, run, ttl), a, ttl)
    decreases |run|
  {
    if run == [] {
      assert run + [a] == [a] && [a][1..] == [];
    } else {
      RunGoesOn(Do(s, run[0], ttl), run[1..], a, ttl, d);
      assert (run + [a])[1..] == run[1..] + [a];
    }
  }

  const Approved := GatewayResult(true, None)

  lemma OnlyTimeMakesLate(s: Shop, a: Step, ttl: nat, d: nat)
    requires Timely(s, d) && Enabled(s, a) && !a.Tick?
    ensures Timely(Do(s, a, ttl), d)
  {
  }

  // The run leads from start to s, on time.
  ghost predicate Leads(start: Shop, run: seq<Step>, s: Shop, ttl: nat, d: nat) {
    Legal(start, run, ttl) && AlwaysTimely(start, run, ttl, d) && After(start, run, ttl) == s
  }

  lemma Then(start: Shop, run: seq<Step>, s: Shop, a: Step, ttl: nat, d: nat) returns (run': seq<Step>)
    requires Leads(start, run, s, ttl, d) && Enabled(s, a) && (a.Tick? ==> Timely(Do(s, a, ttl), d))
    ensures Leads(start, run', Do(s, a, ttl), ttl, d)
  {
    if !a.Tick? {
      TimelyAtTheEnd(start, run, ttl, d);
      OnlyTimeMakesLate(s, a, ttl, d);
    }
    RunGoesOn(start, run, a, ttl, d);
    run' := run + [a];
  }

  ghost predicate CanReachTheGateway(s: Shop, w: nat) {
    && w < |s.workers| && s.workers[w].pc == Waiting && s.workers[w].job.order !in s.db.charges
    && Live(KeyOf(s, s.workers[w].job.order), s.now).None?
  }

  // Worker w has taken the lock, found the cache empty and got the gateway's answer.
  ghost function AtTheGateway(s: Shop, w: nat, ttl: nat): Shop
    requires CanReachTheGateway(s, w)
  {
    var job := s.workers[w].job;
    s.(keys := s.keys[job.order := Some(Lease(w, s.now + ttl))],
       workers := s.workers[w := Worker(job, Called(Approved), s.now)],
       calls := s.calls + multiset{job.order})
  }

  lemma AsksTheGateway(start: Shop, run: seq<Step>, s: Shop, w: nat, ttl: nat, d: nat) returns (run': seq<Step>)
    requires Leads(start, run, s, ttl, d)
    requires w < |s.workers| && s.workers[w].pc == Entered && s.workers[w].job.order !in s.db.charges
    ensures Leads(start, run', Goto(s, w, Called(Approved)).(calls := s.calls + multiset{s.workers[w].job.order}), ttl, d)
  {
    var s' := Do(s, ReadCache(w), ttl);
    run' := Then(start, run, s, ReadCache(w), ttl, d);
    run' := Then(start, run', s', CallGateway(w, Approved), ttl, d);
    assert Do(s', CallGateway(w, Approved), ttl).workers == Goto(s, w, Called(Approved)).workers;
  }

  lemma ReachesTheGateway(start: Shop, run: seq<Step>, s: Shop, w: nat, ttl: nat, d: nat) returns (run': seq<Step>)
    requires Leads(start, run, s, ttl, d) && CanReachTheGateway(s, w)
    ensures Leads(start, run', AtTheGateway(s, w, ttl), ttl, d)
  {
    var s1 := Do(s, TakeLock(w), ttl);
    run' := Then(start, run, s, TakeLock(w), ttl, d);
    run' := AsksTheGateway(start, run', s1, w, ttl, d);
    assert s.workers[w := s1.workers[w]][w := Worker(s.workers[w].job, Called(Approved), s.now)]
        == AtTheGateway(s, w, ttl).workers;
  }

  // Two deliveries of one command; the first worker has charged the card.
  lemma FirstCharge(c: Charging, db: PaymentDb, ttl: nat, d: nat) returns (run: seq<Step>, s: Shop)
    requires Unseen(db, c.order)
    ensures Leads(Opening([c, c], db), run, s, ttl, d)
    ensures s == Shop(0, map[c.order := Some(Lease(0, ttl))], [Worker(c, Called(Approved), 0), Worker(c, Waiting, 0)],
                      db, multiset{c.order}, multiset{}, multiset{})
  {
    var start := Opening([c, c], db);
    assert start.workers == [Worker(c, Waiting, 0), Worker(c, Waiting, 0)];
    assert Leads(start, [], start, ttl, d);
    run := ReachesTheGateway(start, [], start, 0, ttl, d);
    s := AtTheGateway(start, 0, ttl);
  }

  // Its lease runs out before it gets any further.
  lemma OverlapChargesTwice(c: Charging, db: PaymentDb, ttl: nat, d: nat) returns (run: seq<Step>, end: Shop)
    requires Unseen(db, c.order) && d > ttl
    ensures Leads(Opening([c, c], db), run, end, ttl, d)
    ensures end.calls[c.order] == 2 && end.failedCommits == multiset{} && end.lostWrites == multiset{}
  {
    var s;
    run, s := FirstCharge(c, db, ttl, d);
    run := Then(Opening([c, c], db), run, s, Tick(ttl + 1), ttl, d);
    s := Do(s, Tick(ttl + 1), ttl);
    run := ReachesTheGateway(Opening([c, c], db), run, s, 1, ttl, d);
    end := AtTheGateway(s, 1, ttl);
  }

  // The first worker fails and gives the lock back.
  lemma FailsAndLeaves(start: Shop, run: seq<Step>, s: Shop, ttl: nat, d: nat) returns (run': seq<Step>, s': Shop)
    requires Leads(start, run, s, ttl, d) && 0 < |s.workers| && Inside(s.workers[0].pc) && !s.workers[0].pc.Leaving?
    requires KeyOf(s, s.workers[0].job.order) == Some(Lease(0, s.now + ttl))
    ensures Leads(start, run', s', ttl, d) && |s'.workers| == |s.workers|
    ensures s'.now == s.now && s'.db == s.db && s'.calls == s.calls && KeyOf(s', s.workers[0].job.order) == None
    ensures s'.workers[1..] == s.workers[1..]
    ensures s'.failedCommits == Do(s, Fail(0), ttl).failedCommits && s'.lostWrites == Do(s, Fail(0), ttl).lostWrites
  {
    run' := Then(start, run, s, Fail(0), ttl, d);
    s' := Do(s, Fail(0), ttl);
    run' := Then(start, run', s', Unlocked(0), ttl, d);
    s' := Do(s', Unlocked(0), ttl);
  }

  /** A commit that fails: the card is charged again on redelivery, with one payment row to show for it. */
  lemma FailedCommitChargesTwice(c: Charging, db: PaymentDb, ttl: nat, d: nat) returns (run: seq<Step>, end: Shop)
    requires Unseen(db, c.order)
    ensures Leads(Opening([c, c], db), run, end, ttl, d)
    ensures end.calls[c.order] == 2 && end.failedCommits[c.order] == 1 && end.lostWrites[c.order] == 0
  {
    var s;
    run, s := FirstCharge(c, db, ttl, d);
    run, s := FailsAndLeaves(Opening([c, c], db), run, s, ttl, d);
    assert s.workers[1] == s.workers[1..][0];
    run := ReachesTheGateway(Opening([c, c], db), run, s, 1, ttl, d);
    end := AtTheGateway(s, 1, ttl);
  }

  lemma CommitsOneRow(start: Shop, run: seq<Step>, s: Shop, w: nat, o: OrderId, ttl: nat, d: nat) returns (run': seq<Step>, s': Shop)
    requires Leads(start, run, s, ttl, d) && Enabled(s, Commit(w)) && s.workers[w].job.order == o
    ensures Leads(start, run', s', ttl, d) && s' == Do(s, Commit(w), ttl)
    ensures Rows(s', o) == Rows(s, o) + 1
  {
    run' := Then(start, run, s, Commit(w), ttl, d);
    s' := Do(s, Commit(w), ttl);
    PaymentsOfAppend(s.db.payments, s'.db.payments[|s.db.payments|], o);
  }

  /** A cache write that fails after the commit: the card is charged again on redelivery, and there
      are two payment rows. No critical section needs to take any time for that. */
  lemma LostWriteChargesTwice(c: Charging, db: PaymentDb, ttl: nat, d: nat) returns (run: seq<Step>, end: Shop)
    requires Unseen(db, c.order)
    ensures Leads(Opening([c, c], db), run, end, ttl, d)
    ensures end.calls[c.order] == 2 && Rows(end, c.order) == 2
    ensures end.failedCommits[c.order] == 0 && end.lostWrites[c.order] == 1
  {
    var s;
    run, s := FirstCharge(c, db, ttl, d);
    run, s := CommitsOneRow(Opening([c, c], db), run, s, 0, c.order, ttl, d);
    run, s := FailsAndLeaves(Opening([c, c], db), run, s, ttl, d);
    assert s.workers[1] == s.workers[1..][0];
    run := ReachesTheGateway(Opening([c, c], db), run, s, 1, ttl, d);
    s := AtTheGateway(s, 1, ttl);
    run, end := CommitsOneRow(Opening([c, c], db), run, s, 1, c.order, ttl, d);
  }

  // No commit failed and no cache write was lost.
  ghost predicate Faultless(s: Shop, o: OrderId) {
    s.failedCommits[o] == 0 && s.lostWrites[o] == 0
  }

  ghost predicate OneCharge(jobs: seq<Charging>, db: PaymentDb, run: seq<Step>, ttl: nat, d: nat, o: OrderId) {
    Legal(Opening(jobs, db), run, ttl) && AlwaysTimely(Opening(jobs, db), run, ttl, d) && Unseen(db, o) ==>
      var end := After(Opening(jobs, db), run, ttl);
      Faultless(end, o) ==> end.calls[o] <= 1
  }

  /** "One order, one charge" holds in all runs in which no commit fails, no cache write is lost and
      critical sections last at most d milliseconds, if and only if d is within the lock's TTL. */
  lemma OneChargeIffTtlCovers(ttl: nat, d: nat)
    ensures (forall jobs, db, run, o :: OneCharge(jobs, db, run, ttl, d, o)) <==> d <= ttl
  {
    if d <= ttl {
      forall jobs, db, run, o
        ensures OneCharge(jobs, db, run, ttl, d, o)
      {
        if Legal(Opening(jobs, db), run, ttl) && AlwaysTimely(Opening(jobs, db), run, ttl, d) && Unseen(db, o) {
          AtMostOneCharge(jobs, db, run, ttl, d, o);
        }
      }
    } else {
      var c := Charging(0, "", 1);
      var run, end := OverlapChargesTwice(c, EmptyPaymentDb, ttl, d);
      assert !OneCharge([c, c], EmptyPaymentDb, run, ttl, d, 0);
    }
  }
}
