# Flash-sale checkout: a verified model

The project models the flash-sale checkout engine as a protocol between five services: an order
service, a saga coordinator, an inventory service, a payment service and a notification service. Each
service owns its tables and writes its messages to a transactional outbox; a dispatcher publishes the
outbox; a broker delivers every message at least once, in any order and in any number of copies. Redis
supplies the lock, the idempotency caches and a token bucket per SKU.

What is proved, in short:

- **All or nothing.** A CONFIRMED order holds its stock and was paid exactly once, by its own user and
  over its own amount. A CANCELLED order was not paid, and it holds stock *if and only if* it was
  stranded: one delivery of its ReserveInventory took stock, and the first answer the coordinator
  handled was a rejection. That takes a delivery turned away for want of the lock or a token, and a
  second one; from every state in which an order waits for its stock there is a run that does it.
- **Nothing gets stuck.** A PENDING order always has a message on its way that moves it forward; when
  everything is published and consumed, every order is settled and every customer was told. The number
  of fault-free steps of any run is bounded, so once faults stop the system settles.
- **Stock is conserved and never oversold**, and the audit script is clean on a settled system if and
  only if none of the SKU's orders was stranded.
- **Customers are told what happened**: one kind of notification per order, "declined" only for a
  declined payment. "Sold out" is said of every rejected reservation; unless the order was turned away
  and asked again, it is true if and only if the recorded reason is insufficient_stock. A run in which
  it is said of stock that is held for that very order is given.
- **One charge per order**, for any number of workers and orders interleaved statement by statement, in
  all runs without failed commits and lost cache writes, if and only if critical sections fit into the
  lock's TTL. Each failed commit costs at most one more gateway call, each lost cache write one more
  call and one more payment row, and runs that do so are given. The interleaving is equivalent to a
  sequence of atomic handlers. Holders within their TTL exclude each other whatever the others overrun.
- **The gateway decides**: a CONFIRMED order is one whose first handled charge was approved; one
  cancelled after a charge had it declined, and every cancellation quotes the reason that was given.
- **The dispatcher** publishes in order, at least once, drains batch by batch, resends a bounded number
  of copies, and refines the publishing steps of the protocol.
- **The token bucket**, in every run, refusals included, grants a request if and only if what was granted
  in each window that ends with it and the request itself fit; a refusal costs nothing; its 60-second
  key expiry is invisible if and only if the bucket refills in 60 seconds (the default settings,
  capacity 50 and 20 tokens per second, do).

## Files

| file | part of the system |
|---|---|
| Messages.dfy | message schemas, outbox rows, routing |
| Saga.dfy | the coordinator's transition table and handlers; command traces |
| Inventory.dfy | reservations, releases and seeds; the greedy allocator |
| Payments.dfy | the charge path and its replay |
| Orders.dfy | checkout, final statuses, notifications |
| System.dfy | the composed protocol: states, steps, runs, the invariant |
| Invariance.dfy | every step keeps the invariant |
| Theorems.dfy | the promises, over every reachable state |
| Stranding.dfy | which orders are left with stock, in terms of what was delivered |
| Progress.dfy | bounded runs and settlement |
| Causes.dfy | why an order ended as it did |
| Accounts.dfy | orders, notifications and copies counted over runs |
| Audit.dfy | the consistency audit and its exact verdict |
| StrandedRuns.dfy | runs that strand stock |
| Locks.dfy, ChargeWorkers.dfy | the Redis lock and interleaved charge workers |
| Dispatcher.dfy, Publishing.dfy | the outbox dispatcher and its place in the protocol |
| TokenBucket.dfy | the rate limiter |

Each service is a class whose methods change its fields step by step and are proved equal to a function
on the service's database; the protocol composes those functions.

## Hypotheses

- In the composed protocol a handler is one atomic transaction, caches included. The code has windows
  between a cache write and a commit (inventory_service/reservation.py:107 before
  inventory_service/main.py:133, payment_service/main.py:163 before :170), and reads saga rows without
  a row lock (saga_coordinator/transitions.py:66-68). For the charge path ChargeWorkers.dfy proves the
  atomicity from the lock, for workers of many orders on one database, up to lost cache writes;
  elsewhere it is assumed.
- Seeding does not race with reservations (inventory_service/main.py:89-97 reads without FOR UPDATE).
- No message is redelivered after an idempotency entry has expired (shared/redis_client.py:149).
- Queues are bound before the first message is published; after that the broker loses nothing.
- Outbox rows are committed in created_at order.
- The answers of the lock, the token bucket and the payment gateway are arbitrary at every delivery. A
  fresh bucket admits its first request (TokenBucket.FreshBucketsAdmit), so the runs that need an order
  to be turned away at once use a lock timeout.
- Redis' clock does not advance more than the callers' clocks between two requests to a token bucket,
  where its expiry is claimed to be invisible; without that it is not (TokenBucket.FastServersShowTheExpiry).
- Redis drops a key once its clock has passed the deadline, not at the deadline itself.

## Where code and documentation differ

The model follows the code. The limiter rejects instead of waiting and runs inside the lock
(inventory_service/reservation.py:78-90; README.md and the module's own docstring say otherwise); the
reservation cache is keyed by order only (inventory_service/reservation.py:68; README.md adds the SKU).
The audit's docstring announces a comparison of available + reserved with the seeded quantity and a
check for exactly one SUCCEEDED payment; its code compares neither, and counts payment rows of any
status (scripts/verify_consistency.py:80-118). Both missing properties are proved of the system here.

## Model

| member | source | states |
|---|---|---|
| Saga.Coordinator.HandleOrderCreated | saga_coordinator/transitions.py:71-89 | the row and outbox it leaves are those of the transition table; applied only for a new order |
| Saga.Coordinator.HandleInventoryReserved | saga_coordinator/transitions.py:92-103 | follows the transition table; applied exactly from RESERVING |
| Saga.Coordinator.HandleInventoryReservationFailed | saga_coordinator/transitions.py:106-118 | follows the transition table; applied exactly from RESERVING; RejectedOrders spells out its command |
| Saga.Coordinator.HandlePaymentSucceeded | saga_coordinator/transitions.py:121-133 | follows the transition table; applied exactly from CHARGING |
| Saga.Coordinator.HandlePaymentFailed | saga_coordinator/transitions.py:136-152 | follows the transition table; applied exactly from CHARGING |
| Saga.Coordinator.HandleInventoryReleased | saga_coordinator/transitions.py:155-166 | follows the transition table; applied exactly from COMPENSATING |
| Saga.Coordinator.Consume | saga_coordinator/main.py:89-113 | dispatch by event; an event that is not applied leaves rows and outbox alone |
| Saga.AppliesExactlyAtItsRank | saga_coordinator/transitions.py:96-163 | an event applies iff the saga stands at the event's rank; then the rank strictly grows, and no other order is touched |
| Saga.CommandTraces | saga_coordinator/transitions.py:1-27 | for every event sequence the commands of an order are a prefix of one of three scripts, with payloads from its saga row |
| Saga.RejectedOrders | saga_coordinator/transitions.py:106-118 | for every event sequence whose first stock answer is a rejection: the commands are the reservation and a CancelOrder with the text inventory_unavailable: and that reason |
| Saga.PaidOrders | saga_coordinator/transitions.py:71-133 | commands and final saga row of a paid order, from its events alone |
| Saga.DeclinedOrders | saga_coordinator/transitions.py:136-166 | commands of a declined order, ending in a CancelOrder with the text payment_failed: and the reason of the decline |
| Saga.OrdersAreIndependent | saga_coordinator/transitions.py:66-166 | row and commands of an order depend on its own events only |
| Saga.LateCopiesChangeNothing | saga_coordinator/transitions.py:22-28 | a copy of an event the saga has accepted or moved past changes nothing, wherever it is inserted |
| Inventory.Warehouse.SeedInventory | inventory_service/main.py:86-98 | adds to a known or new SKU; non-positive quantities are rejected |
| Inventory.Warehouse.TryReserve | inventory_service/reservation.py:60-112 | answer and new state: lock, cache, limiter and stock decision in the code's order; transient answers are not cached |
| Inventory.Warehouse.ReleaseReservation | inventory_service/reservation.py:115-136 | gives stock back once per order; nothing for an unknown SKU |
| Inventory.Warehouse.Consume | inventory_service/main.py:111-142 | one outcome event per handled command; a release without the lock raises and commits nothing |
| Inventory.ReservationsAreAnswered | inventory_service/reservation.py:66-112 | without the lock the answer is lock_timeout, decided before or not; with the lock, undecided and without a token it is rate_limited; nothing else changes |
| Inventory.DecisionsFollowTheStock | inventory_service/reservation.py:92-110 | with lock and token a new order gets the answer the stock allows, and the stock moves accordingly |
| Inventory.CopiesRepeatTheDecision | inventory_service/reservation.py:72-75 | after any further deliveries, a copy handled under the lock repeats the event of the first decision, whatever the bucket says |
| Inventory.ReleasesGiveBack | inventory_service/reservation.py:115-136 | a release needs the lock, moves stock once per order with the clamp, and is confirmed every time |
| Inventory.DeduplicationIsGreedy | inventory_service/reservation.py:68-136 | after any sequence of reserve attempts, releases and seeds: stock, cached answers and orders given back are those of an allocator without cache, lock and limiter, run on the first admitted ask and the first return of each order and on all seeds |
| Inventory.CompensationLeavesNoTrace | inventory_service/reservation.py:115-136 | a reservation and its release, with any commands of others in between that find the stock they ask for, leave the stock as the others alone would |
| Payments.Cashier.HandleCharge | payment_service/main.py:109-170 | replay from the cache, or one payment row, one event and one cache entry that agree |
| Payments.Cashier.Consume | payment_service/main.py:94-106 | without the lock the handler raises and nothing is committed |
| Payments.FreshChargesFollowTheGateway | payment_service/main.py:135-163 | a fresh charge leaves one row that is SUCCEEDED iff the gateway approved, and exactly the event that says so |
| Payments.CopiesRepeatTheFirstCharge | payment_service/main.py:121-133 | after any further deliveries, a copy repeats the first event and adds no payment |
| Orders.OrderDesk.PlaceOrder | order_service/main.py:78-106 | order and OrderCreated row appear together, or the request is rejected |
| Orders.OrderDesk.Consume | order_service/main.py:133-154 | unguarded final status plus the matching event; unknown orders are skipped |
| Orders.FinalCommandsAreUnguarded | order_service/main.py:133-154 | a final command sets its status from any status and is answered by one event each time; unknown orders are left alone |
| Orders.Notifier.Consume | notification_service/main.py:97-138 | one notification per outcome event, its text chosen by the reason's prefix |
| Invariance.StepKeepsInvariant | shared/rabbitmq.py:123-131 | every step of the protocol keeps the agreement of all services, the stock ledger and the delivery guarantee |
| Invariance.HandlingHasItsEffect | shared/rabbitmq.py:107-113 | every successful handling of a genuine message brings about that message's lasting effect |
| Theorems.PendingOrdersHaveWork | saga_coordinator/transitions.py:71-166 | a PENDING order always has a message on its way whose handling advances it |
| Theorems.NoOrderIsStuck | scripts/verify_consistency.py:13-15 | when all is published and consumed every order is CONFIRMED or CANCELLED |
| Stranding.AllOrNothing | inventory_service/reservation.py:60-112 | stock and payment of confirmed and cancelled orders; a cancelled order holds stock iff a delivery took stock and the coordinator handled a rejection first |
| Stranding.OnlyRetriedOrdersStrand | inventory_service/reservation.py:82-112 | a stranded order was turned away for want of the lock or a token, and its command was handled at least twice |
| Stranding.RejectedIffTurnedAway | inventory_service/reservation.py:82-112 | over any run a transient rejection is emitted iff a delivery was turned away |
| Stranding.CancelledMeansNothingHeld | inventory_service/reservation.py:66-112 | in runs that never turn the order away, or handle its command at most once, a cancelled order holds nothing |
| Theorems.PaidIffConfirmed | saga_coordinator/transitions.py:121-166 | on a settled system an order has its one SUCCEEDED payment iff it is CONFIRMED |
| Theorems.OnePaymentOneOutcome | payment_service/main.py:102-155 | at most one payment row per order; all payment events of an order are the same message |
| Theorems.PaymentsAreForTheOrder | payment_service/main.py:137-144 | each payment row carries its order's user and amount |
| Theorems.NeverOversold | inventory_service/reservation.py:97-105 | both stock columns stay non-negative, sum to what was seeded, and the reserved one equals the holders' quantities and covers the confirmed ones |
| Theorems.ReleaseNeverClamps | inventory_service/reservation.py:125-133 | whenever a release is about to move stock, the SKU exists and enough is reserved |
| Theorems.StockCommandsCarryTheOrder | saga_coordinator/transitions.py:79-152 | all stock commands of an order name its SKU and quantity |
| Theorems.EventsAreNeverEarly | saga_coordinator/transitions.py:92-166 | no event arrives before the saga can take it; a skipped event is one the saga has moved past |
| Theorems.FinalStatusNeverFlips | order_service/main.py:141-154 | a final status survives every further run |
| Theorems.NotificationsMatchTheOutcome | notification_service/main.py:97-138 | kind agrees with the order's status; "declined" iff its only charge was declined, "sold out" iff no charge was attempted, and then a rejection with the recorded reason was emitted; the fallback text is never sent |
| Stranding.SoldOutIffFoundShort | notification_service/main.py:129-138 | when "sold out" is true: exactly for the recorded reason insufficient_stock, unless the order was turned away and asked again; then stock may even be held for it |
| Theorems.EveryCustomerIsTold | order_service/main.py:119-131 | on a settled system each order has a notification of its outcome |
| Causes.TheGatewayDecides | payment_service/main.py:135-163 | over any run: confirmed orders had their first handled charge approved; cancelled ones were never charged, or had it declined with the reason the CancelOrder quotes |
| Causes.CancellationsQuoteTheCause | saga_coordinator/transitions.py:106-166 | every OrderCancelled carries the text of a rejection or decline that was really emitted |
| Accounts.OrdersAreTheCheckouts | order_service/main.py:78-106 | over any run the orders are the accepted checkouts, in order, with what was asked for |
| Accounts.OneEventPerCommand | order_service/main.py:133-154 | over any run the order service has emitted one event per checkout and per handled final command |
| Accounts.NotesAreTheHandledOutcomes | notification_service/main.py:97-121 | over any run an order has as many notifications as outcome events of it were handled |
| Accounts.CopiesAreAccountedFor | shared/rabbitmq.py:123-131 | a copy leaves the queues only after a successful, acknowledged handling, and comes in only by a send or a redelivery |
| Progress.RunsAreBounded | shared/outbox.py:36-69 | over any run the fault-free steps are bounded by checkouts, spare copies and failed deliveries |
| Progress.FaultFreeRunsSettle | shared/rabbitmq.py:107-131 | from every reachable state each fault-free run ends, and ends with every order settled |
| Progress.SystemSettles | shared/outbox.py:36-69 | and from every state that the invariant allows there is such a run, without new orders or stock |
| Audit.VerifyConsistency | scripts/verify_consistency.py:41-135 | each of the six kinds of problem is reported exactly when it is there, with the real figures; nothing is reported iff the SKU's tables are clean |
| Audit.CountPayments | scripts/verify_consistency.py:96-103 | the row count per order of the SKU |
| Audit.ReportsAreAboutRows | scripts/verify_consistency.py:52-118 | the orders reported are the PENDING ones, those with two payment rows, and the CONFIRMED ones with none |
| Audit.AuditFindsExactlyTheStranded | scripts/verify_consistency.py:68-118 | on a settled system the audit of a seeded SKU is clean iff none of the SKU's orders was stranded |
| Audit.UnretriedRunsAuditClean | scripts/verify_consistency.py:49-118 | and so it is clean if no order of the SKU was both turned away and handled a second time |
| StrandedRuns.StockCanBeStranded | inventory_service/reservation.py:83-112 | from every reachable state in which an order waits for stock that is there, for every way to be turned away, a run to quiescence cancels it uncharged with its stock set aside |
| StrandedRuns.SoldOutIsSaidOfHeldStock | notification_service/main.py:136-137 | a run after which all the stock is held for a cancelled order whose customer was told "sold out", though no delivery found it short |
| StrandedRuns.LateRefusalStrandsHeldStock | inventory_service/reservation.py:70-112 | from every reachable state in which the stock is held and a copy is queued, that copy timing out on the lock can strand it |
| StrandedRuns.TakenThenRefused | inventory_service/reservation.py:70-112 | a run in which the refused copy comes after the one that took the stock |
| Locks.RedisKey.SetNxPx | shared/redis_client.py:95 | takes the key iff it is absent or expired |
| Locks.RedisKey.CompareAndDelete | shared/redis_client.py:25-31 | deletes the key iff it is live and holds the caller's token |
| Locks.Acquire | shared/redis_client.py:89-99 | tries until the deadline or the first free key, at most ceil(timeout / retry_delay) times |
| ChargeWorkers.HoldersOnTimeExclude | shared/redis_client.py:89-111 | in any run, overruns, failures and crashes of others included, two workers inside one order's lock and within their TTL are the same |
| ChargeWorkers.NeverTwoInside | shared/redis_client.py:72-111 | after any run within the TTL at most one worker per order is inside its critical section |
| ChargeWorkers.LeasesStand | shared/redis_client.py:25-31 | over any run, overlong critical sections included, a lease stands until it expires or its own holder releases it |
| ChargeWorkers.AtMostOneCharge | payment_service/main.py:120-170 | any interleaving within the TTL, from any database that has not seen the order: one payment row plus one per lost cache write, one gateway call plus one per failed commit and lost cache write |
| ChargeWorkers.LostWriteChargesTwice | payment_service/main.py:163-170 | a run in which the cache write fails after the commit: two gateway calls and two payment rows |
| ChargeWorkers.FailedCommitChargesTwice | payment_service/main.py:163 | a run in which the commit fails: two gateway calls |
| ChargeWorkers.StepsRefineAtomicCharges | payment_service/main.py:121-170 | each statement is invisible or the whole atomic charge of the protocol, whatever other orders' workers are in the middle of; a lost cache write forgets a charge |
| ChargeWorkers.InterleavingsAreSerial | payment_service/main.py:112-121 | once all have left, for any orders and from any database, the database is that of the atomic handlers in the order of their commits |
| ChargeWorkers.OneChargeIffTtlCovers | payment_service/main.py:120 | one charge per order in all runs without failed commits and lost cache writes and with critical sections up to d milliseconds, iff d is within the TTL |
| Dispatcher.Publish | shared/rabbitmq.py:58-98 | it stops at the first accepted attempt; the exact number of copies for every way the attempts can end |
| Dispatcher.Loop.Select | shared/outbox.py:48-54 | the oldest unpublished rows, up to the batch size |
| Dispatcher.Loop.Iterate | shared/outbox.py:46-69 | one pass with any failure: exactly when it fails, which rows may gain copies, that only a completed batch is marked; without failures each row of the batch gains one copy and its mark |
| Dispatcher.PublishedInOrder | shared/outbox.py:47-62 | in every history the rows sent and the rows marked are prefixes, at most a batch apart |
| Dispatcher.BacklogDrains | shared/outbox.py:48-62 | k fault-free passes publish exactly the next k batches |
| Dispatcher.ResendsAreBounded | shared/rabbitmq.py:70-98 | copies sent are at most three per published row plus three per batch row for each failed pass |
| Publishing.IterationsArePublishingSteps | shared/outbox.py:46-69 | whatever a pass does to an outbox is a legal run of the protocol's publishing steps |
| Publishing.CleanPassesAreProductive | shared/outbox.py:46-62 | a pass without failures is the run that sends each row of the batch once and marks it |
| TokenBucket.Bucket.Allow | shared/redis_client.py:33-63 | decision, stored level and expiry of one request, for any clocks |
| TokenBucket.TokensAreTheLeastSlack | shared/redis_client.py:50-57 | the stored tokens in closed form, as a minimum over windows |
| TokenBucket.GrantedIffEveryWindowFits | shared/redis_client.py:50-57 | a sequence is granted entirely iff every window asks for no more than capacity plus refill |
| TokenBucket.GrantedIffTheWindowsFit | shared/redis_client.py:45-59 | in every run, refusals included: a request is granted iff each window ending with it, counting what was granted, fits |
| TokenBucket.RefusalsLeaveNoTrace | shared/redis_client.py:53-59 | a refused request can be left out without changing any later level |
| TokenBucket.RefusalsChangeNoDecision | shared/redis_client.py:53-59 | nor any later decision |
| TokenBucket.AdmissionIsBounded | shared/redis_client.py:45-60 | the tokens granted under any clock, with any expiries, are bounded |
| TokenBucket.MonotoneAdmission | shared/redis_client.py:50-57 | on a monotone clock: capacity plus refill over the elapsed time |
| TokenBucket.ExpiryInvisibleIffRefilled | shared/redis_client.py:60 | the key expiry, timed by the server's own clock, changes no decision iff sixty seconds refill the bucket |
| TokenBucket.FastServersShowTheExpiry | shared/redis_client.py:60 | a server clock that runs ahead of the callers' makes the expiry visible |
| TokenBucket.LazyRefillIsExact | shared/redis_client.py:50-51 | a request for nothing, slipped in anywhere, changes no later decision: lazy refill agrees with refilling at any moments in between |
| TokenBucket.ProbeLeavesNoTrace | shared/redis_client.py:50-57 | nor does it change the stored level after any later request |

## Left out

- Crashes inside a handler and loss of Redis data: see the hypotheses; the exact claims do not survive them.
- ChargeWorkers.AtMostOneCharge: allows one more charge for each failed commit and each lost cache write, because the code has no defence there, as two runs show.
- Stranding.AllOrNothing: does not include stock that was moved while the reservation cache and the commit disagree, because handlers are atomic in the composed protocol.
- Interleaved workers of the inventory service: only the charge path is taken apart; reservations are atomic under the per-SKU lock.
- The refund path: nothing in the saga emits RefundPayment.
- message_id and occurred_at: no consumer reads them, so equal payloads are equal messages.
- UUIDs: orders, payments and lock tokens are numbered in order of creation instead.
- The 24-hour expiry of idempotency entries: a hypothesis excludes redelivery after it.
- 32-bit database integers: quantities and amounts are unbounded, as in Python.
- Floating-point rounding in the token bucket: tokens and times are exact reals.
- AMQP connection and channel recovery inside publish(): each of its three attempts simply ends in one of three ways.
- HTTP read endpoints, start-up, shutdown, settings and logging: no protocol content.
- The wording of notifications and audit messages: four kinds of text and six kinds of problem stand for them.
