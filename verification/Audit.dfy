/** The consistency audit (scripts/verify_consistency.py): what it checks, and what a clean or an
    unclean verdict says about the run that came before. */
module Audit {
  import opened Messages
  import Inventory
  import Payments
  import Orders
  import opened System
  import opened Invariance
  import opened Theorems
  import opened Stranding

  datatype Problem =
    | StuckPending(orders: nat)
    | NeverSeeded
    | NegativeInventory(available: int, reserved: int)
    | ReservedIsNotConfirmed(reserved: int, confirmed: int)
    | MoreThanOnePayment(orders: nat)
    | ConfirmedWithoutPayment(orders: nat)

  // ---- What a clean audit means ----

  predicate Settled(orders: seq<Orders.Order>, sku: Sku) {
    forall o :: 0 <= o < |orders| && orders[o].sku == sku ==> orders[o].status != Orders.PENDING
  }

  ghost predicate StockMatches(orders: seq<Orders.Order>, item: Option<Inventory.Item>, sku: Sku) {
    && item.Some? && item.value.available >= 0 && item.value.reserved >= 0
    && item.value.reserved == QtyOf(orders, ConfirmedOrders(orders), sku, |orders|)
  }

  ghost function OfSku(orders: seq<Orders.Order>, sku: Sku, n: nat): set<OrderId>
    requires n <= |orders|
  {
    set o: OrderId | o < n && orders[o].sku == sku
  }

  ghost predicate NoDoublePayment(orders: seq<Orders.Order>, payments: seq<Payments.Payment>, sku: Sku) {
    forall o :: o in OfSku(orders, sku, |orders|) ==> Payments.PaymentsOf(payments, o, |payments|) <= 1
  }

  ghost predicate ConfirmedArePaid(orders: seq<Orders.Order>, payments: seq<Payments.Payment>, sku: Sku) {
    forall o :: o in OfSku(orders, sku, |orders|) && orders[o].status == Orders.CONFIRMED ==>
      Payments.PaymentsOf(payments, o, |payments|) >= 1
  }

  ghost predicate Clean(orders: seq<Orders.Order>, item: Option<Inventory.Item>, payments: seq<Payments.Payment>, sku: Sku) {
    && Settled(orders, sku)
    && StockMatches(orders, item, sku)
    && NoDoublePayment(orders, payments, sku)
    && ConfirmedArePaid(orders, payments, sku)
  }

  // ---- What it has to report ----

  ghost function PendingOf(orders: seq<Orders.Order>, sku: Sku, n: nat): set<OrderId>
    requires n <= |orders|
  {
    set o | o in OfSku(orders, sku, n) && orders[o].status == Orders.PENDING
  }

  ghost function DoublyPaid(orders: seq<Orders.Order>, payments: seq<Payments.Payment>, sku: Sku): set<OrderId> {
    set o | o in OfSku(orders, sku, |orders|) && Payments.PaymentsOf(payments, o, |payments|) > 1
  }

  ghost function Unpaid(orders: seq<Orders.Order>, payments: seq<Payments.Payment>, sku: Sku): set<OrderId> {
    set o | o in OfSku(orders, sku, |orders|) * ConfirmedOrders(orders) && Payments.PaymentsOf(payments, o, |payments|) == 0
  }

  ghost predicate ReportsPayments(problems: seq<Problem>, orders: seq<Orders.Order>, payments: seq<Payments.Payment>, sku: Sku) {
    && (forall k :: MoreThanOnePayment(k) in problems <==> k == |DoublyPaid(orders, payments, sku)| > 0)
    && (forall k :: ConfirmedWithoutPayment(k) in problems <==> k == |Unpaid(orders, payments, sku)| > 0)
  }

  ghost predicate ReportsStock(problems: seq<Problem>, item: Option<Inventory.Item>, confirmedQty: int) {
    && (NeverSeeded in problems <==> item.None?)
    && (forall a, r :: NegativeInventory(a, r) in problems <==> item == Some(Inventory.Item(a, r)) && (a < 0 || r < 0))
    && (forall r, c :: ReservedIsNotConfirmed(r, c) in problems <==> item.Some? && r == item.value.reserved != c == confirmedQty)
  }

  // ---- The audit itself ----

  method Tally(orders: seq<Orders.Order>, sku: Sku)
    returns (ids: set<OrderId>, pending: set<OrderId>, confirmed: set<OrderId>, confirmedQty: int)
    ensures ids == OfSku(orders, sku, |orders|)
    ensures pending == PendingOf(orders, sku, |orders|)
    ensures confirmed == ids * ConfirmedOrders(orders)
    ensures confirmedQty == QtyOf(orders, ConfirmedOrders(orders), sku, |orders|)
  {
    ids, pending, confirmed, confirmedQty := {}, {}, {}, 0;
    for n := 0 to |orders|
      invariant ids == OfSku(orders, sku, n)
      invariant pending == PendingOf(orders, sku, n)
      invariant confirmed == ids * ConfirmedOrders(orders)
      invariant confirmedQty == QtyOf(orders, ConfirmedOrders(orders), sku, n)
    {
      if orders[n].sku == sku {
        ids := ids + {n};
        if orders[n].status == Orders.CONFIRMED {
          confirmed := confirmed + {n};
          confirmedQty := confirmedQty + orders[n].qty;
        } else if orders[n].status == Orders.PENDING {
          pending := pending + {n};
        }
      }
    }
  }

  method CountPayments(payments: seq<Payments.Payment>, ids: set<OrderId>) returns (counts: map<OrderId, nat>)
    ensures forall o :: o in counts <==> o in ids && Payments.PaymentsOf(payments, o, |payments|) > 0
    ensures forall o :: o in counts ==> counts[o] == Payments.PaymentsOf(payments, o, |payments|)
  {
    counts := map[];
    for n := 0 to |payments|
      invariant forall o :: o in counts <==> o in ids && Payments.PaymentsOf(payments, o, n) > 0
      invariant forall o :: o in counts ==> counts[o] == Payments.PaymentsOf(payments, o, n)
    {
      var p := payments[n].order;
      if p in ids {
        counts := counts[p := 1 + if p in counts then counts[p] else 0];
      }
    }
  }

  method PaymentProblems(orders: seq<Orders.Order>, payments: seq<Payments.Payment>, sku: Sku, ids: set<OrderId>, confirmed: set<OrderId>)
    returns (problems: seq<Problem>)
    requires ids == OfSku(orders, sku, |orders|) && confirmed == ids * ConfirmedOrders(orders)
    ensures ReportsPayments(problems, orders, payments, sku)
    ensures problems == [] <==> DoublyPaid(orders, payments, sku) == {} && Unpaid(orders, payments, sku) == {}
    ensures forall p :: p in problems ==> p.MoreThanOnePayment? || p.ConfirmedWithoutPayment?
  {
    var counts := CountPayments(payments, ids);
    var duplicated := set o | o in counts && counts[o] > 1;
    var missing := confirmed - counts.Keys;
    CountsDecide(orders, payments, sku, counts, duplicated, missing);
    problems := ReportCharges(duplicated, missing);
  }

  method ReportCharges(duplicated: set<OrderId>, missing: set<OrderId>) returns (problems: seq<Problem>)
    ensures forall k :: MoreThanOnePayment(k) in problems <==> k == |duplicated| > 0
    ensures forall k :: ConfirmedWithoutPayment(k) in problems <==> k == |missing| > 0
    ensures problems == [] <==> duplicated == {} && missing == {}
    ensures forall p :: p in problems ==> p.MoreThanOnePayment? || p.ConfirmedWithoutPayment?
  {
    problems := [];
    if duplicated != {} {
      problems := problems + [MoreThanOnePayment(|duplicated|)];
    }
    if missing != {} {
      problems := problems + [ConfirmedWithoutPayment(|missing|)];
    }
  }

  lemma CountsDecide(orders: seq<Orders.Order>, payments: seq<Payments.Payment>, sku: Sku, counts: map<OrderId, nat>,
                     duplicated: set<OrderId>, missing: set<OrderId>)
    requires forall o :: o in counts <==> o in OfSku(orders, sku, |orders|) && Payments.PaymentsOf(payments, o, |payments|) > 0
    requires forall o :: o in counts ==> counts[o] == Payments.PaymentsOf(payments, o, |payments|)
    requires duplicated == (set o | o in counts && counts[o] > 1)
    requires missing == OfSku(orders, sku, |orders|) * ConfirmedOrders(orders) - counts.Keys
    ensures duplicated == DoublyPaid(orders, payments, sku) && missing == Unpaid(orders, payments, sku)
  {
  }

  method StuckProblems(pending: set<OrderId>) returns (problems: seq<Problem>)
    ensures forall k :: StuckPending(k) in problems <==> k == |pending| > 0
    ensures problems == [] <==> pending == {}
    ensures forall p :: p in problems ==> p.StuckPending?
  {
    problems := if pending != {} then [StuckPending(|pending|)] else [];
  }

  method StockProblems(item: Option<Inventory.Item>, confirmedQty: int) returns (problems: seq<Problem>)
    ensures ReportsStock(problems, item, confirmedQty)
    ensures problems == [] <==>
              item.Some? && item.value.available >= 0 && item.value.reserved >= 0 && item.value.reserved == confirmedQty
    ensures forall p :: p in problems ==> p.NeverSeeded? || p.NegativeInventory? || p.ReservedIsNotConfirmed?
  {
    problems := [];
    match item {
      case None =>
        problems := problems + [NeverSeeded];
      case Some(stock) =>
        if stock.available < 0 || stock.reserved < 0 {
          problems := problems + [NegativeInventory(stock.available, stock.reserved)];
        }
        if stock.reserved != confirmedQty {
          problems := problems + [ReservedIsNotConfirmed(stock.reserved, confirmedQty)];
        }
    }
  }

  /** The audit reports each kind of problem exactly when it is there, with the real figures. */
  method VerifyConsistency(orders: seq<Orders.Order>, item: Option<Inventory.Item>, payments: seq<Payments.Payment>, sku: Sku)
    returns (problems: seq<Problem>)
    ensures forall k :: StuckPending(k) in problems <==> k == |PendingOf(orders, sku, |orders|)| > 0
    ensures ReportsStock(problems, item, QtyOf(orders, ConfirmedOrders(orders), sku, |orders|))
    ensures ReportsPayments(problems, orders, payments, sku)
    ensures problems == [] <==> Clean(orders, item, payments, sku)
  {
    var ids, pending, confirmed, confirmedQty := Tally(orders, sku);
    var stuck := StuckProblems(pending);
    var stock := StockProblems(item, confirmedQty);
    var charges := PaymentProblems(orders, payments, sku, ids, confirmed);
    CleanMeansEmpty(orders, item, payments, sku);
    problems := stuck + stock + charges;
  }

  lemma CleanMeansEmpty(orders: seq<Orders.Order>, item: Option<Inventory.Item>, payments: seq<Payments.Payment>, sku: Sku)
    ensures Clean(orders, item, payments, sku) <==>
            && PendingOf(orders, sku, |orders|) == {} && StockMatches(orders, item, sku)
            && DoublyPaid(orders, payments, sku) == {} && Unpaid(orders, payments, sku) == {}
  {
    assert forall o :: o in OfSku(orders, sku, |orders|) && Payments.PaymentsOf(payments, o, |payments|) > 1
                       <==> o in DoublyPaid(orders, payments, sku);
    assert forall o :: o in PendingOf(orders, sku, |orders|) <==> 0 <= o < |orders| && orders[o].sku == sku && orders[o].status == Orders.PENDING;
    assert forall o :: o in Unpaid(orders, payments, sku) <==>
      o in OfSku(orders, sku, |orders|) && orders[o].status == Orders.CONFIRMED && Payments.PaymentsOf(payments, o, |payments|) == 0;
  }

  // ---- What the reports mean, row by row ----

  ghost predicate HasRow(payments: seq<Payments.Payment>, o: OrderId, n: nat)
    requires n <= |payments|
  {
    exists i :: 0 <= i < n && payments[i].order == o
  }

  ghost predicate HasTwoRows(payments: seq<Payments.Payment>, o: OrderId, n: nat)
    requires n <= |payments|
  {
    exists i, j :: 0 <= i < j < n && payments[i].order == o && payments[j].order == o
  }

  lemma {:induction false} CountsAreRows(payments: seq<Payments.Payment>, o: OrderId, n: nat)
    requires n <= |payments|
    ensures Payments.PaymentsOf(payments, o, n) > 0 <==> HasRow(payments, o, n)
    ensures Payments.PaymentsOf(payments, o, n) > 1 <==> HasTwoRows(payments, o, n)
  {
    if n > 0 {
      CountsAreRows(payments, o, n - 1);
      if payments[n - 1].order == o && HasRow(payments, o, n - 1) {
        var i :| 0 <= i < n - 1 && payments[i].order == o;
        assert payments[i].order == o && payments[n - 1].order == o;
      }
    }
  }

  /** The orders behind the three reports about orders: still PENDING; with two payment rows; and
      CONFIRMED without any. */
  lemma ReportsAreAboutRows(orders: seq<Orders.Order>, payments: seq<Payments.Payment>, sku: Sku, o: OrderId)
    ensures o in PendingOf(orders, sku, |orders|) <==> o < |orders| && orders[o].sku == sku && orders[o].status == Orders.PENDING
    ensures o in DoublyPaid(orders, payments, sku) <==>
              o < |orders| && orders[o].sku == sku && HasTwoRows(payments, o, |payments|)
    ensures o in Unpaid(orders, payments, sku) <==>
              o < |orders| && orders[o].sku == sku && orders[o].status == Orders.CONFIRMED && !HasRow(payments, o, |payments|)
  {
    CountsAreRows(payments, o, |payments|);
  }

  // ---- The verdict on a settled system ----

  lemma {:induction false} QtyOfStrict(orders: seq<Orders.Order>, s: set<OrderId>, t: set<OrderId>, o: OrderId, n: nat)
    requires o < n <= |orders| && o in t && o !in s
    requires forall i :: 0 <= i < n ==> orders[i].qty > 0
    requires forall i :: 0 <= i < n && i in s ==> i in t
    ensures QtyOf(orders, s, orders[o].sku, n) < QtyOf(orders, t, orders[o].sku, n)
  {
    if n - 1 == o {
      QtyOfMonotone(orders, s, t, orders[o].sku, n - 1);
    } else {
      QtyOfStrict(orders, s, t, o, n - 1);
    }
  }

  // Once everything is settled, the stock set aside is that of the confirmed and the stranded orders.
  lemma SettledHolders(run: seq<Action>, o: OrderId)
    requires LegalRun(Start, run)
    requires Quiescent(Outcome(Start, run)) && o < |Outcome(Start, run).ord.orders|
    ensures var w := Outcome(Start, run);
            o in Holders(w.inv) <==> IsConfirmed(w, o) || Stranded(run, o)
  {
    RunIsInvariant(run);
    NoOrderIsStuck(Outcome(Start, run), o);
    AllOrNothing(run, o);
  }

  lemma {:induction false} CountsMatchCharges(w: World, o: OrderId, n: nat)
    requires PaymentsAgreeWithSagas(w.saga, w.pay) && n <= |w.pay.payments|
    ensures Payments.PaymentsOf(w.pay.payments, o, n) == if o in w.pay.charges && w.pay.charges[o].payment < n then 1 else 0
  {
    if n > 0 {
      CountsMatchCharges(w, o, n - 1);
      assert o in w.pay.charges ==> ChargeOk(w.saga, w.pay, o);
    }
  }

  lemma SettledPaymentsAreClean(w: World, sku: Sku)
    requires Reachable(w) && Quiescent(w)
    ensures NoDoublePayment(w.ord.orders, w.pay.payments, sku)
    ensures ConfirmedArePaid(w.ord.orders, w.pay.payments, sku)
  {
    ReachableIsInvariant(w);
    forall o | o in OfSku(w.ord.orders, sku, |w.ord.orders|)
      ensures Payments.PaymentsOf(w.pay.payments, o, |w.pay.payments|) <= 1
      ensures IsConfirmed(w, o) ==> Payments.PaymentsOf(w.pay.payments, o, |w.pay.payments|) >= 1
    {
      CountsMatchCharges(w, o, |w.pay.payments|);
      FinalStatusDecides(w, o);
    }
  }

  ghost predicate NobodyStranded(run: seq<Action>, sku: Sku)
    requires LegalRun(Start, run)
  {
    var orders := Outcome(Start, run).ord.orders;
    forall o :: 0 <= o < |orders| && orders[o].sku == sku ==> !Stranded(run, o)
  }

  // The same, for the books of a settled world w.
  lemma StockMatchesUnlessHeld(w: World, sku: Sku, extra: set<OrderId>)
    requires Reachable(w) && sku in w.inv.items
    requires forall o :: 0 <= o < |w.ord.orders| ==> (o in Holders(w.inv) <==> IsConfirmed(w, o) || o in extra)
    requires forall o :: o in extra ==> !IsConfirmed(w, o)
    ensures StockMatches(w.ord.orders, Some(w.inv.items[sku]), sku)
            <==> forall o :: 0 <= o < |w.ord.orders| && w.ord.orders[o].sku == sku ==> o !in extra
  {
    var orders := w.ord.orders;
    var confirmed, holders := ConfirmedOrders(orders), Holders(w.inv);
    NeverOversold(w, sku);
    ReachableIsInvariant(w);
    PositiveQuantities(w);
    if forall o :: 0 <= o < |orders| && orders[o].sku == sku ==> o !in extra {
      QtyOfSame(orders, orders, holders, confirmed, sku, |orders|);
    } else {
      var o :| 0 <= o < |orders| && orders[o].sku == sku && o in extra;
      QtyOfStrict(orders, confirmed, holders, o, |orders|);
    }
  }

  lemma SettledStockMatches(run: seq<Action>, sku: Sku)
    requires LegalRun(Start, run)
    requires Quiescent(Outcome(Start, run)) && sku in Outcome(Start, run).inv.items
    ensures var w := Outcome(Start, run);
            StockMatches(w.ord.orders, Some(w.inv.items[sku]), sku) <==> NobodyStranded(run, sku)
  {
    var w := Outcome(Start, run);
    var stranded := set o: OrderId | o < |w.ord.orders| && Stranded(run, o);
    forall o | 0 <= o < |w.ord.orders|
      ensures o in Holders(w.inv) <==> IsConfirmed(w, o) || o in stranded
      ensures Stranded(run, o) ==> IsCancelled(w, o)
    {
      SettledHolders(run, o);
      AllOrNothing(run, o);
    }
    StockMatchesUnlessHeld(w, sku, stranded);
  }

  /** On a settled system the audit of a seeded SKU is clean exactly when none of the SKU's orders
      was stranded on the way: took stock while the coordinator heard of a rejection first. Nothing else can make it complain. */
  lemma AuditFindsExactlyTheStranded(run: seq<Action>, sku: Sku)
    requires LegalRun(Start, run)
    requires Quiescent(Outcome(Start, run)) && sku in Outcome(Start, run).inv.items
    ensures var w := Outcome(Start, run);
            Clean(w.ord.orders, Some(w.inv.items[sku]), w.pay.payments, sku) <==> NobodyStranded(run, sku)
  {
    var w := Outcome(Start, run);
    SettledPaymentsAreClean(w, sku);
    SettledStockMatches(run, sku);
    forall o | 0 <= o < |w.ord.orders|
      ensures w.ord.orders[o].status != Orders.PENDING
    {
      NoOrderIsStuck(w, o);
    }
  }

  /** Audit completeness: a settled run leaves clean books for a SKU if none of its orders was both
      turned away for want of the lock or a token and handled a second time. */
  lemma UnretriedRunsAuditClean(run: seq<Action>, sku: Sku)
    requires LegalRun(Start, run)
    requires Quiescent(Outcome(Start, run)) && sku in Outcome(Start, run).inv.items
    requires var orders := Outcome(Start, run).ord.orders;
             forall o :: 0 <= o < |orders| && orders[o].sku == sku ==> !TurnedAway(Start, run, o) || TimesAsked(run, o) <= 1
    ensures var w := Outcome(Start, run);
            Clean(w.ord.orders, Some(w.inv.items[sku]), w.pay.payments, sku)
  {
    var orders := Outcome(Start, run).ord.orders;
    forall o | 0 <= o < |orders| && orders[o].sku == sku
      ensures !Stranded(run, o)
    {
      if Stranded(run, o) {
        OnlyRetriedOrdersStrand(run, o);
      }
    }
    AuditFindsExactlyTheStranded(run, sku);
  }
}
