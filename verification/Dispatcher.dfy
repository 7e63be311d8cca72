/** The outbox dispatcher (shared/outbox.py) and its publish() (shared/rabbitmq.py), with every
    failure they survive. Rows stand in created_at order, which is the order they were committed in. */
module Dispatcher {
  import opened Messages

  // How one attempt inside publish() ends; an exception does not tell whether the broker got it.
  datatype Try = Accepted | FailedUnsent | FailedSent

  datatype Tries = Tries(first: Try, reopened: Try, reconnected: Try)

  function Copies(t: Try): nat { if t.FailedUnsent? then 0 else 1 }

  /** publish(): the first attempt, one on a reopened channel, one on a fresh connection. */
  method Publish(tries: Tries) returns (ok: bool, copies: nat)
    // it stops at the first attempt that is accepted
    ensures tries.first.Accepted? ==> ok && copies == 1
    ensures !tries.first.Accepted? && tries.reopened.Accepted? ==>
              ok && copies == 1 + (if tries.first.FailedSent? then 1 else 0)
    ensures !tries.first.Accepted? && !tries.reopened.Accepted? ==>
              && (ok <==> tries.reconnected.Accepted?)
              && copies == (if tries.first.FailedSent? then 1 else 0) + (if tries.reopened.FailedSent? then 1 else 0)
                           + (if tries.reconnected.FailedUnsent? then 0 else 1)
  {
    copies := Copies(tries.first);
    if tries.first.Accepted? {
      return true, copies;
    }
    copies := copies + Copies(tries.reopened);
    if tries.reopened.Accepted? {
      return true, copies;
    }
    copies := copies + Copies(tries.reconnected);
    ok := tries.reconnected.Accepted?;
  }

  // ---- One iteration ----

  // Exactly the first p rows are published.
  ghost predicate Front(rows: seq<Row>, p: nat) {
    p <= |rows| && forall i :: 0 <= i < |rows| ==> (rows[i].published <==> i < p)
  }

  // Where the batch after the first p rows ends.
  function BatchEnd(rows: seq<Row>, p: nat, batch: nat): nat {
    if p + batch < |rows| then p + batch else |rows|
  }

  // What an iteration may do to row i: rows before stop were published at least once, the row at
  // stop is where publish() failed, and only a completed batch is marked.
  ghost predicate RowFollows(a: Row, z: Row, i: nat, p: nat, stop: nat, end: nat, failed: bool) {
    && z.msg == a.msg
    && a.sends + (if p <= i < stop then 1 else 0) <= z.sends
    && z.sends <= a.sends + (if p <= i <= stop && i < end then 3 else 0)
    && (z.published <==> a.published || (!failed && p <= i < stop))
  }

  ghost predicate IteratesFrom(a: seq<Row>, z: seq<Row>, batch: nat, failed: bool, p: nat, stop: nat) {
    && Front(a, p) && |z| == |a|
    && p <= |a| && p <= stop <= BatchEnd(a, p, batch)
    && (!failed ==> stop == BatchEnd(a, p, batch))
    && forall i :: 0 <= i < |a| ==> RowFollows(a[i], z[i], i, p, stop, BatchEnd(a, p, batch), failed)
  }

  predicate AllFail(t: Tries) {
    !t.first.Accepted? && !t.reopened.Accepted? && !t.reconnected.Accepted?
  }

  // A pass in which nothing goes wrong: each row of the batch gains one copy and is marked.
  ghost predicate CleanPass(a: seq<Row>, z: seq<Row>, batch: nat, p: nat) {
    && p <= |a| == |z|
    && forall i :: 0 <= i < |a| ==>
         z[i] == if p <= i < BatchEnd(a, p, batch) then Row(a[i].msg, a[i].sends + 1, true) else a[i]
  }

  ghost predicate Iterates(a: seq<Row>, z: seq<Row>, batch: nat, failed: bool) {
    exists p, stop :: IteratesFrom(a, z, batch, failed, p, stop)
  }

  class Loop {
    var rows: seq<Row>

    constructor ()
      ensures rows == []
    {
      rows := [];
    }

    // SELECT ... WHERE NOT published ORDER BY created_at LIMIT batch
    method Select(batch: nat, ghost p: nat) returns (selected: seq<nat>)
      requires Front(rows, p)
      ensures |selected| == BatchEnd(rows, p, batch) - p
      ensures forall k :: 0 <= k < |selected| ==> selected[k] == p + k
    {
      selected := [];
      var i := 0;
      while i < |rows| && |selected| < batch
        invariant i <= |rows| && |selected| <= batch
        invariant i <= p ==> selected == []
        invariant i >= p ==> |selected| == i - p
        invariant forall k :: 0 <= k < |selected| ==> selected[k] == p + k
      {
        if !rows[i].published {
          selected := selected + [i];
        }
        i := i + 1;
      }
    }

    // Publishes the selected rows in turn, up to the first publish() that fails.
    method SendBatch(selected: seq<nat>, tries: nat -> Tries, ghost p: nat) returns (ok: bool, ghost stop: nat)
      requires p + |selected| <= |rows| && forall k :: 0 <= k < |selected| ==> selected[k] == p + k
      modifies this
      ensures |rows| == |old(rows)| && p <= stop <= p + |selected|
      ensures ok <==> forall k :: 0 <= k < |selected| ==> !AllFail(tries(k))
      ensures ok ==> stop == p + |selected|
      ensures forall i :: 0 <= i < |rows| ==> RowFollows(old(rows)[i], rows[i], i, p, stop, p + |selected|, true)
      ensures (forall k :: 0 <= k < |selected| ==> tries(k).first.Accepted?) ==>
                forall i :: 0 <= i < |rows| ==>
                  rows[i] == old(rows)[i].(sends := old(rows)[i].sends + if p <= i < p + |selected| then 1 else 0)
    {
      stop := p;
      var k := 0;
      while k < |selected|
        invariant k <= |selected| && |rows| == |old(rows)| && stop == p + k
        invariant forall i :: 0 <= i < |rows| ==> RowFollows(old(rows)[i], rows[i], i, p, p + k, p + |selected|, true)
        invariant forall i :: p + k <= i < |rows| ==> rows[i] == old(rows)[i]
        invariant forall j :: 0 <= j < k ==> !AllFail(tries(j))
        invariant (forall j :: 0 <= j < k ==> tries(j).first.Accepted?) ==>
                    forall i :: 0 <= i < |rows| ==>
                      rows[i] == old(rows)[i].(sends := old(rows)[i].sends + if p <= i < p + k then 1 else 0)
      {
        var sent, copies := Publish(tries(k));
        var row := selected[k];
        rows := rows[row := rows[row].(sends := rows[row].sends + copies)];
        if !sent {
          assert AllFail(tries(k));
          return false, stop;
        }
        k := k + 1;
        stop := p + k;
      }
      return true, stop;
    }

    // The flags of the batch, once they are committed.
    method MarkBatch(selected: seq<nat>, ghost p: nat)
      requires p + |selected| <= |rows| && forall k :: 0 <= k < |selected| ==> selected[k] == p + k
      modifies this
      ensures |rows| == |old(rows)|
      ensures forall i :: 0 <= i < |rows| ==>
                rows[i] == if p <= i < p + |selected| then old(rows)[i].(published := true) else old(rows)[i]
    {
      var k := 0;
      while k < |selected|
        invariant k <= |selected| && |rows| == |old(rows)|
        invariant forall i :: 0 <= i < |rows| ==>
                    rows[i] == if p <= i < p + k then old(rows)[i].(published := true) else old(rows)[i]
      {
        rows := rows[selected[k] := rows[selected[k]].(published := true)];
        k := k + 1;
      }
    }

    /** One pass of the endless loop; failed means an exception ended it, and rolled the flags back. */
    method Iterate(batch: nat, selectOk: bool, tries: nat -> Tries, commitOk: bool, ghost p: nat) returns (failed: bool)
      requires Front(rows, p)
      modifies this
      ensures Iterates(old(rows), rows, batch, failed)
      // it fails exactly when the select, a publish or the commit of a batch does
      ensures failed <==> || !selectOk
                          || (exists k :: 0 <= k < BatchEnd(old(rows), p, batch) - p && AllFail(tries(k)))
                          || (BatchEnd(old(rows), p, batch) > p && !commitOk)
      ensures !selectOk ==> rows == old(rows)
      ensures failed ==> |rows| == |old(rows)| && forall i :: 0 <= i < |rows| ==> rows[i].published == old(rows)[i].published
      ensures !failed && (forall k :: 0 <= k < BatchEnd(old(rows), p, batch) - p ==> tries(k).first.Accepted?) ==>
                CleanPass(old(rows), rows, batch, p)
    {
      if !selectOk {
        assert IteratesFrom(old(rows), rows, batch, true, p, p);
        return true;
      }
      var selected := Select(batch, p);
      var ok, stop := SendBatch(selected, tries, p);
      if !ok || (|selected| > 0 && !commitOk) {
        assert IteratesFrom(old(rows), rows, batch, true, p, stop);
        assert forall i :: 0 <= i < |rows| ==> RowFollows(old(rows)[i], rows[i], i, p, stop, p + |selected|, true);
        return true;
      }
      ghost var sent := rows;
      MarkBatch(selected, p);
      MarkedBatchFollows(old(rows), sent, rows, batch, p);
      return false;
    }
  }

  lemma MarkedBatchFollows(a: seq<Row>, sent: seq<Row>, z: seq<Row>, batch: nat, p: nat)
    requires Front(a, p) && |sent| == |a| == |z|
    requires forall i :: 0 <= i < |a| ==> RowFollows(a[i], sent[i], i, p, BatchEnd(a, p, batch), BatchEnd(a, p, batch), true)
    requires forall i :: 0 <= i < |z| ==> z[i] == if p <= i < BatchEnd(a, p, batch) then sent[i].(published := true) else sent[i]
    ensures IteratesFrom(a, z, batch, false, p, BatchEnd(a, p, batch))
  {
    forall i | 0 <= i < |a|
      ensures RowFollows(a[i], z[i], i, p, BatchEnd(a, p, batch), BatchEnd(a, p, batch), false)
    {
      assert RowFollows(a[i], sent[i], i, p, BatchEnd(a, p, batch), BatchEnd(a, p, batch), true);
    }
  }

  // ---- Runs of the dispatcher beside the service that fills the outbox ----

  datatype Event = Wrote(msg: Message) | Iterated(failed: bool)

  ghost predicate Follows(a: seq<Row>, e: Event, z: seq<Row>, batch: nat) {
    match e
    case Wrote(m) => z == Append(a, m)
    case Iterated(failed) => Iterates(a, z, batch, failed)
  }

  // The states an outbox goes through, from empty.
  ghost predicate History(states: seq<seq<Row>>, events: seq<Event>, batch: nat) {
    && |states| == |events| + 1 && states[0] == []
    && forall k :: 0 <= k < |events| ==> Follows(states[k], events[k], states[k + 1], batch)
  }

  // Exactly the first q rows were ever sent.
  ghost predicate SentFront(rows: seq<Row>, q: nat) {
    q <= |rows| && forall i :: 0 <= i < |rows| ==> (rows[i].sends > 0 <==> i < q)
  }

  lemma IterationKeepsFronts(a: seq<Row>, z: seq<Row>, batch: nat, failed: bool, p: nat, q: nat) returns (p': nat, q': nat)
    requires Iterates(a, z, batch, failed) && Front(a, p) && SentFront(a, q) && p <= q <= p + batch
    ensures Front(z, p') && SentFront(z, q') && p' <= q' <= p' + batch
    ensures p' == if failed then p else BatchEnd(a, p, batch)
    ensures q <= q'
  {
    var p0: nat, stop: nat :| IteratesFrom(a, z, batch, failed, p0, stop);
    FrontIsUnique(a, p, p0);
    var end := BatchEnd(a, p, batch);
    p' := if failed then p else end;
    q' := if q > stop then q else if stop < end && z[stop].sends > 0 then stop + 1 else stop;
    forall i | 0 <= i < |z|
      ensures z[i].published <==> i < p'
      ensures z[i].sends > 0 <==> i < q'
    {
      assert RowFollows(a[i], z[i], i, p, stop, end, failed);
    }
  }

  /** At least once, in order: at any moment of any run, whatever failed, the rows ever sent are a
      prefix of the outbox, the rows marked published are a prefix of those, and the two are never
      more than one batch apart. */
  lemma {:induction false} PublishedInOrder(states: seq<seq<Row>>, events: seq<Event>, batch: nat) returns (p: nat, q: nat)
    requires History(states, events, batch)
    ensures var rows := states[|events|]; Front(rows, p) && SentFront(rows, q) && p <= q <= p + batch
    decreases |events|
  {
    var n := |events|;
    if n == 0 {
      p, q := 0, 0;
    } else {
      p, q := PublishedInOrder(states[..n], events[..n - 1], batch);
      assert Follows(states[n - 1], events[n - 1], states[n], batch);
      if events[n - 1].Iterated? {
        p, q := IterationKeepsFronts(states[n - 1], states[n], batch, events[n - 1].failed, p, q);
      }
    }
  }

  // ---- Draining ----

  /** A backlog drains batch by batch: after k fault-free iterations exactly the first
      min(|rows|, p + k * batch) rows are published, so n rows take ceil(n / batch) of them. */
  lemma {:induction false} BacklogDrains(states: seq<seq<Row>>, batch: nat, p: nat, k: nat)
    requires |states| == k + 1 && Front(states[0], p)
    requires forall i :: 0 <= i < k ==> Iterates(states[i], states[i + 1], batch, false)
    ensures |states[k]| == |states[0]|
    ensures Front(states[k], if p + k * batch < |states[0]| then p + k * batch else |states[0]|)
  {
    if k > 0 {
      var m := k - 1;
      BacklogDrains(states[..k], batch, p, m);
      var before := if p + m * batch < |states[0]| then p + m * batch else |states[0]|;
      assert Iterates(states[m], states[m + 1], batch, false);
      OneBatch(states[m], states[k], batch, before);
      assert k * batch == m * batch + batch;
    }
  }

  lemma OneBatch(a: seq<Row>, z: seq<Row>, batch: nat, p: nat)
    requires Iterates(a, z, batch, false) && Front(a, p)
    ensures |z| == |a| && Front(z, BatchEnd(a, p, batch))
  {
    var p0: nat, stop: nat :| IteratesFrom(a, z, batch, false, p0, stop);
    FrontIsUnique(a, p, p0);
    forall i | 0 <= i < |z|
      ensures z[i].published <==> i < BatchEnd(a, p, batch)
    {
      assert RowFollows(a[i], z[i], i, p, stop, BatchEnd(a, p, batch), false);
    }
  }

  lemma FrontIsUnique(rows: seq<Row>, p: nat, q: nat)
    requires Front(rows, p) && Front(rows, q)
    ensures p == q
  {
    assert p < |rows| ==> (rows[p].published <==> p < q);
    assert q < |rows| ==> (rows[q].published <==> q < p);
  }

  // ---- How often a message can be sent ----

  ghost function TotalSends(rows: seq<Row>): nat {
    if rows == [] then 0 else TotalSends(rows[..|rows| - 1]) + rows[|rows| - 1].sends
  }

  ghost function Failures(events: seq<Event>): nat {
    if events == [] then 0 else
      Failures(events[..|events| - 1]) + if events[|events| - 1] == Iterated(true) then 1 else 0
  }

  // How many of the rows in p..end are among the first n.
  function Overlap(n: nat, p: nat, end: nat): nat
    requires p <= end
  {
    if n <= p then 0 else if n <= end then n - p else end - p
  }

  lemma {:induction false} SendsOfOneIteration(a: seq<Row>, z: seq<Row>, n: nat, p: nat, stop: nat, end: nat, failed: bool)
    requires |z| == |a| && n <= |a| && p <= end
    requires forall i :: 0 <= i < |a| ==> RowFollows(a[i], z[i], i, p, stop, end, failed)
    ensures TotalSends(z[..n]) <= TotalSends(a[..n]) + 3 * Overlap(n, p, end)
  {
    if n > 0 {
      SendsOfOneIteration(a, z, n - 1, p, stop, end, failed);
      assert a[..n][..n - 1] == a[..n - 1] && z[..n][..n - 1] == z[..n - 1];
      assert RowFollows(a[n - 1], z[n - 1], n - 1, p, stop, end, failed);
    }
  }

  // One batch for every failed pass.
  ghost function Spare(events: seq<Event>, batch: nat): nat {
    if events == [] then 0 else
      Spare(events[..|events| - 1], batch) + if events[|events| - 1] == Iterated(true) then batch else 0
  }

  lemma {:induction false} SpareMultiplies(events: seq<Event>, batch: nat)
    ensures Spare(events, batch) == batch * Failures(events)
  {
    if events != [] {
      SpareMultiplies(events[..|events| - 1], batch);
    }
  }

  lemma {:induction false} SendsAreBounded(states: seq<seq<Row>>, events: seq<Event>, batch: nat) returns (p: nat)
    requires History(states, events, batch)
    ensures Front(states[|events|], p)
    ensures TotalSends(states[|events|]) <= 3 * p + 3 * Spare(events, batch)
    decreases |events|
  {
    var n := |events|;
    if n == 0 {
      p := 0;
    } else {
      var before := SendsAreBounded(states[..n], events[..n - 1], batch);
      var a, z := states[n - 1], states[n];
      assert Follows(a, events[n - 1], z, batch);
      match events[n - 1]
      case Wrote(m) =>
        p := before;
        assert z[..|z| - 1] == a;
      case Iterated(failed) =>
        p := SendsGrowByTheBatch(a, z, batch, failed, before);
    }
  }

  /** Duplicates are bounded: over any run no more messages reach the broker than three per
      published row, plus three per row of a batch for every iteration that failed. */
  lemma ResendsAreBounded(states: seq<seq<Row>>, events: seq<Event>, batch: nat) returns (p: nat)
    requires History(states, events, batch)
    ensures Front(states[|events|], p)
    ensures TotalSends(states[|events|]) <= 3 * p + 3 * (batch * Failures(events))
  {
    p := SendsAreBounded(states, events, batch);
    SpareMultiplies(events, batch);
  }

  lemma SendsGrowByTheBatch(a: seq<Row>, z: seq<Row>, batch: nat, failed: bool, p: nat) returns (p': nat)
    requires Iterates(a, z, batch, failed) && Front(a, p)
    ensures Front(z, p') && (failed ==> p' == p) && p <= p'
    ensures TotalSends(z) <= TotalSends(a) + 3 * (if failed then batch else p' - p)
  {
    var p0: nat, stop: nat :| IteratesFrom(a, z, batch, failed, p0, stop);
    FrontIsUnique(a, p, p0);
    var end := BatchEnd(a, p, batch);
    SendsOfOneIteration(a, z, |a|, p, stop, end, failed);
    assert a[..|a|] == a && z[..|z|] == z;
    if failed {
      p' := p;
      assert forall i :: 0 <= i < |z| ==> RowFollows(a[i], z[i], i, p, stop, end, failed);
    } else {
      p' := end;
      OneBatch(a, z, batch, p);
    }
  }
}
