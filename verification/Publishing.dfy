/** Each iteration of the dispatcher is a run of the protocol model's publishing steps. */
module Publishing {
  import opened Messages
  import opened System
  import Invariance
  import opened Dispatcher
  import opened Progress

  // What may have happened to a row: copies were sent while it was unpublished, then it was marked.
  ghost predicate RowMoves(a: Row, z: Row) {
    && z.msg == a.msg && a.sends <= z.sends
    && (a.published ==> z == a)
    && (z.published ==> z.sends > 0)
  }

  ghost predicate OnlyPublishes(run: seq<Action>, svc: Service) {
    forall a :: a in run ==> (a.Send? || a.Mark?) && a.svc == svc
  }

  lemma PublishOne(w: World, svc: Service, i: nat, z: Row) returns (w': World, run: seq<Action>)
    requires svc != NotificationService && i < |Outbox(w, svc)| && RowMoves(Outbox(w, svc)[i], z)
    ensures LegalRun(w, run) && Outcome(w, run) == w' && OnlyPublishes(run, svc)
    ensures Outbox(w', svc) == Outbox(w, svc)[i := z]
  {
    var a := Outbox(w, svc)[i];
    if a == z {
      w', run := w, [];
      assert Outbox(w, svc)[i := z] == Outbox(w, svc);
    } else {
      var send := Send(svc, i, z.sends - a.sends);
      var sent := Next(w, send);
      assert Outbox(sent, svc) == Outbox(w, svc)[i := Row(a.msg, z.sends, false)];
      var mark := Mark(svc, i);
      if z.published {
        w', run := Next(sent, mark), [send, mark];
        assert run[1..] == [mark] && [mark][1..] == [];
        assert LegalRun(w', []);
        assert LegalRun(sent, [mark]);
        assert Outcome(sent, [mark]) == w';
        assert Outbox(w, svc)[i := Row(a.msg, z.sends, false)][i := z] == Outbox(w, svc)[i := z];
      } else {
        w', run := sent, [send];
        assert LegalRun(w', []) && run[1..] == [];
      }
    }
  }

  lemma {:induction false} PublishFrom(w: World, svc: Service, z: seq<Row>, i: nat) returns (run: seq<Action>)
    requires svc != NotificationService && |z| == |Outbox(w, svc)| && i <= |z|
    requires forall k :: 0 <= k < i ==> Outbox(w, svc)[k] == z[k]
    requires forall k :: i <= k < |z| ==> RowMoves(Outbox(w, svc)[k], z[k])
    ensures LegalRun(w, run) && OnlyPublishes(run, svc) && Outbox(Outcome(w, run), svc) == z
    decreases |z| - i
  {
    if i == |z| {
      run := [];
    } else {
      var w', first := PublishOne(w, svc, i, z[i]);
      var rest := PublishFrom(w', svc, z, i + 1);
      Invariance.RunsCompose(w, first, rest);
      run := first + rest;
    }
  }

  /** The dispatcher refines the protocol: whatever an iteration does to an outbox, completed or
      failed, the protocol model can do by Send and Mark steps on that outbox alone. */
  lemma IterationsArePublishingSteps(w: World, svc: Service, z: seq<Row>, batch: nat, failed: bool) returns (run: seq<Action>)
    requires svc != NotificationService && Iterates(Outbox(w, svc), z, batch, failed)
    requires forall i :: 0 <= i < |Outbox(w, svc)| && Outbox(w, svc)[i].published ==> Outbox(w, svc)[i].sends > 0
    ensures LegalRun(w, run) && OnlyPublishes(run, svc) && Outbox(Outcome(w, run), svc) == z
  {
    var rows := Outbox(w, svc);
    var p: nat, stop: nat :| IteratesFrom(rows, z, batch, failed, p, stop);
    forall i | 0 <= i < |z|
      ensures RowMoves(rows[i], z[i])
    {
      assert RowFollows(rows[i], z[i], i, p, stop, BatchEnd(rows, p, batch), failed);
    }
    run := PublishFrom(w, svc, z, 0);
  }

  // ---- A pass in which nothing goes wrong ----

  // One copy of each row, then its mark.
  ghost function BatchRun(svc: Service, p: nat, end: nat): seq<Action>
    decreases end - p
  {
    if p >= end then [] else [Send(svc, p, 1)] + ([Mark(svc, p)] + BatchRun(svc, p + 1, end))
  }

  lemma SendThenMark(w: World, svc: Service, i: nat)
    requires svc != NotificationService && i < |Outbox(w, svc)| && !Outbox(w, svc)[i].published
    ensures Legal(w, Send(svc, i, 1)) && Legal(Next(w, Send(svc, i, 1)), Mark(svc, i))
    ensures var r := Outbox(w, svc)[i];
            Outbox(Next(Next(w, Send(svc, i, 1)), Mark(svc, i)), svc) == Outbox(w, svc)[i := Row(r.msg, r.sends + 1, true)]
    ensures Outbox(w, svc)[i].sends == 0 ==>
              Productive(w, Send(svc, i, 1)) && Productive(Next(w, Send(svc, i, 1)), Mark(svc, i))
  {
    var r := Outbox(w, svc)[i];
    var sent := Next(w, Send(svc, i, 1));
    assert Outbox(sent, svc) == Outbox(w, svc)[i := Row(r.msg, r.sends + 1, false)];
    assert Outbox(w, svc)[i := Row(r.msg, r.sends + 1, false)][i := Row(r.msg, r.sends + 1, true)]
        == Outbox(w, svc)[i := Row(r.msg, r.sends + 1, true)];
  }

  // The rows once those from p to end have gained a copy and a mark.
  ghost predicate Advanced(a: seq<Row>, z: seq<Row>, p: nat, end: nat) {
    && |z| == |a| && end <= |a|
    && forall i :: 0 <= i < |a| ==> z[i] == if p <= i < end then Row(a[i].msg, a[i].sends + 1, true) else a[i]
  }

  lemma {:induction false} BatchRuns(w: World, svc: Service, z: seq<Row>, p: nat, end: nat)
    requires svc != NotificationService && p <= end && Advanced(Outbox(w, svc), z, p, end)
    requires forall i :: p <= i < end ==> !Outbox(w, svc)[i].published
    ensures LegalRun(w, BatchRun(svc, p, end)) && Outbox(Outcome(w, BatchRun(svc, p, end)), svc) == z
    ensures (forall i :: p <= i < end ==> Outbox(w, svc)[i].sends == 0) ==> AllProductive(w, BatchRun(svc, p, end))
    decreases end - p
  {
    if p == end {
      assert Outbox(w, svc) == z;
    } else {
      SendThenMark(w, svc, p);
      var sent := Next(w, Send(svc, p, 1));
      var marked := Next(sent, Mark(svc, p));
      BatchRuns(marked, svc, z, p + 1, end);
      var rest := BatchRun(svc, p + 1, end);
      ProductiveStarts(sent, Mark(svc, p), rest);
      ProductiveStarts(w, Send(svc, p, 1), [Mark(svc, p)] + rest);
    }
  }

  lemma ProductiveStarts(w: World, a: Action, rest: seq<Action>)
    requires Legal(w, a) && LegalRun(Next(w, a), rest)
    ensures LegalRun(w, [a] + rest) && Outcome(w, [a] + rest) == Outcome(Next(w, a), rest)
    ensures Productive(w, a) && AllProductive(Next(w, a), rest) ==> AllProductive(w, [a] + rest)
  {
    Invariance.RunStarts(w, a, rest);
    assert ([a] + rest)[1..] == rest;
  }

  /** A pass in which every first attempt is accepted sends each row of the batch once and marks it: it
      is this run of the protocol, made of productive steps if the batch had not been sent before. */
  lemma CleanPassesAreProductive(w: World, svc: Service, z: seq<Row>, batch: nat, p: nat)
    requires svc != NotificationService && Front(Outbox(w, svc), p) && CleanPass(Outbox(w, svc), z, batch, p)
    ensures var end := BatchEnd(Outbox(w, svc), p, batch);
            && LegalRun(w, BatchRun(svc, p, end)) && Outbox(Outcome(w, BatchRun(svc, p, end)), svc) == z
            && ((forall i :: p <= i < end ==> Outbox(w, svc)[i].sends == 0) ==> AllProductive(w, BatchRun(svc, p, end)))
  {
    BatchRuns(w, svc, z, p, BatchEnd(Outbox(w, svc), p, batch));
  }
}
