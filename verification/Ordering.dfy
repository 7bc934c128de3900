/** One worker, no errors, no cancellation: rows are published in the order they were created. */
module Ordering {
  import opened Entities
  import opened Transitions
  import opened Outbox
  import opened OutboxWorker
  import opened Protocol
  import Delivery

  predicate Harmless(a: Action, w: nat) {
    match a
    case SelectBatch(id) => id == w
    case PublishNext(id, outcome, _) => id == w && outcome == Delivered
    case CommitBatch(id) => id == w
    case AbortBatch(_, _) => false
    case _ => true
  }

  /** The worker actions of the run are those of one worker whose publishes all succeed. */
  predicate FailureFree(actions: seq<Action>, w: nat) {
    forall i :: 0 <= i < |actions| ==> Harmless(actions[i], w)
  }

  /** The attempts staged but not committed. */
  function Staged(s: State, w: nat): nat {
    if w in s.workers then |s.workers[w].done| else 0
  }

  /** The log lists the rows from the first on; those committed as sent are the ones before the staged. */
  predicate Orderly(s: State, w: nat) {
    && (forall v :: v in s.workers ==> v == w)
    && (forall i :: 0 <= i < |s.published| ==> s.published[i].row == i && s.published[i].outcome == Delivered)
    && Staged(s, w) <= |s.published| <= |s.store.outbox|
    && var settled := |s.published| - Staged(s, w);
       && (forall r :: 0 <= r < |s.store.outbox| ==> s.store.outbox[r].status == if r < settled then Sent else Pending)
       && (w in s.workers ==>
             && |s.workers[w].done| <= |s.workers[w].batch|
             && (forall i :: 0 <= i < |s.workers[w].batch| ==> s.workers[w].batch[i] == settled + i)
             && settled + |s.workers[w].batch| <= |s.store.outbox|
             && (forall i :: 0 <= i < |s.workers[w].done| ==>
                   s.workers[w].done[i].row == settled + i && s.workers[w].done[i].outcome == Delivered))
  }

  function Range(m: nat, n: nat): seq<nat>
    requires m <= n
  {
    seq(n - m, i => m + i)
  }

  lemma {:induction false} PendingFromRange(outbox: seq<OutboxRow>, m: nat, i: nat)
    requires i <= |outbox| && m <= |outbox|
    requires forall r :: 0 <= r < |outbox| ==> (outbox[r].status == Pending <==> r >= m)
    ensures PendingFrom(outbox, {}, i) == Range(if i < m then m else i, |outbox|)
    decreases |outbox| - i
  {
    if i < |outbox| {
      PendingFromRange(outbox, m, i + 1);
      if i >= m {
        assert Range(i, |outbox|) == [i] + Range(i + 1, |outbox|);
      }
    }
  }

  lemma {:induction false} NothingLocked(workers: map<nat, Worker>, w: nat)
    requires w !in workers && forall v :: v in workers ==> v == w
    ensures Locked(workers) == {}
  {
  }

  lemma {:induction false} SelectKeepsOrder(config: Config, s: State, w: nat)
    requires Orderly(s, w) && w !in s.workers
    ensures Orderly(Step(config, s, SelectBatch(w)), w)
  {
    hide Locked, PendingFrom;
    var m := |s.published|;
    NothingLocked(s.workers, w);
    PendingFromRange(s.store.outbox, m, 0);
  }

  lemma {:induction false} PublishKeepsOrder(config: Config, s: State, w: nat, sends: nat)
    requires Orderly(s, w)
    ensures Orderly(Step(config, s, PublishNext(w, Delivered, sends)), w)
  {
    hide Possible;
  }

  lemma {:induction false} CommitKeepsOrder(config: Config, s: State, w: nat)
    requires Orderly(s, w)
    ensures Orderly(Step(config, s, CommitBatch(w)), w)
  {
    if w in s.workers && |s.workers[w].done| == |s.workers[w].batch| {
      hide MarkAll;
      var k := s.workers[w];
      var settled := |s.published| - |k.done|;
      var after := MarkAll(s.store.outbox, k.done, config.maxRetries);
      forall r: nat | r < |after|
        ensures after[r].status == if r < |s.published| then Sent else Pending
      {
        MarkAllRow(s.store.outbox, k.done, config.maxRetries, r);
        if settled <= r < |s.published| {
          assert k.done[r - settled].row == r;
        }
      }
    }
  }

  lemma {:induction false} AppendKeepsOrder(s: State, t: State, w: nat)
    requires Orderly(s, w) && Delivery.Appends(s.store.outbox, t.store.outbox)
    requires t.workers == s.workers && t.published == s.published
    ensures Orderly(t, w)
  {
    assert forall r :: 0 <= r < |s.store.outbox| ==> t.store.outbox[r] == s.store.outbox[r];
  }

  lemma {:induction false} StepKeepsOrder(config: Config, s: State, a: Action, w: nat)
    requires Orderly(s, w) && Harmless(a, w)
    ensures Orderly(Step(config, s, a), w)
  {
    hide Orderly, Possible, Select, MarkAll, PaymentCallback, ShipmentEvent, InsertOrder, Compensate, Lookup, Quote,
      AfterPayment, Amounts.Amount, Delivery.Appends;
    match a {
      case SelectBatch(_) =>
        if w !in s.workers {
          SelectKeepsOrder(config, s, w);
        }
      case PublishNext(_, _, sends) => PublishKeepsOrder(config, s, w, sends);
      case CommitBatch(_) => CommitKeepsOrder(config, s, w);
      case _ =>
        Delivery.UseCaseAppends(config, s, a);
        AppendKeepsOrder(s, Step(config, s, a), w);
    }
  }

  lemma {:induction false} RunOrderly(config: Config, actions: seq<Action>, w: nat)
    requires FailureFree(actions, w)
    ensures Orderly(Run(config, actions), w)
  {
    if actions != [] {
      hide Step, Orderly;
      var before := actions[..|actions| - 1];
      RunOrderly(config, before, w);
      StepKeepsOrder(config, Run(config, before), actions[|actions| - 1], w);
    }
  }

  function PublishedEvents(s: State): seq<OutboxEvent>
    requires forall i :: 0 <= i < |s.published| ==> s.published[i].row < |s.store.outbox|
  {
    seq(|s.published|, i requires 0 <= i < |s.published| => s.store.outbox[s.published[i].row].event)
  }

  /**
   Failure-free ordering: with one worker, no publish error and no cancellation, the log of what was
   published is at all times a prefix of the outbox, across batches of any size and with any
   inserts before, between and during batches.
   */
  lemma {:induction false} PublishedInOrder(config: Config, actions: seq<Action>, w: nat)
    requires FailureFree(actions, w)
    ensures var s := Run(config, actions);
      && (forall i :: 0 <= i < |s.published| ==> s.published[i].row < |s.store.outbox|)
      && PublishedEvents(s) <= Events(s.store.outbox)
  {
    hide Run;
    RunOrderly(config, actions, w);
    var s := Run(config, actions);
    assert PublishedEvents(s) == Events(s.store.outbox)[..|s.published|];
  }
}
