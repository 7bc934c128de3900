/**
 A call of the worker among the steps of everybody else: other workers, use cases, crashes. They happen
 between its publishes, and what it commits and what it published still follow from its selection and
 the replies of the gateway alone.
 */
module Interleaving {
  import opened Wrappers
  import opened Entities
  import opened Outbox
  import opened OutboxWorker
  import opened Protocol
  import Delivery
  import Refinement

  /** The action is a step of this worker. */
  predicate By(a: Action, w: nat) {
    Delivery.WorkerAction(a) && a.worker == w
  }

  predicate NotBy(actions: seq<Action>, w: nat) {
    forall i :: 0 <= i < |actions| ==> !By(actions[i], w)
  }

  /** The part of a log about these rows. */
  function About(log: seq<Attempt>, ids: seq<nat>): seq<Attempt> {
    if log == [] then []
    else
      var last := log[|log| - 1];
      About(log[..|log| - 1], ids) + (if last.row in ids then [last] else [])
  }

  lemma {:induction false} AboutConcat(a: seq<Attempt>, b: seq<Attempt>, ids: seq<nat>)
    ensures About(a + b, ids) == About(a, ids) + About(b, ids)
  {
    if b == [] {
      assert a + b == a;
    } else {
      AboutConcat(a, b[..|b| - 1], ids);
      assert (a + b)[..|a + b| - 1] == a + b[..|b| - 1];
    }
  }

  lemma {:induction false} AboutNone(log: seq<Attempt>, ids: seq<nat>)
    requires forall i :: 0 <= i < |log| ==> log[i].row !in ids
    ensures About(log, ids) == []
  {
    if log != [] {
      AboutNone(log[..|log| - 1], ids);
    }
  }

  lemma {:induction false} AboutOne(attempt: Attempt, ids: seq<nat>)
    requires attempt.row in ids
    ensures About([attempt], ids) == [attempt]
  {
    assert [attempt][..0] == [];
  }

  /** What a step of anybody else leaves of the batch a worker holds. */
  ghost predicate Kept(s: State, t: State, w: nat)
    requires w in s.workers
  {
    var ids := s.workers[w].batch;
    && w in t.workers && t.workers[w] == s.workers[w]
    && WorkerRely(s.store.outbox, t.store.outbox, LockSet(ids))
    && About(t.published, ids) == About(s.published, ids)
    && About(t.rolledBack, ids) == About(s.rolledBack, ids)
  }

  /** Rows another worker stages, publishes or rolls back are not in this batch. */
  lemma {:induction false} OtherRows(config: Config, s: State, v: nat, w: nat)
    requires Delivery.Sound(config, s) && v in s.workers && w in s.workers && v != w
    ensures forall i :: 0 <= i < |s.workers[v].batch| ==> s.workers[v].batch[i] !in s.workers[w].batch
    ensures forall i :: 0 <= i < |s.workers[v].done| ==> s.workers[v].done[i].row !in s.workers[w].batch
  {
    hide Possible, Delivery.RowSound, Delivery.Conserved;
    var other, own := s.workers[v], s.workers[w];
    assert Delivery.WorkerSound(s.store.outbox, other);
    forall i | 0 <= i < |other.batch|
      ensures other.batch[i] !in own.batch
    {
      assert Delivery.Holds(s.workers, v, other.batch[i]);
      assert Delivery.Holds(s.workers, w, other.batch[i]) ==> v == w;
    }
    forall i | 0 <= i < |other.done|
      ensures other.done[i].row !in own.batch
    {
      assert other.done[i].row == Rows(other.done)[i] == other.batch[i];
    }
  }

  lemma {:induction false} OtherPublish(config: Config, s: State, w: nat, v: nat, outcome: Outcome, sends: nat)
    requires Delivery.Sound(config, s) && w in s.workers && v != w
    ensures Kept(s, Step(config, s, PublishNext(v, outcome, sends)), w)
  {
    hide Possible, Delivery.Sound;
    var t, ids := Step(config, s, PublishNext(v, outcome, sends)), s.workers[w].batch;
    NothingHappened(s.store.outbox, LockSet(ids));
    if t != s {
      OtherRows(config, s, v, w);
      var k := s.workers[v];
      var attempt := Attempt(k.batch[|k.done|], outcome, sends);
      AboutConcat(s.published, [attempt], ids);
      AboutNone([attempt], ids);
    }
  }

  lemma {:induction false} OtherAbort(config: Config, s: State, w: nat, v: nat, interrupted: Option<nat>)
    requires Delivery.Sound(config, s) && w in s.workers && v != w
    ensures Kept(s, Step(config, s, AbortBatch(v, interrupted)), w)
  {
    hide Possible, Delivery.Sound;
    var t, ids := Step(config, s, AbortBatch(v, interrupted)), s.workers[w].batch;
    NothingHappened(s.store.outbox, LockSet(ids));
    if v in s.workers {
      OtherRows(config, s, v, w);
      var done := s.workers[v].done;
      var last := t.published[|s.published|..];
      assert t.published == s.published + last && t.rolledBack == s.rolledBack + done + last;
      AboutConcat(s.published, last, ids);
      AboutConcat(s.rolledBack + done, last, ids);
      AboutConcat(s.rolledBack, done, ids);
      AboutNone(done, ids);
      AboutNone(last, ids);
    }
  }

  lemma {:induction false} OtherCommit(config: Config, s: State, w: nat, v: nat)
    requires Delivery.Sound(config, s) && w in s.workers && v != w
    ensures Kept(s, Step(config, s, CommitBatch(v)), w)
  {
    hide MarkAll, Delivery.Sound;
    var t, ids := Step(config, s, CommitBatch(v)), s.workers[w].batch;
    NothingHappened(s.store.outbox, LockSet(ids));
    if t != s {
      OtherRows(config, s, v, w);
      forall r | 0 <= r < |s.store.outbox|
        ensures t.store.outbox[r].event == s.store.outbox[r].event
        ensures r in LockSet(ids) ==> t.store.outbox[r] == s.store.outbox[r]
      {
        MarkAllKeepsEvents(s.store.outbox, s.workers[v].done, config.maxRetries, r);
        if r in LockSet(ids) {
          Delivery.CommitRow(config, s, v, r, false);
        }
      }
    }
  }

  lemma {:induction false} AppendsRely(before: seq<OutboxRow>, after: seq<OutboxRow>, held: set<nat>)
    requires Delivery.Appends(before, after)
    ensures WorkerRely(before, after, held)
  {
    assert forall r :: 0 <= r < |before| ==> after[r] == after[..|before|][r];
  }

  lemma {:induction false} UseCaseKeeps(config: Config, s: State, a: Action, w: nat)
    requires w in s.workers && !Delivery.WorkerAction(a)
    ensures Kept(s, Step(config, s, a), w)
  {
    hide Step, About, Delivery.Appends, WorkerRely;
    Delivery.UseCaseKeepsWorkers(config, s, a);
    Delivery.UseCaseAppends(config, s, a);
    AppendsRely(s.store.outbox, Step(config, s, a).store.outbox, LockSet(s.workers[w].batch));
  }

  lemma {:induction false} OtherSelect(config: Config, s: State, w: nat, v: nat)
    requires w in s.workers && v != w
    ensures Kept(s, Step(config, s, SelectBatch(v)), w)
  {
    hide Select, Locked, About;
    NothingHappened(s.store.outbox, LockSet(s.workers[w].batch));
  }

  lemma {:induction false} OtherStep(config: Config, s: State, a: Action, w: nat)
    requires config.maxRetries >= 1 && Delivery.Sound(config, s) && w in s.workers && !By(a, w)
    ensures Delivery.Sound(config, Step(config, s, a)) && Kept(s, Step(config, s, a), w)
  {
    Delivery.StepSound(config, s, a);
    hide Step, Delivery.Sound, Kept;
    match a {
      case PublishNext(v, outcome, sends) => OtherPublish(config, s, w, v, outcome, sends);
      case AbortBatch(v, interrupted) => OtherAbort(config, s, w, v, interrupted);
      case CommitBatch(v) => OtherCommit(config, s, w, v);
      case SelectBatch(v) => OtherSelect(config, s, w, v);
      case _ => UseCaseKeeps(config, s, a, w);
    }
  }

  lemma {:induction false} OthersKeep(config: Config, s: State, others: seq<Action>, w: nat)
    requires config.maxRetries >= 1 && Delivery.Sound(config, s) && w in s.workers && NotBy(others, w)
    ensures Delivery.Sound(config, RunFrom(config, s, others)) && Kept(s, RunFrom(config, s, others), w)
  {
    hide Step, Delivery.Sound, About;
    var ids := s.workers[w].batch;
    NothingHappened(s.store.outbox, LockSet(ids));
    if others != [] {
      var before, a := others[..|others| - 1], others[|others| - 1];
      OthersKeep(config, s, before, w);
      var t := RunFrom(config, s, before);
      OtherStep(config, t, a, w);
      WorkerRelyTransitive(s.store.outbox, t.store.outbox, RunFrom(config, s, others).store.outbox, LockSet(ids));
    }
  }

  /**
   What a worker relies on while it awaits the gateway: in every run its rows stay locked by it and as they
   were, whatever others do, and nobody else publishes them or rolls them back.
   */
  lemma {:induction false} OthersKeepRely(config: Config, actions: seq<Action>, others: seq<Action>, w: nat)
    requires config.maxRetries >= 1 && w in Run(config, actions).workers && NotBy(others, w)
    ensures var s, t := Run(config, actions), Run(config, actions + others);
      && Kept(s, t, w)
      && Locked(t.workers) * LockSet(s.workers[w].batch) == Locked(s.workers) * LockSet(s.workers[w].batch)
  {
    hide RunFrom, About, Delivery.Sound;
    Delivery.RunSound(config, actions);
    Refinement.RunFromConcat(config, INIT, actions, others);
    OthersKeep(config, Run(config, actions), others, w);
  }

  // ---------------------------------------------------------------- a call in the middle of it all

  /** The worker has published some of its batch, and everything about these rows is its own doing. */
  ghost predicate Midway(config: Config, s: State, t: State, w: nat, ids: seq<nat>, done: seq<Attempt>) {
    && Delivery.Sound(config, t)
    && w in t.workers && t.workers[w] == Worker(ids, done)
    && WorkerRely(s.store.outbox, t.store.outbox, LockSet(ids))
    && About(t.published, ids) == About(s.published, ids) + done
    && About(t.rolledBack, ids) == About(s.rolledBack, ids)
  }

  lemma {:induction false} OthersMidway(
    config: Config, s: State, t: State, w: nat, ids: seq<nat>, done: seq<Attempt>, others: seq<Action>)
    requires config.maxRetries >= 1 && Midway(config, s, t, w, ids, done) && NotBy(others, w)
    ensures Midway(config, s, RunFrom(config, t, others), w, ids, done)
  {
    hide RunFrom, About, Delivery.Sound;
    OthersKeep(config, t, others, w);
    WorkerRelyTransitive(s.store.outbox, t.store.outbox, RunFrom(config, t, others).store.outbox, LockSet(ids));
  }

  lemma {:induction false} SelectMidway(config: Config, s: State, w: nat, ids: seq<nat>)
    requires config.maxRetries >= 1 && Delivery.Sound(config, s) && w !in s.workers
    requires ids == Select(s.store.outbox, Locked(s.workers), config.batchSize) != []
    ensures Midway(config, s, Step(config, s, SelectBatch(w)), w, ids, [])
  {
    Delivery.StepSound(config, s, SelectBatch(w));
    hide Select, Locked, About, Delivery.Sound;
    NothingHappened(s.store.outbox, LockSet(ids));
    assert About(s.published, ids) + [] == About(s.published, ids);
  }

  lemma {:induction false} PublishStep(config: Config, t: State, w: nat, next: Attempt)
    requires w in t.workers && !next.outcome.Interrupted?
    requires var k := t.workers[w]; |k.done| < |k.batch| && next.row == k.batch[|k.done|] < |t.store.outbox|
    requires Possible(t.store.outbox[next.row].event, next.outcome, next.sends, config)
    ensures var k := t.workers[w];
      Step(config, t, PublishNext(w, next.outcome, next.sends))
        == t.(workers := t.workers[w := k.(done := k.done + [next])], published := t.published + [next])
  {
    hide Possible;
  }

  lemma {:induction false} PublishMidway(
    config: Config, s: State, t: State, w: nat, ids: seq<nat>, done: seq<Attempt>, next: Attempt)
    requires config.maxRetries >= 1 && Midway(config, s, t, w, ids, done)
    requires |done| < |ids| && !next.outcome.Interrupted?
    requires Refinement.Fits(config, s.store.outbox, ids[|done|], next)
    ensures Midway(config, s, Step(config, t, PublishNext(w, next.outcome, next.sends)), w, ids, done + [next])
  {
    var a := PublishNext(w, next.outcome, next.sends);
    Delivery.StepSound(config, t, a);
    assert t.store.outbox[next.row].event == s.store.outbox[next.row].event;
    hide Step, Possible, About, Delivery.Sound;
    PublishStep(config, t, w, next);
    AboutConcat(t.published, [next], ids);
    AboutOne(next, ids);
    Regroup(About(s.published, ids), done, [next]);
  }

  /** The steps of a worker up to its last publish, each followed by steps of others. */
  function Weave(w: nat, done: seq<Attempt>, others: seq<seq<Action>>): seq<Action>
    requires |others| == |done| + 1
  {
    var k := |done|;
    (if k == 0 then [SelectBatch(w)]
     else Weave(w, done[..k - 1], others[..k]) + [PublishNext(w, done[k - 1].outcome, done[k - 1].sends)])
      + others[k]
  }

  lemma {:induction false} WeaveMidway(
    config: Config, s: State, w: nat, ids: seq<nat>, done: seq<Attempt>, others: seq<seq<Action>>)
    requires config.maxRetries >= 1 && Delivery.Sound(config, s) && w !in s.workers
    requires ids == Select(s.store.outbox, Locked(s.workers), config.batchSize) != []
    requires Refinement.AllFit(config, s.store.outbox, ids, done) && Refinement.Uninterrupted(done)
    requires |others| == |done| + 1 && forall i :: 0 <= i < |others| ==> NotBy(others[i], w)
    ensures Midway(config, s, RunFrom(config, s, Weave(w, done, others)), w, ids, done)
    decreases |done|
  {
    hide Step, RunFrom, Select, Locked, Delivery.Sound, Midway, NotBy, Refinement.Fits;
    var k := |done|;
    if k == 0 {
      SelectMidway(config, s, w, ids);
      Refinement.RunFromOne(config, s, SelectBatch(w));
      Refinement.RunFromConcat(config, s, [SelectBatch(w)], others[0]);
      OthersMidway(config, s, Step(config, s, SelectBatch(w)), w, ids, [], others[0]);
      assert done == [];
    } else {
      var init, last := done[..k - 1], done[k - 1];
      var own := PublishNext(w, last.outcome, last.sends);
      var before := Weave(w, init, others[..k]);
      var t := RunFrom(config, s, before);
      WeaveMidway(config, s, w, ids, init, others[..k]);
      assert Refinement.Fits(config, s.store.outbox, ids[k - 1], last);
      PublishMidway(config, s, t, w, ids, init, last);
      assert init + [last] == done;
      Refinement.RunFromOne(config, t, own);
      Refinement.RunFromConcat(config, s, before, [own]);
      OthersMidway(config, s, Step(config, t, own), w, ids, done, others[k]);
      Refinement.RunFromConcat(config, s, before + [own], others[k]);
    }
  }

  /** The last step of a call: commit, or rollback where it was interrupted. */
  function LastStep(w: nat, attempts: seq<Attempt>): Action {
    if WasInterrupted(attempts) then AbortBatch(w, Some(attempts[|attempts| - 1].sends)) else CommitBatch(w)
  }

  function Staged(attempts: seq<Attempt>): seq<Attempt> {
    if WasInterrupted(attempts) then attempts[..|attempts| - 1] else attempts
  }

  lemma {:induction false} CommitEnds(config: Config, s: State, u: State, w: nat, ids: seq<nat>, attempts: seq<Attempt>)
    requires Midway(config, s, u, w, ids, attempts) && |attempts| == |ids|
    ensures var end := Step(config, u, CommitBatch(w));
      && end == u.(workers := u.workers - {w},
                   store := u.store.(outbox := MarkAll(u.store.outbox, attempts, config.maxRetries)))
      && About(end.published, ids) == About(s.published, ids) + attempts
      && About(end.rolledBack, ids) == About(s.rolledBack, ids) + []
  {
    hide MarkAll, About, Delivery.Sound;
  }

  lemma {:induction false} AboutAll(log: seq<Attempt>, ids: seq<nat>)
    requires Rows(log) <= ids
    ensures About(log, ids) == log
  {
    if log != [] {
      var init, last := log[..|log| - 1], log[|log| - 1];
      assert Rows(init) == Rows(log)[..|init|];
      AboutAll(init, ids);
      assert ids[|init|] == Rows(log)[|init|] == last.row;
      assert log == init + [last];
    }
  }

  lemma {:induction false} AbortEnds(
    config: Config, s: State, u: State, w: nat, ids: seq<nat>, done: seq<Attempt>, last: Attempt)
    requires Midway(config, s, u, w, ids, done) && |done| < |ids| && Rows(done) <= ids
    requires Refinement.Fits(config, s.store.outbox, ids[|done|], last) && last.outcome == Interrupted
    ensures var end := Step(config, u, AbortBatch(w, Some(last.sends)));
      && end == u.(workers := u.workers - {w}, published := u.published + [last],
                   rolledBack := u.rolledBack + done + [last])
      && About(end.published, ids) == About(s.published, ids) + (done + [last])
      && About(end.rolledBack, ids) == About(s.rolledBack, ids) + (done + [last])
  {
    hide Possible, About, Delivery.Sound;
    assert u.store.outbox[last.row].event == s.store.outbox[last.row].event;
    AboutConcat(u.published, [last], ids);
    AboutConcat(u.rolledBack + done, [last], ids);
    AboutConcat(u.rolledBack, done, ids);
    AboutOne(last, ids);
    AboutAll(done, ids);
    Regroup(About(s.published, ids), done, [last]);
    Regroup(About(s.rolledBack, ids), done, [last]);
  }

  lemma {:induction false} RunSplit(config: Config, actions: seq<Action>, more: seq<Action>)
    ensures Run(config, actions + more) == RunFrom(config, Run(config, actions), more)
  {
    Refinement.RunFromConcat(config, INIT, actions, more);
  }

  lemma {:induction false} CallEnds(config: Config, s: State, u: State, w: nat, ids: seq<nat>, attempts: seq<Attempt>)
    requires Midway(config, s, u, w, ids, Staged(attempts))
    requires Refinement.Follows(config, s.store.outbox, ids, attempts) && Rows(attempts) <= ids
    ensures
      var end := Step(config, u, LastStep(w, attempts));
      && WorkerRely(s.store.outbox, u.store.outbox, LockSet(ids))
      && end.store == (if WasInterrupted(attempts) then u.store
          else u.store.(outbox := MarkAll(u.store.outbox, attempts, config.maxRetries)))
      && end.workers == u.workers - {w}
      && About(end.published, ids) == About(s.published, ids) + attempts
      && About(end.rolledBack, ids) == About(s.rolledBack, ids) + (if WasInterrupted(attempts) then attempts else [])
  {
    hide Step, Delivery.Sound, Refinement.Fits, MarkAll, About, WorkerRely;
    if WasInterrupted(attempts) {
      var done, last := Staged(attempts), attempts[|attempts| - 1];
      assert Refinement.Fits(config, s.store.outbox, ids[|done|], last);
      assert Rows(done) == Rows(attempts)[..|done|];
      AbortEnds(config, s, u, w, ids, done, last);
      assert done + [last] == attempts;
    } else {
      CommitEnds(config, s, u, w, ids, attempts);
    }
  }

  /**
   A call of the worker among any steps of others. Its attempts follow from the rows it selected and the
   replies; the store it commits is the one the others left with these attempts marked, or that store
   unchanged if it was interrupted. Of its rows the logs show these attempts and nothing else, in order,
   and they count as rolled back exactly if the call was interrupted.
   */
  lemma {:induction false} DisturbedCallIsRun(
    config: Config, actions: seq<Action>, w: nat, replies: nat -> Reply, t: nat, others: seq<seq<Action>>)
    requires config.maxRetries >= 1
    requires w !in Run(config, actions).workers
    requires var s := Run(config, actions); Select(s.store.outbox, Locked(s.workers), config.batchSize) != []
    requires
      var s := Run(config, actions);
      var ids := Select(s.store.outbox, Locked(s.workers), config.batchSize);
      |others| == |Staged(BatchRun(replies, t, s.store.outbox, ids, config).attempts)| + 1
    requires forall i :: 0 <= i < |others| ==> NotBy(others[i], w)
    ensures
      var s := Run(config, actions);
      var ids := Select(s.store.outbox, Locked(s.workers), config.batchSize);
      var attempts := BatchRun(replies, t, s.store.outbox, ids, config).attempts;
      var own := actions + Weave(w, Staged(attempts), others);
      var u, end := Run(config, own), Run(config, own + [LastStep(w, attempts)]);
      && WorkerRely(s.store.outbox, u.store.outbox, LockSet(ids))
      && end.store == (if WasInterrupted(attempts) then u.store
          else u.store.(outbox := MarkAll(u.store.outbox, attempts, config.maxRetries)))
      && end.workers == u.workers - {w}
      && About(end.published, ids) == About(s.published, ids) + attempts
      && About(end.rolledBack, ids) == About(s.rolledBack, ids) + (if WasInterrupted(attempts) then attempts else [])
  {
    var s := Run(config, actions);
    var ids := Select(s.store.outbox, Locked(s.workers), config.batchSize);
    var attempts := BatchRun(replies, t, s.store.outbox, ids, config).attempts;
    var done := Staged(attempts);
    hide Step, RunFrom, Select, Locked, Delivery.Sound, Refinement.Fits, MarkAll, BatchRun, About, Weave, LastStep,
      WorkerRely, Run;
    var weave := Weave(w, done, others);
    var u := RunFrom(config, s, weave);
    Delivery.RunSound(config, actions);
    Refinement.BatchRunFollows(replies, t, s.store.outbox, ids, config);
    BatchRunRows(replies, t, s.store.outbox, ids, config);
    WeaveMidway(config, s, w, ids, done, others);
    RunSplit(config, actions, weave);
    RunSplits(config, actions + weave, LastStep(w, attempts));
    CallEnds(config, s, u, w, ids, attempts);
  }
}
