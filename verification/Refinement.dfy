/**
 A call of the imperative worker is a run of the machine: selecting, publishing row by row, and
 committing, or aborting where it was interrupted.
 */
module Refinement {
  import opened Wrappers
  import opened Entities
  import opened Outbox
  import opened OutboxWorker
  import opened Protocol
  import Delivery
  import Drain
  import N = OrderNotifications

  lemma {:induction false} NotifyRunPossible(replies: nat -> Reply, t: nat, request: Request, k: nat, config: Config)
    requires 1 <= k <= config.notifyAttempts
    ensures var p := NotifyRun(replies, t, request, k, config);
      && 1 <= p.sends <= config.notifyAttempts - k + 1
      && (p.outcome.Rejected? ==> p.sends == config.notifyAttempts - k + 1)
    decreases config.notifyAttempts - k
  {
    if k < config.notifyAttempts {
      NotifyRunPossible(replies, t + 2, request, k + 1, config);
    }
  }

  lemma {:induction false} PublishRunPossible(
    replies: nat -> Reply, t: nat, id: nat, event: OutboxEvent, config: Config)
    ensures var p := PublishRun(replies, t, id, event, config);
      Possible(event, p.outcome, p.sends, config)
  {
    hide NotifyRun;
    if N.IsNotification(event.eventType) && HasRequestKeys(event.payload) && config.notifyAttempts > 0 {
      NotifyRunPossible(replies, t, NotifyRequest(event.payload), 1, config);
    }
  }

  predicate Fits(config: Config, outbox: seq<OutboxRow>, id: nat, attempt: Attempt) {
    attempt.row == id < |outbox| && Possible(outbox[id].event, attempt.outcome, attempt.sends, config)
  }

  predicate AllFit(config: Config, outbox: seq<OutboxRow>, ids: seq<nat>, attempts: seq<Attempt>) {
    |attempts| <= |ids| && forall i :: 0 <= i < |attempts| ==> Fits(config, outbox, ids[i], attempts[i])
  }

  predicate Uninterrupted(attempts: seq<Attempt>) {
    forall i :: 0 <= i < |attempts| ==> !attempts[i].outcome.Interrupted?
  }

  /** The attempts of a batch follow its rows and are possible; it ends early at an interruption only. */
  predicate Follows(config: Config, outbox: seq<OutboxRow>, ids: seq<nat>, attempts: seq<Attempt>) {
    && AllFit(config, outbox, ids, attempts)
    && (if WasInterrupted(attempts) then Uninterrupted(attempts[..|attempts| - 1])
        else Uninterrupted(attempts) && |attempts| == |ids|)
  }

  lemma {:induction false} FollowsCons(
    config: Config, outbox: seq<OutboxRow>, ids: seq<nat>, first: Attempt, rest: seq<Attempt>)
    requires ids != [] && Fits(config, outbox, ids[0], first) && !first.outcome.Interrupted?
    requires Follows(config, outbox, ids[1..], rest)
    ensures Follows(config, outbox, ids, [first] + rest)
  {
    hide Fits;
    var attempts := [first] + rest;
    assert forall i :: 0 < i < |attempts| ==> attempts[i] == rest[i - 1] && ids[i] == ids[1..][i - 1];
    if WasInterrupted(attempts) {
      assert attempts[..|attempts| - 1] == [first] + rest[..|rest| - 1];
    }
  }

  lemma {:induction false} FollowsNil(config: Config, outbox: seq<OutboxRow>)
    ensures Follows(config, outbox, [], [])
  {
  }

  lemma {:induction false} FollowsEnds(config: Config, outbox: seq<OutboxRow>, ids: seq<nat>, last: Attempt)
    requires ids != [] && Fits(config, outbox, ids[0], last) && last.outcome.Interrupted?
    ensures Follows(config, outbox, ids, [last])
  {
  }

  lemma {:induction false} BatchRunFollows(
    replies: nat -> Reply, t: nat, outbox: seq<OutboxRow>, ids: seq<nat>, config: Config)
    requires InRange(ids, |outbox|)
    ensures Follows(config, outbox, ids, BatchRun(replies, t, outbox, ids, config).attempts)
    decreases |ids|
  {
    hide PublishRun, Possible, Follows;
    if ids == [] {
      FollowsNil(config, outbox);
    } else {
      var p := PublishRun(replies, t, ids[0], outbox[ids[0]].event, config);
      var first := Attempt(ids[0], p.outcome, p.sends);
      PublishRunPossible(replies, t, ids[0], outbox[ids[0]].event, config);
      if p.outcome.Interrupted? {
        FollowsEnds(config, outbox, ids, first);
      } else {
        BatchRunFollows(replies, t + |p.requests|, outbox, ids[1..], config);
        FollowsCons(config, outbox, ids, first,
          BatchRun(replies, t + |p.requests|, outbox, ids[1..], config).attempts);
      }
    }
  }

  predicate CallPossible(config: Config, outbox: seq<OutboxRow>, call: seq<Attempt>) {
    forall j :: 0 <= j < |call| && call[j].row < |outbox| ==>
      Possible(outbox[call[j].row].event, call[j].outcome, call[j].sends, config)
  }

  /** A worker's call on its selection: with nothing interrupted it is a call of the drain theorems. */
  lemma {:induction false} UninterruptedBatchIsCall(
    replies: nat -> Reply, t: nat, outbox: seq<OutboxRow>, config: Config)
    ensures var attempts := BatchRun(replies, t, outbox, Select(outbox, {}, config.batchSize), config).attempts;
      !WasInterrupted(attempts) ==> Drain.CallOf(config, outbox, attempts) && CallPossible(config, outbox, attempts)
  {
    hide BatchRun, Possible, Select;
    var ids := Select(outbox, {}, config.batchSize);
    var attempts := BatchRun(replies, t, outbox, ids, config).attempts;
    BatchRunFollows(replies, t, outbox, ids, config);
    if !WasInterrupted(attempts) {
      assert forall i :: 0 <= i < |attempts| ==> Fits(config, outbox, ids[i], attempts[i]);
      assert Rows(attempts) == ids;
    }
  }

  function Publishes(w: nat, attempts: seq<Attempt>): seq<Action> {
    seq(|attempts|, i requires 0 <= i < |attempts| => PublishNext(w, attempts[i].outcome, attempts[i].sends))
  }

  /** The state with a worker in the middle of its batch. */
  function Amid(s: State, w: nat, ids: seq<nat>, attempts: seq<Attempt>): State {
    s.(workers := s.workers[w := Worker(ids, attempts)], published := s.published + attempts)
  }

  lemma {:induction false} AmidNext(config: Config, s: State, w: nat, ids: seq<nat>, init: seq<Attempt>, last: Attempt)
    requires |init| < |ids| && Fits(config, s.store.outbox, ids[|init|], last) && !last.outcome.Interrupted?
    ensures Step(config, Amid(s, w, ids, init), PublishNext(w, last.outcome, last.sends))
         == Amid(s, w, ids, init + [last])
  {
    hide Possible;
    assert s.published + init + [last] == s.published + (init + [last]);
    var k := Worker(ids, init + [last]);
    assert s.workers[w := Worker(ids, init)][w := k] == s.workers[w := k];
  }

  lemma {:induction false} PublishesRun(config: Config, s: State, w: nat, ids: seq<nat>, attempts: seq<Attempt>)
    requires AllFit(config, s.store.outbox, ids, attempts) && Uninterrupted(attempts)
    ensures RunFrom(config, Amid(s, w, ids, []), Publishes(w, attempts)) == Amid(s, w, ids, attempts)
  {
    hide Fits, Amid, Step;
    if attempts != [] {
      var init, last := attempts[..|attempts| - 1], attempts[|attempts| - 1];
      PublishesRun(config, s, w, ids, init);
      assert Fits(config, s.store.outbox, ids[|init|], last);
      assert Publishes(w, attempts)[..|init|] == Publishes(w, init);
      assert attempts == init + [last];
      AmidNext(config, s, w, ids, init, last);
    }
  }

  lemma {:induction false} RunFromConcat(config: Config, s: State, a: seq<Action>, b: seq<Action>)
    ensures RunFrom(config, s, a + b) == RunFrom(config, RunFrom(config, s, a), b)
  {
    hide Step;
    if b == [] {
      assert a + b == a;
    } else {
      RunFromConcat(config, s, a, b[..|b| - 1]);
      assert (a + b)[..|a + b| - 1] == a + b[..|b| - 1];
    }
  }

  lemma {:induction false} RunFromOne(config: Config, s: State, a: Action)
    ensures RunFrom(config, s, [a]) == Step(config, s, a)
  {
    assert [a][..0] == [];
  }

  /** The actions of a worker's call. */
  function CallActions(w: nat, attempts: seq<Attempt>): seq<Action> {
    if WasInterrupted(attempts) then
      [SelectBatch(w)] + Publishes(w, attempts[..|attempts| - 1])
        + [AbortBatch(w, Some(attempts[|attempts| - 1].sends))]
    else [SelectBatch(w)] + Publishes(w, attempts) + [CommitBatch(w)]
  }

  lemma {:induction false} SelectOpens(config: Config, s: State, w: nat, ids: seq<nat>)
    requires w !in s.workers
    requires ids == Select(s.store.outbox, Locked(s.workers), config.batchSize) != []
    ensures Step(config, s, SelectBatch(w)) == Amid(s, w, ids, [])
  {
    hide Select, Locked;
    assert s.published + [] == s.published;
  }

  lemma {:induction false} CommitCloses(config: Config, s: State, w: nat, ids: seq<nat>, attempts: seq<Attempt>)
    requires w !in s.workers && |attempts| == |ids|
    ensures Step(config, Amid(s, w, ids, attempts), CommitBatch(w)) == s.(
      store := s.store.(outbox := MarkAll(s.store.outbox, attempts, config.maxRetries)),
      published := s.published + attempts)
  {
    hide MarkAll;
    assert s.workers[w := Worker(ids, attempts)] - {w} == s.workers;
  }

  lemma {:induction false} AbortCloses(
    config: Config, s: State, w: nat, ids: seq<nat>, init: seq<Attempt>, last: Attempt)
    requires w !in s.workers && |init| < |ids|
    requires Fits(config, s.store.outbox, ids[|init|], last) && last.outcome == Interrupted
    ensures Step(config, Amid(s, w, ids, init), AbortBatch(w, Some(last.sends))) == s.(
      published := s.published + (init + [last]),
      rolledBack := s.rolledBack + (init + [last]))
  {
    hide Possible;
    assert s.workers[w := Worker(ids, init)] - {w} == s.workers;
    assert s.published + init + [last] == s.published + (init + [last]);
    assert s.rolledBack + init + [last] == s.rolledBack + (init + [last]);
  }

  /** Any possible attempts on a selection are a run that commits them, or rolls them back where interrupted. */
  lemma {:induction false} CallIsRun(config: Config, s: State, w: nat, attempts: seq<Attempt>)
    requires w !in s.workers
    requires Select(s.store.outbox, Locked(s.workers), config.batchSize) != []
    requires Follows(config, s.store.outbox, Select(s.store.outbox, Locked(s.workers), config.batchSize), attempts)
    ensures RunFrom(config, s, CallActions(w, attempts)) ==
      if WasInterrupted(attempts) then
        s.(published := s.published + attempts, rolledBack := s.rolledBack + attempts)
      else
        s.(store := s.store.(outbox := MarkAll(s.store.outbox, attempts, config.maxRetries)),
           published := s.published + attempts)
  {
    hide Step, Select, Locked, MarkAll, Fits, Amid, RunFrom, Publishes, Uninterrupted;
    var ids := Select(s.store.outbox, Locked(s.workers), config.batchSize);
    var done := if WasInterrupted(attempts) then attempts[..|attempts| - 1] else attempts;
    var end := if WasInterrupted(attempts) then AbortBatch(w, Some(attempts[|attempts| - 1].sends)) else CommitBatch(w);
    SelectOpens(config, s, w, ids);
    RunFromOne(config, s, SelectBatch(w));
    RunFromConcat(config, s, [SelectBatch(w)], Publishes(w, done));
    PublishesRun(config, s, w, ids, done);
    RunFromConcat(config, s, [SelectBatch(w)] + Publishes(w, done), [end]);
    RunFromOne(config, Amid(s, w, ids, done), end);
    if WasInterrupted(attempts) {
      var last := attempts[|attempts| - 1];
      assert Fits(config, s.store.outbox, ids[|done|], last);
      AbortCloses(config, s, w, ids, done, last);
      assert done + [last] == attempts;
    } else {
      CommitCloses(config, s, w, ids, attempts);
    }
  }

  /**
   Whatever the gateway answers, a call of the worker that finds rows is this run of the machine.
   Its store is the one the call commits, its log grows by the attempts of the call, and they count
   as rolled back exactly if the call was interrupted.
   */
  lemma {:induction false} WorkerCallIsRun(config: Config, s: State, w: nat, replies: nat -> Reply, t: nat)
    requires w !in s.workers
    requires Select(s.store.outbox, Locked(s.workers), config.batchSize) != []
    ensures
      var ids := Select(s.store.outbox, Locked(s.workers), config.batchSize);
      var attempts := BatchRun(replies, t, s.store.outbox, ids, config).attempts;
      RunFrom(config, s, CallActions(w, attempts)) ==
        if WasInterrupted(attempts) then
          s.(published := s.published + attempts, rolledBack := s.rolledBack + attempts)
        else
          s.(store := s.store.(outbox := MarkAll(s.store.outbox, attempts, config.maxRetries)),
             published := s.published + attempts)
  {
    hide *;
    var ids := Select(s.store.outbox, Locked(s.workers), config.batchSize);
    BatchRunFollows(replies, t, s.store.outbox, ids, config);
    CallIsRun(config, s, w, BatchRun(replies, t, s.store.outbox, ids, config).attempts);
  }

  // ---------------------------------------------------------------- consecutive calls of one worker

  /** The attempts of all calls, in order. */
  function Flat(calls: seq<seq<Attempt>>): seq<Attempt> {
    if calls == [] then [] else calls[0] + Flat(calls[1..])
  }

  function CallsActions(w: nat, calls: seq<seq<Attempt>>): seq<Action> {
    if calls == [] then [] else CallActions(w, calls[0]) + CallsActions(w, calls[1..])
  }

  /** The outcomes are ones that publishing the rows can have. */
  predicate CallsPossible(config: Config, outbox: seq<OutboxRow>, calls: seq<seq<Attempt>>) {
    forall i :: 0 <= i < |calls| ==> CallPossible(config, outbox, calls[i])
  }

  lemma {:induction false} CallFollows(config: Config, outbox: seq<OutboxRow>, call: seq<Attempt>)
    requires Drain.CallOf(config, outbox, call) && CallPossible(config, outbox, call)
    ensures !WasInterrupted(call) && Follows(config, outbox, Select(outbox, {}, config.batchSize), call)
  {
    hide Possible, Select;
    SelectOldest(outbox, {}, config.batchSize);
    var ids := Select(outbox, {}, config.batchSize);
    forall j | 0 <= j < |call|
      ensures Fits(config, outbox, ids[j], call[j])
    {
      assert Rows(call)[j] == call[j].row;
    }
  }

  lemma {:induction false} EmptyCallIsRun(config: Config, s: State, w: nat)
    requires s.workers == map[] && Select(s.store.outbox, {}, config.batchSize) == []
    ensures RunFrom(config, s, CallActions(w, [])) == s
    ensures MarkAll(s.store.outbox, [], config.maxRetries) == s.store.outbox
  {
    hide Select;
    assert Locked(s.workers) == {};
    assert Publishes(w, []) == [];
    assert CallActions(w, []) == [SelectBatch(w)] + [CommitBatch(w)];
    RunFromConcat(config, s, [SelectBatch(w)], [CommitBatch(w)]);
    RunFromOne(config, s, SelectBatch(w));
    RunFromOne(config, s, CommitBatch(w));
  }

  lemma {:induction false} CallStep(config: Config, s: State, w: nat, call: seq<Attempt>)
    requires s.workers == map[]
    requires Drain.CallOf(config, s.store.outbox, call) && CallPossible(config, s.store.outbox, call)
    ensures var t := RunFrom(config, s, CallActions(w, call));
      && t.workers == map[]
      && t.store.outbox == MarkAll(s.store.outbox, call, config.maxRetries)
      && t.published == s.published + call
  {
    hide RunFrom, CallActions, MarkAll, Select, CallPossible, Follows, WasInterrupted;
    assert Locked(s.workers) == {};
    if Select(s.store.outbox, {}, config.batchSize) == [] {
      assert |call| == |Rows(call)|;
      assert call == [];
      EmptyCallIsRun(config, s, w);
      assert s.published + [] == s.published;
    } else {
      CallFollows(config, s.store.outbox, call);
      CallIsRun(config, s, w, call);
    }
  }

  lemma {:induction false} RunFromNil(config: Config, s: State)
    ensures RunFrom(config, s, []) == s
  {
  }

  lemma {:induction false} CallsAreRun(config: Config, s: State, w: nat, calls: seq<seq<Attempt>>)
    requires s.workers == map[]
    requires Drain.CallsOf(config, s.store.outbox, calls) && CallsPossible(config, s.store.outbox, calls)
    ensures var t := RunFrom(config, s, CallsActions(w, calls));
      && t.store.outbox == Drain.AfterCalls(config, s.store.outbox, calls)
      && t.published == s.published + Flat(calls)
    decreases |calls|
  {
    if calls != [] {
      hide Step, MarkAll, Drain.CallOf, CallActions, RunFrom, Possible;
      assert CallPossible(config, s.store.outbox, calls[0]);
      CallStep(config, s, w, calls[0]);
      var t := RunFrom(config, s, CallActions(w, calls[0]));
      forall i | 0 <= i < |calls[1..]|
        ensures CallPossible(config, t.store.outbox, calls[1..][i])
      {
        assert CallPossible(config, s.store.outbox, calls[i + 1]);
        forall r: nat | r < |s.store.outbox|
          ensures t.store.outbox[r].event == s.store.outbox[r].event
        {
          MarkAllKeepsEvents(s.store.outbox, calls[0], config.maxRetries, r);
        }
      }
      CallsAreRun(config, t, w, calls[1..]);
      RunFromConcat(config, s, CallActions(w, calls[0]), CallsActions(w, calls[1..]));
      Regroup(s.published, calls[0], Flat(calls[1..]));
    } else {
      RunFromNil(config, s);
      assert s.published + [] == s.published;
    }
  }

  /**
   From every reachable state in which no batch is open, floor(F / batch_size) + max_retries
   consecutive calls of one worker leave no pending row, F being the attempts left and whatever fails.
   */
  lemma {:induction false} ReachableOutboxDrains(config: Config, actions: seq<Action>, w: nat, calls: seq<seq<Attempt>>)
    requires config.batchSize >= 1 && config.maxRetries >= 1
    requires Run(config, actions).workers == map[]
    requires var outbox := Run(config, actions).store.outbox;
      && Drain.CallsOf(config, outbox, calls) && CallsPossible(config, outbox, calls)
    ensures var outbox := Run(config, actions).store.outbox;
      |calls| >= Drain.LeftBefore(config, outbox, |outbox|) / config.batchSize + config.maxRetries ==>
        Drain.Drained(Run(config, actions + CallsActions(w, calls)).store.outbox)
  {
    hide RunFrom, Drain.CallsOf, CallsPossible, Drain.LeftBefore, Drain.Drained, Drain.AfterCalls, CallsActions;
    var s := Run(config, actions);
    RunFromConcat(config, INIT, actions, CallsActions(w, calls));
    CallsAreRun(config, s, w, calls);
    Delivery.RunSound(config, actions);
    assert Drain.RowsSound(config, s.store.outbox);
    if |calls| >= Drain.LeftBefore(config, s.store.outbox, |s.store.outbox|) / config.batchSize + config.maxRetries {
      Drain.DrainBound(config, s.store.outbox, calls);
    }
  }

  lemma {:induction false} FlatHas(calls: seq<seq<Attempt>>, i: nat, r: nat)
    requires i < |calls| && r in Rows(calls[i])
    ensures r in Rows(Flat(calls))
  {
    if i == 0 {
      var k :| 0 <= k < |calls[0]| && Rows(calls[0])[k] == r;
      assert Rows(Flat(calls))[k] == r;
    } else {
      FlatHas(calls[1..], i - 1, r);
      var k :| 0 <= k < |Flat(calls[1..])| && Rows(Flat(calls[1..]))[k] == r;
      assert Rows(Flat(calls))[|calls[0]| + k] == r;
    }
  }

  // ---------------------------------------------------------------- calls with use cases between them

  /** The calls of one worker, each followed by steps of the use cases. */
  function RoundsActions(w: nat, calls: seq<seq<Attempt>>, between: seq<seq<Action>>): seq<Action>
    requires |between| == |calls|
    decreases |calls|
  {
    if calls == [] then []
    else CallActions(w, calls[0]) + between[0] + RoundsActions(w, calls[1..], between[1..])
  }

  /** Each call is one on the outbox the run has reached by then. */
  ghost predicate RoundsRun(config: Config, s: State, w: nat, calls: seq<seq<Attempt>>, between: seq<seq<Action>>)
    requires |between| == |calls|
    decreases |calls|
  {
    calls != [] ==>
      && Drain.CallOf(config, s.store.outbox, calls[0]) && CallPossible(config, s.store.outbox, calls[0])
      && (forall i :: 0 <= i < |between[0]| ==> !Delivery.WorkerAction(between[0][i]))
      && RoundsRun(config, RunFrom(config, s, CallActions(w, calls[0]) + between[0]), w, calls[1..], between[1..])
  }

  lemma {:induction false} AppendsTransitive(a: seq<OutboxRow>, b: seq<OutboxRow>, c: seq<OutboxRow>)
    requires Delivery.Appends(a, b) && Delivery.Appends(b, c)
    ensures Delivery.Appends(a, c)
  {
    assert c[..|a|] == c[..|b|][..|a|];
    assert forall r :: |a| <= r < |b| ==> c[r] == c[..|b|][r];
  }

  lemma {:induction false} NothingAppended(outbox: seq<OutboxRow>)
    ensures Delivery.Appends(outbox, outbox)
  {
  }

  lemma {:induction false} UseCasesAppend(config: Config, s: State, actions: seq<Action>)
    requires forall i :: 0 <= i < |actions| ==> !Delivery.WorkerAction(actions[i])
    ensures var t := RunFrom(config, s, actions);
      t.workers == s.workers && t.published == s.published && Delivery.Appends(s.store.outbox, t.store.outbox)
  {
    hide Step, Delivery.Appends;
    if actions == [] {
      NothingAppended(s.store.outbox);
    } else {
      var before, a := actions[..|actions| - 1], actions[|actions| - 1];
      UseCasesAppend(config, s, before);
      Delivery.UseCaseKeepsWorkers(config, RunFrom(config, s, before), a);
      Delivery.UseCaseAppends(config, RunFrom(config, s, before), a);
      AppendsTransitive(
        s.store.outbox, RunFrom(config, s, before).store.outbox, RunFrom(config, s, actions).store.outbox);
    }
  }

  /** A round of the machine is a round of the theorem about waiting. */
  lemma {:induction false} RoundStep(
    config: Config, s: State, w: nat, call: seq<Attempt>, between: seq<Action>) returns (added: seq<OutboxRow>)
    requires config.maxRetries >= 1 && s.workers == map[]
    requires Drain.CallOf(config, s.store.outbox, call) && CallPossible(config, s.store.outbox, call)
    requires forall i :: 0 <= i < |between| ==> !Delivery.WorkerAction(between[i])
    ensures var t := RunFrom(config, s, CallActions(w, call) + between);
      && t.workers == map[]
      && t.published == s.published + call
      && t.store.outbox == MarkAll(s.store.outbox, call, config.maxRetries) + added
      && Drain.RowsSound(config, added)
  {
    hide RunFrom, MarkAll, Drain.CallOf, CallPossible, CallActions;
    CallStep(config, s, w, call);
    RunFromConcat(config, s, CallActions(w, call), between);
    UseCasesAppend(config, RunFrom(config, s, CallActions(w, call)), between);
    var outbox, after :=
      MarkAll(s.store.outbox, call, config.maxRetries), RunFrom(config, s, CallActions(w, call) + between).store.outbox;
    added := after[|outbox|..];
    assert after == after[..|outbox|] + added;
  }

  lemma {:induction false} RoundsAlong(
    config: Config, s: State, w: nat, calls: seq<seq<Attempt>>, between: seq<seq<Action>>)
    returns (rounds: seq<Drain.Round>)
    requires config.maxRetries >= 1 && s.workers == map[] && |between| == |calls|
    requires RoundsRun(config, s, w, calls, between)
    ensures Drain.RoundsOf(config, s.store.outbox, rounds)
    ensures |rounds| == |calls| && forall i :: 0 <= i < |calls| ==> rounds[i].call == calls[i]
    ensures RunFrom(config, s, RoundsActions(w, calls, between)).published == s.published + Flat(calls)
    decreases |calls|
  {
    hide RunFrom, MarkAll, Drain.CallOf, CallPossible, CallActions, Drain.RowsSound;
    if calls == [] {
      rounds := [];
      RunFromNil(config, s);
      assert s.published + [] == s.published;
    } else {
      var first := CallActions(w, calls[0]) + between[0];
      var t := RunFrom(config, s, first);
      var added := RoundStep(config, s, w, calls[0], between[0]);
      var rest := RoundsAlong(config, t, w, calls[1..], between[1..]);
      rounds := [Drain.Round(calls[0], added)] + rest;
      assert rounds[1..] == rest;
      RunFromConcat(config, s, first, RoundsActions(w, calls[1..], between[1..]));
      Regroup(s.published, calls[0], Flat(calls[1..]));
    }
  }

  /**
   From every reachable state in which no batch is open, a pending row with k pending rows in front of it is
   published within k * max_retries / batch_size + 1 calls of one worker, whatever fails and whatever the
   use cases do between the calls.
   */
  lemma {:induction false} ReachableRowIsAttempted(
    config: Config, actions: seq<Action>, w: nat, calls: seq<seq<Attempt>>, between: seq<seq<Action>>, r: nat)
    requires config.batchSize >= 1 && config.maxRetries >= 1
    requires Run(config, actions).workers == map[] && |between| == |calls|
    requires RoundsRun(config, Run(config, actions), w, calls, between)
    requires var outbox := Run(config, actions).store.outbox;
      && r < |outbox| && outbox[r].status == Pending
      && |calls| == Drain.PendingBefore(outbox, r) * config.maxRetries / config.batchSize + 1
    ensures var s, t := Run(config, actions), Run(config, actions + RoundsActions(w, calls, between));
      exists j :: |s.published| <= j < |t.published| && t.published[j].row == r
  {
    hide RunFrom, RoundsRun, CallsPossible, Drain.PendingBefore, Flat, RoundsActions;
    var s, t := Run(config, actions), Run(config, actions + RoundsActions(w, calls, between));
    RunFromConcat(config, INIT, actions, RoundsActions(w, calls, between));
    var rounds := RoundsAlong(config, s, w, calls, between);
    Delivery.RunSound(config, actions);
    assert Drain.RowsSound(config, s.store.outbox);
    Drain.BoundedWait(config, s.store.outbox, rounds, r);
    var i :| 0 <= i < |calls| && r in Rows(rounds[i].call);
    FlatHas(calls, i, r);
    var k :| 0 <= k < |Flat(calls)| && Rows(Flat(calls))[k] == r;
    assert t.published[|s.published| + k].row == r;
  }

  // ---------------------------------------------------------------- calls as the gateway answers them

  /** The attempts of consecutive calls, each answered by its own replies. */
  function AnsweredCalls(config: Config, outbox: seq<OutboxRow>, answers: seq<nat -> Reply>): (calls: seq<seq<Attempt>>)
    ensures |calls| == |answers|
    decreases |answers|
  {
    if answers == [] then []
    else
      var call := BatchRun(answers[0], 0, outbox, Select(outbox, {}, config.batchSize), config).attempts;
      [call] + AnsweredCalls(config, MarkAll(outbox, call, config.maxRetries), answers[1..])
  }

  lemma {:induction false} PossibleBefore(
    config: Config, outbox: seq<OutboxRow>, marks: seq<Attempt>, call: seq<Attempt>)
    requires CallPossible(config, MarkAll(outbox, marks, config.maxRetries), call)
    ensures CallPossible(config, outbox, call)
  {
    hide Possible, MarkAll;
    forall r: nat | r < |outbox|
      ensures MarkAll(outbox, marks, config.maxRetries)[r].event == outbox[r].event
    {
      MarkAllKeepsEvents(outbox, marks, config.maxRetries, r);
    }
  }

  /** Whatever the gateway answers, uninterrupted calls are calls of the theorems about waiting and draining. */
  lemma {:induction false} AnsweredCallsAreCalls(config: Config, outbox: seq<OutboxRow>, answers: seq<nat -> Reply>)
    requires forall i :: 0 <= i < |answers| ==> !WasInterrupted(AnsweredCalls(config, outbox, answers)[i])
    ensures Drain.CallsOf(config, outbox, AnsweredCalls(config, outbox, answers))
    ensures CallsPossible(config, outbox, AnsweredCalls(config, outbox, answers))
    decreases |answers|
  {
    if answers != [] {
      hide BatchRun, MarkAll, Select, Drain.CallOf, CallPossible, WasInterrupted;
      var call := BatchRun(answers[0], 0, outbox, Select(outbox, {}, config.batchSize), config).attempts;
      var after := MarkAll(outbox, call, config.maxRetries);
      var calls, rest := AnsweredCalls(config, outbox, answers), AnsweredCalls(config, after, answers[1..]);
      assert calls == [call] + rest && calls[0] == call && calls[1..] == rest;
      forall i | 0 <= i < |rest|
        ensures !WasInterrupted(rest[i])
      {
        assert rest[i] == calls[i + 1];
      }
      UninterruptedBatchIsCall(answers[0], 0, outbox, config);
      AnsweredCallsAreCalls(config, after, answers[1..]);
      forall i | 0 <= i < |calls|
        ensures CallPossible(config, outbox, calls[i])
      {
        if i > 0 {
          assert calls[i] == rest[i - 1];
          PossibleBefore(config, outbox, call, calls[i]);
        }
      }
    }
  }

  /** The drain bound of a worker against any gateway that interrupts none of its calls. */
  lemma {:induction false} AnsweredWorkerDrains(
    config: Config, actions: seq<Action>, w: nat, answers: seq<nat -> Reply>)
    requires config.batchSize >= 1 && config.maxRetries >= 1
    requires Run(config, actions).workers == map[]
    requires var outbox := Run(config, actions).store.outbox;
      && |answers| >= Drain.LeftBefore(config, outbox, |outbox|) / config.batchSize + config.maxRetries
      && forall i :: 0 <= i < |answers| ==> !WasInterrupted(AnsweredCalls(config, outbox, answers)[i])
    ensures var calls := AnsweredCalls(config, Run(config, actions).store.outbox, answers);
      Drain.Drained(Run(config, actions + CallsActions(w, calls)).store.outbox)
  {
    hide *;
    var outbox := Run(config, actions).store.outbox;
    AnsweredCallsAreCalls(config, outbox, answers);
    ReachableOutboxDrains(config, actions, w, AnsweredCalls(config, outbox, answers));
  }

  /** The same with use cases between the calls: each call is answered on the outbox the run has reached. */
  ghost function AnsweredRounds(
    config: Config, s: State, w: nat, answers: seq<nat -> Reply>, between: seq<seq<Action>>)
    : (calls: seq<seq<Attempt>>)
    requires |between| == |answers|
    ensures |calls| == |answers|
    decreases |answers|
  {
    if answers == [] then []
    else
      var ids := Select(s.store.outbox, {}, config.batchSize);
      var call := BatchRun(answers[0], 0, s.store.outbox, ids, config).attempts;
      [call] + AnsweredRounds(
        config, RunFrom(config, s, CallActions(w, call) + between[0]), w, answers[1..], between[1..])
  }

  lemma {:induction false} AnsweredRoundsRun(
    config: Config, s: State, w: nat, answers: seq<nat -> Reply>, between: seq<seq<Action>>)
    requires |between| == |answers|
    requires forall i :: 0 <= i < |answers| ==> !WasInterrupted(AnsweredRounds(config, s, w, answers, between)[i])
    requires forall k, i :: 0 <= k < |between| && 0 <= i < |between[k]| ==> !Delivery.WorkerAction(between[k][i])
    ensures RoundsRun(config, s, w, AnsweredRounds(config, s, w, answers, between), between)
    decreases |answers|
  {
    if answers != [] {
      hide BatchRun, RunFrom, CallActions, Select, Drain.CallOf, CallPossible, WasInterrupted;
      var outbox := s.store.outbox;
      var call := BatchRun(answers[0], 0, outbox, Select(outbox, {}, config.batchSize), config).attempts;
      var t := RunFrom(config, s, CallActions(w, call) + between[0]);
      var calls := AnsweredRounds(config, s, w, answers, between);
      var rest := AnsweredRounds(config, t, w, answers[1..], between[1..]);
      assert calls == [call] + rest && calls[0] == call && calls[1..] == rest;
      forall i | 0 <= i < |rest|
        ensures !WasInterrupted(rest[i])
      {
        assert rest[i] == calls[i + 1];
      }
      assert forall k :: 0 <= k < |between[1..]| ==> between[1..][k] == between[k + 1];
      UninterruptedBatchIsCall(answers[0], 0, outbox, config);
      AnsweredRoundsRun(config, t, w, answers[1..], between[1..]);
    }
  }

  /** The bounded wait of a worker against any gateway that interrupts none of its calls, use cases between them. */
  lemma {:induction false} AnsweredWorkerAttempts(
    config: Config, actions: seq<Action>, w: nat, answers: seq<nat -> Reply>, between: seq<seq<Action>>, r: nat)
    requires config.batchSize >= 1 && config.maxRetries >= 1
    requires Run(config, actions).workers == map[] && |between| == |answers|
    requires forall i :: 0 <= i < |answers| ==>
      !WasInterrupted(AnsweredRounds(config, Run(config, actions), w, answers, between)[i])
    requires forall k, i :: 0 <= k < |between| && 0 <= i < |between[k]| ==> !Delivery.WorkerAction(between[k][i])
    requires var outbox := Run(config, actions).store.outbox;
      && r < |outbox| && outbox[r].status == Pending
      && |answers| == Drain.PendingBefore(outbox, r) * config.maxRetries / config.batchSize + 1
    ensures
      var s := Run(config, actions);
      var t := Run(config, actions + RoundsActions(w, AnsweredRounds(config, s, w, answers, between), between));
      exists j :: |s.published| <= j < |t.published| && t.published[j].row == r
  {
    hide *;
    var s := Run(config, actions);
    AnsweredRoundsRun(config, s, w, answers, between);
    ReachableRowIsAttempted(config, actions, w, AnsweredRounds(config, s, w, answers, between), between, r);
  }
}
