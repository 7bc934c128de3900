/**
 Delivery of outbox rows by any number of interleaved workers, whose batches may be cancelled at
 any point after any number of publishes: locks, retry states and the conservation of attempts.
 */
module Delivery {
  import opened Entities
  import opened Transitions
  import opened Outbox
  import opened OutboxWorker
  import opened Protocol
  import Amounts
  import Arithmetic
  import N = OrderNotifications

  /** How often a row was attempted, or was attempted with success. */
  function Tally(log: seq<Attempt>, r: nat, delivered: bool): nat {
    if log == [] then 0
    else
      var last := log[|log| - 1];
      Tally(log[..|log| - 1], r, delivered)
        + (if last.row == r && (delivered ==> last.outcome == Delivered) then 1 else 0)
  }

  /** The attempts, or the successes, that the committed state of a row accounts for. */
  function Settled(row: OutboxRow, delivered: bool): nat {
    (if row.status == Sent then 1 else 0) + (if delivered then 0 else row.retryCount)
  }

  predicate Holds(workers: map<nat, Worker>, w: nat, r: nat) {
    w in workers && r in workers[w].batch
  }

  /** The attempts, or successes, staged by the worker that holds the row. */
  ghost function InFlight(workers: map<nat, Worker>, r: nat, delivered: bool): nat {
    if exists w :: Holds(workers, w, r) then
      var w :| Holds(workers, w, r);
      Tally(workers[w].done, r, delivered)
    else 0
  }

  predicate RowSound(row: OutboxRow, maxRetries: nat) {
    match row.status
    case Pending => row.retryCount < maxRetries
    case Sent => row.retryCount < maxRetries
    case Failed => row.retryCount == maxRetries
  }

  predicate WorkerSound(outbox: seq<OutboxRow>, w: Worker) {
    && Increasing(w.batch)
    && InRange(w.batch, |outbox|)
    && (forall i :: 0 <= i < |w.batch| ==> outbox[w.batch[i]].status == Pending)
    && |w.done| <= |w.batch|
    && Rows(w.done) == w.batch[..|w.done|]
    && (forall i :: 0 <= i < |w.done| ==> !w.done[i].outcome.Interrupted?)
  }

  ghost predicate Disjoint(workers: map<nat, Worker>) {
    forall v, w, r :: Holds(workers, v, r) && Holds(workers, w, r) ==> v == w
  }

  predicate LogSound(config: Config, outbox: seq<OutboxRow>, log: seq<Attempt>) {
    forall i :: 0 <= i < |log| ==>
      log[i].row < |outbox| && Possible(outbox[log[i].row].event, log[i].outcome, log[i].sends, config)
  }

  ghost predicate Conserved(s: State, r: nat, delivered: bool)
    requires r < |s.store.outbox|
  {
    Tally(s.published, r, delivered)
      == Settled(s.store.outbox[r], delivered) + Tally(s.rolledBack, r, delivered) + InFlight(s.workers, r, delivered)
  }

  ghost predicate Sound(config: Config, s: State) {
    && (forall r :: 0 <= r < |s.store.outbox| ==> RowSound(s.store.outbox[r], config.maxRetries))
    && (forall w :: w in s.workers ==> WorkerSound(s.store.outbox, s.workers[w]))
    && (forall w :: w in s.workers ==> LogSound(config, s.store.outbox, s.workers[w].done))
    && Disjoint(s.workers)
    && LogSound(config, s.store.outbox, s.published)
    && LogSound(config, s.store.outbox, s.rolledBack)
    && (forall r: nat, d: bool :: r < |s.store.outbox| ==> Conserved(s, r, d))
  }

  // ---------------------------------------------------------------- counting

  lemma {:induction false} TallyConcat(a: seq<Attempt>, b: seq<Attempt>, r: nat, d: bool)
    ensures Tally(a + b, r, d) == Tally(a, r, d) + Tally(b, r, d)
  {
    if b == [] {
      assert a + b == a;
    } else {
      TallyConcat(a, b[..|b| - 1], r, d);
      assert (a + b)[..|a + b| - 1] == a + b[..|b| - 1];
    }
  }

  lemma {:induction false} TallyAbsent(log: seq<Attempt>, r: nat, d: bool)
    requires forall i :: 0 <= i < |log| ==> log[i].row != r
    ensures Tally(log, r, d) == 0
  {
    if log != [] {
      TallyAbsent(log[..|log| - 1], r, d);
    }
  }

  lemma {:induction false} TallyOne(attempt: Attempt, r: nat, d: bool)
    ensures Tally([attempt], r, d) == if attempt.row == r && (d ==> attempt.outcome == Delivered) then 1 else 0
  {
    assert [attempt][..0] == [];
  }

  lemma {:induction false} TallyPresent(log: seq<Attempt>, r: nat, d: bool)
    ensures Tally(log, r, d) > 0 <==>
      exists i :: 0 <= i < |log| && log[i].row == r && (d ==> log[i].outcome == Delivered)
  {
    if log != [] {
      var init := log[..|log| - 1];
      TallyPresent(init, r, d);
      if i :| 0 <= i < |log| && log[i].row == r && (d ==> log[i].outcome == Delivered) {
        assert i < |init| ==> init[i] == log[i];
      }
    }
  }

  /** In a batch every row is attempted at most once. */
  lemma {:induction false} TallyOfBatch(done: seq<Attempt>, k: nat, d: bool)
    requires k < |done| && Increasing(Rows(done))
    ensures Tally(done, done[k].row, d) == if d ==> done[k].outcome == Delivered then 1 else 0
  {
    var init, r := done[..|done| - 1], done[k].row;
    assert forall i :: 0 <= i < |done| ==> Rows(done)[i] == done[i].row;
    assert Rows(init) == Rows(done)[..|init|];
    if k == |init| {
      TallyAbsent(init, r, d);
    } else {
      assert init[k] == done[k];
      TallyOfBatch(init, k, d);
    }
  }

  lemma {:induction false} InFlightOf(workers: map<nat, Worker>, w: nat, r: nat, d: bool)
    requires Disjoint(workers) && Holds(workers, w, r)
    ensures InFlight(workers, r, d) == Tally(workers[w].done, r, d)
  {
  }

  /** Workers that hold a row with the same staged attempts give the same count. */
  lemma {:induction false} InFlightSame(before: map<nat, Worker>, after: map<nat, Worker>, r: nat, d: bool)
    requires Disjoint(before) && Disjoint(after)
    requires forall w :: Holds(before, w, r) <==> Holds(after, w, r)
    requires forall w :: Holds(before, w, r) ==>
      Tally(before[w].done, r, d) == Tally(after[w].done, r, d)
    ensures InFlight(before, r, d) == InFlight(after, r, d)
  {
    if w :| Holds(before, w, r) {
      InFlightOf(before, w, r, d);
      InFlightOf(after, w, r, d);
    }
  }

  // ---------------------------------------------------------------- the steps

  /** The use cases only append fresh rows. */
  predicate Appends(before: seq<OutboxRow>, after: seq<OutboxRow>) {
    && |before| <= |after|
    && after[..|before|] == before
    && forall r :: |before| <= r < |after| ==> after[r].status == Pending && after[r].retryCount == 0
  }

  lemma {:induction false} PaymentAppends(store: Store, command: PaymentCommand)
    ensures PaymentCallback(store, command).0.Some? ==>
      Appends(store.outbox, PaymentCallback(store, command).0.value.outbox)
  {
    hide N.ForOrder, N.OrderPaidEvent, Lower, CallbackReason;
  }

  lemma {:induction false} ShipmentAppends(store: Store, command: ShipmentEvents.ShipmentCommand)
    ensures ShipmentEvent(store, command).0.Some? ==>
      Appends(store.outbox, ShipmentEvent(store, command).0.value.outbox)
  {
    hide N.ForOrder, ShipmentReason;
  }

  lemma {:induction false} UseCaseAppends(config: Config, s: State, a: Action)
    requires !a.CommitBatch?
    ensures Appends(s.store.outbox, Step(config, s, a).store.outbox)
  {
    hide N.ForOrder, N.OrderPaidEvent, Lower, CallbackReason, ShipmentReason, Amounts.Amount, Possible, Select, Locked,
      Lookup, Quote, AfterPayment, KeyTaken;
    match a {
      case Callback(command) => PaymentAppends(s.store, command);
      case Shipment(command) => ShipmentAppends(s.store, command);
      case _ =>
    }
  }

  predicate WorkerAction(a: Action) {
    a.SelectBatch? || a.PublishNext? || a.CommitBatch? || a.AbortBatch?
  }

  lemma {:induction false} UseCaseKeepsWorkers(config: Config, s: State, a: Action)
    requires !WorkerAction(a)
    ensures var t := Step(config, s, a);
      t.workers == s.workers && t.published == s.published && t.rolledBack == s.rolledBack
  {
    hide N.ForOrder, Amounts.Amount, PaymentCallback, ShipmentEvent, Possible, Lookup, Quote,
      AfterPayment, InsertOrder, Compensate;
  }

  lemma {:induction false} AppendKeepsSound(config: Config, s: State, t: State)
    requires config.maxRetries >= 1
    requires Sound(config, s) && Appends(s.store.outbox, t.store.outbox)
    requires t.workers == s.workers && t.published == s.published && t.rolledBack == s.rolledBack
    ensures Sound(config, t)
  {
    hide Possible;
    var before, after := s.store.outbox, t.store.outbox;
    assert forall r :: 0 <= r < |before| ==> after[r] == before[r];
    forall r: nat, d: bool | r < |after|
      ensures Conserved(t, r, d)
    {
      if r < |before| {
        assert Conserved(s, r, d);
      } else {
        TallyAbsent(t.published, r, d);
        TallyAbsent(t.rolledBack, r, d);
        forall w | w in t.workers
          ensures !Holds(t.workers, w, r)
        {
          assert WorkerSound(before, s.workers[w]);
        }
      }
    }
  }

  lemma {:induction false} SelectKeepsSound(config: Config, s: State, w: nat)
    requires Sound(config, s) && w !in s.workers
    ensures var batch := Select(s.store.outbox, Locked(s.workers), config.batchSize);
      Sound(config, s.(workers := s.workers[w := Worker(batch, [])]))
  {
    hide Possible, Select, RowSound;
    var batch := Select(s.store.outbox, Locked(s.workers), config.batchSize);
    var t := s.(workers := s.workers[w := Worker(batch, [])]);
    SelectOldest(s.store.outbox, Locked(s.workers), config.batchSize);
    assert forall i :: 0 <= i < |batch| ==> batch[i] in batch;
    assert WorkerSound(t.store.outbox, t.workers[w]);
    forall v, r | Holds(s.workers, v, r)
      ensures r !in batch
    {
      assert r in Locked(s.workers);
    }
    assert Disjoint(t.workers) by {
      assert forall v, r :: v != w ==> (Holds(t.workers, v, r) <==> Holds(s.workers, v, r));
    }
    forall r: nat, d: bool | r < |t.store.outbox|
      ensures Conserved(t, r, d)
    {
      assert Conserved(s, r, d);
      if r in batch {
        assert Holds(t.workers, w, r);
        InFlightOf(t.workers, w, r, d);
      } else {
        assert forall v :: Holds(t.workers, v, r) <==> Holds(s.workers, v, r);
        InFlightSame(s.workers, t.workers, r, d);
      }
    }
  }

  /** A staged attempt counts for the row it is about and for no other. */
  lemma {:induction false} PublishedInFlight(workers: map<nat, Worker>, w: nat, attempt: Attempt, r: nat, d: bool)
    requires Disjoint(workers) && Holds(workers, w, attempt.row)
    ensures var k := workers[w];
      InFlight(workers[w := k.(done := k.done + [attempt])], r, d) == InFlight(workers, r, d) + Tally([attempt], r, d)
  {
    hide InFlight, Tally;
    var k := workers[w];
    var after := workers[w := k.(done := k.done + [attempt])];
    assert forall v, q :: Holds(after, v, q) <==> Holds(workers, v, q);
    TallyConcat(k.done, [attempt], r, d);
    TallyOne(attempt, r, d);
    if r == attempt.row {
      InFlightOf(workers, w, r, d);
      InFlightOf(after, w, r, d);
    } else {
      InFlightSame(workers, after, r, d);
    }
  }

  lemma {:induction false} PublishKeepsSound(config: Config, s: State, w: nat, outcome: Outcome, sends: nat)
    requires Sound(config, s) && w in s.workers
    requires var k := s.workers[w]; |k.done| < |k.batch|
    requires var r := s.workers[w].batch[|s.workers[w].done|];
      r < |s.store.outbox| && !outcome.Interrupted? && Possible(s.store.outbox[r].event, outcome, sends, config)
    ensures var k := s.workers[w]; var attempt := Attempt(k.batch[|k.done|], outcome, sends);
      Sound(config, s.(workers := s.workers[w := k.(done := k.done + [attempt])], published := s.published + [attempt]))
  {
    hide Possible, RowSound;
    var k := s.workers[w];
    var attempt := Attempt(k.batch[|k.done|], outcome, sends);
    var t := s.(workers := s.workers[w := k.(done := k.done + [attempt])], published := s.published + [attempt]);
    assert WorkerSound(s.store.outbox, k);
    assert Rows(k.done + [attempt]) == Rows(k.done) + [attempt.row];
    assert forall v, r :: Holds(t.workers, v, r) <==> Holds(s.workers, v, r);
    hide InFlight, Tally, Settled;
    forall r: nat, d: bool | r < |t.store.outbox|
      ensures Conserved(t, r, d)
    {
      assert Conserved(s, r, d);
      TallyConcat(s.published, [attempt], r, d);
      PublishedInFlight(s.workers, w, attempt, r, d);
    }
  }

  lemma {:induction false} WithoutWorker(workers: map<nat, Worker>, w: nat)
    requires Disjoint(workers)
    ensures forall v, r :: Holds(workers - {w}, v, r) <==> v != w && Holds(workers, v, r)
    ensures Disjoint(workers - {w})
  {
    assert forall v, r :: Holds(workers - {w}, v, r) <==> v != w && Holds(workers, v, r);
  }

  /** Where the rows of a finished worker stand: its own are free, all others are held as before. */
  lemma {:induction false} ReleasedInFlight(outbox: seq<OutboxRow>, workers: map<nat, Worker>, w: nat, r: nat, d: bool)
    requires Disjoint(workers) && w in workers && WorkerSound(outbox, workers[w])
    ensures InFlight(workers, r, d) == InFlight(workers - {w}, r, d) + Tally(workers[w].done, r, d)
  {
    var k := workers[w];
    WithoutWorker(workers, w);
    if r in k.batch {
      assert Holds(workers, w, r);
      InFlightOf(workers, w, r, d);
      assert forall v :: !Holds(workers - {w}, v, r);
    } else {
      assert !Holds(workers, w, r);
      assert forall i :: 0 <= i < |k.done| ==> k.done[i].row == Rows(k.done)[i] && Rows(k.done)[i] in k.batch;
      TallyAbsent(k.done, r, d);
      InFlightSame(workers, workers - {w}, r, d);
    }
  }

  lemma {:induction false} AbortKeepsSound(config: Config, s: State, w: nat, last: seq<Attempt>)
    requires Sound(config, s) && w in s.workers
    requires last == [] || (|last| == 1 && last[0].outcome == Interrupted && LogSound(config, s.store.outbox, last))
    ensures Sound(config, s.(workers := s.workers - {w}, published := s.published + last,
      rolledBack := s.rolledBack + s.workers[w].done + last))
  {
    hide Possible, RowSound, InFlight, Tally;
    var k := s.workers[w];
    var t := s.(
      workers := s.workers - {w}, published := s.published + last, rolledBack := s.rolledBack + k.done + last);
    WithoutWorker(s.workers, w);
    forall r: nat, d: bool | r < |t.store.outbox|
      ensures Conserved(t, r, d)
    {
      assert Conserved(s, r, d);
      TallyConcat(s.published, last, r, d);
      TallyConcat(s.rolledBack + k.done, last, r, d);
      TallyConcat(s.rolledBack, k.done, r, d);
      ReleasedInFlight(s.store.outbox, s.workers, w, r, d);
    }
  }

  /** Marking accounts for exactly the attempt that was staged, and keeps the retry states. */
  lemma {:induction false} MarkSettles(row: OutboxRow, outcome: Outcome, maxRetries: nat, d: bool)
    requires row.status == Pending && RowSound(row, maxRetries) && !outcome.Interrupted?
    ensures Settled(Mark(row, outcome, maxRetries), d)
         == Settled(row, d) + if d ==> outcome == Delivered then 1 else 0
    ensures RowSound(Mark(row, outcome, maxRetries), maxRetries)
  {
  }

  lemma {:induction false} CommitRow(config: Config, s: State, w: nat, r: nat, d: bool)
    requires Sound(config, s) && w in s.workers && |s.workers[w].done| == |s.workers[w].batch|
    requires r < |s.store.outbox|
    ensures var k := s.workers[w]; var after := MarkAll(s.store.outbox, k.done, config.maxRetries);
      && RowSound(after[r], config.maxRetries)
      && (r !in k.batch ==> after[r] == s.store.outbox[r])
      && Settled(after[r], d) == Settled(s.store.outbox[r], d) + Tally(k.done, r, d)
  {
    hide RowSound, Mark, LogSound, Conserved, MarkAll;
    var k := s.workers[w];
    assert WorkerSound(s.store.outbox, k);
    assert Rows(k.done) == k.batch;
    MarkAllRow(s.store.outbox, k.done, config.maxRetries, r);
    if r in k.batch {
      var i :| 0 <= i < |k.batch| && k.batch[i] == r;
      assert k.done[i].row == Rows(k.done)[i];
      MarkSettles(s.store.outbox[r], k.done[i].outcome, config.maxRetries, d);
      TallyOfBatch(k.done, i, d);
    } else {
      assert forall i :: 0 <= i < |k.done| ==> k.done[i].row == Rows(k.done)[i];
      TallyAbsent(k.done, r, d);
    }
  }

  lemma {:induction false} OtherWorkerSound(config: Config, s: State, w: nat, v: nat)
    requires Sound(config, s) && w in s.workers && |s.workers[w].done| == |s.workers[w].batch|
    requires v in s.workers && v != w
    ensures WorkerSound(MarkAll(s.store.outbox, s.workers[w].done, config.maxRetries), s.workers[v])
  {
    hide Possible, RowSound, MarkAll, InFlight, Tally, Conserved, LogSound;
    assert WorkerSound(s.store.outbox, s.workers[v]);
    forall i | 0 <= i < |s.workers[v].batch|
      ensures MarkAll(s.store.outbox, s.workers[w].done, config.maxRetries)[s.workers[v].batch[i]].status == Pending
    {
      var r := s.workers[v].batch[i];
      assert Holds(s.workers, v, r);
      assert !Holds(s.workers, w, r);
      CommitRow(config, s, w, r, false);
    }
  }

  lemma {:induction false} CommitKeepsSound(config: Config, s: State, w: nat)
    requires Sound(config, s) && w in s.workers && |s.workers[w].done| == |s.workers[w].batch|
    ensures Sound(config, s.(workers := s.workers - {w},
      store := s.store.(outbox := MarkAll(s.store.outbox, s.workers[w].done, config.maxRetries))))
  {
    hide Possible, RowSound, MarkAll, InFlight, Tally, WorkerSound, Settled;
    var k := s.workers[w];
    var t := s.(workers := s.workers - {w},
      store := s.store.(outbox := MarkAll(s.store.outbox, k.done, config.maxRetries)));
    WithoutWorker(s.workers, w);
    forall r: nat | r < |t.store.outbox|
      ensures RowSound(t.store.outbox[r], config.maxRetries)
      ensures t.store.outbox[r].event == s.store.outbox[r].event
    {
      CommitRow(config, s, w, r, false);
      MarkAllKeepsEvents(s.store.outbox, k.done, config.maxRetries, r);
    }
    forall v | v in t.workers
      ensures WorkerSound(t.store.outbox, t.workers[v])
    {
      OtherWorkerSound(config, s, w, v);
    }
    forall r: nat, d: bool | r < |t.store.outbox|
      ensures Conserved(t, r, d)
    {
      assert Conserved(s, r, d);
      CommitRow(config, s, w, r, d);
      ReleasedInFlight(s.store.outbox, s.workers, w, r, d);
    }
  }

  lemma {:induction false} StepSound(config: Config, s: State, a: Action)
    requires config.maxRetries >= 1 && Sound(config, s)
    ensures Sound(config, Step(config, s, a))
  {
    hide Sound, Possible, MarkAll, Select, PaymentCallback, ShipmentEvent, InsertOrder, Compensate, Lookup, Quote,
      AfterPayment, Amounts.Amount, Appends;
    match a {
      case SelectBatch(w) =>
        if w !in s.workers {
          SelectKeepsSound(config, s, w);
        }
      case PublishNext(w, outcome, sends) =>
        if Step(config, s, a) != s {
          PublishKeepsSound(config, s, w, outcome, sends);
        }
      case CommitBatch(w) =>
        if Step(config, s, a) != s {
          CommitKeepsSound(config, s, w);
        }
      case AbortBatch(w, interrupted) =>
        if w in s.workers {
          var k := s.workers[w];
          if interrupted.Some? && |k.done| < |k.batch| && k.batch[|k.done|] < |s.store.outbox|
             && Possible(s.store.outbox[k.batch[|k.done|]].event, Interrupted, interrupted.value, config) {
            AbortKeepsSound(config, s, w, [Attempt(k.batch[|k.done|], Interrupted, interrupted.value)]);
          } else {
            AbortKeepsSound(config, s, w, []);
          }
        }
      case _ =>
        UseCaseAppends(config, s, a);
        AppendKeepsSound(config, s, Step(config, s, a));
    }
  }

  lemma {:induction false} RunSound(config: Config, actions: seq<Action>)
    requires config.maxRetries >= 1
    ensures Sound(config, Run(config, actions))
  {
    if actions != [] {
      hide Sound, Step;
      var before := actions[..|actions| - 1];
      RunSound(config, before);
      StepSound(config, Run(config, before), actions[|actions| - 1]);
    }
  }

  // ---------------------------------------------------------------- what holds of every run

  lemma {:induction false} AtMostOnce(done: seq<Attempt>, r: nat, d: bool)
    requires Increasing(Rows(done))
    ensures Tally(done, r, d) <= 1
  {
    if k :| 0 <= k < |done| && done[k].row == r {
      TallyOfBatch(done, k, d);
    } else {
      TallyAbsent(done, r, d);
    }
  }

  /**
   Conservation of attempts: however workers interleave and wherever their batches are cancelled,
   the publishes of a row are those its committed state counts, those that were rolled back and
   the one staged by the worker that holds it. The same holds of the successful ones alone.
   */
  lemma {:induction false} AttemptsConserved(config: Config, actions: seq<Action>, r: nat, delivered: bool)
    requires config.maxRetries >= 1 && r < |Run(config, actions).store.outbox|
    ensures var s := Run(config, actions);
      Tally(s.published, r, delivered)
        == Settled(s.store.outbox[r], delivered) + Tally(s.rolledBack, r, delivered) + InFlight(s.workers, r, delivered)
    ensures InFlight(Run(config, actions).workers, r, delivered) <= 1
  {
    hide Run;
    RunSound(config, actions);
    var s := Run(config, actions);
    assert Conserved(s, r, delivered);
    if w :| Holds(s.workers, w, r) {
      var k := s.workers[w];
      InFlightOf(s.workers, w, r, delivered);
      assert WorkerSound(s.store.outbox, k);
      AtMostOnce(k.done, r, delivered);
    }
  }

  /** Locks: no row is in two open batches, and every locked row is pending in the committed store. */
  lemma {:induction false} LocksExclusive(config: Config, actions: seq<Action>, v: nat, w: nat, r: nat)
    requires config.maxRetries >= 1 && Holds(Run(config, actions).workers, v, r)
    ensures r < |Run(config, actions).store.outbox| && Run(config, actions).store.outbox[r].status == Pending
    ensures Holds(Run(config, actions).workers, w, r) ==> v == w
  {
    hide Run;
    RunSound(config, actions);
    var s := Run(config, actions);
    assert WorkerSound(s.store.outbox, s.workers[v]);
  }

  /** A row marked SENT was published with success. */
  lemma {:induction false} SentWasDelivered(config: Config, actions: seq<Action>, r: nat)
    requires config.maxRetries >= 1 && r < |Run(config, actions).store.outbox|
    requires Run(config, actions).store.outbox[r].status == Sent
    ensures var log := Run(config, actions).published;
      exists i :: 0 <= i < |log| && log[i].row == r && log[i].outcome == Delivered
  {
    AttemptsConserved(config, actions, r, true);
    TallyPresent(Run(config, actions).published, r, true);
  }

  /** At most one success of a row is not among the rolled back ones. */
  lemma {:induction false} PublishedOnceUnlessRolledBack(config: Config, actions: seq<Action>, r: nat)
    requires config.maxRetries >= 1 && r < |Run(config, actions).store.outbox|
    ensures var s := Run(config, actions);
      Tally(s.rolledBack, r, true) <= Tally(s.published, r, true) <= 1 + Tally(s.rolledBack, r, true)
  {
    hide Run;
    AttemptsConserved(config, actions, r, true);
    var s := Run(config, actions);
    if w :| Holds(s.workers, w, r) {
      LocksExclusive(config, actions, w, w, r);
    }
  }

  /** No batch of the run was cancelled. */
  predicate NoAbort(actions: seq<Action>) {
    forall i :: 0 <= i < |actions| ==> !actions[i].AbortBatch?
  }

  lemma {:induction false} RolledBackKept(config: Config, s: State, a: Action)
    requires !a.AbortBatch?
    ensures Step(config, s, a).rolledBack == s.rolledBack
  {
    hide N.ForOrder, Amounts.Amount, PaymentCallback, ShipmentEvent, MarkAll, Select, Possible, Lookup, Quote,
      AfterPayment, InsertOrder, Compensate;
  }

  lemma {:induction false} NothingRolledBack(config: Config, actions: seq<Action>)
    requires NoAbort(actions)
    ensures Run(config, actions).rolledBack == []
  {
    if actions != [] {
      var before, a := actions[..|actions| - 1], actions[|actions| - 1];
      NothingRolledBack(config, before);
      RolledBackKept(config, Run(config, before), a);
    }
  }

  /**
   Without cancellation a row is published with success exactly once when it is SENT, and otherwise
   only if an open batch holds its one staged success: no row is ever published twice.
   */
  lemma {:induction false} PublishedOnceWithoutCancellation(config: Config, actions: seq<Action>, r: nat)
    requires config.maxRetries >= 1 && NoAbort(actions) && r < |Run(config, actions).store.outbox|
    ensures var s := Run(config, actions);
      && Tally(s.published, r, true) <= 1
      && (s.store.outbox[r].status == Sent ==> Tally(s.published, r, true) == 1)
      && (s.store.outbox[r].status == Failed ==> Tally(s.published, r, true) == 0)
      && (Locked(s.workers) == {} ==> (Tally(s.published, r, true) == 1 <==> s.store.outbox[r].status == Sent))
  {
    hide Run;
    var s := Run(config, actions);
    NothingRolledBack(config, actions);
    AttemptsConserved(config, actions, r, true);
    if w :| Holds(s.workers, w, r) {
      LocksExclusive(config, actions, w, w, r);
      assert r in Locked(s.workers);
    }
  }

  /** The retry states of every reachable row. */
  lemma {:induction false} RetryStates(config: Config, actions: seq<Action>, r: nat)
    requires config.maxRetries >= 1 && r < |Run(config, actions).store.outbox|
    ensures var row := Run(config, actions).store.outbox[r];
      && (row.status == Failed <==> row.retryCount >= config.maxRetries)
      && row.retryCount <= config.maxRetries
  {
    RunSound(config, actions);
  }

  function Sends(log: seq<Attempt>, r: nat): nat {
    if log == [] then 0
    else
      var last := log[|log| - 1];
      Sends(log[..|log| - 1], r) + (if last.row == r then last.sends else 0)
  }

  lemma {:induction false} SendsBounded(log: seq<Attempt>, r: nat, n: nat)
    requires forall i :: 0 <= i < |log| && log[i].row == r ==> log[i].sends <= n
    ensures Sends(log, r) <= Tally(log, r, false) * n
  {
    if log != [] {
      SendsBounded(log[..|log| - 1], r, n);
      var k := Tally(log[..|log| - 1], r, false);
      assert (k + 1) * n == k * n + n;
    }
  }

  lemma {:induction false} NotHeld(workers: map<nat, Worker>, r: nat, d: bool)
    requires !exists w :: Holds(workers, w, r)
    ensures InFlight(workers, r, d) == 0
  {
  }

  /**
   A notification is sent at most max_retries * notify_attempts times, and notify_attempts times
   more for every attempt that was rolled back.
   */
  lemma {:induction false} SendsOfNotification(config: Config, actions: seq<Action>, r: nat)
    requires config.maxRetries >= 1 && r < |Run(config, actions).store.outbox|
    requires N.IsNotification(Run(config, actions).store.outbox[r].event.eventType)
    ensures var s := Run(config, actions);
      && Tally(s.published, r, false) <= config.maxRetries + Tally(s.rolledBack, r, false)
      && Sends(s.published, r) <= (config.maxRetries + Tally(s.rolledBack, r, false)) * config.notifyAttempts
  {
    hide Run, Tally, Sends, InFlight, Conserved, WorkerSound, Disjoint;
    var s := Run(config, actions);
    RunSound(config, actions);
    AttemptsConserved(config, actions, r, false);
    assert RowSound(s.store.outbox[r], config.maxRetries);
    if exists w :: Holds(s.workers, w, r) {
      var w :| Holds(s.workers, w, r);
      LocksExclusive(config, actions, w, w, r);
    } else {
      NotHeld(s.workers, r, false);
    }
    SendsBounded(s.published, r, config.notifyAttempts);
    Arithmetic.ScaledOrder(
      Tally(s.published, r, false), config.maxRetries + Tally(s.rolledBack, r, false), config.notifyAttempts);
  }

  /** Without cancellation at most max_retries * notify_attempts sends are made for a notification. */
  lemma {:induction false} SendsWithoutCancellation(config: Config, actions: seq<Action>, r: nat)
    requires config.maxRetries >= 1 && NoAbort(actions) && r < |Run(config, actions).store.outbox|
    requires N.IsNotification(Run(config, actions).store.outbox[r].event.eventType)
    ensures Tally(Run(config, actions).published, r, false) <= config.maxRetries
    ensures Sends(Run(config, actions).published, r) <= config.maxRetries * config.notifyAttempts
  {
    hide Run, Sends;
    NothingRolledBack(config, actions);
    SendsOfNotification(config, actions, r);
  }

  lemma {:induction false} SettledStep(config: Config, s: State, a: Action, r: nat)
    requires config.maxRetries >= 1 && Sound(config, s)
    requires r < |s.store.outbox| && s.store.outbox[r].status != Pending
    ensures r < |Step(config, s, a).store.outbox| && Step(config, s, a).store.outbox[r] == s.store.outbox[r]
  {
    hide PaymentCallback, ShipmentEvent, CreateStep, MarkAll, Mark, Conserved, LogSound, RowSound, Select, Possible;
    match a {
      case CommitBatch(w) =>
        if w in s.workers && |s.workers[w].done| == |s.workers[w].batch| {
          assert WorkerSound(s.store.outbox, s.workers[w]);
          assert r !in s.workers[w].batch;
          CommitRow(config, s, w, r, false);
        }
      case _ =>
        UseCaseAppends(config, s, a);
        assert Step(config, s, a).store.outbox[..|s.store.outbox|][r] == s.store.outbox[r];
    }
  }

  /** SENT and FAILED are never left: such a row is the same at the end of every longer run. */
  lemma {:induction false} SettledForGood(config: Config, actions: seq<Action>, k: nat, r: nat)
    requires config.maxRetries >= 1 && k <= |actions|
    requires r < |Run(config, actions[..k]).store.outbox|
    requires Run(config, actions[..k]).store.outbox[r].status != Pending
    ensures r < |Run(config, actions).store.outbox|
    ensures Run(config, actions).store.outbox[r] == Run(config, actions[..k]).store.outbox[r]
  {
    if k == |actions| {
      assert actions[..k] == actions;
    } else {
      hide Step, Sound;
      var before, a := actions[..|actions| - 1], actions[|actions| - 1];
      assert before[..k] == actions[..k];
      SettledForGood(config, before, k, r);
      RunSound(config, before);
      SettledStep(config, Run(config, before), a, r);
    }
  }
}
