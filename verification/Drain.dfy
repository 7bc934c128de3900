/**
 One worker: how long a row waits for its first attempt, and how many calls empty the outbox once no
 rows are added, whatever fails. A call is its attempts: every selected row once, in order, committed.
 */
module Drain {
  import opened Entities
  import opened Outbox
  import opened OutboxWorker
  import opened Arithmetic
  import Delivery

  predicate CallOf(config: Config, outbox: seq<OutboxRow>, call: seq<Attempt>) {
    && Rows(call) == Select(outbox, {}, config.batchSize)
    && forall i :: 0 <= i < |call| ==> !call[i].outcome.Interrupted?
  }

  function AfterCalls(config: Config, outbox: seq<OutboxRow>, calls: seq<seq<Attempt>>): seq<OutboxRow>
    decreases |calls|
  {
    if calls == [] then outbox
    else AfterCalls(config, MarkAll(outbox, calls[0], config.maxRetries), calls[1..])
  }

  predicate CallsOf(config: Config, outbox: seq<OutboxRow>, calls: seq<seq<Attempt>>)
    decreases |calls|
  {
    calls != [] ==>
      && CallOf(config, outbox, calls[0])
      && CallsOf(config, MarkAll(outbox, calls[0], config.maxRetries), calls[1..])
  }

  predicate RowsSound(config: Config, outbox: seq<OutboxRow>) {
    forall r :: 0 <= r < |outbox| ==> Delivery.RowSound(outbox[r], config.maxRetries)
  }

  /** The attempts a row has left. */
  function Left(config: Config, row: OutboxRow): nat {
    if row.status == Pending && row.retryCount < config.maxRetries then config.maxRetries - row.retryCount else 0
  }

  /** The attempts left to all rows in front of position n. */
  function LeftBefore(config: Config, outbox: seq<OutboxRow>, n: nat): nat
    requires n <= |outbox|
  {
    if n == 0 then 0 else LeftBefore(config, outbox, n - 1) + Left(config, outbox[n - 1])
  }

  function PendingBefore(outbox: seq<OutboxRow>, n: nat): nat
    requires n <= |outbox|
  {
    if n == 0 then 0 else PendingBefore(outbox, n - 1) + (if outbox[n - 1].status == Pending then 1 else 0)
  }

  /** How many of the increasing ids are in front of n. */
  function CountBefore(ids: seq<nat>, n: nat): nat {
    if n == 0 then 0 else CountBefore(ids, n - 1) + (if n - 1 in ids then 1 else 0)
  }

  lemma {:induction false} LeftBounded(config: Config, outbox: seq<OutboxRow>, n: nat)
    requires n <= |outbox|
    ensures LeftBefore(config, outbox, n) <= PendingBefore(outbox, n) * config.maxRetries
  {
    if n > 0 {
      LeftBounded(config, outbox, n - 1);
      var k, m := PendingBefore(outbox, n - 1), config.maxRetries;
      OneMore(k, m);
    }
  }

  /** A call takes an attempt from every row it attempts and gives none to any. */
  lemma {:induction false} CallTakes(config: Config, outbox: seq<OutboxRow>, call: seq<Attempt>, r: nat)
    requires RowsSound(config, outbox) && CallOf(config, outbox, call) && r < |outbox|
    ensures var after := MarkAll(outbox, call, config.maxRetries)[r];
      && Delivery.RowSound(after, config.maxRetries)
      && Left(config, after) + (if r in Rows(call) then 1 else 0) <= Left(config, outbox[r])
      && (r !in Rows(call) ==> after == outbox[r])
  {
    SelectOldest(outbox, {}, config.batchSize);
    MarkAllRow(outbox, call, config.maxRetries, r);
    if r in Rows(call) {
      var k :| 0 <= k < |call| && Rows(call)[k] == r;
      assert call[k].row == r;
    }
  }

  lemma {:induction false} CallTakesBefore(config: Config, outbox: seq<OutboxRow>, call: seq<Attempt>, n: nat)
    requires RowsSound(config, outbox) && CallOf(config, outbox, call) && n <= |outbox|
    ensures LeftBefore(config, MarkAll(outbox, call, config.maxRetries), n) + CountBefore(Rows(call), n)
         <= LeftBefore(config, outbox, n)
  {
    if n > 0 {
      hide MarkAll, Left, Rows, CallOf;
      CallTakesBefore(config, outbox, call, n - 1);
      CallTakes(config, outbox, call, n - 1);
    }
  }

  lemma {:induction false} SoundAfter(config: Config, outbox: seq<OutboxRow>, call: seq<Attempt>)
    requires RowsSound(config, outbox) && CallOf(config, outbox, call)
    ensures RowsSound(config, MarkAll(outbox, call, config.maxRetries))
  {
    hide MarkAll;
    forall r | 0 <= r < |outbox|
      ensures Delivery.RowSound(MarkAll(outbox, call, config.maxRetries)[r], config.maxRetries)
    {
      CallTakes(config, outbox, call, r);
    }
  }

  lemma {:induction false} CountSame(a: seq<nat>, b: seq<nat>, n: nat)
    requires forall r: nat :: r < n ==> (r in a <==> r in b)
    ensures CountBefore(a, n) == CountBefore(b, n)
  {
    if n > 0 {
      CountSame(a, b, n - 1);
    }
  }

  lemma {:induction false} CountAll(ids: seq<nat>, n: nat)
    requires Increasing(ids) && InRange(ids, n)
    ensures CountBefore(ids, n) == |ids|
  {
    if n > 0 {
      if n - 1 in ids {
        var k := |ids| - 1;
        var init := ids[..k];
        var i :| 0 <= i < |ids| && ids[i] == n - 1;
        assert ids[i] <= ids[k] < n;
        assert i == k;
        CountAll(init, n - 1);
        CountSame(ids, init, n - 1);
      } else {
        assert forall i :: 0 <= i < |ids| ==> ids[i] in ids;
        CountAll(ids, n - 1);
      }
    }
  }

  // ---------------------------------------------------------------- bounded wait

  /** A call, and the rows other transactions add before the next one. */
  datatype Round = Round(call: seq<Attempt>, added: seq<OutboxRow>)

  predicate RoundsOf(config: Config, outbox: seq<OutboxRow>, rounds: seq<Round>)
    decreases |rounds|
  {
    rounds != [] ==>
      && CallOf(config, outbox, rounds[0].call)
      && RowsSound(config, rounds[0].added)
      && RoundsOf(config, MarkAll(outbox, rounds[0].call, config.maxRetries) + rounds[0].added, rounds[1..])
  }

  lemma {:induction false} LeftBeforeAdded(config: Config, outbox: seq<OutboxRow>, added: seq<OutboxRow>, n: nat)
    requires n <= |outbox|
    ensures LeftBefore(config, outbox + added, n) == LeftBefore(config, outbox, n)
  {
    if n > 0 {
      hide Left;
      LeftBeforeAdded(config, outbox, added, n - 1);
    }
  }

  /** A call that passes over a pending row takes a full batch from the rows in front of it. */
  lemma {:induction false} PassedOverOnce(config: Config, outbox: seq<OutboxRow>, call: seq<Attempt>, r: nat)
    requires RowsSound(config, outbox) && CallOf(config, outbox, call)
    requires r < |outbox| && outbox[r].status == Pending && r !in Rows(call)
    ensures var after := MarkAll(outbox, call, config.maxRetries);
      && RowsSound(config, after) && after[r] == outbox[r]
      && LeftBefore(config, after, r) + config.batchSize <= LeftBefore(config, outbox, r)
  {
    hide MarkAll, Select, LeftBefore, Left, Rows, RowsSound;
    SelectOldest(outbox, {}, config.batchSize);
    var batch := Rows(call);
    assert forall i :: 0 <= i < |batch| ==> batch[i] in batch;
    CountAll(batch, r);
    CallTakes(config, outbox, call, r);
    CallTakesBefore(config, outbox, call, r);
    SoundAfter(config, outbox, call);
  }

  lemma {:induction false} PassedOver(config: Config, outbox: seq<OutboxRow>, rounds: seq<Round>, r: nat)
    requires RowsSound(config, outbox) && RoundsOf(config, outbox, rounds)
    requires r < |outbox| && outbox[r].status == Pending
    requires forall i :: 0 <= i < |rounds| ==> r !in Rows(rounds[i].call)
    ensures |rounds| * config.batchSize <= LeftBefore(config, outbox, r)
    decreases |rounds|
  {
    if rounds != [] {
      hide MarkAll, CallOf, LeftBefore, Left, Rows;
      var after := MarkAll(outbox, rounds[0].call, config.maxRetries);
      PassedOverOnce(config, outbox, rounds[0].call, r);
      LeftBeforeAdded(config, after, rounds[0].added, r);
      assert forall i :: 0 <= i < |rounds[1..]| ==> rounds[1..][i] == rounds[i + 1];
      PassedOver(config, after + rounds[0].added, rounds[1..], r);
      OneMore(|rounds| - 1, config.batchSize);
    }
  }

  lemma {:induction false} RoundsOfPrefix(config: Config, outbox: seq<OutboxRow>, rounds: seq<Round>, k: nat)
    requires k <= |rounds| && RoundsOf(config, outbox, rounds)
    ensures RoundsOf(config, outbox, rounds[..k])
    decreases k
  {
    if k > 0 {
      hide MarkAll, CallOf;
      RoundsOfPrefix(
        config, MarkAll(outbox, rounds[0].call, config.maxRetries) + rounds[0].added, rounds[1..], k - 1);
      assert rounds[..k][1..] == rounds[1..][..k - 1];
    }
  }

  /**
   Bounded wait: a pending row with k pending rows in front of it is attempted by call
   k * max_retries / batch_size + 1 at the latest, whatever fails and whatever rows are added meanwhile.
   */
  lemma {:induction false} BoundedWait(config: Config, outbox: seq<OutboxRow>, rounds: seq<Round>, r: nat)
    requires config.batchSize >= 1
    requires RowsSound(config, outbox) && RoundsOf(config, outbox, rounds)
    requires r < |outbox| && outbox[r].status == Pending
    requires |rounds| > PendingBefore(outbox, r) * config.maxRetries / config.batchSize
    ensures exists i ::
      0 <= i <= PendingBefore(outbox, r) * config.maxRetries / config.batchSize && r in Rows(rounds[i].call)
  {
    hide RoundsOf, Rows;
    var work, b := PendingBefore(outbox, r) * config.maxRetries, config.batchSize;
    var bound := work / b;
    LeftBounded(config, outbox, r);
    FloorBelow(work, b);
    RoundsOfPrefix(config, outbox, rounds, bound + 1);
    if forall i :: 0 <= i <= bound ==> r !in Rows(rounds[i].call) {
      PassedOver(config, outbox, rounds[..bound + 1], r);
      assert false;
    }
  }

  // ---------------------------------------------------------------- drain

  predicate LeftAtMost(config: Config, outbox: seq<OutboxRow>, m: nat) {
    forall r :: 0 <= r < |outbox| ==> Left(config, outbox[r]) <= m
  }

  predicate Drained(outbox: seq<OutboxRow>) {
    forall r :: 0 <= r < |outbox| ==> outbox[r].status != Pending
  }

  lemma {:induction false} CountFewer(a: seq<nat>, b: seq<nat>, n: nat)
    requires forall id :: id in a ==> id in b
    ensures CountBefore(a, n) <= CountBefore(b, n)
  {
    if n > 0 {
      CountFewer(a, b, n - 1);
    }
  }

  /** A batch that is not full holds every pending row. */
  lemma {:induction false} ShortTakesAll(config: Config, outbox: seq<OutboxRow>, call: seq<Attempt>, m: nat)
    requires RowsSound(config, outbox) && CallOf(config, outbox, call)
    requires |call| < config.batchSize && LeftAtMost(config, outbox, m + 1)
    ensures LeftAtMost(config, MarkAll(outbox, call, config.maxRetries), m)
    ensures |Select(MarkAll(outbox, call, config.maxRetries), {}, config.batchSize)| < config.batchSize
  {
    hide MarkAll, Select;
    var after := MarkAll(outbox, call, config.maxRetries);
    SelectOldest(outbox, {}, config.batchSize);
    SelectOldest(after, {}, config.batchSize);
    forall r | 0 <= r < |outbox|
      ensures Left(config, after[r]) <= m
      ensures after[r].status == Pending ==> r in Rows(call)
    {
      CallTakes(config, outbox, call, r);
    }
    var next := Select(after, {}, config.batchSize);
    assert forall i :: 0 <= i < |next| ==> next[i] in next;
    CountFewer(next, Rows(call), |outbox|);
    CountAll(next, |outbox|);
    CountAll(Rows(call), |outbox|);
  }

  lemma {:induction false} NoneLeft(config: Config, outbox: seq<OutboxRow>)
    requires RowsSound(config, outbox) && LeftAtMost(config, outbox, 0)
    ensures Drained(outbox)
  {
    forall r | 0 <= r < |outbox|
      ensures outbox[r].status != Pending
    {
      assert Left(config, outbox[r]) <= 0;
    }
  }

  /** Once a batch is not full, m further calls use up the last m attempts of all rows. */
  lemma {:induction false} ShortDrains(config: Config, outbox: seq<OutboxRow>, calls: seq<seq<Attempt>>, m: nat)
    requires RowsSound(config, outbox) && CallsOf(config, outbox, calls)
    requires |Select(outbox, {}, config.batchSize)| < config.batchSize
    requires LeftAtMost(config, outbox, m) && |calls| >= m
    ensures Drained(AfterCalls(config, outbox, calls))
    decreases |calls|
  {
    hide MarkAll, Select, Drained;
    if calls == [] {
      NoneLeft(config, outbox);
    } else {
      var after := MarkAll(outbox, calls[0], config.maxRetries);
      SoundAfter(config, outbox, calls[0]);
      ShortTakesAll(config, outbox, calls[0], if m == 0 then 0 else m - 1);
      ShortDrains(config, after, calls[1..], if m == 0 then 0 else m - 1);
    }
  }

  /** Full batches use up batch_size attempts each; the first one that is not full starts the end. */
  lemma {:induction false} DrainsFrom(config: Config, outbox: seq<OutboxRow>, calls: seq<seq<Attempt>>)
    requires config.batchSize >= 1
    requires RowsSound(config, outbox) && CallsOf(config, outbox, calls)
    requires (|calls| - config.maxRetries + 1) * config.batchSize > LeftBefore(config, outbox, |outbox|)
    ensures Drained(AfterCalls(config, outbox, calls))
    decreases |calls|
  {
    hide MarkAll, Select, Drained, LeftBefore;
    var b, m := config.batchSize, config.maxRetries;
    if |calls| < m {
      TooFewCalls(|calls|, m, b);
      assert false;
    }
    SelectOldest(outbox, {}, b);
    if |Select(outbox, {}, b)| < b {
      ShortDrains(config, outbox, calls, m);
    } else {
      assert Select(outbox, {}, b)[0] in Select(outbox, {}, b);
      assert m >= 1;
      var after := MarkAll(outbox, calls[0], m);
      SoundAfter(config, outbox, calls[0]);
      CallTakesBefore(config, outbox, calls[0], |outbox|);
      CountAll(Rows(calls[0]), |outbox|);
      OneMore(|calls| - m, b);
      DrainsFrom(config, after, calls[1..]);
    }
  }

  /** Drain: floor(F / batch_size) + max_retries calls leave no pending row, F being the attempts left. */
  lemma {:induction false} DrainBound(config: Config, outbox: seq<OutboxRow>, calls: seq<seq<Attempt>>)
    requires config.batchSize >= 1
    requires RowsSound(config, outbox) && CallsOf(config, outbox, calls)
    requires |calls| >= LeftBefore(config, outbox, |outbox|) / config.batchSize + config.maxRetries
    ensures Drained(AfterCalls(config, outbox, calls))
  {
    hide CallsOf, Drained, AfterCalls, RowsSound;
    var work, b := LeftBefore(config, outbox, |outbox|), config.batchSize;
    FloorBelow(work, b);
    var more := |calls| - config.maxRetries - work / b;
    assert (work / b + 1 + more) * b == (work / b + 1) * b + more * b;
    DrainsFrom(config, outbox, calls);
  }

  /** Every call that finds something uses up at least as many attempts as it processed rows. */
  lemma {:induction false} CallMakesProgress(config: Config, outbox: seq<OutboxRow>, call: seq<Attempt>)
    requires RowsSound(config, outbox) && CallOf(config, outbox, call)
    ensures LeftBefore(config, MarkAll(outbox, call, config.maxRetries), |outbox|) + |call|
         <= LeftBefore(config, outbox, |outbox|)
  {
    hide MarkAll, Select;
    SelectOldest(outbox, {}, config.batchSize);
    CallTakesBefore(config, outbox, call, |outbox|);
    CountAll(Rows(call), |outbox|);
  }
}
