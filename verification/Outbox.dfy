/** Selecting and marking outbox rows. */
module Outbox {
  import opened Wrappers
  import opened Entities

  /** How one publish of a row ended; Interrupted is a cancellation, which no handler catches. */
  datatype Outcome = Delivered | Rejected(error: string) | Interrupted

  /** One publish of a row within a batch, with the number of requests it made. */
  datatype Attempt = Attempt(row: nat, outcome: Outcome, sends: nat)

  predicate InRange(ids: seq<nat>, n: nat) {
    forall i :: 0 <= i < |ids| ==> ids[i] < n
  }

  /** Positions of pending rows nobody else has locked, in creation order. */
  function PendingFrom(outbox: seq<OutboxRow>, locked: set<nat>, i: nat): (ids: seq<nat>)
    requires i <= |outbox|
    ensures InRange(ids, |outbox|)
    decreases |outbox| - i
  {
    if i == |outbox| then []
    else
      (if outbox[i].status == Pending && i !in locked then [i] else []) + PendingFrom(outbox, locked, i + 1)
  }

  function Take<T>(s: seq<T>, limit: nat): seq<T> {
    if |s| <= limit then s else s[..limit]
  }

  function Select(outbox: seq<OutboxRow>, locked: set<nat>, limit: nat): (ids: seq<nat>)
    ensures InRange(ids, |outbox|)
  {
    Take(PendingFrom(outbox, locked, 0), limit)
  }

  function MarkSent(row: OutboxRow): OutboxRow {
    row.(status := Sent)
  }

  function MarkFailed(row: OutboxRow, error: string, maxRetries: nat): OutboxRow {
    var retries := row.retryCount + 1;
    row.(retryCount := retries,
         lastError := Some(if |error| > 2000 then error[..2000] else error),
         status := if retries >= maxRetries then Failed else row.status)
  }

  function Mark(row: OutboxRow, outcome: Outcome, maxRetries: nat): OutboxRow {
    match outcome
    case Delivered => MarkSent(row)
    case Rejected(error) => MarkFailed(row, error, maxRetries)
    case Interrupted => row
  }

  function MarkAll(outbox: seq<OutboxRow>, attempts: seq<Attempt>, maxRetries: nat): (r: seq<OutboxRow>)
    ensures |r| == |outbox|
  {
    if attempts == [] then outbox
    else
      var before := MarkAll(outbox, attempts[..|attempts| - 1], maxRetries);
      var last := attempts[|attempts| - 1];
      if last.row < |outbox| then before[last.row := Mark(before[last.row], last.outcome, maxRetries)] else before
  }

  function Rows(attempts: seq<Attempt>): seq<nat> {
    seq(|attempts|, i requires 0 <= i < |attempts| => attempts[i].row)
  }

  predicate Increasing(ids: seq<nat>) {
    forall i, j :: 0 <= i < j < |ids| ==> ids[i] < ids[j]
  }

  predicate Free(outbox: seq<OutboxRow>, locked: set<nat>, r: nat) {
    r < |outbox| && outbox[r].status == Pending && r !in locked
  }

  ghost predicate Lists(outbox: seq<OutboxRow>, locked: set<nat>, i: nat, ids: seq<nat>) {
    && Increasing(ids)
    && (forall k :: 0 <= k < |ids| ==> i <= ids[k] && Free(outbox, locked, ids[k]))
    && (forall r: nat :: i <= r && Free(outbox, locked, r) ==> r in ids)
  }

  lemma {:induction false} ListsFrom(outbox: seq<OutboxRow>, locked: set<nat>, i: nat, rest: seq<nat>)
    requires Lists(outbox, locked, i + 1, rest)
    ensures Lists(outbox, locked, i, if Free(outbox, locked, i) then [i] + rest else rest)
  {
    hide Free;
    var ids := if Free(outbox, locked, i) then [i] + rest else rest;
    forall r: nat | i <= r && Free(outbox, locked, r)
      ensures r in ids
    {
      if r > i {
        assert r in rest;
      }
    }
  }

  /** The selection lists exactly the free pending rows from i on, each once, oldest first. */
  lemma {:induction false} PendingFromLists(outbox: seq<OutboxRow>, locked: set<nat>, i: nat)
    requires i <= |outbox|
    ensures Lists(outbox, locked, i, PendingFrom(outbox, locked, i))
    decreases |outbox| - i
  {
    if i < |outbox| {
      hide Lists;
      PendingFromLists(outbox, locked, i + 1);
      var rest := PendingFrom(outbox, locked, i + 1);
      ListsFrom(outbox, locked, i, rest);
      assert [] + rest == rest;
    }
  }

  /** The batch is the oldest free pending rows: bounded, and nothing older is passed over. */
  lemma {:induction false} SelectOldest(outbox: seq<OutboxRow>, locked: set<nat>, limit: nat)
    ensures var batch := Select(outbox, locked, limit);
      && Increasing(batch)
      && |batch| <= limit
      && (forall r :: r in batch ==> r < |outbox| && outbox[r].status == Pending && r !in locked)
      && (forall r: nat :: r < |outbox| && outbox[r].status == Pending && r !in locked && r !in batch ==>
            |batch| == limit && forall q :: q in batch ==> q < r)
  {
    PendingFromLists(outbox, locked, 0);
    var free := PendingFrom(outbox, locked, 0);
    var batch := Select(outbox, locked, limit);
    assert forall k :: 0 <= k < |batch| ==> batch[k] == free[k] && free[k] in free;
    forall r | r in free && r !in batch
      ensures |batch| == limit && forall q :: q in batch ==> q < r
    {
      var k :| 0 <= k < |free| && free[k] == r;
      assert k >= |batch|;
    }
  }

  /** Marking distinct rows touches each of them once and no other row. */
  lemma {:induction false} MarkAllRow(outbox: seq<OutboxRow>, attempts: seq<Attempt>, maxRetries: nat, r: nat)
    requires r < |outbox|
    requires Increasing(Rows(attempts))
    ensures r !in Rows(attempts) ==> MarkAll(outbox, attempts, maxRetries)[r] == outbox[r]
    ensures forall k :: 0 <= k < |attempts| && attempts[k].row == r ==>
      MarkAll(outbox, attempts, maxRetries)[r] == Mark(outbox[r], attempts[k].outcome, maxRetries)
  {
    if attempts != [] {
      var before := attempts[..|attempts| - 1];
      assert Rows(before) == Rows(attempts)[..|attempts| - 1];
      MarkAllRow(outbox, before, maxRetries, r);
      assert forall k :: 0 <= k < |attempts| ==> Rows(attempts)[k] == attempts[k].row;
      if r !in Rows(attempts) {
        assert r !in Rows(before);
      } else if attempts[|attempts| - 1].row == r {
        assert forall k :: 0 <= k < |before| ==> Rows(attempts)[k] < r;
        assert r !in Rows(before);
      }
    }
  }

  lemma {:induction false} MarkAllKeepsEvents(outbox: seq<OutboxRow>, attempts: seq<Attempt>, maxRetries: nat, r: nat)
    requires r < |outbox|
    ensures MarkAll(outbox, attempts, maxRetries)[r].event == outbox[r].event
  {
    if attempts != [] {
      MarkAllKeepsEvents(outbox, attempts[..|attempts| - 1], maxRetries, r);
    }
  }
}
