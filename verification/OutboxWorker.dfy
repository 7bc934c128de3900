/**
 One call of the outbox worker. Every await that can be answered from outside (a send, a publish,
 a backoff sleep) asks the gateway, whose reply to its k-th request is `replies(k)`.
 */
module OutboxWorker {
  import opened Wrappers
  import opened Entities
  import opened Outbox
  import opened Transitions
  import opened Persistence
  import Effects
  import N = OrderNotifications
  import Text

  /** Aborted is a cancellation; `except Exception` does not catch it. */
  datatype Reply = Accepted | Declined(error: string) | Aborted

  /** A backoff sleep is counted in configured retry delays. */
  datatype Request =
    | Notify(userId: string, message: string, referenceId: string, idempotencyKey: string)
    | Publish(topic: string, key: string, payload: Payload)
    | Sleep(delays: nat)

  datatype Config = Config(
    topic: string,
    batchSize: nat,
    maxRetries: nat,
    notifyAttempts: nat)

  /** The requests of publishing one row, how it ended, and how many of them were sends or publishes. */
  datatype Publication = Publication(requests: seq<Request>, outcome: Outcome, sends: nat)

  function After(requests: seq<Request>, sends: nat, rest: Publication): Publication {
    Publication(requests + rest.requests, rest.outcome, sends + rest.sends)
  }

  /** The retry loop from its k-th attempt on, when the gateway has answered t requests before. */
  function NotifyRun(replies: nat -> Reply, t: nat, request: Request, k: nat, config: Config): Publication
    requires 1 <= k <= config.notifyAttempts
    decreases config.notifyAttempts - k
  {
    match replies(t)
    case Accepted => Publication([request], Delivered, 1)
    case Aborted => Publication([request], Interrupted, 1)
    case Declined(error) =>
      if k == config.notifyAttempts then Publication([request], Rejected(error), 1)
      else
        var pause := Sleep(k);
        if replies(t + 1).Aborted? then Publication([request, pause], Interrupted, 1)
        else After([request, pause], 1, NotifyRun(replies, t + 2, request, k + 1, config))
  }

  predicate HasRequestKeys(payload: Payload) {
    "user_id" in payload && "message" in payload && "reference_id" in payload && "idempotency_key" in payload
  }

  /** The text of the KeyError: the quoted name of the first key that is not there. */
  function MissingKey(payload: Payload): string
    requires !HasRequestKeys(payload)
  {
    if "user_id" !in payload then "'user_id'"
    else if "message" !in payload then "'message'"
    else if "reference_id" !in payload then "'reference_id'"
    else "'idempotency_key'"
  }

  function NotifyRequest(payload: Payload): Request
    requires HasRequestKeys(payload)
  {
    Notify(payload["user_id"].AsText(), payload["message"].AsText(),
           payload["reference_id"].AsText(), payload["idempotency_key"].AsText())
  }

  function KafkaKey(id: nat, payload: Payload): string {
    var orderId := Get(payload, "order_id");
    if orderId.Truthy() then orderId.AsText() else Text.NatText(id)
  }

  /** With no attempt allowed the assertion behind the loop fails, and its text is empty. */
  function PublishRun(replies: nat -> Reply, t: nat, id: nat, event: OutboxEvent, config: Config): Publication {
    if N.IsNotification(event.eventType) then
      if !HasRequestKeys(event.payload) then Publication([], Rejected(MissingKey(event.payload)), 0)
      else if config.notifyAttempts == 0 then Publication([], Rejected(""), 0)
      else NotifyRun(replies, t, NotifyRequest(event.payload), 1, config)
    else
      var request := Publish(config.topic, KafkaKey(id, event.payload), event.payload);
      match replies(t)
      case Accepted => Publication([request], Delivered, 1)
      case Declined(error) => Publication([request], Rejected(error), 1)
      case Aborted => Publication([request], Interrupted, 1)
  }

  datatype Batch = Batch(requests: seq<Request>, attempts: seq<Attempt>)

  /** The attempts of a batch in order, up to and including one that is interrupted. */
  function BatchRun(replies: nat -> Reply, t: nat, outbox: seq<OutboxRow>, ids: seq<nat>, config: Config): Batch
    requires InRange(ids, |outbox|)
    decreases |ids|
  {
    if ids == [] then Batch([], [])
    else
      var p := PublishRun(replies, t, ids[0], outbox[ids[0]].event, config);
      var attempt := Attempt(ids[0], p.outcome, p.sends);
      if p.outcome.Interrupted? then Batch(p.requests, [attempt])
      else
        var rest := BatchRun(replies, t + |p.requests|, outbox, ids[1..], config);
        Batch(p.requests + rest.requests, [attempt] + rest.attempts)
  }

  predicate WasInterrupted(attempts: seq<Attempt>) {
    |attempts| > 0 && attempts[|attempts| - 1].outcome.Interrupted?
  }

  // ---------------------------------------------------------------- the retry loop, declaratively

  /** The reply to the j-th send of a loop that starts at request t; sends and sleeps alternate. */
  function SendReply(replies: nat -> Reply, t: nat, j: nat): Reply {
    replies(t + 2 * j)
  }

  predicate DeclinedThenSlept(replies: nat -> Reply, t: nat, j: nat) {
    SendReply(replies, t, j).Declined? && !replies(t + 2 * j + 1).Aborted?
  }

  /** The first k sends were declined and no sleep after them was cancelled. */
  predicate DeclinedBefore(replies: nat -> Reply, t: nat, k: nat) {
    forall j: nat :: j < k ==> DeclinedThenSlept(replies, t, j)
  }

  function TotalSleep(requests: seq<Request>): nat {
    if requests == [] then 0
    else (if requests[0].Sleep? then requests[0].delays else 0) + TotalSleep(requests[1..])
  }

  function CountSends(requests: seq<Request>): nat {
    if requests == [] then 0 else (if requests[0].Notify? then 1 else 0) + CountSends(requests[1..])
  }

  lemma {:induction false} ShiftDeclined(replies: nat -> Reply, t: nat, k: nat)
    requires k >= 1
    requires DeclinedThenSlept(replies, t, 0)
    ensures DeclinedBefore(replies, t, k) <==> DeclinedBefore(replies, t + 2, k - 1)
  {
    var u := t + 2;
    if DeclinedBefore(replies, t, k) {
      forall j: nat | j < k - 1
        ensures DeclinedThenSlept(replies, u, j)
      {
        assert DeclinedThenSlept(replies, t, j + 1);
      }
    }
    if DeclinedBefore(replies, t + 2, k - 1) {
      forall j: nat | j < k
        ensures DeclinedThenSlept(replies, t, j)
      {
        if j > 0 {
          assert DeclinedThenSlept(replies, t + 2, j - 1);
        }
      }
    }
  }

  /** How the loop from attempt k on ends, given what the first reply is. */
  lemma {:induction false} NotifyRunUnfolds(replies: nat -> Reply, t: nat, request: Request, k: nat, config: Config)
    requires 1 <= k <= config.notifyAttempts
    ensures var p := NotifyRun(replies, t, request, k, config);
      if DeclinedThenSlept(replies, t, 0) && k < config.notifyAttempts then
        var rest := NotifyRun(replies, t + 2, request, k + 1, config);
        p.outcome == rest.outcome && p.sends == rest.sends + 1
      else
        && p.sends == 1
        && (p.outcome == Delivered <==> SendReply(replies, t, 0) == Accepted)
        && (p.outcome.Rejected? <==> SendReply(replies, t, 0).Declined? && k == config.notifyAttempts)
        && (p.outcome.Rejected? ==> SendReply(replies, t, 0) == Declined(p.outcome.error))
  {
  }

  /** The loop from attempt k on, described by the replies alone. */
  lemma {:induction false} NotifyRunOutcome(replies: nat -> Reply, t: nat, request: Request, k: nat, config: Config)
    requires 1 <= k <= config.notifyAttempts
    ensures var p, last := NotifyRun(replies, t, request, k, config), config.notifyAttempts - k;
      && 1 <= p.sends <= last + 1
      && (p.outcome == Delivered <==>
            DeclinedBefore(replies, t, p.sends - 1) && SendReply(replies, t, p.sends - 1) == Accepted)
      && (p.outcome.Rejected? <==> DeclinedBefore(replies, t, last) && SendReply(replies, t, last).Declined?)
      && (p.outcome.Rejected? ==> p.sends == last + 1 && SendReply(replies, t, last) == Declined(p.outcome.error))
    decreases config.notifyAttempts - k
  {
    hide NotifyRun;
    NotifyRunUnfolds(replies, t, request, k, config);
    var p, last := NotifyRun(replies, t, request, k, config), config.notifyAttempts - k;
    if k < config.notifyAttempts {
      if DeclinedThenSlept(replies, t, 0) {
        NotifyRunOutcome(replies, t + 2, request, k + 1, config);
        ShiftDeclined(replies, t, p.sends - 1);
        ShiftDeclined(replies, t, last);
        assert SendReply(replies, t, last) == SendReply(replies, t + 2, last - 1);
        assert SendReply(replies, t, p.sends - 1) == SendReply(replies, t + 2, p.sends - 2);
      } else {
        assert !DeclinedBefore(replies, t, last);
      }
    }
  }

  lemma {:induction false} SendThenSleep(request: Request, pause: Request, rest: seq<Request>)
    requires request.Notify? && pause.Sleep?
    ensures TotalSleep([request, pause] + rest) == pause.delays + TotalSleep(rest)
    ensures CountSends([request, pause] + rest) == 1 + CountSends(rest)
  {
    var whole := [request, pause] + rest;
    assert whole[1..] == [pause] + rest && whole[1..][1..] == rest;
  }

  lemma {:induction false} AcceptedFrom(
    replies: nat -> Reply, t: nat, request: Request, k: nat, config: Config, j: nat)
    requires 1 <= k && k + j <= config.notifyAttempts
    requires DeclinedBefore(replies, t, j) && SendReply(replies, t, j) == Accepted
    ensures NotifyRun(replies, t, request, k, config).outcome == Delivered
    decreases j
  {
    if j > 0 {
      assert DeclinedThenSlept(replies, t, 0);
      ShiftDeclined(replies, t, j);
      AcceptedFrom(replies, t + 2, request, k + 1, config, j - 1);
    }
  }

  /** Every send is requested, and the sleeps between s sends from attempt k on add up to k + ... + (k + s - 2). */
  lemma {:induction false} NotifyRunBackoff(replies: nat -> Reply, t: nat, request: Request, k: nat, config: Config)
    requires 1 <= k <= config.notifyAttempts
    requires request.Notify?
    ensures var p := NotifyRun(replies, t, request, k, config);
      && CountSends(p.requests) == p.sends >= 1
      && (!p.outcome.Interrupted? ==>
            2 * TotalSleep(p.requests) == (k + p.sends - 1) * (k + p.sends - 2) - k * (k - 1))
    decreases config.notifyAttempts - k
  {
    var p := NotifyRun(replies, t, request, k, config);
    assert p.requests[0] == request;
    if replies(t).Declined? && k < config.notifyAttempts {
      var pause := Sleep(k);
      assert p.requests[1] == pause;
      if !replies(t + 1).Aborted? {
        NotifyRunBackoff(replies, t + 2, request, k + 1, config);
        var rest := NotifyRun(replies, t + 2, request, k + 1, config);
        assert p.requests == [request, pause] + rest.requests;
        SendThenSleep(request, pause, rest.requests);
        assert (k + 1) * k == k * (k - 1) + 2 * k;
      } else {
        assert p.requests[1..] == [pause] && [pause][1..] == [];
        assert CountSends([pause]) == 0;
      }
    } else {
      assert p.requests[1..] == [];
    }
  }

  /**
   The retry loop of a notification against any replies: it stops at the first accepted send,
   raises the last error exactly when all attempts are declined, the assertion behind it
   never fails for a positive number of attempts, and the backoff of s sends is s(s - 1)/2 delays.
   */
  lemma {:induction false} NotificationRetryLoop(
    replies: nat -> Reply, t: nat, id: nat, event: OutboxEvent, config: Config)
    requires N.IsNotification(event.eventType) && HasRequestKeys(event.payload)
    ensures var p, n := PublishRun(replies, t, id, event, config), config.notifyAttempts;
      && (p.sends == 0 <==> n == 0)
      && (n == 0 ==> p.outcome == Rejected(""))
      && (n > 0 ==>
            && 1 <= p.sends <= n
            && CountSends(p.requests) == p.sends
            && (p.outcome == Delivered <==>
                  DeclinedBefore(replies, t, p.sends - 1) && SendReply(replies, t, p.sends - 1) == Accepted)
            && (p.outcome.Rejected? <==> DeclinedBefore(replies, t, n - 1) && SendReply(replies, t, n - 1).Declined?)
            && (p.outcome.Rejected? ==> p.sends == n && SendReply(replies, t, n - 1) == Declined(p.outcome.error))
            && (!p.outcome.Interrupted? ==> 2 * TotalSleep(p.requests) == p.sends * (p.sends - 1)))
  {
    if config.notifyAttempts > 0 {
      var request := NotifyRequest(event.payload);
      NotifyRunOutcome(replies, t, request, 1, config);
      NotifyRunBackoff(replies, t, request, 1, config);
    }
  }

  /** A send accepted after declined ones only is delivered, so the loop ends there. */
  lemma {:induction false} AcceptedIsDelivered(
    replies: nat -> Reply, t: nat, id: nat, event: OutboxEvent, config: Config, j: nat)
    requires N.IsNotification(event.eventType) && HasRequestKeys(event.payload) && j < config.notifyAttempts
    requires DeclinedBefore(replies, t, j) && SendReply(replies, t, j) == Accepted
    ensures PublishRun(replies, t, id, event, config).outcome == Delivered
  {
    AcceptedFrom(replies, t, NotifyRequest(event.payload), 1, config, j);
  }

  // ---------------------------------------------------------------- requests and outcomes by the replies

  /**
   A row of any other type makes one publish, to the configured topic, under the order id of its payload or
   else its own id. The reply alone decides how it ends.
   */
  lemma {:induction false} KafkaByReply(replies: nat -> Reply, t: nat, id: nat, event: OutboxEvent, config: Config)
    requires !("notification." <= event.eventType)
    ensures var p := PublishRun(replies, t, id, event, config);
      var key := Effects.OrElse(Effects.Given(event.payload, "order_id"), Text.NatText(id));
      && p.requests == [Publish(config.topic, key, event.payload)] && p.sends == 1
      && (p.outcome == Delivered <==> replies(t) == Accepted)
      && (forall e :: p.outcome == Rejected(e) <==> replies(t) == Declined(e))
      && (p.outcome == Interrupted <==> replies(t) == Aborted)
  {
    Effects.GivenIsTruthy(event.payload, "order_id");
  }

  predicate OnlySends(requests: seq<Request>, send: Request) {
    forall i :: 0 <= i < |requests| ==> requests[i] == send || requests[i].Sleep?
  }

  lemma {:induction false} NotifyRunRequests(replies: nat -> Reply, t: nat, request: Request, k: nat, config: Config)
    requires 1 <= k <= config.notifyAttempts
    ensures OnlySends(NotifyRun(replies, t, request, k, config).requests, request)
    decreases config.notifyAttempts - k
  {
    if replies(t).Declined? && k < config.notifyAttempts && !replies(t + 1).Aborted? {
      NotifyRunRequests(replies, t + 2, request, k + 1, config);
      var p, rest := NotifyRun(replies, t, request, k, config), NotifyRun(replies, t + 2, request, k + 1, config);
      assert p.requests == [request, Sleep(k)] + rest.requests;
      forall i | 0 <= i < |p.requests|
        ensures p.requests[i] == request || p.requests[i].Sleep?
      {
        if i >= 2 {
          assert p.requests[i] == rest.requests[i - 2];
        }
      }
    }
  }

  /** A notification asks for nothing but sends of the four texts of its payload, and sleeps. */
  lemma {:induction false} NotificationRequests(
    replies: nat -> Reply, t: nat, id: nat, event: OutboxEvent, config: Config)
    requires "notification." <= event.eventType
    requires "user_id" in event.payload && "message" in event.payload
    requires "reference_id" in event.payload && "idempotency_key" in event.payload
    ensures OnlySends(PublishRun(replies, t, id, event, config).requests, Notify(
      Effects.ValueText(event.payload["user_id"]), Effects.ValueText(event.payload["message"]),
      Effects.ValueText(event.payload["reference_id"]), Effects.ValueText(event.payload["idempotency_key"])))
  {
    if config.notifyAttempts > 0 {
      NotifyRunRequests(replies, t, NotifyRequest(event.payload), 1, config);
      Effects.ValueTextIs(event.payload["user_id"]);
      Effects.ValueTextIs(event.payload["message"]);
      Effects.ValueTextIs(event.payload["reference_id"]);
      Effects.ValueTextIs(event.payload["idempotency_key"]);
    }
  }

  /** With one of the texts missing nothing is sent, and the error is the quoted name of the first missing one. */
  lemma {:induction false} MissingTextRejected(
    replies: nat -> Reply, t: nat, id: nat, event: OutboxEvent, config: Config)
    requires "notification." <= event.eventType
    ensures var p, payload := PublishRun(replies, t, id, event, config), event.payload;
      && ("user_id" !in payload ==> p == Publication([], Rejected("'user_id'"), 0))
      && ("user_id" in payload && "message" !in payload ==> p == Publication([], Rejected("'message'"), 0))
      && ("user_id" in payload && "message" in payload && "reference_id" !in payload ==>
            p == Publication([], Rejected("'reference_id'"), 0))
      && ("user_id" in payload && "message" in payload && "reference_id" in payload
            && "idempotency_key" !in payload ==>
            p == Publication([], Rejected("'idempotency_key'"), 0))
  {
  }

  /** How many requests the first i rows of a batch make. */
  function RequestsBefore(
    replies: nat -> Reply, t: nat, outbox: seq<OutboxRow>, ids: seq<nat>, config: Config, i: nat): nat
    requires InRange(ids, |outbox|) && i <= |ids|
  {
    |BatchRun(replies, t, outbox, ids[..i], config).requests|
  }

  /** The i-th attempt of a batch is the publish of its i-th row, answered from the reply it has reached. */
  lemma {:induction false} BatchAttempt(
    replies: nat -> Reply, t: nat, outbox: seq<OutboxRow>, ids: seq<nat>, config: Config, i: nat)
    requires InRange(ids, |outbox|) && i < |ids|
    requires i < |BatchRun(replies, t, outbox, ids, config).attempts|
    ensures var b := BatchRun(replies, t, outbox, ids, config);
      var k := RequestsBefore(replies, t, outbox, ids, config, i);
      var p := PublishRun(replies, t + k, ids[i], outbox[ids[i]].event, config);
      && b.attempts[i] == Attempt(ids[i], p.outcome, p.sends)
      && k + |p.requests| <= |b.requests| && b.requests[k..k + |p.requests|] == p.requests
    decreases |ids|
  {
    hide PublishRun;
    var first := PublishRun(replies, t, ids[0], outbox[ids[0]].event, config);
    if i == 0 {
      assert ids[..0] == [];
    } else {
      var rest := BatchRun(replies, t + |first.requests|, outbox, ids[1..], config);
      BatchAttempt(replies, t + |first.requests|, outbox, ids[1..], config, i - 1);
      assert ids[..i][0] == ids[0] && ids[..i][1..] == ids[1..][..i - 1];
      var k := RequestsBefore(replies, t + |first.requests|, outbox, ids[1..], config, i - 1);
      assert RequestsBefore(replies, t, outbox, ids, config, i) == |first.requests| + k;
    }
  }

  // ---------------------------------------------------------------- loop steps

  lemma {:induction false} Regroup<T>(a: seq<T>, b: seq<T>, c: seq<T>)
    ensures a + (b + c) == a + b + c
  {
  }

  lemma {:induction false} RetryStep(replies: nat -> Reply, log: seq<Request>, request: Request, k: nat, config: Config)
    requires 1 <= k < config.notifyAttempts
    requires replies(|log|).Declined?
    ensures var p := NotifyRun(replies, |log|, request, k, config);
      if replies(|log| + 1).Aborted? then
        p.outcome == Interrupted && log + p.requests == log + [request] + [Sleep(k)]
      else
        var rest := NotifyRun(replies, |log| + 2, request, k + 1, config);
        p.outcome == rest.outcome && log + p.requests == log + [request] + [Sleep(k)] + rest.requests
  {
    assert [request] + [Sleep(k)] == [request, Sleep(k)];
    Regroup(log, [request], [Sleep(k)]);
    if !replies(|log| + 1).Aborted? {
      var rest := NotifyRun(replies, |log| + 2, request, k + 1, config);
      Regroup(log, [request, Sleep(k)], rest.requests);
    }
  }

  lemma {:induction false} BatchStep(
    replies: nat -> Reply, log: seq<Request>, outbox: seq<OutboxRow>, ids: seq<nat>, config: Config,
    attempts: seq<Attempt>)
    requires ids != [] && InRange(ids, |outbox|)
    ensures
      var b := BatchRun(replies, |log|, outbox, ids, config);
      var p := PublishRun(replies, |log|, ids[0], outbox[ids[0]].event, config);
      var done := attempts + [Attempt(ids[0], p.outcome, p.sends)];
      if p.outcome.Interrupted? then
        log + b.requests == log + p.requests && attempts + b.attempts == done
      else
        var rest := BatchRun(replies, |log| + |p.requests|, outbox, ids[1..], config);
        log + b.requests == log + p.requests + rest.requests && attempts + b.attempts == done + rest.attempts
  {
    hide PublishRun;
    var p := PublishRun(replies, |log|, ids[0], outbox[ids[0]].event, config);
    if !p.outcome.Interrupted? {
      var rest := BatchRun(replies, |log| + |p.requests|, outbox, ids[1..], config);
      Regroup(log, p.requests, rest.requests);
      Regroup(attempts, [Attempt(ids[0], p.outcome, p.sends)], rest.attempts);
    }
  }

  lemma {:induction false} BatchEnds(replies: nat -> Reply, t: nat, outbox: seq<OutboxRow>, config: Config)
    ensures BatchRun(replies, t, outbox, [], config) == Batch([], []) && !WasInterrupted([])
    ensures MarkAll(outbox, [], config.maxRetries) == outbox
  {
  }

  lemma {:induction false} MarkAllSnoc(outbox: seq<OutboxRow>, attempts: seq<Attempt>, last: Attempt, maxRetries: nat)
    requires last.row < |outbox|
    ensures MarkAll(outbox, attempts + [last], maxRetries)
         == MarkAll(outbox, attempts, maxRetries)[
              last.row := Mark(MarkAll(outbox, attempts, maxRetries)[last.row], last.outcome, maxRetries)]
  {
    assert (attempts + [last])[..|attempts|] == attempts;
  }

  // ---------------------------------------------------------------- other transactions meanwhile

  function LockSet(ids: seq<nat>): set<nat> {
    set id | id in ids
  }

  /** What other transactions may do to the outbox while a worker holds rows: add rows and change those not held. */
  predicate WorkerRely(before: seq<OutboxRow>, after: seq<OutboxRow>, held: set<nat>) {
    && |before| <= |after|
    && (forall r :: 0 <= r < |before| ==> after[r].event == before[r].event)
    && (forall r :: 0 <= r < |before| && r in held ==> after[r] == before[r])
  }

  lemma {:induction false} WorkerRelyTransitive(
    a: seq<OutboxRow>, b: seq<OutboxRow>, c: seq<OutboxRow>, held: set<nat>)
    requires WorkerRely(a, b, held) && WorkerRely(b, c, held)
    ensures WorkerRely(a, c, held)
  {
  }

  lemma {:induction false} NothingHappened(outbox: seq<OutboxRow>, held: set<nat>)
    ensures WorkerRely(outbox, outbox, held)
  {
  }

  /** One version more than the others left, and it differs from theirs by the marks of the attempts alone. */
  predicate CommitsMarks(
    before: seq<Store>, after: seq<Store>, ids: seq<nat>, attempts: seq<Attempt>, maxRetries: nat)
    requires |before| > 0
  {
    && |after| > |before|
    && var others := after[..|after| - 1];
      && before <= others
      && var seen := others[|others| - 1];
        && WorkerRely(before[|before| - 1].outbox, seen.outbox, LockSet(ids))
        && after[|after| - 1] == seen.(outbox := MarkAll(seen.outbox, attempts, maxRetries))
  }

  lemma {:induction false} RowsCons(ids: seq<nat>, first: Attempt, rest: seq<Attempt>)
    requires ids != [] && first.row == ids[0] && !first.outcome.Interrupted?
    requires Rows(rest) <= ids[1..]
    ensures Rows([first] + rest) <= ids
    ensures Rows(rest) == ids[1..] ==> Rows([first] + rest) == ids
    ensures WasInterrupted([first] + rest) == WasInterrupted(rest)
  {
    assert Rows([first] + rest) == [ids[0]] + Rows(rest);
    assert ids == [ids[0]] + ids[1..];
  }

  /** The attempts of a batch are about its rows, in order, and about all of them unless interrupted. */
  lemma {:induction false} BatchRunRows(
    replies: nat -> Reply, t: nat, outbox: seq<OutboxRow>, ids: seq<nat>, config: Config)
    requires InRange(ids, |outbox|)
    ensures var attempts := BatchRun(replies, t, outbox, ids, config).attempts;
      && Rows(attempts) <= ids
      && (!WasInterrupted(attempts) ==> Rows(attempts) == ids)
    decreases |ids|
  {
    hide PublishRun;
    if ids != [] {
      var p := PublishRun(replies, t, ids[0], outbox[ids[0]].event, config);
      var first := Attempt(ids[0], p.outcome, p.sends);
      if !p.outcome.Interrupted? {
        BatchRunRows(replies, t + |p.requests|, outbox, ids[1..], config);
        RowsCons(ids, first, BatchRun(replies, t + |p.requests|, outbox, ids[1..], config).attempts);
      } else {
        assert Rows([first]) == [ids[0]];
      }
    }
  }

  /** Marks staged on a snapshot, committed over a later outbox in which the marked rows are as they were. */
  lemma {:induction false} MarksMerge(base: Store, current: Store, attempts: seq<Attempt>, maxRetries: nat)
    requires Increasing(Rows(attempts)) && InRange(Rows(attempts), |base.outbox|)
    requires WorkerRely(base.outbox, current.outbox, LockSet(Rows(attempts)))
    ensures var staged := base.(outbox := MarkAll(base.outbox, attempts, maxRetries));
      Merge(base, staged, current) == current.(outbox := MarkAll(current.outbox, attempts, maxRetries))
  {
    var staged := MarkAll(base.outbox, attempts, maxRetries);
    var merged := OverwriteRows(base.outbox, staged, current.outbox);
    var marked := MarkAll(current.outbox, attempts, maxRetries);
    assert current.orders + Written(base.orders, base.orders) == current.orders;
    assert current.inbox + Written(base.inbox, base.inbox) == current.inbox;
    forall r: nat | r < |current.outbox|
      ensures merged[r] == marked[r]
    {
      MarkAllRow(current.outbox, attempts, maxRetries, r);
      if r < |base.outbox| {
        MarkAllRow(base.outbox, attempts, maxRetries, r);
        if r in Rows(attempts) {
          var k :| 0 <= k < |attempts| && Rows(attempts)[k] == r;
          assert attempts[k].row == r && r in LockSet(Rows(attempts));
        }
      }
    }
    assert merged == marked;
  }

  // ---------------------------------------------------------------- what a call makes of its rows

  /** The row after one try that failed with this error. */
  function Retried(row: OutboxRow, error: string, maxRetries: nat): OutboxRow {
    OutboxRow(
      row.event,
      if row.retryCount + 1 >= maxRetries then Failed else row.status,
      row.retryCount + 1,
      Some(if |error| <= 2000 then error else error[..2000]))
  }

  /** What an uninterrupted batch makes of one of its rows, in the store others have left meanwhile. */
  lemma {:induction false} RowSettled(
    replies: nat -> Reply, t: nat, outbox: seq<OutboxRow>, seen: seq<OutboxRow>, ids: seq<nat>, config: Config, i: nat)
    requires Increasing(ids) && InRange(ids, |outbox|) && i < |ids|
    requires WorkerRely(outbox, seen, LockSet(ids))
    requires !WasInterrupted(BatchRun(replies, t, outbox, ids, config).attempts)
    ensures
      var attempts := BatchRun(replies, t, outbox, ids, config).attempts;
      var row, after := outbox[ids[i]], MarkAll(seen, attempts, config.maxRetries)[ids[i]];
      var k := RequestsBefore(replies, t, outbox, ids, config, i);
      match PublishRun(replies, t + k, ids[i], row.event, config).outcome
      case Delivered => after == row.(status := Sent)
      case Rejected(error) => after == Retried(row, error, config.maxRetries)
      case Interrupted => after == row
  {
    hide BatchRun, PublishRun, MarkAll;
    var attempts := BatchRun(replies, t, outbox, ids, config).attempts;
    BatchRunRows(replies, t, outbox, ids, config);
    assert |attempts| == |Rows(attempts)| == |ids|;
    BatchAttempt(replies, t, outbox, ids, config, i);
    MarkAllRow(seen, attempts, config.maxRetries, ids[i]);
    assert attempts[i].row == ids[i];
    assert ids[i] in LockSet(ids);
  }

  /**
   Every row of the batch that goes to Kafka is SENT afterwards exactly if its one publish was accepted;
   a declined one counts a retry and keeps the error.
   */
  predicate KafkaRowsSettled(
    replies: nat -> Reply, t: nat, outbox: seq<OutboxRow>, ids: seq<nat>, config: Config, after: seq<OutboxRow>)
    requires InRange(ids, |outbox|)
  {
    |outbox| <= |after| && forall i :: 0 <= i < |ids| && !("notification." <= outbox[ids[i]].event.eventType) ==>
      match replies(t + RequestsBefore(replies, t, outbox, ids, config, i))
      case Accepted => after[ids[i]] == outbox[ids[i]].(status := Sent)
      case Declined(error) => after[ids[i]] == Retried(outbox[ids[i]], error, config.maxRetries)
      case Aborted => after[ids[i]] == outbox[ids[i]]
  }

  lemma {:induction false} KafkaSettles(
    replies: nat -> Reply, t: nat, outbox: seq<OutboxRow>, seen: seq<OutboxRow>, ids: seq<nat>, config: Config)
    requires Increasing(ids) && InRange(ids, |outbox|) && WorkerRely(outbox, seen, LockSet(ids))
    requires !WasInterrupted(BatchRun(replies, t, outbox, ids, config).attempts)
    ensures KafkaRowsSettled(replies, t, outbox, ids, config,
      MarkAll(seen, BatchRun(replies, t, outbox, ids, config).attempts, config.maxRetries))
  {
    hide BatchRun, PublishRun, MarkAll, RequestsBefore;
    forall i | 0 <= i < |ids| && !("notification." <= outbox[ids[i]].event.eventType)
      ensures
        var after := MarkAll(seen, BatchRun(replies, t, outbox, ids, config).attempts, config.maxRetries);
        match replies(t + RequestsBefore(replies, t, outbox, ids, config, i))
        case Accepted => after[ids[i]] == outbox[ids[i]].(status := Sent)
        case Declined(error) => after[ids[i]] == Retried(outbox[ids[i]], error, config.maxRetries)
        case Aborted => after[ids[i]] == outbox[ids[i]]
    {
      var k := RequestsBefore(replies, t, outbox, ids, config, i);
      RowSettled(replies, t, outbox, seen, ids, config, i);
      KafkaByReply(replies, t + k, ids[i], outbox[ids[i]].event, config);
    }
  }

  /**
   A notification of the batch with all its texts is SENT afterwards exactly if one of its allowed sends was
   accepted after declined ones only; otherwise it counts a retry and keeps the error of its last send.
   */
  lemma {:induction false} NotificationSettles(
    replies: nat -> Reply, t: nat, outbox: seq<OutboxRow>, seen: seq<OutboxRow>, ids: seq<nat>, config: Config, i: nat)
    requires Increasing(ids) && InRange(ids, |outbox|) && i < |ids| && outbox[ids[i]].status == Pending
    requires WorkerRely(outbox, seen, LockSet(ids)) && config.notifyAttempts >= 1
    requires !WasInterrupted(BatchRun(replies, t, outbox, ids, config).attempts)
    requires "notification." <= outbox[ids[i]].event.eventType && HasRequestKeys(outbox[ids[i]].event.payload)
    ensures
      var after := MarkAll(seen, BatchRun(replies, t, outbox, ids, config).attempts, config.maxRetries)[ids[i]];
      var u, n := t + RequestsBefore(replies, t, outbox, ids, config, i), config.notifyAttempts;
      && (after.status == Sent <==>
            exists j: nat :: j < n && DeclinedBefore(replies, u, j) && SendReply(replies, u, j) == Accepted)
      && (DeclinedBefore(replies, u, n - 1) && SendReply(replies, u, n - 1).Declined? ==>
            after == Retried(outbox[ids[i]], SendReply(replies, u, n - 1).error, config.maxRetries))
  {
    hide BatchRun, PublishRun, MarkAll, RequestsBefore, DeclinedBefore, HasRequestKeys, OnlySends;
    var u := t + RequestsBefore(replies, t, outbox, ids, config, i);
    RowSettled(replies, t, outbox, seen, ids, config, i);
    NotificationRetryLoop(replies, u, ids[i], outbox[ids[i]].event, config);
    var p := PublishRun(replies, u, ids[i], outbox[ids[i]].event, config);
    if j: nat :| j < config.notifyAttempts && DeclinedBefore(replies, u, j) && SendReply(replies, u, j) == Accepted {
      AcceptedIsDelivered(replies, u, ids[i], outbox[ids[i]].event, config, j);
    }
  }

  // ---------------------------------------------------------------- the worker

  class Gateway {
    const replies: nat -> Reply
    var requests: seq<Request>

    constructor (replies: nat -> Reply)
      ensures this.replies == replies && requests == []
    {
      this.replies := replies;
      requests := [];
    }

    method Ask(request: Request) returns (reply: Reply)
      modifies this
      ensures requests == old(requests) + [request]
      ensures reply == replies(|old(requests)|)
    {
      reply := replies(|requests|);
      requests := requests + [request];
    }
  }

  /**
   Other transactions may commit here, and other workers lock and release rows, while a worker awaits
   the gateway. The body does nothing; callers know only the contract, which `Interleaving.OthersKeepRely`
   proves of all runs of the machine.
   */
  method Others(db: Database, ghost held: set<nat>)
    requires db.Valid()
    modifies db
    ensures db.Valid() && old(db.versions) <= db.versions
    ensures WorkerRely(old(db.Current()).outbox, db.Current().outbox, held)
    ensures db.locked * held == old(db.locked) * held
  {
  }

  class ProcessOutboxEvents {
    const db: Database
    const gateway: Gateway
    const config: Config

    constructor (db: Database, gateway: Gateway, config: Config)
      ensures this.db == db && this.gateway == gateway && this.config == config
    {
      this.db, this.gateway, this.config := db, gateway, config;
    }

    /**
     One call, with other transactions committing while it awaits the gateway. None is the CancelledError
     that leaves the call. The attempts follow from the selection and the replies alone; what is committed
     is the latest store of the others with exactly these attempts marked.
     */
    method Call() returns (processed: Option<nat>)
      requires db.Valid()
      modifies db, gateway
      ensures
        var store := old(db.Current());
        var ids := Select(store.outbox, old(db.locked), config.batchSize);
        var batch := BatchRun(gateway.replies, |old(gateway.requests)|, store.outbox, ids, config);
        && gateway.requests == old(gateway.requests) + batch.requests
        && processed == (if WasInterrupted(batch.attempts) then None else Some(|ids|))
        && db.Valid() && old(db.versions) <= db.versions
        && (ids == [] ==> db.versions == old(db.versions) && db.locked == old(db.locked))
        && (WasInterrupted(batch.attempts) ==> WorkerRely(store.outbox, db.Current().outbox, LockSet(ids)))
        && (ids != [] && !WasInterrupted(batch.attempts) ==>
              && CommitsMarks(old(db.versions), db.versions, ids, batch.attempts, config.maxRetries)
              && KafkaRowsSettled(
                   gateway.replies, |old(gateway.requests)|, store.outbox, ids, config, db.Current().outbox))
        && db.locked !! LockSet(ids)
    {
      hide BatchRun, Mark, MarkAll, Merge, Select, WorkerRely, WasInterrupted, KafkaRowsSettled;
      var uow := new UnitOfWork(db);
      uow.Enter();
      var ids := uow.outbox.GetPendingForUpdate(db, config.batchSize);
      ghost var store := db.Current();
      SelectOldest(store.outbox, old(db.locked), config.batchSize);
      assert uow.session.held == LockSet(ids);
      if |ids| == 0 {
        BatchEnds(gateway.replies, |gateway.requests|, store.outbox, config);
        uow.Exit(false);
        assert gateway.requests == old(gateway.requests) + [];
        return Some(0);
      }
      var interrupted := ProcessBatch(uow.outbox, ids);
      if interrupted {
        uow.Exit(true);
        return None;
      }
      ghost var attempts := BatchRun(gateway.replies, |old(gateway.requests)|, store.outbox, ids, config).attempts;
      BatchRunRows(gateway.replies, |old(gateway.requests)|, store.outbox, ids, config);
      MarksMerge(store, db.Current(), attempts, config.maxRetries);
      KafkaSettles(
        gateway.replies, |old(gateway.requests)|, store.outbox, db.Current().outbox, ids, config);
      uow.Commit();
      uow.Exit(false);
      return Some(|ids|);
    }

    /** The loop over a batch; it stops at an interruption, which the caller answers by rolling back. */
    method ProcessBatch(outbox: OutboxRepository, ids: seq<nat>) returns (interrupted: bool)
      requires db.Valid() && InRange(ids, |outbox.session.rows.outbox|)
      modifies db, gateway, outbox.session`rows
      ensures
        var store := old(outbox.session.rows);
        var batch := BatchRun(gateway.replies, |old(gateway.requests)|, store.outbox, ids, config);
        && gateway.requests == old(gateway.requests) + batch.requests
        && interrupted == WasInterrupted(batch.attempts)
        && outbox.session.rows == store.(outbox := MarkAll(store.outbox, batch.attempts, config.maxRetries))
      ensures db.Valid() && old(db.versions) <= db.versions
      ensures WorkerRely(old(db.Current()).outbox, db.Current().outbox, LockSet(ids))
      ensures db.locked * LockSet(ids) == old(db.locked) * LockSet(ids)
    {
      hide PublishRun, BatchRun, Mark, MarkAll, WorkerRely;
      var sent := 0;
      ghost var before := db.Current();
      ghost var store := outbox.session.rows;
      ghost var batch := BatchRun(gateway.replies, |gateway.requests|, store.outbox, ids, config);
      ghost var log := gateway.requests + batch.requests;
      ghost var attempts: seq<Attempt>, rest := [], batch;
      var i := 0;
      assert ids[i..] == ids;
      BatchEnds(gateway.replies, |gateway.requests|, store.outbox, config);
      NothingHappened(before.outbox, LockSet(ids));
      while i < |ids|
        invariant 0 <= i <= |ids|
        invariant rest == BatchRun(gateway.replies, |gateway.requests|, store.outbox, ids[i..], config)
        invariant log == gateway.requests + rest.requests
        invariant batch.attempts == attempts + rest.attempts
        invariant !WasInterrupted(attempts)
        invariant outbox.session.rows == store.(outbox := MarkAll(store.outbox, attempts, config.maxRetries))
        invariant db.Valid() && old(db.versions) <= db.versions
        invariant WorkerRely(before.outbox, db.Current().outbox, LockSet(ids))
        invariant db.locked * LockSet(ids) == old(db.locked) * LockSet(ids)
      {
        var id := ids[i];
        assert ids[i..][0] == id && ids[i..][1..] == ids[i + 1..];
        MarkAllKeepsEvents(store.outbox, attempts, config.maxRetries, id);
        ghost var p := PublishRun(gateway.replies, |gateway.requests|, id, store.outbox[id].event, config);
        BatchStep(gateway.replies, gateway.requests, store.outbox, ids[i..], config, attempts);
        MarkAllSnoc(store.outbox, attempts, Attempt(id, p.outcome, p.sends), config.maxRetries);
        ghost var last := db.Current();
        Others(db, LockSet(ids));
        WorkerRelyTransitive(before.outbox, last.outbox, db.Current().outbox, LockSet(ids));
        var outcome := ProcessRow(outbox, id);
        attempts := attempts + [Attempt(id, p.outcome, p.sends)];
        if outcome.Interrupted? {
          return true;
        }
        if outcome.Delivered? {
          sent := sent + 1;
        }
        i := i + 1;
        rest := BatchRun(gateway.replies, |gateway.requests|, store.outbox, ids[i..], config);
      }
      BatchEnds(gateway.replies, |gateway.requests|, store.outbox, config);
      assert ids[i..] == [];
      assert attempts == batch.attempts;
      return false;
    }

    /** Publishing one row and marking it; an interruption leaves the marking undone. */
    method ProcessRow(outbox: OutboxRepository, id: nat) returns (outcome: Outcome)
      requires id < |outbox.session.rows.outbox|
      modifies gateway, outbox.session`rows
      ensures
        var rows := old(outbox.session.rows);
        var p := PublishRun(gateway.replies, |old(gateway.requests)|, id, rows.outbox[id].event, config);
        && outcome == p.outcome
        && gateway.requests == old(gateway.requests) + p.requests
        && outbox.session.rows ==
             rows.(outbox := rows.outbox[id := Mark(rows.outbox[id], p.outcome, config.maxRetries)])
    {
      var event := outbox.session.rows.outbox[id].event;
      if N.IsNotification(event.eventType) {
        outcome := PublishNotification(id, event);
      } else {
        outcome := PublishKafka(id, event);
      }
      match outcome {
        case Delivered =>
          var _ := outbox.MarkAsSent(id);
        case Rejected(error) =>
          var _ := outbox.MarkAsFailed(id, error, config.maxRetries);
        case Interrupted =>
      }
    }

    method PublishKafka(id: nat, event: OutboxEvent) returns (outcome: Outcome)
      requires !N.IsNotification(event.eventType)
      modifies gateway
      ensures var key := Effects.OrElse(Effects.Given(event.payload, "order_id"), Text.NatText(id));
        gateway.requests == old(gateway.requests) + [Publish(config.topic, key, event.payload)]
      ensures match gateway.replies(|old(gateway.requests)|)
        case Accepted => outcome == Delivered
        case Declined(error) => outcome == Rejected(error)
        case Aborted => outcome == Interrupted
      ensures var p := PublishRun(gateway.replies, |old(gateway.requests)|, id, event, config);
        outcome == p.outcome && gateway.requests == old(gateway.requests) + p.requests
    {
      Effects.GivenIsTruthy(event.payload, "order_id");
      var orderId := Get(event.payload, "order_id");
      var key := if orderId.Truthy() then orderId.AsText() else Text.NatText(id);
      var reply := gateway.Ask(Publish(config.topic, key, event.payload));
      match reply {
        case Accepted => return Delivered;
        case Declined(error) => return Rejected(error);
        case Aborted => return Interrupted;
      }
    }

    method PublishNotification(ghost id: nat, event: OutboxEvent) returns (outcome: Outcome)
      requires N.IsNotification(event.eventType)
      modifies gateway
      ensures var p := PublishRun(gateway.replies, |old(gateway.requests)|, id, event, config);
        outcome == p.outcome && gateway.requests == old(gateway.requests) + p.requests
    {
      if !HasRequestKeys(event.payload) {
        return Rejected(MissingKey(event.payload));
      }
      if config.notifyAttempts == 0 {
        return Rejected("");
      }
      var request := NotifyRequest(event.payload);
      outcome := SendWithRetries(request);
    }

    method SendWithRetries(request: Request) returns (outcome: Outcome)
      requires config.notifyAttempts >= 1
      modifies gateway
      ensures var p := NotifyRun(gateway.replies, |old(gateway.requests)|, request, 1, config);
        outcome == p.outcome && gateway.requests == old(gateway.requests) + p.requests
    {
      var lastError: Option<string> := None;
      ghost var whole := NotifyRun(gateway.replies, |gateway.requests|, request, 1, config);
      ghost var log := gateway.requests + whole.requests;
      var attempt := 1;
      while attempt <= config.notifyAttempts
        invariant 1 <= attempt <= config.notifyAttempts + 1
        invariant attempt <= config.notifyAttempts ==>
          var rest := NotifyRun(gateway.replies, |gateway.requests|, request, attempt, config);
          whole.outcome == rest.outcome && log == gateway.requests + rest.requests
        invariant attempt > config.notifyAttempts ==>
          lastError.Some? && whole.outcome == Rejected(lastError.value) && log == gateway.requests
      {
        if gateway.replies(|gateway.requests|).Declined? && attempt < config.notifyAttempts {
          RetryStep(gateway.replies, gateway.requests, request, attempt, config);
        }
        var reply := gateway.Ask(request);
        match reply {
          case Accepted => return Delivered;
          case Aborted => return Interrupted;
          case Declined(error) =>
            lastError := Some(error);
            if attempt < config.notifyAttempts {
              var woken := gateway.Ask(Sleep(attempt));
              if woken.Aborted? {
                return Interrupted;
              }
            }
        }
        attempt := attempt + 1;
      }
      return Rejected(lastError.value);
    }
  }
}
