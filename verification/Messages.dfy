/** What the rows say: every row can be published by its route, and receivers can drop repeated keys. */
module Messages {
  import opened Wrappers
  import opened Entities
  import opened Transitions
  import opened Outbox
  import opened OutboxWorker
  import opened Protocol
  import Creates
  import Delivery
  import H = History
  import N = OrderNotifications

  type Orders = map<string, OrderRow>

  predicate IsNotificationOf(event: OutboxEvent, order: OrderRow, status: OrderStatus, reason: Option<string>) {
    event == N.ForOrder(order, status, reason)
  }

  /** The event is one the service builds for a committed order, from fields that never change. */
  ghost predicate Described(orders: Orders, event: OutboxEvent) {
    var id := H.Subject(event);
    && id in orders
    && (event == N.OrderPaidEvent(orders[id])
        || exists status, reason :: IsNotificationOf(event, orders[id], status, reason))
  }

  lemma {:induction false} DescribedPersists(before: Orders, after: Orders, event: OutboxEvent)
    requires Described(before, event) && Creates.Persist(before, after)
    ensures Described(after, event)
  {
    var id := H.Subject(event);
    if event != N.OrderPaidEvent(before[id]) {
      var status, reason :| IsNotificationOf(event, before[id], status, reason);
      assert IsNotificationOf(event, after[id], status, reason);
    }
  }

  lemma {:induction false} EmittedDescribed(store: Store, change: Change, i: nat)
    requires Keyed(store) && LegalChange(store, change)
    requires i < |Emitted(store.orders, change)|
    ensures Described(NewOrders(store.orders, change), Emitted(store.orders, change)[i])
  {
    hide N.ForOrder, N.OrderPaidEvent, H.Subject;
    match change {
      case Created(order) =>
        H.BuiltEvents(order, New, None);
        assert IsNotificationOf(N.ForOrder(order, New, None), order, New, None);
      case Moved(id, status, reason) =>
        var order := store.orders[id].(status := status);
        H.BuiltEvents(order, status, reason);
        assert IsNotificationOf(N.ForOrder(order, status, reason), order, status, reason);
    }
  }

  lemma {:induction false} EmptyRun(config: Config)
    ensures Run(config, []).store.outbox == []
  {
  }

  lemma {:induction false} RowsDescribed(config: Config, actions: seq<Action>, i: nat)
    requires i < |Run(config, actions).store.outbox|
    ensures Described(Run(config, actions).store.orders, Run(config, actions).store.outbox[i].event)
  {
    hide Step, Described, ChangeOf, Emitted, LegalChange, NewOrders;
    assert actions != [] by {
      hide *;
      EmptyRun(config);
    }
    var before, a := actions[..|actions| - 1], actions[|actions| - 1];
    assert before + [a] == actions;
    var change := H.LastChange(config, before, a);
    var s, t := Run(config, before), Run(config, actions);
    assert t.store.outbox[i].event == Events(t.store.outbox)[i];
    if i < |s.store.outbox| {
      assert Events(s.store.outbox)[i] == s.store.outbox[i].event;
      RowsDescribed(config, before, i);
      Creates.ChangePersists(s.store, change);
      DescribedPersists(s.store.orders, t.store.orders, t.store.outbox[i].event);
    } else {
      EmittedDescribed(s.store, change, i - |s.store.outbox|);
    }
  }

  lemma {:induction false} NotificationPublishable(order: OrderRow, status: OrderStatus, reason: Option<string>)
    ensures var payload := N.ForOrder(order, status, reason).payload;
      && HasRequestKeys(payload)
      && NotifyRequest(payload)
           == Notify(order.userId, N.Message(status, reason), order.id, N.IdempotencyKey(order.id, status))
  {
    hide N.Message, N.IdempotencyKey;
  }

  lemma {:induction false} PaidPublishable(order: OrderRow, i: nat)
    ensures var payload := N.OrderPaidEvent(order).payload;
      && (order.id != "" ==> KafkaKey(i, payload) == order.id)
      && Get(payload, "item_id") == Str(order.itemId)
      && Get(payload, "quantity") == Number(order.quantity)
      && Get(payload, "idempotency_key") == Str(order.idempotencyKey)
  {
  }

  /**
   Every reachable row can be published by the route that will take it: a notification carries all
   four request fields of its order, any other row is `order.paid` and is keyed by its order's id.
   */
  lemma {:induction false} RowsPublishable(config: Config, actions: seq<Action>, i: nat)
    requires i < |Run(config, actions).store.outbox|
    ensures
      var orders, event := Run(config, actions).store.orders, Run(config, actions).store.outbox[i].event;
      var id := H.Subject(event);
      && id in orders && orders[id].id == id && id != ""
      && (N.IsNotification(event.eventType) ==>
            && HasRequestKeys(event.payload)
            && exists status, reason ::
                 event.eventType == N.EventType(status)
                 && NotifyRequest(event.payload)
                      == Notify(orders[id].userId, N.Message(status, reason), id, N.IdempotencyKey(id, status)))
      && (!N.IsNotification(event.eventType) ==>
            && event.eventType == ORDER_PAID
            && KafkaKey(i, event.payload) == id
            && Get(event.payload, "item_id") == Str(orders[id].itemId)
            && Get(event.payload, "quantity") == Number(orders[id].quantity)
            && Get(event.payload, "idempotency_key") == Str(orders[id].idempotencyKey))
  {
    hide Run;
    RowsDescribed(config, actions, i);
    Creates.RunSound(config, actions);
    var orders, event := Run(config, actions).store.orders, Run(config, actions).store.outbox[i].event;
    var id := H.Subject(event);
    hide N.ForOrder, N.OrderPaidEvent, N.IsNotification, N.EventType, H.Subject, HasRequestKeys, NotifyRequest,
      KafkaKey;
    H.BuiltEvents(orders[id], Paid, None);
    PaidPublishable(orders[id], i);
    if event != N.OrderPaidEvent(orders[id]) {
      var status, reason :| IsNotificationOf(event, orders[id], status, reason);
      H.BuiltEvents(orders[id], status, reason);
      NotificationPublishable(orders[id], status, reason);
    }
  }

  // ---------------------------------------------------------------- deduplication by key

  function Key(event: OutboxEvent): string {
    Get(event.payload, "idempotency_key").AsText()
  }

  lemma {:induction false} TypesAboutHas(events: seq<OutboxEvent>, i: nat)
    requires i < |events|
    ensures multiset(H.TypesAbout(events, H.Subject(events[i])))[events[i].eventType] >= 1
  {
    hide H.Subject;
    var init := events[..|events| - 1];
    if i < |init| {
      TypesAboutHas(init, i);
    }
  }

  lemma {:induction false} TypesAboutHasTwo(events: seq<OutboxEvent>, i: nat, j: nat)
    requires i < j < |events|
    requires H.Subject(events[i]) == H.Subject(events[j]) && events[i].eventType == events[j].eventType
    ensures multiset(H.TypesAbout(events, H.Subject(events[i])))[events[i].eventType] >= 2
  {
    hide H.Subject;
    var init := events[..|events| - 1];
    if j < |init| {
      TypesAboutHasTwo(init, i, j);
    } else {
      TypesAboutHas(init, i);
    }
  }

  /** A notification row, its order and status, and the key that names them. */
  lemma {:induction false} NotificationRow(config: Config, actions: seq<Action>, i: nat) returns (status: OrderStatus)
    requires i < |Run(config, actions).store.outbox|
    requires N.IsNotification(Run(config, actions).store.outbox[i].event.eventType)
    ensures var event := Run(config, actions).store.outbox[i].event;
      event.eventType == N.EventType(status) && Key(event) == N.IdempotencyKey(H.Subject(event), status)
  {
    hide Run;
    RowsPublishable(config, actions, i);
    var orders, event := Run(config, actions).store.orders, Run(config, actions).store.outbox[i].event;
    var id := H.Subject(event);
    var s, reason :|
      event.eventType == N.EventType(s)
      && NotifyRequest(event.payload)
           == Notify(orders[id].userId, N.Message(s, reason), id, N.IdempotencyKey(id, s));
    status := s;
  }

  /** No two notification rows of a reachable outbox share an idempotency key. */
  lemma {:induction false} KeysUnique(config: Config, actions: seq<Action>, i: nat, j: nat)
    requires var outbox := Run(config, actions).store.outbox;
      && i < |outbox| && j < |outbox|
      && N.IsNotification(outbox[i].event.eventType) && N.IsNotification(outbox[j].event.eventType)
      && Key(outbox[i].event) == Key(outbox[j].event)
    ensures i == j
  {
    hide Run, H.Subject, Key, N.EventType, N.IdempotencyKey;
    var outbox := Run(config, actions).store.outbox;
    var si := NotificationRow(config, actions, i);
    var sj := NotificationRow(config, actions, j);
    var id := H.Subject(outbox[i].event);
    N.KeyDeterminesOrderAndStatus(id, si, H.Subject(outbox[j].event), sj);
    H.OutboxMirrorsHistory(config, actions, id);
    if i != j {
      var events := Events(outbox);
      assert events[i] == outbox[i].event && events[j] == outbox[j].event;
      TypesAboutHasTwo(events, if i < j then i else j, if i < j then j else i);
    }
  }

  /** A receiver that keeps the first message of every key; messages are named by their outbox row. */
  function Receive(outbox: seq<OutboxRow>, arrivals: seq<nat>): seq<nat>
    requires InRange(arrivals, |outbox|)
  {
    if arrivals == [] then []
    else
      var last := arrivals[|arrivals| - 1];
      var kept := Receive(outbox, arrivals[..|arrivals| - 1]);
      if exists k :: 0 <= k < |kept| && kept[k] < |outbox| && Key(outbox[kept[k]].event) == Key(outbox[last].event)
      then kept else kept + [last]
  }

  predicate AllNotifications(outbox: seq<OutboxRow>, rows: seq<nat>) {
    forall i :: 0 <= i < |rows| ==> rows[i] < |outbox| && N.IsNotification(outbox[rows[i]].event.eventType)
  }

  /**
   Dropping repeated keys loses nothing: whatever notifications arrive, in any order and however
   often, the receiver keeps exactly one message of every row that arrived.
   */
  lemma {:induction false} DeduplicationLossless(config: Config, actions: seq<Action>, arrivals: seq<nat>)
    requires AllNotifications(Run(config, actions).store.outbox, arrivals)
    ensures var kept := Receive(Run(config, actions).store.outbox, arrivals);
      && (forall r :: r in kept <==> r in arrivals)
      && (forall i, j :: 0 <= i < j < |kept| ==> kept[i] != kept[j])
  {
    hide Run, Key;
    if arrivals != [] {
      var outbox := Run(config, actions).store.outbox;
      var init, last := arrivals[..|arrivals| - 1], arrivals[|arrivals| - 1];
      DeduplicationLossless(config, actions, init);
      var kept := Receive(outbox, init);
      assert arrivals == init + [last];
      forall k | 0 <= k < |kept|
        ensures kept[k] < |outbox| && N.IsNotification(outbox[kept[k]].event.eventType)
        ensures Key(outbox[kept[k]].event) == Key(outbox[last].event) ==> kept[k] == last
      {
        assert kept[k] in kept;
        assert kept[k] in init;
        var i :| 0 <= i < |init| && init[i] == kept[k];
        if Key(outbox[kept[k]].event) == Key(outbox[last].event) {
          KeysUnique(config, actions, kept[k], last);
        }
      }
    }
  }

  /** What the notification service accepted has arrived. */
  predicate AllArrive(s: State, arrivals: seq<nat>) {
    forall i :: 0 <= i < |s.published| && Accepted(s, s.published[i]) ==> s.published[i].row in arrivals
  }

  predicate Accepted(s: State, a: Attempt) {
    && a.outcome == Delivered
    && a.row < |s.store.outbox|
    && N.IsNotification(s.store.outbox[a.row].event.eventType)
  }

  lemma {:induction false} OnceInDistinct(s: seq<nat>, r: nat)
    requires forall i, j :: 0 <= i < j < |s| ==> s[i] != s[j]
    ensures multiset(s)[r] == if r in s then 1 else 0
  {
    if s != [] {
      var init := s[..|s| - 1];
      assert s == init + [s[|s| - 1]];
      OnceInDistinct(init, r);
    }
  }

  /**
   With at-least-once delivery and a deduplicating receiver every notification marked SENT is
   received exactly once, under any retries, interleavings and rolled back batches.
   */
  lemma {:induction false} SentReceivedOnce(config: Config, actions: seq<Action>, arrivals: seq<nat>, r: nat)
    requires config.maxRetries >= 1
    requires AllNotifications(Run(config, actions).store.outbox, arrivals)
    requires AllArrive(Run(config, actions), arrivals)
    requires r < |Run(config, actions).store.outbox| && Run(config, actions).store.outbox[r].status == Sent
    requires N.IsNotification(Run(config, actions).store.outbox[r].event.eventType)
    ensures multiset(Receive(Run(config, actions).store.outbox, arrivals))[r] == 1
  {
    hide Run, Key, Receive;
    Delivery.SentWasDelivered(config, actions, r);
    DeduplicationLossless(config, actions, arrivals);
    OnceInDistinct(Receive(Run(config, actions).store.outbox, arrivals), r);
  }
}
