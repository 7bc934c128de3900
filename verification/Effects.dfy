/**
 What the transactions do, in the texts that an outside observer sends and sees: statuses, event types,
 messages, keys and event ids are written out here and not taken from the functions that build them.
 */
module Effects {
  import opened Wrappers
  import opened Entities
  import opened Transitions
  import opened ShipmentEvents
  import N = OrderNotifications
  import Text

  // ---------------------------------------------------------------- texts of values

  function ValueText(value: Value): string {
    match value
    case Null => "None"
    case Flag(b) => if b then "True" else "False"
    case Number(n) => if n < 0 then "-" + Text.NatText(-n) else Text.NatText(n)
    case Str(s) => s
  }

  /** The text of an entry that counts as given: not missing, null, false, zero or empty. */
  function Given(payload: Payload, key: string): Option<string> {
    if key !in payload || payload[key] in {Null, Flag(false), Number(0), Str("")} then None
    else Some(ValueText(payload[key]))
  }

  function TextAt(payload: Payload, key: string, default: string): string {
    if key in payload then ValueText(payload[key]) else default
  }

  function OrElse(given: Option<string>, default: string): string {
    match given
    case None => default
    case Some(text) => text
  }

  lemma {:induction false} ValueTextIs(value: Value)
    ensures value.AsText() == ValueText(value)
  {
  }

  lemma {:induction false} GivenIsTruthy(payload: Payload, key: string)
    ensures Given(payload, key) ==
      if Get(payload, key).Truthy() then Some(Get(payload, key).AsText()) else None
  {
  }

  lemma {:induction false} TextAtIs(payload: Payload, key: string, default: string)
    ensures TextOr(payload, key, default) == TextAt(payload, key, default)
  {
  }

  /** A status text is recognised in any mixture of upper and lower case, and no other text is. */
  lemma {:induction false} LowerMatches(s: string, t: string)
    requires forall i :: 0 <= i < |t| ==> !('A' <= t[i] <= 'Z')
    ensures Lower(s) == t <==> Text.SameButForCase(s, t)
  {
    if Lower(s) == t {
      forall i | 0 <= i < |s|
        ensures s[i] == t[i] || Text.CasePair(s[i], t[i]) || Text.CasePair(t[i], s[i])
      {
        assert LowerChar(s[i]) == Lower(s)[i];
      }
    }
    if Text.SameButForCase(s, t) {
      forall i | 0 <= i < |s|
        ensures Lower(s)[i] == t[i]
      {
      }
    }
  }

  lemma {:induction false} VerdictByText(status: string)
    ensures VerdictOf(status) == Succeeded <==> Text.SameButForCase(status, "succeeded")
    ensures VerdictOf(status) == Verdict.Refused <==> Text.SameButForCase(status, "failed")
  {
    LowerMatches(status, "succeeded");
    LowerMatches(status, "failed");
    assert "succeeded"[0] != "failed"[0];
  }

  // ---------------------------------------------------------------- rows

  function PendingRow(eventType: string, payload: Payload): OutboxRow {
    OutboxRow(OutboxEvent(eventType, payload), Pending, 0, None)
  }

  function NotificationRow(order: OrderRow, status: string, message: string): OutboxRow {
    PendingRow(
      "notification." + status,
      map[
        "user_id" := Str(order.userId),
        "message" := Str(message),
        "reference_id" := Str(order.id),
        "idempotency_key" := Str(order.id + ":" + status)])
  }

  const NEW_TEXT := "NEW: Ваш заказ создан и ожидает оплаты"

  const PAID_TEXT := "PAID: Ваш заказ успешно оплачен и готов к отправке"

  const SHIPPED_TEXT := "SHIPPED: Ваш заказ отправлен в доставку"

  function CancelledText(reason: string): string {
    "CANCELLED: Ваш заказ отменен. Причина: " + reason
  }

  function OrderPaidRow(order: OrderRow): OutboxRow {
    PendingRow(
      "order.paid",
      map[
        "event_type" := Str("order.paid"),
        "order_id" := Str(order.id),
        "item_id" := Str(order.itemId),
        "quantity" := Number(order.quantity),
        "idempotency_key" := Str(order.idempotencyKey)])
  }

  lemma {:induction false} NotificationIs(order: OrderRow, status: OrderStatus, reason: Option<string>)
    ensures OutboxRow(N.ForOrder(order, status, reason), Pending, 0, None) ==
      match status
      case New => NotificationRow(order, "NEW", NEW_TEXT)
      case Paid => NotificationRow(order, "PAID", PAID_TEXT)
      case Shipped => NotificationRow(order, "SHIPPED", SHIPPED_TEXT)
      case Cancelled => NotificationRow(order, "CANCELLED", CancelledText(
        if reason.Some? && reason.value != "" then reason.value else "не указана"))
  {
  }

  lemma {:induction false} PaidRowIs(order: OrderRow)
    ensures OutboxRow(N.OrderPaidEvent(order), Pending, 0, None) == OrderPaidRow(order)
  {
  }

  lemma {:induction false} TwoAppended(outbox: seq<OutboxRow>, first: OutboxRow, second: OutboxRow)
    ensures outbox + [first] + [second] == outbox + [first, second]
  {
  }

  // ---------------------------------------------------------------- transactions

  /** The store with one order at another status and some rows added. */
  function Moved(store: Store, order: OrderRow, rows: seq<OutboxRow>): Store {
    store.(orders := store.orders[order.id := order], outbox := store.outbox + rows)
  }

  /**
   A callback: only a NEW order is touched. "succeeded", in any mixture of cases, pays and announces it twice;
   "failed" cancels it with the given error message, or a standard one; any other text changes nothing.
   */
  lemma {:induction false} CallbackEffect(store: Store, command: PaymentCommand)
    requires Keyed(store)
    ensures
      var (commit, answer) := PaymentCallback(store, command);
      if command.orderId !in store.orders then commit == None && answer == NoSuchOrder
      else
        var order := store.orders[command.orderId];
        if order.status == New && Text.SameButForCase(command.status, "succeeded") then
          var paid := order.(status := Paid);
          && answer == Answered(paid)
          && commit == Some(Moved(store, paid, [OrderPaidRow(paid), NotificationRow(paid, "PAID", PAID_TEXT)]))
        else if order.status == New && Text.SameButForCase(command.status, "failed") then
          var cancelled := order.(status := Cancelled);
          var given := command.errorMessage;
          var reason := if given.None? || given.value == "" then "ошибка оплаты" else given.value;
          && answer == Answered(cancelled)
          && commit == Some(Moved(store, cancelled, [NotificationRow(cancelled, "CANCELLED", CancelledText(reason))]))
        else commit == None && answer == Answered(order)
  {
    VerdictByText(command.status);
    if command.orderId in store.orders {
      var order := store.orders[command.orderId];
      var paid := order.(status := Paid);
      PaidRowIs(paid);
      TwoAppended(store.outbox, OrderPaidRow(paid), NotificationRow(paid, "PAID", PAID_TEXT));
      NotificationIs(paid, Paid, None);
      NotificationIs(order.(status := Cancelled), Cancelled, Some(CallbackReason(command)));
    }
    hide N.ForOrder, N.OrderPaidEvent, VerdictOf, NotificationRow, OrderPaidRow, Text.SameButForCase;
    if command.orderId in store.orders && store.orders[command.orderId].status == New
       && VerdictOf(command.status) == Succeeded {
      var paid := store.orders[command.orderId].(status := Paid);
      var (commit, answer) := PaymentCallback(store, command);
      assert answer == Answered(paid);
      assert commit.value.orders == store.orders[paid.id := paid];
      assert commit.value.outbox == store.outbox + [OrderPaidRow(paid)] + [NotificationRow(paid, "PAID", PAID_TEXT)];
      assert commit.value == Moved(store, paid, [OrderPaidRow(paid), NotificationRow(paid, "PAID", PAID_TEXT)]);
    }
  }

  lemma {:induction false} GivenNotEmpty(payload: Payload, key: string)
    ensures Given(payload, key) != Some("")
  {
  }

  /**
   A shipment event: a known id or a missing order changes nothing. Otherwise the id is remembered, and an order
   that is NEW or PAID is shipped by the type "order.shipped" and cancelled by "order.cancelled", with the reason of
   the message if there is one; every other type and every other status leaves orders and outbox alone.
   */
  lemma {:induction false} ShipmentEffect(store: Store, command: ShipmentCommand)
    requires Keyed(store)
    ensures
      var (commit, answer) := ShipmentEvent(store, command);
      if command.eventId in store.inbox then commit == None && answer == Duplicate
      else if command.orderId !in store.orders then commit == None && answer == OrderNotFound
      else
        var order := store.orders[command.orderId];
        var remembered := store.(
          inbox := store.inbox[command.eventId := InboxRow(command.eventType, command.payload)]);
        && answer == Applied
        && commit == Some(
             if order.status in {New, Paid} && command.eventType == "order.shipped" then
               var shipped := order.(status := Shipped);
               Moved(remembered, shipped, [NotificationRow(shipped, "SHIPPED", SHIPPED_TEXT)])
             else if order.status in {New, Paid} && command.eventType == "order.cancelled" then
               var cancelled := order.(status := Cancelled);
               Moved(remembered, cancelled, [NotificationRow(cancelled, "CANCELLED",
                 CancelledText(OrElse(Given(command.payload, "reason"), "не указана")))])
             else remembered)
  {
    GivenIsTruthy(command.payload, "reason");
    if command.orderId in store.orders {
      var order := store.orders[command.orderId];
      NotificationIs(order.(status := Shipped), Shipped, None);
      NotificationIs(order.(status := Cancelled), Cancelled, ShipmentReason(Cancelled, command.payload));
      GivenNotEmpty(command.payload, "reason");
    }
    hide N.ForOrder, NotificationRow, Given;
  }

  /** The insert of a create call: refused exactly if the id or the key is taken; else one NEW order of the command. */
  lemma {:induction false} InsertEffect(store: Store, command: CreateCommand, id: string)
    ensures
      var order := OrderRow(
        id, command.userId, command.itemId, command.quantity, New, command.idempotencyKey);
      InsertOrder(store, NewOrder(id, command)) ==
        if id in store.orders
          || (exists other :: other in store.orders && store.orders[other].idempotencyKey == command.idempotencyKey)
        then None
        else Some(Moved(store, order, [NotificationRow(order, "NEW", NEW_TEXT)]))
  {
    NotificationIs(NewOrder(id, command), New, None);
    hide N.ForOrder, NotificationRow;
  }

  /** The compensation: only a NEW order is cancelled, with the standard reason. */
  lemma {:induction false} CompensationEffect(store: Store, id: string)
    requires Keyed(store)
    ensures Compensate(store, id) ==
      if id !in store.orders || store.orders[id].status != New then None
      else
        var cancelled := store.orders[id].(status := Cancelled);
        Some(Moved(store, cancelled, [NotificationRow(cancelled, "CANCELLED", CancelledText("ошибка оплаты"))]))
  {
    if id in store.orders {
      NotificationIs(store.orders[id].(status := Cancelled), Cancelled, Some(PAYMENT_ERROR));
    }
    hide N.ForOrder, NotificationRow;
  }

  // ---------------------------------------------------------------- shipment messages

  /** The event id: the one given in the message, or else type, order text and a suffix that depends on the type. */
  lemma {:induction false} EventIdText(payload: Payload, digest: string -> string)
    ensures BuildEventId(payload, digest) ==
      match Given(payload, "event_id")
      case Some(id) => id
      case None =>
        var eventType := TextAt(payload, "event_type", "unknown");
        eventType + ":" + TextAt(payload, "order_id", "unknown") + ":"
          + (if eventType == "order.shipped" then OrElse(Given(payload, "shipment_id"), "no-shipment")
             else if eventType == "order.cancelled" then digest(TextAt(payload, "reason", ""))
             else "unknown")
  {
    GivenIsTruthy(payload, "event_id");
    GivenIsTruthy(payload, "shipment_id");
    TextAtIs(payload, "event_type", "unknown");
    TextAtIs(payload, "order_id", "unknown");
    TextAtIs(payload, "reason", "");
    hide Given, TextAt, TextOr;
    if Given(payload, "event_id").None? {
      Text.JoinFlat(TextAt(payload, "event_type", "unknown"), TextAt(payload, "order_id", "unknown"),
        EventIdSuffix(payload, digest));
    }
  }

  /** Reading a message: refused without an order id or with one that is no UUID; else id, type, order and message. */
  lemma {:induction false} ParseEffect(payload: Payload, digest: string -> string, uuid: string -> Option<string>)
    ensures Parse(payload, digest, uuid) ==
      match Given(payload, "order_id")
      case None => Failure(MissingOrderId)
      case Some(text) =>
        match uuid(text)
        case None => Failure(MalformedUuid)
        case Some(orderId) =>
          Success(ShipmentCommand(
            BuildEventId(payload, digest), TextAt(payload, "event_type", ""), orderId, payload))
  {
    GivenIsTruthy(payload, "order_id");
    TextAtIs(payload, "event_type", "");
    hide Given, TextAt, TextOr, BuildEventId;
  }

  /** The given id is taken as it is, so messages that give different texts get different ids. */
  lemma {:induction false} GivenIdsTellApart(
    p: Payload, q: Payload, digest: string -> string, uuid: string -> Option<string>)
    requires Given(p, "event_id").Some? && Given(q, "event_id").Some?
    requires Parse(p, digest, uuid).Success? && Parse(q, digest, uuid).Success?
    ensures Parse(p, digest, uuid).value.eventId == Parse(q, digest, uuid).value.eventId <==>
      Given(p, "event_id") == Given(q, "event_id")
  {
    ParseEffect(p, digest, uuid);
    ParseEffect(q, digest, uuid);
    EventIdText(p, digest);
    EventIdText(q, digest);
    hide *;
  }
}
