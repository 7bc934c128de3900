/** Notification outbox events: type, idempotency key, payload and routing. */
module OrderNotifications {
  import opened Wrappers
  import opened Entities
  import Text

  const NOTIFICATION_PREFIX := "notification."
  const DEFAULT_CANCEL_REASON := "не указана"

  function Message(status: OrderStatus, reason: Option<string>): string {
    match status
    case New => "NEW: Ваш заказ создан и ожидает оплаты"
    case Paid => "PAID: Ваш заказ успешно оплачен и готов к отправке"
    case Shipped => "SHIPPED: Ваш заказ отправлен в доставку"
    case Cancelled =>
      "CANCELLED: Ваш заказ отменен. Причина: " +
      (if reason.Some? && reason.value != "" then reason.value else DEFAULT_CANCEL_REASON)
  }

  function IdempotencyKey(orderId: string, status: OrderStatus): string {
    Text.Join(orderId, StatusText(status))
  }

  function EventType(status: OrderStatus): string {
    NOTIFICATION_PREFIX + StatusText(status)
  }

  predicate IsNotification(eventType: string) {
    NOTIFICATION_PREFIX <= eventType
  }

  function ForOrder(order: OrderRow, status: OrderStatus, reason: Option<string>): OutboxEvent {
    OutboxEvent(
      EventType(status),
      map[
        "user_id" := Str(order.userId),
        "message" := Str(Message(status, reason)),
        "reference_id" := Str(order.id),
        "idempotency_key" := Str(IdempotencyKey(order.id, status))])
  }

  /** The only event that goes to Kafka. */
  function OrderPaidEvent(order: OrderRow): OutboxEvent {
    OutboxEvent(
      ORDER_PAID,
      map[
        "event_type" := Str(ORDER_PAID),
        "order_id" := Str(order.id),
        "item_id" := Str(order.itemId),
        "quantity" := Number(order.quantity),
        "idempotency_key" := Str(order.idempotencyKey)])
  }

  lemma {:induction false} StatusTextInjective(a: OrderStatus, b: OrderStatus)
    requires StatusText(a) == StatusText(b)
    ensures a == b
  {
    assert StatusText(a)[0] == StatusText(b)[0];
  }

  /** The idempotency key text determines both the order and the status, whatever the order id looks like. */
  lemma {:induction false} KeyDeterminesOrderAndStatus(o1: string, s1: OrderStatus, o2: string, s2: OrderStatus)
    ensures IdempotencyKey(o1, s1) == IdempotencyKey(o2, s2) <==> o1 == o2 && s1 == s2
  {
    if IdempotencyKey(o1, s1) == IdempotencyKey(o2, s2) {
      Text.JoinSplitsAtLastColon(o1, StatusText(s1), o2, StatusText(s2));
      StatusTextInjective(s1, s2);
    }
  }

  /** Event types are told apart by status, and routing sends exactly the built notifications one way. */
  lemma {:induction false} RoutingSeparates(a: OrderStatus, b: OrderStatus)
    ensures EventType(a) == EventType(b) <==> a == b
    ensures IsNotification(EventType(a))
    ensures !IsNotification(ORDER_PAID)
  {
    assert EventType(a)[|NOTIFICATION_PREFIX|..] == StatusText(a);
    assert EventType(b)[|NOTIFICATION_PREFIX|..] == StatusText(b);
    if EventType(a) == EventType(b) {
      StatusTextInjective(a, b);
    }
    assert ORDER_PAID[0] != NOTIFICATION_PREFIX[0];
  }
}
