/**
 What each transaction does to the committed store, as a function of the store it started from.
 A transaction yields the store it commits, or None when it is closed or rolled back without commit.
 */
module Transitions {
  import opened Wrappers
  import opened Entities
  import opened ShipmentEvents
  import N = OrderNotifications

  const PAYMENT_ERROR := "ошибка оплаты"

  datatype Store = Store(
    orders: map<string, OrderRow>,
    outbox: seq<OutboxRow>,
    inbox: map<string, InboxRow>)

  const EMPTY := Store(map[], [], map[])

  function Enqueue(store: Store, event: OutboxEvent): Store {
    store.(outbox := store.outbox + [OutboxRow(event, Pending, 0, None)])
  }

  function Save(store: Store, order: OrderRow): Store {
    store.(orders := store.orders[order.id := order])
  }

  /** Orders are stored under their own id, the primary key. */
  predicate Keyed(store: Store) {
    forall id :: id in store.orders ==> store.orders[id].id == id
  }

  predicate KeyTaken(orders: map<string, OrderRow>, key: string) {
    exists id :: id in orders && orders[id].idempotencyKey == key
  }

  /** `get_by_idempotency_key`; the key column is unique, so the order is the only one with that key. */
  ghost function FindByKey(orders: map<string, OrderRow>, key: string): Option<OrderRow> {
    if KeyTaken(orders, key) then
      var id :| id in orders && orders[id].idempotencyKey == key;
      Some(orders[id])
    else None
  }

  // ---------------------------------------------------------------- payment callback

  datatype PaymentCommand = PaymentCommand(orderId: string, status: string, errorMessage: Option<string>)

  datatype PaymentResult = NoSuchOrder | Answered(order: OrderRow)

  datatype Verdict = Succeeded | Refused | Unknown

  function LowerChar(c: char): char {
    if 'A' <= c <= 'Z' then (c as int + 32) as char else c
  }

  function Lower(s: string): string {
    seq(|s|, i requires 0 <= i < |s| => LowerChar(s[i]))
  }

  function VerdictOf(status: string): Verdict {
    if Lower(status) == "succeeded" then Succeeded
    else if Lower(status) == "failed" then Refused
    else Unknown
  }

  function CallbackReason(command: PaymentCommand): string {
    if command.errorMessage.Some? && command.errorMessage.value != "" then command.errorMessage.value
    else PAYMENT_ERROR
  }

  function PaymentCallback(store: Store, command: PaymentCommand): (Option<Store>, PaymentResult) {
    if command.orderId !in store.orders then (None, NoSuchOrder)
    else
      var order := store.orders[command.orderId];
      match VerdictOf(command.status)
      case Succeeded =>
        if order.status != New then (None, Answered(order))
        else
          var paid := order.(status := Paid);
          (Some(Enqueue(Enqueue(Save(store, paid), N.OrderPaidEvent(paid)), N.ForOrder(paid, Paid, None))),
           Answered(paid))
      case Refused =>
        if order.status != New then (None, Answered(order))
        else
          var cancelled := order.(status := Cancelled);
          (Some(Enqueue(Save(store, cancelled), N.ForOrder(cancelled, Cancelled, Some(CallbackReason(command))))),
           Answered(cancelled))
      case Unknown => (None, Answered(order))
  }

  // ---------------------------------------------------------------- shipment event

  datatype ShipmentResult = Applied | Duplicate | OrderNotFound

  /** The status a shipment event takes an order to, or None where it leaves the order alone. */
  function ShipmentTarget(status: OrderStatus, eventType: string): Option<OrderStatus> {
    if status == Shipped || status == Cancelled then None
    else if eventType == ORDER_SHIPPED then Some(Shipped)
    else if eventType == ORDER_CANCELLED then Some(Cancelled)
    else None
  }

  function ShipmentReason(status: OrderStatus, payload: Payload): Option<string> {
    var raw := Get(payload, "reason");
    if status == Cancelled && raw.Truthy() then Some(raw.AsText()) else None
  }

  /** The change of an event to an order that exists, without looking at the inbox. */
  function ApplyShipment(store: Store, command: ShipmentCommand): Store
    requires command.orderId in store.orders
  {
    var order := store.orders[command.orderId];
    match ShipmentTarget(order.status, command.eventType)
    case None => store
    case Some(status) =>
      var moved := order.(status := status);
      Enqueue(Save(store, moved), N.ForOrder(moved, status, ShipmentReason(status, command.payload)))
  }

  function Remember(store: Store, command: ShipmentCommand): Store {
    store.(inbox := store.inbox[command.eventId := InboxRow(command.eventType, command.payload)])
  }

  function ShipmentEvent(store: Store, command: ShipmentCommand): (Option<Store>, ShipmentResult) {
    if command.eventId in store.inbox then (None, Duplicate)
    else if command.orderId !in store.orders then (None, OrderNotFound)
    else (Some(ApplyShipment(Remember(store, command), command)), Applied)
  }

  // ---------------------------------------------------------------- order creation

  datatype CreateCommand = CreateCommand(userId: string, itemId: string, quantity: int, idempotencyKey: string)

  function NewOrder(id: string, command: CreateCommand): OrderRow {
    OrderRow(id, command.userId, command.itemId, command.quantity, New, command.idempotencyKey)
  }

  /** None is the IntegrityError of the primary key or of the unique idempotency key. */
  function InsertOrder(store: Store, order: OrderRow): Option<Store> {
    if order.id in store.orders || KeyTaken(store.orders, order.idempotencyKey) then None
    else Some(Enqueue(Save(store, order), N.ForOrder(order, New, None)))
  }

  /** Compensation after a refused payment request: only a still NEW order is cancelled. */
  function Compensate(store: Store, id: string): Option<Store> {
    if id in store.orders && store.orders[id].status == New then
      var cancelled := store.orders[id].(status := Cancelled);
      Some(Enqueue(Save(store, cancelled), N.ForOrder(cancelled, Cancelled, Some(PAYMENT_ERROR))))
    else None
  }
}
