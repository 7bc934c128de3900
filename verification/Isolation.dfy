/**
 What the atomicity of the callback, shipment and compensation transactions is needed for. They read
 the order without a row lock, so under READ COMMITTED another transaction can commit between the read and
 the write. Here the write is taken from the status read earlier.
 */
module Isolation {
  import opened Wrappers
  import opened Entities
  import opened Transitions
  import opened ShipmentEvents
  import opened Protocol
  import N = OrderNotifications

  /** The store with the status of one order as it was when the order was read. */
  function AsRead(store: Store, id: string, read: OrderStatus): Store
    requires id in store.orders
  {
    store.(orders := store.orders[id := store.orders[id].(status := read)])
  }

  /** A callback that decides on the status it read and writes to the store as it is by then. */
  function StaleCallback(store: Store, command: PaymentCommand, read: OrderStatus): Option<Store>
    requires command.orderId in store.orders
  {
    PaymentCallback(AsRead(store, command.orderId, read), command).0
  }

  /** A shipment event that decides on the status it read; without a change only the inbox row is written. */
  function StaleShipment(store: Store, command: ShipmentCommand, read: OrderStatus): (Option<Store>, ShipmentResult)
    requires command.orderId in store.orders
  {
    if command.eventId in store.inbox then (None, Duplicate)
    else if ShipmentTarget(read, command.eventType) == None then (Some(Remember(store, command)), Applied)
    else ShipmentEvent(AsRead(store, command.orderId, read), command)
  }

  /** A compensation that decides on the status it read. */
  function StaleCompensation(store: Store, id: string, read: OrderStatus): Option<Store>
    requires id in store.orders
  {
    Compensate(AsRead(store, id, read), id)
  }

  predicate Terminal(status: OrderStatus) {
    status == Shipped || status == Cancelled
  }

  /**
   A callback that read earlier commits what the atomic one would exactly if its verdict is unknown
   or NEW was read if and only if the order still is NEW.
   */
  lemma {:induction false} StaleCallbackExact(store: Store, command: PaymentCommand, read: OrderStatus)
    requires Keyed(store) && command.orderId in store.orders
    ensures StaleCallback(store, command, read) == PaymentCallback(store, command).0 <==>
      VerdictOf(command.status) == Unknown || (read == New <==> store.orders[command.orderId].status == New)
  {
    hide N.ForOrder, N.OrderPaidEvent, VerdictOf, CallbackReason;
    var order := store.orders[command.orderId];
    forall status: OrderStatus
      ensures order.(status := read).(status := status) == order.(status := status)
    {
    }
    if read == New && order.status == New {
      assert AsRead(store, command.orderId, read) == store;
    }
  }

  lemma {:induction false} ApplyGrows(store: Store, command: ShipmentCommand)
    requires command.orderId in store.orders
    ensures |ApplyShipment(store, command).outbox| == |store.outbox|
      + if ShipmentTarget(store.orders[command.orderId].status, command.eventType).Some? then 1 else 0
  {
    hide N.ForOrder, ShipmentReason;
  }

  /**
   A shipment event that read earlier commits what the atomic one would exactly if it is a duplicate
   or of unknown type, or the order was terminal when read if and only if it is terminal now.
   */
  lemma {:induction false} StaleShipmentExact(store: Store, command: ShipmentCommand, read: OrderStatus)
    requires Keyed(store) && command.orderId in store.orders
    ensures StaleShipment(store, command, read) == ShipmentEvent(store, command) <==>
      || command.eventId in store.inbox
      || !Recognised(command.eventType)
      || (Terminal(read) <==> Terminal(store.orders[command.orderId].status))
  {
    hide N.ForOrder, ShipmentReason;
    var id, order := command.orderId, store.orders[command.orderId];
    forall status: OrderStatus
      ensures store.orders[id := order.(status := read)][id := order.(status := status)]
           == store.orders[id := order.(status := status)]
    {
    }
    ApplyGrows(Remember(store, command), command);
    ApplyGrows(Remember(AsRead(store, id, read), command), command);
  }

  /** A compensation that read earlier commits what the atomic one would exactly if NEW was read iff it still is. */
  lemma {:induction false} StaleCompensationExact(store: Store, id: string, read: OrderStatus)
    requires Keyed(store) && id in store.orders
    ensures StaleCompensation(store, id, read) == Compensate(store, id) <==>
      (read == New <==> store.orders[id].status == New)
  {
    hide N.ForOrder;
    if read == New && store.orders[id].status == New {
      assert AsRead(store, id, read) == store;
    }
  }

  /** A compensation that read NEW cancels an order that a callback has announced as paid since. */
  lemma {:induction false} StaleCompensationCancelsPaid(store: Store, command: PaymentCommand)
    requires Keyed(store) && command.orderId in store.orders
    requires store.orders[command.orderId].status == New && VerdictOf(command.status) == Succeeded
    ensures PaymentCallback(store, command).0.Some?
    ensures var paid := PaymentCallback(store, command).0.value; var id := command.orderId;
      && id in paid.orders && paid.orders[id].status == Paid
      && Compensate(paid, id) == None
      && StaleCompensation(paid, id, New).Some?
      && StaleCompensation(paid, id, New).value.orders[id].status == Cancelled
      && Events(StaleCompensation(paid, id, New).value.outbox) == Events(store.outbox)
           + [N.OrderPaidEvent(paid.orders[id]), N.ForOrder(paid.orders[id], Paid, None),
              N.ForOrder(paid.orders[id].(status := Cancelled), Cancelled, Some(PAYMENT_ERROR))]
  {
    hide N.ForOrder, N.OrderPaidEvent;
  }

  /** Two successful callbacks that both read NEW announce the order as paid twice. */
  lemma {:induction false} ConcurrentCallbacksPayTwice(store: Store, command: PaymentCommand)
    requires Keyed(store) && command.orderId in store.orders
    requires store.orders[command.orderId].status == New && VerdictOf(command.status) == Succeeded
    ensures PaymentCallback(store, command).0.Some?
    ensures var first := PaymentCallback(store, command).0.value;
      && command.orderId in first.orders
      && StaleCallback(first, command, New).Some?
      && Events(StaleCallback(first, command, New).value.outbox) == Events(store.outbox)
           + [N.OrderPaidEvent(first.orders[command.orderId]), N.ForOrder(first.orders[command.orderId], Paid, None),
              N.OrderPaidEvent(first.orders[command.orderId]), N.ForOrder(first.orders[command.orderId], Paid, None)]
  {
    hide N.ForOrder, N.OrderPaidEvent;
  }
}
