/** Statuses, database rows and the mutable order entity. */
module Entities {
  import opened Wrappers
  import Text

  datatype OrderStatus = New | Paid | Shipped | Cancelled

  function StatusText(status: OrderStatus): string {
    match status
    case New => "NEW"
    case Paid => "PAID"
    case Shipped => "SHIPPED"
    case Cancelled => "CANCELLED"
  }

  datatype OutboxStatus = Pending | Sent | Failed

  const ORDER_PAID := "order.paid"
  const ORDER_SHIPPED := "order.shipped"
  const ORDER_CANCELLED := "order.cancelled"

  /** A JSON value of a payload. Nested objects, lists and fractions do not occur in what is modelled. */
  datatype Value = Null | Flag(b: bool) | Number(n: int) | Str(s: string) {
    predicate Truthy() {
      match this
      case Null => false
      case Flag(b) => b
      case Number(n) => n != 0
      case Str(s) => s != ""
    }

    /** What `str(value)` yields. */
    function AsText(): string {
      match this
      case Null => "None"
      case Flag(b) => if b then "True" else "False"
      case Number(n) => Text.IntText(n)
      case Str(s) => s
    }
  }

  type Payload = map<string, Value>

  function Get(payload: Payload, key: string): Value {
    if key in payload then payload[key] else Null
  }

  datatype OrderRow = OrderRow(
    id: string,
    userId: string,
    itemId: string,
    quantity: int,
    status: OrderStatus,
    idempotencyKey: string)

  /** An outbox event before it is stored; a stored event is identified by its position in the outbox. */
  datatype OutboxEvent = OutboxEvent(eventType: string, payload: Payload)

  datatype OutboxRow = OutboxRow(
    event: OutboxEvent,
    status: OutboxStatus,
    retryCount: nat,
    lastError: Option<string>)

  datatype InboxRow = InboxRow(eventType: string, payload: Payload)

  /** The order object a repository hands out: a copy of its row whose status the use cases assign. */
  class Order {
    const id: string
    const userId: string
    const itemId: string
    const quantity: int
    const idempotencyKey: string
    var status: OrderStatus

    constructor (row: OrderRow)
      ensures Row() == row
    {
      id := row.id;
      userId := row.userId;
      itemId := row.itemId;
      quantity := row.quantity;
      idempotencyKey := row.idempotencyKey;
      status := row.status;
    }

    function Row(): OrderRow
      reads this
    {
      OrderRow(id, userId, itemId, quantity, status, idempotencyKey)
    }

    method MarkPaid()
      modifies this
      ensures Row() == old(Row()).(status := Paid)
    {
      status := Paid;
    }

    method MarkCancelled()
      modifies this
      ensures Row() == old(Row()).(status := Cancelled)
    {
      status := Cancelled;
    }

    method MarkShipped()
      modifies this
      ensures Row() == old(Row()).(status := Shipped)
    {
      status := Shipped;
    }
  }
}
