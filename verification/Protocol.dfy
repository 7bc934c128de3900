/**
 The whole service as one state machine. A step is one transaction, one call to an outside service,
 or a crash or cancellation between them; any number of create calls and outbox workers are in
 flight. A disabled action changes nothing, so every sequence of actions is a run.
 */
module Protocol {
  import opened Wrappers
  import opened Entities
  import opened Transitions
  import opened ShipmentEvents
  import opened Outbox
  import opened OutboxWorker
  import opened Amounts
  import N = OrderNotifications
  import Text

  datatype CatalogReply = Item(price: Decimal, availableQty: int) | CatalogFailed

  /** PaymentsDown is PaymentsServiceError; any other exception of the client is not caught. */
  datatype PaymentReply = PaymentCreated | PaymentsDown | PaymentsCrashed

  datatype CreateError =
    | CatalogError | InsufficientStock | IntegrityError | InvalidAmount | PaymentsError | Unexpected | Abandoned

  /** Where a create call is parked; the last two are the ends. */
  datatype Phase =
    | AtFirstLookup
    | AtCatalog
    | AtSecondLookup(order: OrderRow, price: Decimal)
    | AtInsert(order: OrderRow, price: Decimal)
    | AtPayment(order: OrderRow, price: Decimal)
    | AtCompensation(order: OrderRow)
    | Returned(order: OrderRow)
    | Raised(error: CreateError)

  datatype CreateCall = CreateCall(command: CreateCommand, phase: Phase)

  datatype PaymentRequest = PaymentRequest(orderId: string, cents: int, idempotencyKey: string)

  /** An open transaction: the locked rows and the attempts staged for them. */
  datatype Worker = Worker(batch: seq<nat>, done: seq<Attempt>)

  datatype State = State(
    store: Store,
    calls: map<nat, CreateCall>,
    payments: seq<PaymentRequest>,
    workers: map<nat, Worker>,
    published: seq<Attempt>,
    rolledBack: seq<Attempt>)

  const INIT := State(EMPTY, map[], [], map[], [], [])

  datatype Action =
    | Begin(call: nat, create: CreateCommand)
    | FirstLookup(call: nat)
    | AskCatalog(call: nat, itemId: string, item: CatalogReply, id: string)
    | SecondLookup(call: nat)
    | Insert(call: nat)
    | RequestPayment(call: nat, reply: PaymentReply)
    | CancelUnpaid(call: nat)
    | Abandon(call: nat)
    | Callback(payment: PaymentCommand)
    | Shipment(shipment: ShipmentCommand)
    | SelectBatch(worker: nat)
    | PublishNext(worker: nat, outcome: Outcome, sends: nat)
    | CommitBatch(worker: nat)
    | AbortBatch(worker: nat, interrupted: Option<nat>)

  /** The canonical text of a UUID has 36 characters, none of them a colon. */
  predicate UuidText(id: string) {
    |id| == 36 && Text.ColonFree(id)
  }

  ghost function Lookup(orders: map<string, OrderRow>, command: CreateCommand, next: Phase): Phase {
    match FindByKey(orders, command.idempotencyKey)
    case Some(order) => Returned(order)
    case None => next
  }

  function Quote(command: CreateCommand, item: CatalogReply, id: string): Phase {
    match item
    case CatalogFailed => Raised(CatalogError)
    case Item(price, availableQty) =>
      if availableQty < command.quantity then Raised(InsufficientStock)
      else AtSecondLookup(NewOrder(id, command), price)
  }

  function AfterPayment(order: OrderRow, reply: PaymentReply): Phase {
    match reply
    case PaymentCreated => Returned(order)
    case PaymentsDown => AtCompensation(order)
    case PaymentsCrashed => Raised(Unexpected)
  }

  function Park(s: State, call: nat, phase: Phase): State
    requires call in s.calls
  {
    s.(calls := s.calls[call := s.calls[call].(phase := phase)])
  }

  ghost function CreateStep(s: State, a: Action): State
    requires a.FirstLookup? || a.AskCatalog? || a.SecondLookup? || a.Insert?
      || a.RequestPayment? || a.CancelUnpaid? || a.Abandon?
  {
    if a.call !in s.calls then s
    else
      var call := s.calls[a.call];
      match (a, call.phase)
      case (FirstLookup(c), AtFirstLookup) => Park(s, c, Lookup(s.store.orders, call.command, AtCatalog))
      case (AskCatalog(c, itemId, item, id), AtCatalog) =>
        if itemId == call.command.itemId && UuidText(id) then Park(s, c, Quote(call.command, item, id)) else s
      case (SecondLookup(c), AtSecondLookup(order, price)) =>
        Park(s, c, Lookup(s.store.orders, call.command, AtInsert(order, price)))
      case (Insert(c), AtInsert(order, price)) =>
        (match InsertOrder(s.store, order)
         case None => Park(s, c, Raised(IntegrityError))
         case Some(store) => Park(s, c, AtPayment(order, price)).(store := store))
      case (RequestPayment(c, reply), AtPayment(order, price)) =>
        (match Amount(price, order.quantity)
         case None => Park(s, c, Raised(InvalidAmount))
         case Some(cents) =>
           Park(s, c, AfterPayment(order, reply)).(
             payments := s.payments + [PaymentRequest(order.id, cents, call.command.idempotencyKey)]))
      case (CancelUnpaid(c), AtCompensation(order)) =>
        (match Compensate(s.store, order.id)
         case None => Park(s, c, Raised(PaymentsError))
         case Some(store) => Park(s, c, Raised(PaymentsError)).(store := store))
      case (Abandon(c), _) => if call.phase.Returned? || call.phase.Raised? then s else Park(s, c, Raised(Abandoned))
      case _ => s
  }

  function Locked(workers: map<nat, Worker>): set<nat> {
    set w, r | w in workers && r in workers[w].batch :: r
  }

  /** The outcomes and numbers of sends that publishing an event can have. */
  predicate Possible(event: OutboxEvent, outcome: Outcome, sends: nat, config: Config) {
    if !N.IsNotification(event.eventType) then sends == 1
    else if !HasRequestKeys(event.payload) || config.notifyAttempts == 0 then outcome.Rejected? && sends == 0
    else 1 <= sends <= config.notifyAttempts && (outcome.Rejected? ==> sends == config.notifyAttempts)
  }

  function WorkerStep(config: Config, s: State, a: Action): State
    requires a.SelectBatch? || a.PublishNext? || a.CommitBatch? || a.AbortBatch?
  {
    if a.SelectBatch? then
      var batch := Select(s.store.outbox, Locked(s.workers), config.batchSize);
      if a.worker in s.workers || batch == [] then s
      else s.(workers := s.workers[a.worker := Worker(batch, [])])
    else if a.worker !in s.workers then s
    else
      var w := s.workers[a.worker];
      match a
      case PublishNext(id, outcome, sends) =>
        if |w.done| < |w.batch| && w.batch[|w.done|] < |s.store.outbox| && !outcome.Interrupted?
           && Possible(s.store.outbox[w.batch[|w.done|]].event, outcome, sends, config)
        then
          var attempt := Attempt(w.batch[|w.done|], outcome, sends);
          s.(workers := s.workers[id := w.(done := w.done + [attempt])], published := s.published + [attempt])
        else s
      case CommitBatch(id) =>
        if |w.done| == |w.batch| then
          s.(workers := s.workers - {id},
             store := s.store.(outbox := MarkAll(s.store.outbox, w.done, config.maxRetries)))
        else s
      case AbortBatch(id, interrupted) =>
        var last :=
          if interrupted.Some? && |w.done| < |w.batch| && w.batch[|w.done|] < |s.store.outbox|
             && Possible(s.store.outbox[w.batch[|w.done|]].event, Interrupted, interrupted.value, config)
          then [Attempt(w.batch[|w.done|], Interrupted, interrupted.value)]
          else [];
        s.(workers := s.workers - {id},
           published := s.published + last,
           rolledBack := s.rolledBack + w.done + last)
      case _ => s
  }

  function Install(s: State, commit: Option<Store>): State {
    match commit
    case None => s
    case Some(store) => s.(store := store)
  }

  ghost function Step(config: Config, s: State, a: Action): State {
    match a
    case Begin(c, command) =>
      if c in s.calls then s else s.(calls := s.calls[c := CreateCall(command, AtFirstLookup)])
    case Callback(command) => Install(s, PaymentCallback(s.store, command).0)
    case Shipment(command) => Install(s, ShipmentEvent(s.store, command).0)
    case SelectBatch(_) => WorkerStep(config, s, a)
    case PublishNext(_, _, _) => WorkerStep(config, s, a)
    case CommitBatch(_) => WorkerStep(config, s, a)
    case AbortBatch(_, _) => WorkerStep(config, s, a)
    case _ => CreateStep(s, a)
  }

  ghost function RunFrom(config: Config, s: State, actions: seq<Action>): State {
    if actions == [] then s
    else Step(config, RunFrom(config, s, actions[..|actions| - 1]), actions[|actions| - 1])
  }

  ghost function Run(config: Config, actions: seq<Action>): State {
    RunFrom(config, INIT, actions)
  }

  // ---------------------------------------------------------------- what a step does to the store

  datatype Change =
    | Nothing
    | Created(order: OrderRow)
    | Moved(id: string, status: OrderStatus, reason: Option<string>)

  function PaymentChange(store: Store, command: PaymentCommand): Change {
    if command.orderId !in store.orders || store.orders[command.orderId].status != New then Nothing
    else
      match VerdictOf(command.status)
      case Succeeded => Moved(command.orderId, Paid, None)
      case Refused => Moved(command.orderId, Cancelled, Some(CallbackReason(command)))
      case Unknown => Nothing
  }

  function ShipmentChange(store: Store, command: ShipmentCommand): Change {
    if command.eventId in store.inbox || command.orderId !in store.orders then Nothing
    else
      match ShipmentTarget(store.orders[command.orderId].status, command.eventType)
      case None => Nothing
      case Some(status) => Moved(command.orderId, status, ShipmentReason(status, command.payload))
  }

  ghost function ChangeOf(s: State, a: Action): Change {
    match a
    case Insert(c) =>
      if c in s.calls && s.calls[c].phase.AtInsert? && InsertOrder(s.store, s.calls[c].phase.order).Some?
      then Created(s.calls[c].phase.order) else Nothing
    case CancelUnpaid(c) =>
      if c in s.calls && s.calls[c].phase.AtCompensation? && Compensate(s.store, s.calls[c].phase.order.id).Some?
      then Moved(s.calls[c].phase.order.id, Cancelled, Some(PAYMENT_ERROR)) else Nothing
    case Callback(command) => PaymentChange(s.store, command)
    case Shipment(command) => ShipmentChange(s.store, command)
    case _ => Nothing
  }

  /** The only status changes there are. */
  predicate LegalMove(from: OrderStatus, to: OrderStatus) {
    || (from == New && to != New)
    || (from == Paid && (to == Shipped || to == Cancelled))
  }

  predicate LegalChange(store: Store, change: Change) {
    match change
    case Nothing => true
    case Created(order) =>
      order.id !in store.orders && !KeyTaken(store.orders, order.idempotencyKey)
    case Moved(id, status, _) => id in store.orders && LegalMove(store.orders[id].status, status)
  }

  function NewOrders(orders: map<string, OrderRow>, change: Change): map<string, OrderRow>
    requires change.Moved? ==> change.id in orders
  {
    match change
    case Nothing => orders
    case Created(order) => orders[order.id := order]
    case Moved(id, status, _) => orders[id := orders[id].(status := status)]
  }

  function Emitted(orders: map<string, OrderRow>, change: Change): seq<OutboxEvent>
    requires change.Moved? ==> change.id in orders
  {
    match change
    case Nothing => []
    case Created(order) => [N.ForOrder(order, New, None)]
    case Moved(id, status, reason) =>
      var order := orders[id].(status := status);
      (if status == Paid then [N.OrderPaidEvent(order)] else []) + [N.ForOrder(order, status, reason)]
  }

  function Events(outbox: seq<OutboxRow>): seq<OutboxEvent> {
    seq(|outbox|, i requires 0 <= i < |outbox| => outbox[i].event)
  }

  lemma {:induction false} MarkAllSameEvents(outbox: seq<OutboxRow>, attempts: seq<Attempt>, maxRetries: nat)
    ensures Events(MarkAll(outbox, attempts, maxRetries)) == Events(outbox)
  {
    forall r | 0 <= r < |outbox|
      ensures MarkAll(outbox, attempts, maxRetries)[r].event == outbox[r].event
    {
      MarkAllKeepsEvents(outbox, attempts, maxRetries, r);
    }
  }

  predicate Explains(before: Store, change: Change, after: Store) {
    && LegalChange(before, change)
    && after.orders == NewOrders(before.orders, change)
    && Events(after.outbox) == Events(before.outbox) + Emitted(before.orders, change)
  }

  lemma {:induction false} PaymentExplained(s: State, command: PaymentCommand)
    requires Keyed(s.store)
    ensures Explains(s.store, PaymentChange(s.store, command), Install(s, PaymentCallback(s.store, command).0).store)
  {
    hide N.ForOrder, N.OrderPaidEvent, Lower, CallbackReason;
  }

  lemma {:induction false} ShipmentExplained(s: State, command: ShipmentCommand)
    requires Keyed(s.store)
    ensures Explains(s.store, ShipmentChange(s.store, command), Install(s, ShipmentEvent(s.store, command).0).store)
  {
    hide N.ForOrder, ShipmentReason;
  }

  lemma {:induction false} CreateExplained(s: State, a: Action)
    requires Keyed(s.store)
    requires a.FirstLookup? || a.AskCatalog? || a.SecondLookup? || a.Insert?
      || a.RequestPayment? || a.CancelUnpaid? || a.Abandon?
    ensures Explains(s.store, ChangeOf(s, a), CreateStep(s, a).store)
  {
    hide N.ForOrder, Amount, Quote, AfterPayment;
  }

  lemma {:induction false} NothingExplained(before: Store, after: Store)
    requires after.orders == before.orders && Events(after.outbox) == Events(before.outbox)
    ensures Explains(before, Nothing, after)
  {
  }

  /**
   Status and outbox move together: a step creates one order or moves one order along a legal
   edge and appends exactly the events of that change, or it leaves orders and events alone.
   */
  lemma {:induction false} StepChange(config: Config, s: State, a: Action)
    requires Keyed(s.store)
    ensures Explains(s.store, ChangeOf(s, a), Step(config, s, a).store)
  {
    hide Explains, CreateStep, PaymentCallback, ShipmentEvent, PaymentChange, ShipmentChange;
    match a {
      case Callback(command) => PaymentExplained(s, command);
      case Shipment(command) => ShipmentExplained(s, command);
      case CommitBatch(w) =>
        if w in s.workers {
          MarkAllSameEvents(s.store.outbox, s.workers[w].done, config.maxRetries);
        }
        NothingExplained(s.store, Step(config, s, a).store);
      case Begin(_, _) => NothingExplained(s.store, Step(config, s, a).store);
      case SelectBatch(_) => NothingExplained(s.store, Step(config, s, a).store);
      case PublishNext(_, _, _) => NothingExplained(s.store, Step(config, s, a).store);
      case AbortBatch(_, _) => NothingExplained(s.store, Step(config, s, a).store);
      case _ => CreateExplained(s, a);
    }
  }

  lemma {:induction false} RunSplits(config: Config, actions: seq<Action>, a: Action)
    ensures Run(config, actions + [a]) == Step(config, Run(config, actions), a)
  {
    assert (actions + [a])[..|actions|] == actions;
  }
}
