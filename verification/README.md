# Order service: a verified model of the order protocol

The service creates orders, asks for a payment, reacts to payment callbacks and shipment events, and
tells the outside world through a transactional outbox. This project models that protocol and proves
what it keeps over every run.

* `Entities`, `OrderNotifications`, `ShipmentEvents`, `Amounts`, `Text`: the data, and the texts, ids and
  amounts computed from it. `Arithmetic`: facts about integers.
* `Transitions`, `Outbox`: what each transaction does to the committed store, as functions. `Effects`: the same
  in the texts an outside observer sends and sees, written out.
* `Persistence`, `UseCases`, `OutboxWorker`: the database, the sessions and repositories, the unit of work
  and the use cases as classes and methods, proved against those functions. `Database.versions` lists every
  store ever committed, so a method that adds at most one version shows no intermediate state.
* `Protocol`: one state machine of all of it. Create calls are parked between their transactions and outside
  calls, workers hold locked batches; `Run` folds any sequence of actions, and a disabled action changes
  nothing. A coroutine can be cancelled and a process can die at every await: `Abandon` and `AbortBatch`.
* `Creates`, `Provenance`, `History`, `Messages`, `Lifecycle`, `InboxRedundancy`, `Delivery`, `Ordering`: what
  holds of every run. `Drain`: how fast one worker gets to a row and empties the outbox. `Refinement` and
  `Interleaving`: a call of the imperative worker is a run of the machine, alone and among the steps of
  everybody else. `CreateWalks`: the same for a create call. `Isolation`: where the atomicity assumption below
  is needed.

## Assumptions

* A callback, a shipment event, an insert with its notification and a compensation are each one atomic step.
  The two lookups of a create call are steps of their own, separate from the insert, so the results about
  creation rest on the unique key and not on atomicity. `Isolation` states exactly what is lost for the
  callback, the shipment event and the compensation when another transaction commits between their read and
  their write.
  A worker's transaction is not atomic: others commit while it awaits the gateway, and its rows are kept by
  their locks (`Interleaving`).
* A row is identified by its position in the outbox, which is also its `created_at` order.
* The id given to a new order is the canonical text of a UUID: 36 characters, no colon. That ids do not
  collide is not assumed; a collision is the `IntegrityError` of the primary key.
* `batch_size`, `max_retries` and `notify_attempts` do not change over a run; where they must be positive
  the lemma says so.
* Marking a row does not fail.
* Catalog, payments, notifications and Kafka are oracles: an answer or an error, any time. A reply of the
  gateway decides a send, a publish and whether a backoff sleep is cancelled.

Where code and tests disagree the code is followed: `tests/fakes.py` has a rollback that discards nothing, the
unit of work modelled here is the one of `src/infrastructure/persistence/uow.py`.

Five expectations are false of the code. Each has a concrete counterexample and the exact condition under
which it holds:

* the inbox is redundant: `InboxRedundancy.ReusedIdDropsShipment`, `InboxRedundancy.InboxRedundantExactly`
* derived event ids tell events apart: `ShipmentEvents.ColonTypeConfusesIds` (with the shipment it drops,
  `InboxRedundancy.ColonTypeDropsShipment`), `ShipmentEvents.ConfusableExactly`
* callbacks are safe under READ COMMITTED: `Isolation.ConcurrentCallbacksPayTwice`,
  `Isolation.StaleCallbackExact`
* so is the compensation: `Isolation.StaleCompensationCancelsPaid`, `Isolation.StaleCompensationExact`
* the amount is the nearest whole cent: `Amounts.BeyondPrecisionRoundsTwice`, `Amounts.AmountNearest`

## Model

| member | source | states |
|---|---|---|
| Entities.Order.MarkPaid | src/domain/entities.py:42-44 | only the status of the order object changes, to PAID |
| Entities.Order.MarkCancelled | src/domain/entities.py:46-48 | only the status changes, to CANCELLED |
| Entities.Order.MarkShipped | src/domain/entities.py:50-52 | only the status changes, to SHIPPED |
| OrderNotifications.KeyDeterminesOrderAndStatus | src/application/services/order_notifications.py:34-35 | two idempotency keys are equal exactly for the same order and the same status, for any order text |
| OrderNotifications.RoutingSeparates | src/application/services/order_notifications.py:38-43 | event types tell the statuses apart; built notifications are routed as notifications and `order.paid` is not |
| Amounts.HalfEvenCharacterised | src/application/usecases/create_order.py:79 | rounding to cents gives the one whole number within half a unit, the even one on a tie, and nothing else does |
| Amounts.CentsPerUnit | src/application/usecases/create_order.py:79 | the scale of the rounding: a unit of 10^e is a hundred times 10^e cents |
| Amounts.AmountNearest | src/application/usecases/create_order.py:79 | for every price and quantity: the call raises exactly when the nearest whole cent has more than 28 digits; otherwise the charge is the nearest cent exactly unless rounding the product to 28 digits moves it onto half a cent and the tie goes to the other side; always so for products of 28 digits or of whole cents |
| Amounts.AmountMonotone | src/application/usecases/create_order.py:79 | for a non-negative price a larger quantity never costs less, with any number of digits, and a smaller one does not raise if the larger does not |
| Amounts.BeyondPrecisionRoundsTwice | src/application/usecases/create_order.py:79 | the tie does happen: a concrete price is charged the farther cent |
| Amounts.AmountTextReadsBack | src/infrastructure/http/payments.py:31 | the two-decimal text of the request reads back to the same amount, including negative ones |
| ShipmentEvents.DerivedIdInjective | src/application/usecases/process_shipment_event.py:82-93 | derived event ids with colon-free type and order text are equal exactly for equal type, order text and suffix |
| ShipmentEvents.ShippedNeverCancelled | src/application/usecases/process_shipment_event.py:85-93 | a derived shipped id never equals a derived cancelled id |
| ShipmentEvents.ShippedIdInjective | src/application/usecases/process_shipment_event.py:85-93 | derived shipped ids are equal exactly for the same order text and effective shipment id, a missing one counting as `no-shipment` |
| ShipmentEvents.SharedShippedId | src/application/usecases/process_shipment_event.py:85-93 | some other order text yields the same shipped id exactly if the order text has a colon or the shipment id has one with something behind it |
| ShipmentEvents.ColonsConfuseShippedIds | src/application/usecases/process_shipment_event.py:93 | an example of two such texts; about the id function, not about messages that are accepted |
| ShipmentEvents.DerivedIdsDetermineMeaning | src/application/usecases/process_shipment_event.py:96-106 | parsed messages with equal derived ids, whose type and order text have no colon, concern the same order and mean the same to it; for any parser of UUIDs |
| ShipmentEvents.RecognisedIdsDetermineMeaning | src/application/usecases/process_shipment_event.py:82-106 | accepted shipped and cancelled messages with equal derived ids concern the same order and mean the same, whatever their texts, if no accepted order text goes on with a colon into another one |
| ShipmentEvents.ConfusedTypeHasColon | src/application/usecases/process_shipment_event.py:82-106 | two accepted messages with equal derived ids and different meaning: the type of one of them has a colon, so it is not a recognised one |
| ShipmentEvents.ConfusableExactly | src/application/usecases/process_shipment_event.py:82-106 | another accepted message with a different meaning can have the derived id of a shipped or cancelled one exactly if that id also reads as type with a colon, accepted order text and `unknown` |
| ShipmentEvents.ColonTypeConfusesIds | src/application/usecases/process_shipment_event.py:82-106 | it happens: for any two accepted order texts an event of unknown type about one has the id of a shipment of the other |
| Effects.EventIdText | src/application/usecases/process_shipment_event.py:78-93 | the event id written out: the given one, any value that counts as given, or type, order text and the suffix of the type joined by colons |
| Effects.ParseEffect | src/application/usecases/process_shipment_event.py:96-106 | a message is refused without an order id or with one that is no UUID, and otherwise becomes the command with its id, type, canonical order id and all of the message |
| Effects.GivenIdsTellApart | src/application/usecases/process_shipment_event.py:79-80 | accepted messages that give their ids get equal event ids exactly if they give equal ones |
| Effects.CallbackEffect | src/application/usecases/process_payment_callback.py:27-97 | the callback written out: of a NEW order "succeeded", in any mixture of cases, pays and appends `order.paid` and its notification, "failed" cancels with the given or the standard reason; any other text, status or id commits nothing |
| Effects.ShipmentEffect | src/application/usecases/process_shipment_event.py:30-146 | the event written out: "order.shipped" ships and "order.cancelled" cancels an order that is NEW or PAID, with the notification and the reason of the message; all else is only remembered; duplicates and unknown orders change nothing |
| Effects.InsertEffect | src/application/usecases/create_order.py:58-76 | refused exactly if the id or the key is taken; otherwise one NEW order with the fields of the command, and its notification |
| Effects.CompensationEffect | src/application/usecases/create_order.py:97-109 | only a NEW order is cancelled, with the standard reason in its notification |
| Outbox.SelectOldest | src/infrastructure/persistence/repositories.py:96-105 | the batch is at most `limit` pending unlocked rows, oldest first, and a free pending row is left out only if the batch is full of older ones |
| Outbox.MarkAllRow | src/infrastructure/persistence/repositories.py:107-129 | marking a batch changes each attempted row once, by its own outcome, and no other row |
| Persistence.OrderRepository.Add | src/infrastructure/persistence/repositories.py:25-38 | adds the row, or fails exactly when the id or the idempotency key is taken |
| Persistence.OrderRepository.GetById | src/infrastructure/persistence/repositories.py:40-42 | a fresh copy of the row, or none |
| Persistence.OrderRepository.GetByIdempotencyKey | src/infrastructure/persistence/repositories.py:44-48 | a copy of an order that has the key, or none exactly when no order has it |
| Persistence.OrderRepository.Update | src/infrastructure/persistence/repositories.py:50-61 | the staged row becomes that of the object, or an error when there is none |
| Persistence.OutboxRepository.Add | src/infrastructure/persistence/repositories.py:81-94 | appends a pending row without retries |
| Persistence.OutboxRepository.GetPendingForUpdate | src/infrastructure/persistence/repositories.py:96-105 | returns the selection that skips locked rows, and locks it for this session |
| Persistence.OutboxRepository.MarkAsSent | src/infrastructure/persistence/repositories.py:107-113 | the staged row becomes SENT, or an error |
| Persistence.OutboxRepository.MarkAsFailed | src/infrastructure/persistence/repositories.py:115-129 | one more retry, the error text, and FAILED at the limit, or an error |
| Persistence.InboxRepository.Add | src/infrastructure/persistence/repositories.py:149-168 | inserts unless the event id is there, and says which |
| Persistence.UnitOfWork.Enter | src/infrastructure/persistence/uow.py:19-24 | a new session over the committed store |
| Persistence.UnitOfWork.Commit | src/infrastructure/persistence/uow.py:38-40 | the rows the session changed or added go over what is committed by then, as one version; exactly the staged store if nothing else was committed; the locks are released |
| Persistence.UnitOfWork.Rollback | src/infrastructure/persistence/uow.py:42-44 | staged rows are discarded; no version is added |
| Persistence.UnitOfWork.Exit | src/infrastructure/persistence/uow.py:26-36 | leaving the block commits nothing and releases the locks |
| OutboxWorker.NotificationRetryLoop | src/application/usecases/process_outbox_events.py:89-111 | against any replies: stops at the first accepted send, raises the last error exactly when all attempts are declined, the assertion fails only for zero attempts, s sends sleep s(s-1)/2 delays |
| OutboxWorker.NotificationRequests | src/application/usecases/process_outbox_events.py:82-94 | a notification asks for nothing but sends of the four texts of its payload, and sleeps |
| OutboxWorker.MissingTextRejected | src/application/usecases/process_outbox_events.py:82-88 | with one of the texts missing nothing is sent, and the error is the quoted name of the first missing one |
| OutboxWorker.KafkaByReply | src/application/usecases/process_outbox_events.py:74-80 | one publish to the configured topic, keyed by the order id of the payload or else the row id; accepted, declined with an error and cancelled are the three outcomes |
| OutboxWorker.BatchAttempt | src/application/usecases/process_outbox_events.py:45-64 | the i-th attempt of a batch is the publish of its i-th row, answered from the reply it has reached |
| OutboxWorker.RowSettled | src/application/usecases/process_outbox_events.py:45-66 | what an uninterrupted batch makes of each row: SENT, or one more retry with the error kept to 2000 characters and FAILED at the limit |
| OutboxWorker.KafkaSettles | src/application/usecases/process_outbox_events.py:47-64 | a row of the batch that goes to Kafka is SENT afterwards exactly if the gateway accepted its publish |
| OutboxWorker.NotificationSettles | src/application/usecases/process_outbox_events.py:47-64 | a notification of the batch is SENT afterwards exactly if one of its allowed sends was accepted after declined ones only; otherwise it keeps the error of the last |
| OutboxWorker.ProcessOutboxEvents.Call | src/application/usecases/process_outbox_events.py:39-72 | with others committing while it awaits: requests and result follow from selection and replies; it commits the latest store of the others with exactly its attempts marked, Kafka rows SENT exactly where accepted, or nothing for an empty or interrupted batch; its locks are gone |
| OutboxWorker.ProcessOutboxEvents.ProcessBatch | src/application/usecases/process_outbox_events.py:45-64 | the loop makes the attempts of the batch in order and stages their marks, stopping at an interruption, whatever others commit between them |
| OutboxWorker.ProcessOutboxEvents.ProcessRow | src/application/usecases/process_outbox_events.py:47-64 | one row is published by its route and marked by the outcome |
| OutboxWorker.ProcessOutboxEvents.PublishKafka | src/application/usecases/process_outbox_events.py:74-80 | one publish, keyed by the order id or else the row id; the reply alone decides the outcome |
| OutboxWorker.ProcessOutboxEvents.PublishNotification | src/application/usecases/process_outbox_events.py:82-88 | a missing payload key fails without a send; otherwise the retry loop runs |
| OutboxWorker.ProcessOutboxEvents.SendWithRetries | src/application/usecases/process_outbox_events.py:89-111 | the loop with its sleeps makes exactly the requests and outcome of its recursive description |
| UseCases.ProcessPaymentCallback.Call | src/application/usecases/process_payment_callback.py:27-97 | answer and committed versions are those of the transition, which `Effects.CallbackEffect` writes out; at most one version is added |
| UseCases.ProcessShipmentEvent.Call | src/application/usecases/process_shipment_event.py:30-75 | answer and committed versions are those of the transition, which `Effects.ShipmentEffect` writes out; a duplicate or an unknown order adds none |
| UseCases.ProcessShipmentEvent.ApplyShipmentStatus | src/application/usecases/process_shipment_event.py:109-146 | the order object moves to the target status exactly when there is one |
| UseCases.CreateOrder.FindExisting | src/application/usecases/create_order.py:40-48 | the order with the key, or none; nothing is committed |
| UseCases.CreateOrder.AddIfAbsent | src/application/usecases/create_order.py:67-76 | commits order and notification together, or nothing when the key or id is taken |
| UseCases.CreateOrder.CancelIfNew | src/application/usecases/create_order.py:97-109 | cancels and notifies in one version if the order is still NEW, else commits nothing |
| UseCases.CreateOrder.PayFor | src/application/usecases/create_order.py:80-112 | one request for the given order; after a refusal that order is not NEW, whatever committed in between |
| UseCases.CreateOrder.Pay | src/application/usecases/create_order.py:79-112 | from the amount on: no request if it raises, else one at that amount, whose reply decides the answer; the steps are those of the parked call of the machine |
| UseCases.CreateOrder.PlaceOrder | src/application/usecases/create_order.py:67-112 | from the second transaction on: an order found under the key, a taken id, or its own order added and charged; the steps are those of the parked call of the machine |
| UseCases.CreateOrder.Call | src/application/usecases/create_order.py:39-112 | with other transactions between its own: the call is the create call of the machine step for step; a taken key returns the order that has it, a free one fails exactly if the catalog failed or offers less than the quantity, and otherwise finds, adds and charges the order, the reply deciding the answer; at most one request, at the quoted amount |
| CreateWalks.CatalogDecides | src/application/usecases/create_order.py:50-65 | the answer of the catalog: an error, out of stock exactly if it offers less than the quantity, or going on with a NEW order of the command at that price |
| CreateWalks.RunIsWalk | src/application/usecases/create_order.py:39-112 | every run, seen from one of its create calls, is the walk of that call alone: its phase and its own payment requests, over stores of the run that others left within the rely |
| CreateWalks.DisturbedCreateIsWalk | src/application/usecases/create_order.py:39-112 | a create call with any steps of others between its own ends, and it is the walk that the imperative call is proved to take |
| CreateWalks.FinishedForGood | src/application/usecases/create_order.py:39-112 | a call that returned or raised keeps its answer in every longer run |
| Protocol.StepChange | src/application/usecases/process_payment_callback.py:37-90 | every step of the machine creates one order or moves one along a legal edge and appends exactly the events of that change, or changes neither |
| Creates.OneOrderPerKey | src/application/usecases/create_order.py:67-76 | no interleaving of any number of create calls gives two orders one key |
| Creates.SameAnswerPerKey | src/application/usecases/create_order.py:40-48 | all calls that return for one key return the same committed order |
| Creates.OnePaymentPerKey | src/application/usecases/create_order.py:79-88 | at most one payment request per key, naming the committed order with that key |
| Creates.OrdersPersist | src/infrastructure/persistence/repositories.py:50-61 | over any run a committed order is never lost and only its status ever changes |
| Creates.RunsKeepRely | src/application/usecases/create_order.py:67-110 | every run keeps what a parked create call relies on |
| Creates.RefusedPaymentClosesOrder | src/application/usecases/create_order.py:95-110 | a call that ended with a refused payment has requested it for the order of its key, which is not NEW |
| Provenance.OrdersWereInStock | src/application/usecases/create_order.py:50-65 | every committed order: the catalog was asked for its item and offered at least its quantity |
| Provenance.OrdersWereAsked | src/application/usecases/create_order.py:58-65 | every committed order has the user, item, quantity and key of a command that was given |
| Provenance.ChargesWereQuoted | src/application/usecases/create_order.py:79-88 | every payment request charges the price quoted for the item of the committed order times its quantity |
| History.OutboxMirrorsHistory | src/application/usecases/process_shipment_event.py:52-67 | for every order of every run the outbox holds, in order, one notification per status the order was seen entering, none for others, and one `order.paid` exactly if it was seen entering PAID; at most four rows |
| History.OutboxSize | src/application/usecases/process_payment_callback.py:79-90 | the outbox has as many rows as there were status entries plus orders ever paid |
| Messages.RowsDescribed | src/application/services/order_notifications.py:64-76 | every reachable row is an event built for a committed order from fields that never change |
| Messages.RowsPublishable | src/application/usecases/process_outbox_events.py:48-51 | every reachable row can be published by its route: four request fields for a notification, a non-empty order id as Kafka key otherwise |
| Messages.KeysUnique | src/application/usecases/process_outbox_events.py:82-88 | no two notification rows of a reachable outbox share an idempotency key |
| Messages.DeduplicationLossless | src/application/services/order_notifications.py:34-61 | a receiver that drops repeated keys keeps exactly one message of every row that arrived, for any arrivals |
| Messages.SentReceivedOnce | src/application/usecases/process_outbox_events.py:82-111 | with such a receiver every notification marked SENT is received exactly once under any retries and rollbacks |
| Lifecycle.FoldClosed | src/application/usecases/process_payment_callback.py:36-77 | any sequence of payment results and shipment events folds to the closed form of the outcome |
| Lifecycle.SwapNeighbours | src/application/usecases/process_shipment_event.py:109-146 | swapping neighbours matters to the status behind them exactly in the listed conflicts; a successful payment and a shipment event never conflict |
| Lifecycle.OutcomeOfRun | src/application/usecases/create_order.py:97-109 | the status of every order after every run is the closed form of the signals that reached it, read off the status and type texts |
| Lifecycle.PaymentDecidesOnce | src/application/usecases/create_order.py:95-110 | at most one of all callbacks and compensations of a run changes a given order |
| Lifecycle.PaidIsCancelledByShipping | src/application/usecases/process_shipment_event.py:122-139 | an order that was PAID and becomes CANCELLED is cancelled by a shipment event |
| InboxRedundancy.InboxIsCommittedEvents | src/infrastructure/persistence/repositories.py:149-168 | an id is in the inbox exactly if an event with it was processed and committed, once |
| InboxRedundancy.DuplicateExactly | src/application/usecases/process_shipment_event.py:33-46 | over every run an event is answered as a duplicate exactly if an earlier one with its id was applied |
| InboxRedundancy.GivenIdsNeverDuplicate | src/application/usecases/process_shipment_event.py:33-80 | events from messages that give pairwise different ids are never answered as duplicates |
| InboxRedundancy.EarlyEventIsReplayable | src/application/usecases/process_shipment_event.py:33-50 | an event for a missing order leaves nothing, and its redelivery is applied as a first delivery |
| InboxRedundancy.StepsAgree | src/application/usecases/process_shipment_event.py:40-46 | one step with and without the inbox agrees exactly unless a known event is dropped for an open order |
| InboxRedundancy.InboxRedundantExactly | src/application/usecases/process_shipment_event.py:33-67 | the machines with and without inbox agree at every point of a run if and only if nothing is dropped |
| InboxRedundancy.InboxRedundant | src/application/usecases/process_shipment_event.py:33-67 | if event ids mean one thing the inbox never changes orders or outbox, under any redelivery |
| InboxRedundancy.InboxRedundantForDerivedIds | src/application/usecases/process_shipment_event.py:33-106 | so it is when every event comes from an accepted message with a derived id and a type without a colon |
| InboxRedundancy.ColonTypeDropsShipment | src/application/usecases/process_shipment_event.py:33-46 | with a colon it is not: after the event of unknown type the shipment of the other, open order is dropped as a duplicate |
| InboxRedundancy.ReusedIdDropsShipment | src/application/usecases/process_shipment_event.py:40-46 | a concrete run in which a reused id drops a shipment of an open order |
| Delivery.AttemptsConserved | src/application/usecases/process_outbox_events.py:39-72 | publishes of a row are those its state counts, those rolled back and the one staged; the same for successes; any workers, any cancellations |
| Delivery.LocksExclusive | src/infrastructure/persistence/repositories.py:96-105 | open batches are disjoint and their rows are pending in the committed store |
| Delivery.SentWasDelivered | src/application/usecases/process_outbox_events.py:47-53 | a SENT row was published with success |
| Delivery.PublishedOnceUnlessRolledBack | src/application/usecases/process_outbox_events.py:54-66 | at most one success of a row was not rolled back |
| Delivery.PublishedOnceWithoutCancellation | src/application/usecases/process_outbox_events.py:54-66 | in a run without cancelled batches no row is published twice: a SENT row exactly once, a FAILED one never, and with no open batch exactly the SENT ones |
| Delivery.RetryStates | src/infrastructure/persistence/repositories.py:115-129 | in every reachable state a row is FAILED exactly when its retries reached the limit, which they never exceed |
| Delivery.SendsOfNotification | src/application/usecases/process_outbox_events.py:90-111 | a notification is sent at most max_retries * notify_attempts times, plus notify_attempts per rolled back attempt |
| Delivery.SendsWithoutCancellation | src/application/usecases/process_outbox_events.py:90-111 | without cancelled batches at most max_retries attempts and max_retries * notify_attempts sends |
| Delivery.SettledForGood | src/infrastructure/persistence/repositories.py:107-129 | SENT and FAILED rows never change again |
| Ordering.PublishedInOrder | src/application/usecases/process_outbox_events.py:46-66 | one worker without errors and cancellation: the published log is always a prefix of the outbox, with inserts at any time |
| Drain.BoundedWait | src/application/usecases/process_outbox_events.py:41-66 | a pending row with k pending rows ahead is attempted by call k * max_retries / batch_size + 1, whatever fails and whatever rows are added between the calls |
| Drain.CallMakesProgress | src/application/usecases/process_outbox_events.py:46-66 | a call uses up at least as many of the attempts left as it processed rows |
| Drain.DrainBound | src/application/usecases/process_outbox_events.py:39-72 | floor(F / batch_size) + max_retries calls leave no pending row, F being the attempts left |
| Refinement.WorkerCallIsRun | src/application/usecases/process_outbox_events.py:39-72 | whatever the gateway answers, a call of the worker with nothing in between is a run of the machine with its store, log and rolled back attempts |
| Interleaving.OthersKeepRely | src/infrastructure/persistence/repositories.py:96-105 | in every run, whatever others do, the rows a worker holds stay locked and unchanged, and nobody else publishes them or rolls them back |
| Interleaving.DisturbedCallIsRun | src/application/usecases/process_outbox_events.py:39-72 | a call of the worker with any steps of others between its own: the attempts follow from selection and replies, the store is the one others left with these attempts marked, and of its rows the logs show exactly these attempts in order |
| Refinement.ReachableOutboxDrains | src/application/usecases/process_outbox_events.py:39-72 | the drain bound as runs: from every reachable state without open batches |
| Refinement.ReachableRowIsAttempted | src/application/usecases/process_outbox_events.py:41-66 | the bounded wait as runs, with any steps of the use cases between the calls: from every reachable state without open batches the row is in the published log by that call |
| Refinement.AnsweredCallsAreCalls | src/application/usecases/process_outbox_events.py:39-72 | whatever the gateway answers, uninterrupted consecutive calls of the worker are calls the drain theorems speak of |
| Refinement.AnsweredRoundsRun | src/application/usecases/process_outbox_events.py:39-72 | the same for calls with steps of the use cases between them and the theorem about waiting |
| Refinement.AnsweredWorkerAttempts | src/application/usecases/process_outbox_events.py:41-66 | the bounded wait of the worker against any gateway that interrupts none of its calls, use cases acting between them |
| Refinement.AnsweredWorkerDrains | src/application/usecases/process_outbox_events.py:39-72 | the drain bound of the worker against any gateway that interrupts none of its calls |
| Isolation.StaleCallbackExact | src/infrastructure/persistence/repositories.py:40-42 | a callback that read earlier commits what the atomic one would exactly if NEW was read if and only if it is still NEW, or its verdict is unknown |
| Isolation.StaleShipmentExact | src/infrastructure/persistence/repositories.py:40-42 | the same for shipment events, with terminal in place of NEW |
| Isolation.StaleCompensationExact | src/application/usecases/create_order.py:97-109 | a compensation that read earlier commits what the atomic one would exactly if NEW was read if and only if it still is |
| Isolation.StaleCompensationCancelsPaid | src/application/usecases/create_order.py:97-109 | a compensation that read NEW cancels an order announced as paid since, which the atomic one leaves alone |
| Isolation.ConcurrentCallbacksPayTwice | src/application/usecases/process_payment_callback.py:37-53 | two successful callbacks that both read NEW append `order.paid` and its notification twice |

## Left out

- HTTP clients, routes, schemas, settings, entry points and logging: plumbing around the protocol.
- The consumer loop and its offset commits: delivery is an arbitrary sequence of messages with repeats.
- Poll intervals, connection retries and signals: kept are calling the worker again, cancelling it and the sum of backoff delays.
- Timestamps, inbox row ids and column lengths.
- SHA-256 and the parsing of UUID texts: function parameters. Nothing is claimed about the first; `ShipmentEvents.AcceptsNoMore` is what some results ask of the second.
- Payload values other than null, booleans, integers and text.
- Transitions.Lower: lower-cases ASCII letters only, because no other character lower-cases into the two verdicts compared with.
- Amounts.AmountNearest: does not model signed zero, infinities and NaN, nor the exponent limits of the decimal context; the text of a negative amount that rounds to zero has no sign here.
- UseCases.Others: its body commits nothing; callers are verified against its contract, which `Creates.RunsKeepRely` proves of all runs.
- OutboxWorker.Others: its body does nothing; callers are verified against its contract, which `Interleaving.OthersKeepRely` proves of all runs.
- `GetOrder`: one lookup, nothing to keep.
- Failures of the database itself in the middle of a transaction: they end like an exception, without a version.
