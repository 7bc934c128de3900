/** The use cases that write orders, proved against the transition functions. */
module UseCases {
  import opened Wrappers
  import opened Entities
  import opened Transitions
  import opened Persistence
  import opened ShipmentEvents
  import opened Protocol
  import opened Creates
  import opened CreateWalks
  import Amounts
  import N = OrderNotifications

  /** The database after a transaction: one more version, or exactly the ones there were. */
  function Committed(versions: seq<Store>, commit: Option<Store>): seq<Store> {
    match commit
    case None => versions
    case Some(store) => versions + [store]
  }

  class ProcessPaymentCallback {
    const db: Database

    constructor (db: Database)
      ensures this.db == db
    {
      this.db := db;
    }

    method Call(command: PaymentCommand) returns (result: PaymentResult)
      requires db.Valid() && Keyed(db.Current())
      modifies db
      ensures result == PaymentCallback(old(db.Current()), command).1
      ensures db.versions == Committed(old(db.versions), PaymentCallback(old(db.Current()), command).0)
      ensures db.locked == old(db.locked)
    {
      hide N.ForOrder, N.OrderPaidEvent, Lower, CallbackReason, Merge;
      var uow := new UnitOfWork(db);
      uow.Enter();
      var order := uow.orders.GetById(command.orderId);
      if order == null {
        uow.Exit(true);
        return NoSuchOrder;
      }
      var emitOrderPaid := false;
      var notifyStatus: Option<OrderStatus> := None;
      var notifyReason: Option<string> := None;
      var normalized := Lower(command.status);
      if normalized == "succeeded" {
        if order.status == Paid {
          uow.Exit(false);
          return Answered(order.Row());
        }
        if order.status == Shipped || order.status == Cancelled {
          uow.Exit(false);
          return Answered(order.Row());
        }
        order.MarkPaid();
        emitOrderPaid := true;
        notifyStatus := Some(Paid);
      } else if normalized == "failed" {
        if order.status == Cancelled {
          uow.Exit(false);
          return Answered(order.Row());
        }
        if order.status == Paid || order.status == Shipped {
          uow.Exit(false);
          return Answered(order.Row());
        }
        order.MarkCancelled();
        notifyStatus := Some(Cancelled);
        notifyReason := Some(CallbackReason(command));
      } else {
        uow.Exit(false);
        return Answered(order.Row());
      }
      var updated := uow.orders.Update(order);
      if emitOrderPaid {
        uow.outbox.Add(N.OrderPaidEvent(updated.value));
      }
      if notifyStatus.Some? {
        uow.outbox.Add(N.ForOrder(updated.value, notifyStatus.value, notifyReason));
      }
      uow.Commit();
      uow.Exit(false);
      return Answered(updated.value);
    }
  }

  class ProcessShipmentEvent {
    const db: Database

    constructor (db: Database)
      ensures this.db == db
    {
      this.db := db;
    }

    method Call(command: ShipmentCommand) returns (result: ShipmentResult)
      requires db.Valid() && Keyed(db.Current())
      modifies db
      ensures result == ShipmentEvent(old(db.Current()), command).1
      ensures db.versions == Committed(old(db.versions), ShipmentEvent(old(db.Current()), command).0)
      ensures db.locked == old(db.locked)
    {
      hide N.ForOrder, Merge;
      var uow := new UnitOfWork(db);
      uow.Enter();
      var inserted := uow.inbox.Add(command.eventId, InboxRow(command.eventType, command.payload));
      if !inserted {
        uow.Exit(false);
        return Duplicate;
      }
      var order := uow.orders.GetById(command.orderId);
      if order == null {
        uow.Exit(true);
        return OrderNotFound;
      }
      var changed := ApplyShipmentStatus(order, command);
      if changed {
        var _ := uow.orders.Update(order);
        var reason: Option<string> := None;
        if order.status == Cancelled {
          var raw := Get(command.payload, "reason");
          reason := if raw.Truthy() then Some(raw.AsText()) else None;
        }
        uow.outbox.Add(N.ForOrder(order.Row(), order.status, reason));
      }
      uow.Commit();
      uow.Exit(false);
      return Applied;
    }

    method ApplyShipmentStatus(order: Order, command: ShipmentCommand) returns (changed: bool)
      modifies order
      ensures changed == ShipmentTarget(old(order.status), command.eventType).Some?
      ensures order.Row() == if changed
        then old(order.Row()).(status := ShipmentTarget(old(order.status), command.eventType).value)
        else old(order.Row())
    {
      if command.eventType == ORDER_SHIPPED {
        if order.status == Shipped {
          return false;
        }
        if order.status == Cancelled {
          return false;
        }
        order.MarkShipped();
        assert order.Row().status == Shipped;
        return true;
      }
      if command.eventType == ORDER_CANCELLED {
        if order.status == Cancelled {
          return false;
        }
        if order.status == Shipped {
          return false;
        }
        order.MarkCancelled();
        assert order.Row().status == Cancelled;
        return true;
      }
      return false;
    }
  }

  class PaymentsClient {
    const reply: PaymentReply
    var requests: seq<PaymentRequest>

    constructor (reply: PaymentReply)
      ensures this.reply == reply && requests == []
    {
      this.reply := reply;
      requests := [];
    }

    method CreatePayment(request: PaymentRequest) returns (answer: PaymentReply)
      modifies this
      ensures requests == old(requests) + [request] && answer == reply
    {
      requests := requests + [request];
      answer := reply;
    }
  }

  /**
   Other transactions may commit here, while a create call awaits between its own. The body does
   nothing; callers know only that the rely holds, which is proved of all runs of the machine.
   */
  method Others(db: Database)
    requires db.Valid() && OrdersSound(db.Current())
    modifies db`versions
    ensures old(db.versions) <= db.versions && db.Valid()
    ensures Rely(old(db.Current()), db.Current())
  {
  }

  /** The payment of an order just added: no request if the amount raises, else one whose reply decides the answer. */
  predicate Charged(
    order: OrderRow, amount: Option<int>, reply: PaymentReply,
    before: seq<PaymentRequest>, after: seq<PaymentRequest>, r: Result<OrderRow, CreateError>)
  {
    match amount
    case None => after == before && r == Failure(InvalidAmount)
    case Some(cents) =>
      && after == before + [PaymentRequest(order.id, cents, order.idempotencyKey)]
      && r == match reply
         case PaymentCreated => Success(order)
         case PaymentsDown => Failure(PaymentsError)
         case PaymentsCrashed => Failure(Unexpected)
  }

  /** From the second transaction on: an order found under the key, a taken id, or the order added and charged. */
  predicate Placed(
    order: OrderRow, amount: Option<int>, reply: PaymentReply, asked: Store, lookup: Turn, now: Store,
    before: seq<PaymentRequest>, after: seq<PaymentRequest>, r: Result<OrderRow, CreateError>)
  {
    || (after == before && r.Success? && FoundBy(lookup, order.idempotencyKey, r.value))
    || (after == before && r == Failure(IntegrityError) && order.id in now.orders)
    || (order.id !in asked.orders && Known(now.orders, order) && Charged(order, amount, reply, before, after, r))
  }

  lemma {:induction false} PlacedOutcome(
    order: OrderRow, amount: Option<int>, reply: PaymentReply, asked: Store, lookup: Turn, now: Store,
    before: seq<PaymentRequest>, after: seq<PaymentRequest>, r: Result<OrderRow, CreateError>)
    requires Placed(order, amount, reply, asked, lookup, now, before, after, r)
    ensures r.Failure? ==> r.error !in {CatalogError, InsufficientStock} && order.id in now.orders
    ensures after == before ||
      (&& order.id !in asked.orders && Known(now.orders, order) && amount.Some?
       && after == before + [PaymentRequest(order.id, amount.value, order.idempotencyKey)]
       && (r.Success? ==> r.value == order))
    ensures r.Success? && after == before ==> FoundBy(lookup, order.idempotencyKey, r.value)
  {
  }

  lemma {:induction false} PlacedEarlier(
    order: OrderRow, amount: Option<int>, reply: PaymentReply, earlier: Store, asked: Store, lookup: Turn, now: Store,
    before: seq<PaymentRequest>, after: seq<PaymentRequest>, r: Result<OrderRow, CreateError>)
    requires Placed(order, amount, reply, asked, lookup, now, before, after, r)
    requires forall id :: id in earlier.orders ==> id in asked.orders
    ensures Placed(order, amount, reply, earlier, lookup, now, before, after, r)
  {
  }

  lemma {:induction false} PaidOrder(
    order: OrderRow, amount: Option<int>, reply: PaymentReply,
    before: seq<PaymentRequest>, after: seq<PaymentRequest>, r: Result<OrderRow, CreateError>)
    requires Charged(order, amount, reply, before, after, r)
    ensures r.Success? ==> r.value == order
  {
  }

  class CreateOrder {
    const db: Database
    const payments: PaymentsClient

    constructor (db: Database, payments: PaymentsClient)
      ensures this.db == db && this.payments == payments
    {
      this.db, this.payments := db, payments;
    }

    /** The first transaction. */
    method FindExisting(key: string) returns (existing: Option<OrderRow>)
      requires db.Valid() && Keyed(db.Current())
      modifies db
      ensures db.versions == old(db.versions) && db.locked == old(db.locked)
      ensures existing.None? <==> !KeyTaken(db.Current().orders, key)
      ensures existing.Some? ==> Holder(db.Current(), key, existing.value)
    {
      var uow := new UnitOfWork(db);
      uow.Enter();
      var order := uow.orders.GetByIdempotencyKey(key);
      if order != null {
        existing := Some(order.Row());
      } else {
        existing := None;
      }
      uow.Exit(false);
    }

    /** The second transaction: the order that has the key already, or the one added; it raises on a taken id. */
    method AddIfAbsent(order: OrderRow) returns (found: Option<OrderRow>, added: bool)
      requires db.Valid() && Keyed(db.Current())
      modifies db
      ensures db.locked == old(db.locked)
      ensures found.Some? <==> KeyTaken(old(db.Current()).orders, order.idempotencyKey)
      ensures found.Some? ==> Holder(old(db.Current()), order.idempotencyKey, found.value)
      ensures added == InsertOrder(old(db.Current()), order).Some?
      ensures db.versions == Committed(old(db.versions), InsertOrder(old(db.Current()), order))
    {
      hide N.ForOrder, Merge;
      added := false;
      var uow := new UnitOfWork(db);
      uow.Enter();
      var existing := uow.orders.GetByIdempotencyKey(order.idempotencyKey);
      if existing != null {
        found := Some(existing.Row());
        uow.Exit(false);
        return;
      }
      found := None;
      var saved := uow.orders.Add(order);
      if saved.None? {
        uow.Exit(true);
        return;
      }
      uow.outbox.Add(N.ForOrder(saved.value, New, None));
      uow.Commit();
      added := true;
      uow.Exit(false);
    }

    /** The compensation. */
    method CancelIfNew(id: string)
      requires db.Valid() && Keyed(db.Current())
      modifies db
      ensures db.locked == old(db.locked)
      ensures db.versions == Committed(old(db.versions), Compensate(old(db.Current()), id))
    {
      hide N.ForOrder, Merge;
      var uow := new UnitOfWork(db);
      uow.Enter();
      var current := uow.orders.GetById(id);
      if current != null && current.status == New {
        current.MarkCancelled();
        var saved := uow.orders.Update(current);
        uow.outbox.Add(N.ForOrder(saved.value, Cancelled, Some(PAYMENT_ERROR)));
        uow.Commit();
      }
      uow.Exit(false);
    }

    /**
     The whole call, with other transactions committing between its own. It is the create call of the
     machine, step for step, over stores that were committed and that others reached within the rely; it
     ends with the answer and the payment requests of that call. An order it returns was found committed
     under the key by one of its lookups, or else its payment was requested.
     */
    method Call(command: CreateCommand, item: CatalogReply, newId: string)
      returns (r: Result<OrderRow, CreateError>, ghost path: seq<Turn>)
      requires db.Valid() && OrdersSound(db.Current()) && UuidText(newId)
      modifies db, payments
      ensures db.Valid() && Rely(old(db.Current()), db.Current()) && old(db.versions) <= db.versions
      ensures db.locked == old(db.locked)
      ensures r.Success? ==> r.value.idempotencyKey == command.idempotencyKey && Known(db.Current().orders, r.value)
      ensures payments.requests == old(payments.requests) ||
        (&& item.Item?
         && newId !in old(db.Current()).orders && Known(db.Current().orders, NewOrder(newId, command))
         && Amounts.Amount(item.price, command.quantity).Some?
         && payments.requests == old(payments.requests)
              + [PaymentRequest(newId, Amounts.Amount(item.price, command.quantity).value, command.idempotencyKey)]
         && (r.Success? ==> r.value == NewOrder(newId, command)))
      ensures r.Success? && payments.requests == old(payments.requests) ==>
        exists i :: 0 <= i < |path| && FoundBy(path[i], command.idempotencyKey, r.value)
      ensures
        if KeyTaken(old(db.Current()).orders, command.idempotencyKey) then
          r.Success? && payments.requests == old(payments.requests)
        else if item.CatalogFailed? then
          r == Failure(CatalogError) && payments.requests == old(payments.requests)
        else if item.availableQty < command.quantity then
          r == Failure(InsufficientStock) && payments.requests == old(payments.requests)
        else
          && |path| > 2
          && Placed(NewOrder(newId, command), Amounts.Amount(item.price, command.quantity), payments.reply,
               old(db.Current()), path[2], db.Current(), old(payments.requests), payments.requests, r)
      ensures var free := !KeyTaken(old(db.Current()).orders, command.idempotencyKey);
        && (r == Failure(CatalogError) <==> free && item.CatalogFailed?)
        && (r == Failure(InsufficientStock) <==> free && item.Item? && item.availableQty < command.quantity)
      ensures r == Failure(PaymentsError) ==>
        newId in db.Current().orders && db.Current().orders[newId].status != New
      ensures
        var start := Solo(old(db.Current()), command, AtFirstLookup, old(payments.requests));
        && Actions(path) <= CreateActions(command, item, newId, payments.reply)
        && At(db.versions, start, path, Walk(start, path).store, command, EndOf(r), payments.requests)
        && Rely(Walk(start, path).store, db.Current())
    {
      hide Amounts.Amount, InsertOrder, Compensate, Rely, OrdersSound, Known, KeyTaken, UuidText, FindByKey, Walk,
        Walked, CreateStep, Placed;
      ghost var before, paid := db.Current(), payments.requests;
      ghost var start := Solo(before, command, AtFirstLookup, paid);
      RelyFacts(before, before);
      var existing := FindExisting(command.idempotencyKey);
      LookupStep(before, command, existing, AtFirstLookup, paid);
      path := [Turn(before, FirstLookup(0))];
      ghost var first := if existing.Some? then Returned(existing.value) else AtCatalog;
      FirstTurn(db.versions, start, path[0], command, first, paid);
      if existing.Some? {
        HolderKnown(before, before, command.idempotencyKey, existing.value);
        assert FoundBy(path[0], command.idempotencyKey, existing.value);
        r := Success(existing.value);
        return;
      }
      Others(db);
      ghost var asked, asking := db.Current(), db.versions;
      RelyFacts(before, asked);
      RelyFacts(asked, asked);
      CatalogStep(asked, command, item, newId, paid);
      TakeTurn(old(db.versions), asking, start, path, Turn(asked, AskCatalog(0, command.itemId, item, newId)),
        before, command, AtCatalog, paid, asked, Quote(command, item, newId), paid);
      path := path + [Turn(asked, AskCatalog(0, command.itemId, item, newId))];
      if item.CatalogFailed? {
        r := Failure(CatalogError);
        return;
      }
      if item.availableQty < command.quantity {
        r := Failure(InsufficientStock);
        return;
      }
      r, path := PlaceOrder(command, item.price, NewOrder(newId, command), start, path);
      ghost var amount := Amounts.Amount(item.price, command.quantity);
      PlacedOutcome(NewOrder(newId, command), amount, payments.reply, asked, path[2], db.Current(),
        paid, payments.requests, r);
      PlacedEarlier(NewOrder(newId, command), amount, payments.reply, before, asked, path[2], db.Current(),
        paid, payments.requests, r);
      RelyTransitive(before, asked, db.Current());
    }

    /** From the second transaction on: the rest of the call of the machine that waits in front of its second lookup. */
    method PlaceOrder(
      command: CreateCommand, price: Amounts.Decimal, order: OrderRow, ghost start: State, ghost done: seq<Turn>)
      returns (r: Result<OrderRow, CreateError>, ghost path: seq<Turn>)
      requires db.Valid() && OrdersSound(db.Current()) && UuidText(order.id) && order == NewOrder(order.id, command)
      requires At(db.versions, start, done, db.Current(), command, AtSecondLookup(order, price), payments.requests)
      modifies db, payments
      ensures db.Valid() && Rely(old(db.Current()), db.Current()) && old(db.versions) <= db.versions
      ensures db.locked == old(db.locked)
      ensures r.Success? ==> r.value.idempotencyKey == command.idempotencyKey && Known(db.Current().orders, r.value)
      ensures done < path && Placed(order, Amounts.Amount(price, command.quantity), payments.reply,
        old(db.Current()), path[|done|], db.Current(), old(payments.requests), payments.requests, r)
      ensures r == Failure(PaymentsError) ==>
        order.id in db.Current().orders && db.Current().orders[order.id].status != New
      ensures Actions(path)
        <= Actions(done) + [SecondLookup(0), Insert(0), RequestPayment(0, payments.reply), CancelUnpaid(0)]
      ensures At(db.versions, start, path, Walk(start, path).store, command, EndOf(r), payments.requests)
      ensures Rely(Walk(start, path).store, db.Current())
    {
      hide Amounts.Amount, InsertOrder, Compensate, Rely, OrdersSound, Known, KeyTaken, UuidText, Walk, Walked,
        CreateStep, Charged;
      ghost var asked, paid, asking := db.Current(), payments.requests, db.versions;
      Others(db);
      ghost var atInsert, versions := db.Current(), db.versions;
      RelyFacts(asked, atInsert);
      RelyFacts(atInsert, atInsert);
      var found, added := AddIfAbsent(order);
      LookupStep(atInsert, command, found, AtSecondLookup(order, price), paid);
      ghost var next := if found.Some? then Returned(found.value) else AtInsert(order, price);
      StaysIn(versions, db.versions, atInsert);
      TakeTurn(asking, db.versions, start, done, Turn(atInsert, SecondLookup(0)),
        asked, command, AtSecondLookup(order, price), paid, atInsert, next, paid);
      path := done + [Turn(atInsert, SecondLookup(0))];
      if found.Some? {
        FoundNotAdded(atInsert, order);
        HolderKnown(asked, atInsert, command.idempotencyKey, found.value);
        r := Success(found.value);
        return;
      }
      ghost var inserted := db.Current();
      InsertStep(atInsert, command, order, price, paid);
      next := if added then AtPayment(order, price) else Raised(IntegrityError);
      TakeTurn(db.versions, db.versions, start, path, Turn(atInsert, Insert(0)),
        atInsert, command, AtInsert(order, price), paid, inserted, next, paid);
      path := path + [Turn(atInsert, Insert(0))];
      if !added {
        RefusedInsert(atInsert, order);
        r := Failure(IntegrityError);
        return;
      }
      InsertKeepsRely(atInsert, order);
      RelyTransitive(asked, atInsert, inserted);
      RelyFacts(asked, inserted);
      r, path := Pay(command, price, order, start, path);
      PaidOrder(order, Amounts.Amount(price, order.quantity), payments.reply, paid, payments.requests, r);
      RelyTransitive(asked, inserted, db.Current());
      RelyFacts(inserted, db.Current());
    }

    /**
     The amount and the payment of an order just added, and what follows its answer: the rest of the call of
     the machine that waits in front of its payment.
     */
    method Pay(
      command: CreateCommand, price: Amounts.Decimal, order: OrderRow, ghost start: State, ghost done: seq<Turn>)
      returns (r: Result<OrderRow, CreateError>, ghost path: seq<Turn>)
      requires db.Valid() && OrdersSound(db.Current()) && Known(db.Current().orders, order)
      requires order.idempotencyKey == command.idempotencyKey
      requires At(db.versions, start, done, db.Current(), command, AtPayment(order, price), payments.requests)
      modifies db, payments
      ensures db.Valid() && Rely(old(db.Current()), db.Current()) && old(db.versions) <= db.versions
      ensures db.locked == old(db.locked)
      ensures Charged(order, Amounts.Amount(price, order.quantity), payments.reply,
        old(payments.requests), payments.requests, r)
      ensures r == Failure(PaymentsError) ==>
        order.id in db.Current().orders && db.Current().orders[order.id].status != New
      ensures done <= path
      ensures Actions(path) <= Actions(done) + [RequestPayment(0, payments.reply), CancelUnpaid(0)]
      ensures At(db.versions, start, path, Walk(start, path).store, command, EndOf(r), payments.requests)
      ensures Rely(Walk(start, path).store, db.Current())
    {
      hide Amounts.Amount, Compensate, Rely, OrdersSound, Known, Walk, Walked, CreateStep;
      ghost var inserted, paid, versions := db.Current(), payments.requests, db.versions;
      ghost var phase := AtPayment(order, price);
      RelyFacts(inserted, inserted);
      var amount := Amounts.Amount(price, order.quantity);
      PaymentStep(inserted, command, order, price, payments.reply, paid);
      if amount.None? {
        path := done + [Turn(inserted, RequestPayment(0, payments.reply))];
        TakeTurn(versions, versions, start, done, Turn(inserted, RequestPayment(0, payments.reply)),
          inserted, command, phase, paid, inserted, Raised(InvalidAmount), paid);
        r := Failure(InvalidAmount);
        return;
      }
      ghost var atRequest, closing;
      r, atRequest, closing := PayFor(order, amount.value);
      PaymentStep(atRequest, command, order, price, payments.reply, paid);
      ghost var after := AfterPayment(order, payments.reply);
      TakeTurn(versions, db.versions, start, done, Turn(atRequest, RequestPayment(0, payments.reply)),
        inserted, command, phase, paid, atRequest, after, payments.requests);
      path := done + [Turn(atRequest, RequestPayment(0, payments.reply))];
      if payments.reply.PaymentsDown? {
        CancelStep(closing, command, order, payments.requests);
        TakeTurn(db.versions, db.versions, start, path, Turn(closing, CancelUnpaid(0)),
          atRequest, command, after, payments.requests, db.Current(), Raised(PaymentsError), payments.requests);
        path := path + [Turn(closing, CancelUnpaid(0))];
      }
    }

    /**
     The payment request of an order just added, and what follows its answer: the stores at the request and
     at the compensation are ones the others left.
     */
    method PayFor(order: OrderRow, cents: int)
      returns (r: Result<OrderRow, CreateError>, ghost atRequest: Store, ghost closing: Store)
      requires db.Valid() && OrdersSound(db.Current()) && Known(db.Current().orders, order)
      modifies db, payments
      ensures db.Valid() && Rely(old(db.Current()), db.Current()) && old(db.versions) <= db.versions
      ensures db.locked == old(db.locked)
      ensures payments.requests == old(payments.requests) + [PaymentRequest(order.id, cents, order.idempotencyKey)]
      ensures EndOf(r) == match payments.reply
        case PaymentCreated => Returned(order)
        case PaymentsDown => Raised(PaymentsError)
        case PaymentsCrashed => Raised(Unexpected)
      ensures r == Failure(PaymentsError) ==>
        order.id in db.Current().orders && db.Current().orders[order.id].status != New
      ensures atRequest in db.versions && Rely(old(db.Current()), atRequest) && Rely(atRequest, db.Current())
      ensures payments.reply.PaymentsDown? ==>
        && closing in db.versions && Rely(atRequest, closing)
        && db.Current() == Closed(closing, order.id) && Rely(db.Current(), db.Current())
    {
      hide Compensate, Rely, OrdersSound;
      ghost var before := db.Current();
      RelyFacts(before, before);
      Others(db);
      atRequest := db.Current();
      RelyFacts(before, atRequest);
      var answer := payments.CreatePayment(PaymentRequest(order.id, cents, order.idempotencyKey));
      ghost var versions := db.versions;
      Others(db);
      closing := db.Current();
      StaysIn(versions, db.versions, atRequest);
      RelyTransitive(before, atRequest, closing);
      RelyFacts(before, closing);
      match answer {
        case PaymentCreated =>
          r := Success(order);
        case PaymentsCrashed =>
          r := Failure(Unexpected);
        case PaymentsDown =>
          versions := db.versions;
          CancelIfNew(order.id);
          StaysIn(versions, db.versions, atRequest);
          StaysIn(versions, db.versions, closing);
          CancelKeepsRely(closing, order.id);
          RelyTransitive(before, closing, db.Current());
          RelyTransitive(atRequest, closing, db.Current());
          RelyFacts(before, db.Current());
          RelyFacts(db.Current(), db.Current());
          r := Failure(PaymentsError);
      }
    }
  }
}
