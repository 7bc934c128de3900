/** Where orders and charges come from: the catalog answer a create call was given. */
module Provenance {
  import opened Wrappers
  import opened Entities
  import opened Transitions
  import opened Amounts
  import opened OutboxWorker
  import opened Protocol
  import Creates
  import H = History
  import OrderNotifications

  /** The catalog was asked for this item, for the order with this id, and offers the quantity at this price. */
  predicate Quotes(a: Action, id: string, itemId: string, price: Decimal, quantity: int) {
    && a.AskCatalog? && a.id == id && a.itemId == itemId
    && a.item.Item? && a.item.price == price && a.item.availableQty >= quantity
  }

  /** In this run the catalog offered enough stock of the item at this price for the order with this id. */
  predicate Quoted(actions: seq<Action>, id: string, itemId: string, price: Decimal, quantity: int) {
    exists i :: 0 <= i < |actions| && Quotes(actions[i], id, itemId, price, quantity)
  }

  /** The order and price a call carries. */
  predicate Carries(call: CreateCall, order: OrderRow, price: Decimal) {
    match call.phase
    case AtSecondLookup(o, p) => o == order && p == price
    case AtInsert(o, p) => o == order && p == price
    case AtPayment(o, p) => o == order && p == price
    case _ => false
  }

  ghost predicate OrderQuoted(actions: seq<Action>, order: OrderRow) {
    exists price :: Quoted(actions, order.id, order.itemId, price, order.quantity)
  }

  ghost predicate ChargeQuoted(actions: seq<Action>, request: PaymentRequest, order: OrderRow) {
    exists price ::
      Quoted(actions, request.orderId, order.itemId, price, order.quantity)
      && Amount(price, order.quantity) == Some(request.cents)
  }

  ghost predicate Traced(s: State, actions: seq<Action>) {
    && (forall c, order, price :: c in s.calls && Carries(s.calls[c], order, price) ==>
          Quoted(actions, order.id, order.itemId, price, order.quantity))
    && (forall id :: id in s.store.orders ==> OrderQuoted(actions, s.store.orders[id]))
    && (forall i :: 0 <= i < |s.payments| ==>
          s.payments[i].orderId in s.store.orders
          && ChargeQuoted(actions, s.payments[i], s.store.orders[s.payments[i].orderId]))
  }

  lemma {:induction false} QuotedLonger(
    before: seq<Action>, a: Action, id: string, itemId: string, price: Decimal, quantity: int)
    ensures Quoted(before + [a], id, itemId, price, quantity) <==>
      Quoted(before, id, itemId, price, quantity) || Quotes(a, id, itemId, price, quantity)
  {
    var actions := before + [a];
    assert actions[|before|] == a;
    if i :| 0 <= i < |before| && Quotes(before[i], id, itemId, price, quantity) {
      assert actions[i] == before[i];
    }
    if i :| 0 <= i < |actions| && Quotes(actions[i], id, itemId, price, quantity) {
      assert i < |before| ==> before[i] == actions[i];
    }
  }

  /** A call carries on what it carried, or takes up what the catalog just answered. */
  lemma {:induction false} CarriesStep(config: Config, s: State, a: Action, c: nat, order: OrderRow, price: Decimal)
    requires c in Step(config, s, a).calls && Carries(Step(config, s, a).calls[c], order, price)
    ensures (c in s.calls && Carries(s.calls[c], order, price))
      || Quotes(a, order.id, order.itemId, price, order.quantity)
  {
    hide OrderNotifications.ForOrder, Amount, PaymentCallback, ShipmentEvent, Outbox.MarkAll, Outbox.Select, Possible,
      FindByKey, KeyTaken, InsertOrder, Compensate;
  }

  lemma {:induction false} CreatedCarried(s: State, a: Action) returns (price: Decimal)
    requires ChangeOf(s, a).Created?
    ensures a.Insert? && a.call in s.calls && Carries(s.calls[a.call], ChangeOf(s, a).order, price)
  {
    hide Lower, CallbackReason, ShipmentReason, InsertOrder, Compensate;
    price := s.calls[a.call].phase.price;
  }

  lemma {:induction false} OrderTraced(config: Config, before: seq<Action>, a: Action, id: string)
    requires Traced(Run(config, before), before)
    requires id in Run(config, before + [a]).store.orders
    ensures OrderQuoted(before + [a], Run(config, before + [a]).store.orders[id])
  {
    hide Run, Quoted, Emitted, ChangeOf, Carries;
    var s, t := Run(config, before), Run(config, before + [a]);
    var change := H.LastChange(config, before, a);
    if id in s.store.orders {
      Creates.ChangePersists(s.store, change);
      assert OrderQuoted(before, s.store.orders[id]);
      var order := s.store.orders[id];
      var price :| Quoted(before, order.id, order.itemId, price, order.quantity);
      QuotedLonger(before, a, order.id, order.itemId, price, order.quantity);
    } else {
      var price := CreatedCarried(s, a);
      QuotedLonger(before, a, change.order.id, change.order.itemId, price, change.order.quantity);
    }
  }

  /** The request a step makes, if it makes one: for the order and at the price the call carries. */
  lemma {:induction false} PaymentStep(config: Config, s: State, a: Action)
    ensures var t := Step(config, s, a);
      t.payments == s.payments ||
      (&& a.RequestPayment? && a.call in s.calls && s.calls[a.call].phase.AtPayment?
       && var call := s.calls[a.call]; var order, price := call.phase.order, call.phase.price;
          Amount(price, order.quantity).Some?
          && t.payments == s.payments
               + [PaymentRequest(order.id, Amount(price, order.quantity).value, call.command.idempotencyKey)])
  {
    hide OrderNotifications.ForOrder, Amount, PaymentCallback, ShipmentEvent, Outbox.MarkAll, Outbox.Select, Possible,
      Lookup, Quote, AfterPayment, InsertOrder, Compensate;
  }

  lemma {:induction false} PaymentTraced(config: Config, before: seq<Action>, a: Action, i: nat)
    requires Traced(Run(config, before), before)
    requires Creates.Sound(Run(config, before)) && Creates.Persist(
      Run(config, before).store.orders, Run(config, before + [a]).store.orders)
    requires i < |Run(config, before + [a]).payments|
    ensures var t := Run(config, before + [a]);
      t.payments[i].orderId in t.store.orders
      && ChargeQuoted(before + [a], t.payments[i], t.store.orders[t.payments[i].orderId])
  {
    RunSplits(config, before, a);
    hide Run, Quoted, Amount, Step;
    var s, t := Run(config, before), Run(config, before + [a]);
    PaymentStep(config, s, a);
    if i < |s.payments| {
      assert t.payments[i] == s.payments[i];
      var id := s.payments[i].orderId;
      var order := s.store.orders[id];
      assert ChargeQuoted(before, s.payments[i], order);
      var price :| Quoted(before, id, order.itemId, price, order.quantity)
        && Amount(price, order.quantity) == Some(s.payments[i].cents);
      QuotedLonger(before, a, id, order.itemId, price, order.quantity);
    } else {
      var call := s.calls[a.call];
      var order, price := call.phase.order, call.phase.price;
      assert Creates.CallSound(s.store.orders, call);
      assert Carries(call, order, price);
      QuotedLonger(before, a, order.id, order.itemId, price, order.quantity);
    }
  }

  lemma {:induction false} RunTraced(config: Config, actions: seq<Action>)
    ensures Traced(Run(config, actions), actions)
  {
    if actions != [] {
      var before, a := actions[..|actions| - 1], actions[|actions| - 1];
      assert before + [a] == actions;
      RunTraced(config, before);
      Creates.RunSound(config, before);
      Creates.StepSound(config, Run(config, before), a);
      hide Creates.Sound, Step, Quoted, OrderQuoted, ChargeQuoted, Carries, Quotes;
      var s, t := Run(config, before), Run(config, actions);
      forall c, order, price | c in t.calls && Carries(t.calls[c], order, price)
        ensures Quoted(actions, order.id, order.itemId, price, order.quantity)
      {
        CarriesStep(config, s, a, c, order, price);
        QuotedLonger(before, a, order.id, order.itemId, price, order.quantity);
      }
      forall id | id in t.store.orders
        ensures OrderQuoted(actions, t.store.orders[id])
      {
        OrderTraced(config, before, a, id);
      }
      forall i | 0 <= i < |t.payments|
        ensures t.payments[i].orderId in t.store.orders
          && ChargeQuoted(actions, t.payments[i], t.store.orders[t.payments[i].orderId])
      {
        PaymentTraced(config, before, a, i);
      }
    }
  }

  /** Every committed order was offered in full, under its own item, before it was committed. */
  lemma {:induction false} OrdersWereInStock(config: Config, actions: seq<Action>, id: string)
    requires id in Run(config, actions).store.orders
    ensures var order := Run(config, actions).store.orders[id];
      exists price :: Quoted(actions, id, order.itemId, price, order.quantity)
  {
    hide Run, Quoted;
    RunTraced(config, actions);
    Creates.RunSound(config, actions);
    assert OrderQuoted(actions, Run(config, actions).store.orders[id]);
  }

  /** Every payment request charges the price quoted for the item of its order times the quantity of that order. */
  lemma {:induction false} ChargesWereQuoted(config: Config, actions: seq<Action>, i: nat)
    requires i < |Run(config, actions).payments|
    ensures var s := Run(config, actions); var request := s.payments[i];
      && request.orderId in s.store.orders
      && var order := s.store.orders[request.orderId];
         exists price ::
           Quoted(actions, request.orderId, order.itemId, price, order.quantity)
           && Amount(price, order.quantity) == Some(request.cents)
  {
    hide Run, Quoted, Amount;
    RunTraced(config, actions);
    var s := Run(config, actions);
    assert ChargeQuoted(actions, s.payments[i], s.store.orders[s.payments[i].orderId]);
  }

  // ---------------------------------------------------------------- the command behind an order

  predicate Begins(a: Action, command: CreateCommand) {
    a.Begin? && a.create == command
  }

  /** In this run somebody asked for exactly this order. */
  predicate Asked(actions: seq<Action>, command: CreateCommand) {
    exists i :: 0 <= i < |actions| && Begins(actions[i], command)
  }

  predicate AskedFor(actions: seq<Action>, order: OrderRow) {
    Asked(actions, CreateCommand(order.userId, order.itemId, order.quantity, order.idempotencyKey))
  }

  lemma {:induction false} AskedLonger(before: seq<Action>, a: Action, command: CreateCommand)
    ensures Asked(before + [a], command) <==> Asked(before, command) || Begins(a, command)
  {
    var actions := before + [a];
    assert actions[|before|] == a;
    if i :| 0 <= i < |before| && Begins(before[i], command) {
      assert actions[i] == before[i];
    }
    if i :| 0 <= i < |actions| && Begins(actions[i], command) {
      assert i < |before| ==> before[i] == actions[i];
    }
  }

  lemma {:induction false} CommandStep(config: Config, s: State, a: Action, c: nat)
    requires c in Step(config, s, a).calls
    ensures (c in s.calls && Step(config, s, a).calls[c].command == s.calls[c].command)
      || Begins(a, Step(config, s, a).calls[c].command)
  {
    hide OrderNotifications.ForOrder, Amount, PaymentCallback, ShipmentEvent, Outbox.MarkAll, Outbox.Select, Possible,
      Lookup, Quote, AfterPayment, InsertOrder, Compensate;
  }

  lemma {:induction false} CommandsAsked(config: Config, actions: seq<Action>, c: nat)
    requires c in Run(config, actions).calls
    ensures Asked(actions, Run(config, actions).calls[c].command)
  {
    if actions != [] {
      hide Step, Asked;
      var before, a := actions[..|actions| - 1], actions[|actions| - 1];
      assert actions == before + [a];
      CommandStep(config, Run(config, before), a, c);
      AskedLonger(before, a, Run(config, actions).calls[c].command);
      if c in Run(config, before).calls {
        CommandsAsked(config, before, c);
      }
    }
  }

  /** What an insert commits is what its call was asked for. */
  lemma {:induction false} CreatedAsCommanded(s: State, a: Action)
    requires Creates.Sound(s) && ChangeOf(s, a).Created?
    ensures a.Insert? && a.call in s.calls
    ensures var order, command := ChangeOf(s, a).order, s.calls[a.call].command;
      CreateCommand(order.userId, order.itemId, order.quantity, order.idempotencyKey) == command
  {
    hide Lower, CallbackReason, ShipmentReason, InsertOrder, Compensate;
    assert Creates.CallSound(s.store.orders, s.calls[a.call]);
  }

  lemma {:induction false} NoOrders(config: Config)
    ensures Run(config, []).store.orders == map[]
  {
  }

  /** Every committed order has the user, item, quantity and key of a command somebody gave. */
  lemma {:induction false} OrdersWereAsked(config: Config, actions: seq<Action>, id: string)
    requires id in Run(config, actions).store.orders
    ensures AskedFor(actions, Run(config, actions).store.orders[id])
  {
    hide Run, Asked, ChangeOf, Emitted, Creates.Sound;
    assert actions != [] by {
      hide *;
      NoOrders(config);
    }
    var before, a := actions[..|actions| - 1], actions[|actions| - 1];
    assert actions == before + [a];
    var change := H.LastChange(config, before, a);
    var s, order := Run(config, before), Run(config, actions).store.orders[id];
    var command := CreateCommand(order.userId, order.itemId, order.quantity, order.idempotencyKey);
    AskedLonger(before, a, command);
    if id in s.store.orders {
      Creates.ChangePersists(s.store, change);
      OrdersWereAsked(config, before, id);
    } else {
      Creates.RunSound(config, before);
      CreatedAsCommanded(s, a);
      CommandsAsked(config, before, a.call);
    }
  }
}
