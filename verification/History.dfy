/**
 The outbox against the history of the orders. The history is what an observer sees who compares
 the committed orders before and after every step; it does not look at the outbox.
 */
module History {
  import opened Wrappers
  import opened Entities
  import opened Transitions
  import opened OutboxWorker
  import opened Protocol
  import opened Creates
  import N = OrderNotifications

  type Orders = map<string, OrderRow>

  /** The status an order is seen entering between two committed stores, if any. */
  function Entered(before: Orders, after: Orders, id: string): seq<OrderStatus> {
    if id in after && (id !in before || before[id].status != after[id].status) then [after[id].status] else []
  }

  ghost function StatusHistory(config: Config, actions: seq<Action>, id: string): seq<OrderStatus> {
    if actions == [] then []
    else
      var before := actions[..|actions| - 1];
      StatusHistory(config, before, id)
        + Entered(Run(config, before).store.orders, Run(config, actions).store.orders, id)
  }

  /** The order an outbox event is about. */
  function Subject(event: OutboxEvent): string {
    Get(event.payload, if N.IsNotification(event.eventType) then "reference_id" else "order_id").AsText()
  }

  /** The types of the events about one order, in outbox order. */
  function TypesAbout(events: seq<OutboxEvent>, id: string): seq<string> {
    if events == [] then []
    else
      var last := events[|events| - 1];
      TypesAbout(events[..|events| - 1], id) + (if Subject(last) == id then [last.eventType] else [])
  }

  function TypesOf(status: OrderStatus): seq<string> {
    if status == Paid then [ORDER_PAID, N.EventType(Paid)] else [N.EventType(status)]
  }

  function ExpectedTypes(history: seq<OrderStatus>): seq<string> {
    if history == [] then []
    else ExpectedTypes(history[..|history| - 1]) + TypesOf(history[|history| - 1])
  }

  predicate LegalHistory(history: seq<OrderStatus>) {
    && (history != [] ==> history[0] == New)
    && forall i :: 0 < i < |history| ==> LegalMove(history[i - 1], history[i])
  }

  lemma {:induction false} TypesAboutConcat(a: seq<OutboxEvent>, b: seq<OutboxEvent>, id: string)
    ensures TypesAbout(a + b, id) == TypesAbout(a, id) + TypesAbout(b, id)
  {
    hide Subject;
    if b == [] {
      assert a + b == a;
    } else {
      TypesAboutConcat(a, b[..|b| - 1], id);
      assert (a + b)[..|a + b| - 1] == a + b[..|b| - 1];
    }
  }

  lemma {:induction false} BuiltEvents(order: OrderRow, status: OrderStatus, reason: Option<string>)
    ensures var e := N.ForOrder(order, status, reason);
      e.eventType == N.EventType(status) && N.IsNotification(e.eventType) && Subject(e) == order.id
    ensures var p := N.OrderPaidEvent(order);
      p.eventType == ORDER_PAID && !N.IsNotification(p.eventType) && Subject(p) == order.id
  {
    N.RoutingSeparates(status, status);
  }

  lemma {:induction false} OneEvent(e: OutboxEvent, id: string)
    ensures TypesAbout([e], id) == if Subject(e) == id then [e.eventType] else []
  {
    assert [e][..0] == [];
  }

  /** The events of a change are about the order that changed, and are those of the status it enters. */
  lemma {:induction false} EmittedTypes(store: Store, change: Change, id: string)
    requires Keyed(store) && LegalChange(store, change)
    requires change.Created? ==> change.order.status == New
    ensures TypesAbout(Emitted(store.orders, change), id)
         == ExpectedTypes(Entered(store.orders, NewOrders(store.orders, change), id))
  {
    hide N.ForOrder, N.OrderPaidEvent, Subject, N.EventType;
    var entered := Entered(store.orders, NewOrders(store.orders, change), id);
    assert entered != [] ==> entered[..0] == [] && ExpectedTypes([]) == [];
    match change {
      case Nothing =>
      case Created(order) =>
        BuiltEvents(order, New, None);
        OneEvent(N.ForOrder(order, New, None), id);
      case Moved(moved, status, reason) =>
        var order := store.orders[moved].(status := status);
        BuiltEvents(order, status, reason);
        OneEvent(N.ForOrder(order, status, reason), id);
        OneEvent(N.OrderPaidEvent(order), id);
        TypesAboutConcat([N.OrderPaidEvent(order)], [N.ForOrder(order, status, reason)], id);
    }
  }

  lemma {:induction false} ExpectedTypesExtends(history: seq<OrderStatus>, entered: seq<OrderStatus>)
    requires |entered| <= 1
    ensures ExpectedTypes(history + entered) == ExpectedTypes(history) + ExpectedTypes(entered)
  {
    if entered == [] {
      assert history + entered == history;
    } else {
      assert (history + entered)[..|history|] == history;
      assert entered[..0] == [];
    }
  }

  /** The history ends in the current status of the order, or is empty for an order never created. */
  predicate EndsIn(history: seq<OrderStatus>, orders: Orders, id: string) {
    if id in orders then history != [] && history[|history| - 1] == orders[id].status else history == []
  }

  lemma {:induction false} HistoryStep(h: seq<OrderStatus>, store: Store, change: Change, id: string)
    requires LegalHistory(h) && EndsIn(h, store.orders, id)
    requires Keyed(store) && LegalChange(store, change)
    requires change.Created? ==> change.order.status == New
    ensures var after := NewOrders(store.orders, change); var longer := h + Entered(store.orders, after, id);
      LegalHistory(longer) && EndsIn(longer, after, id)
  {
    var after := NewOrders(store.orders, change);
    var longer := h + Entered(store.orders, after, id);
    if |longer| > |h| {
      assert longer[|h|] == after[id].status;
      assert h != [] ==> longer[|h| - 1] == store.orders[id].status;
    }
  }

  lemma {:induction false} HistoryExtends(config: Config, before: seq<Action>, a: Action, id: string)
    ensures StatusHistory(config, before + [a], id) == StatusHistory(config, before, id)
      + Entered(Run(config, before).store.orders, Run(config, before + [a]).store.orders, id)
  {
    assert (before + [a])[..|before|] == before;
  }

  /** The change a run makes with its last action, with all that is known about it. */
  lemma {:induction false} LastChange(config: Config, before: seq<Action>, a: Action) returns (change: Change)
    ensures change == ChangeOf(Run(config, before), a)
    ensures var s := Run(config, before);
      && Keyed(s.store)
      && (change.Created? ==> change.order.status == New && UuidText(change.order.id))
      && Explains(s.store, change, Run(config, before + [a]).store)
  {
    hide Step, ChangeOf, Explains;
    RunSplits(config, before, a);
    RunSound(config, before);
    change := ChangeOf(Run(config, before), a);
    StepChange(config, Run(config, before), a);
    NewIdIsUuid(Run(config, before), a);
  }

  lemma {:induction false} HistoryTracked(config: Config, actions: seq<Action>, id: string)
    ensures LegalHistory(StatusHistory(config, actions, id))
    ensures EndsIn(StatusHistory(config, actions, id), Run(config, actions).store.orders, id)
  {
    if actions != [] {
      hide LegalHistory, EndsIn, StatusHistory, Step, Entered, LegalChange, NewOrders, ChangeOf;
      var before, a := actions[..|actions| - 1], actions[|actions| - 1];
      assert before + [a] == actions;
      HistoryTracked(config, before, id);
      var change := LastChange(config, before, a);
      HistoryExtends(config, before, a, id);
      HistoryStep(StatusHistory(config, before, id), Run(config, before).store, change, id);
    }
  }

  lemma {:induction false} TypesTracked(config: Config, actions: seq<Action>, id: string)
    ensures TypesAbout(Events(Run(config, actions).store.outbox), id)
         == ExpectedTypes(StatusHistory(config, actions, id))
  {
    if actions != [] {
      hide StatusHistory, Step, NewOrders, LegalChange, ChangeOf, Emitted, TypesAbout, ExpectedTypes;
      var before, a := actions[..|actions| - 1], actions[|actions| - 1];
      assert before + [a] == actions;
      TypesTracked(config, before, id);
      var change := LastChange(config, before, a);
      var s, t := Run(config, before), Run(config, actions);
      HistoryExtends(config, before, a, id);
      EmittedTypes(s.store, change, id);
      TypesAboutConcat(Events(s.store.outbox), Emitted(s.store.orders, change), id);
      ExpectedTypesExtends(StatusHistory(config, before, id), Entered(s.store.orders, t.store.orders, id));
    }
  }

  /** There are seven legal histories, and none enters a status twice. */
  lemma {:induction false} LegalHistories(h: seq<OrderStatus>)
    requires LegalHistory(h)
    ensures h in [[], [New], [New, Paid], [New, Shipped], [New, Cancelled],
                  [New, Paid, Shipped], [New, Paid, Cancelled]]
    ensures forall status :: multiset(h)[status] == if status in h then 1 else 0
  {
    if |h| >= 2 {
      assert LegalMove(h[0], h[1]);
    }
    if |h| >= 3 {
      assert LegalMove(h[1], h[2]);
    }
    assert |h| > 3 ==> !LegalMove(h[2], h[3]);
    assert |h| <= 3;
    assert h == if |h| == 0 then [] else if |h| == 1 then [h[0]]
      else if |h| == 2 then [h[0], h[1]] else [h[0], h[1], h[2]];
  }

  lemma {:induction false} TypesOfOnce(status: OrderStatus)
    ensures multiset(TypesOf(status))[ORDER_PAID] == if status == Paid then 1 else 0
    ensures forall other :: multiset(TypesOf(status))[N.EventType(other)] == if other == status then 1 else 0
    ensures |TypesOf(status)| == if status == Paid then 2 else 1
  {
    hide N.EventType;
    forall other
      ensures N.EventType(other) == N.EventType(status) <==> other == status
      ensures N.EventType(other) != ORDER_PAID
    {
      N.RoutingSeparates(other, status);
    }
  }

  lemma {:induction false} ExpectedCounts(h: seq<OrderStatus>)
    ensures multiset(ExpectedTypes(h))[ORDER_PAID] == multiset(h)[Paid]
    ensures forall status :: multiset(ExpectedTypes(h))[N.EventType(status)] == multiset(h)[status]
    ensures |ExpectedTypes(h)| == |h| + multiset(h)[Paid]
  {
    hide N.EventType, TypesOf;
    if h != [] {
      var init, last := h[..|h| - 1], h[|h| - 1];
      ExpectedCounts(init);
      TypesOfOnce(last);
      assert h == init + [last];
    }
  }

  /**
   The outbox mirrors the history exactly: about every order it holds, in order, one notification
   for each status the order was ever seen entering, none for any other, and one `order.paid`
   exactly for the orders ever seen entering PAID; never more than four rows.
   */
  lemma {:induction false} OutboxMirrorsHistory(config: Config, actions: seq<Action>, id: string)
    ensures
      var h := StatusHistory(config, actions, id);
      var types := TypesAbout(Events(Run(config, actions).store.outbox), id);
      && types == ExpectedTypes(h)
      && LegalHistory(h) && EndsIn(h, Run(config, actions).store.orders, id)
      && multiset(types)[ORDER_PAID] == (if Paid in h then 1 else 0)
      && (forall status :: multiset(types)[N.EventType(status)] == if status in h then 1 else 0)
      && |types| == |h| + (if Paid in h then 1 else 0) <= 4
  {
    hide *;
    HistoryTracked(config, actions, id);
    TypesTracked(config, actions, id);
    var h := StatusHistory(config, actions, id);
    LegalHistories(h);
    ExpectedCounts(h);
  }

  // ---------------------------------------------------------------- the size of the outbox

  function Entering(before: Orders, after: Orders): set<string> {
    set id | id in after && Entered(before, after, id) != []
  }

  /** How often, over the run, any order was seen entering a status. */
  ghost function StatusEntries(config: Config, actions: seq<Action>): nat {
    if actions == [] then 0
    else
      var before := actions[..|actions| - 1];
      StatusEntries(config, before)
        + |Entering(Run(config, before).store.orders, Run(config, actions).store.orders)|
  }

  ghost function EverPaid(config: Config, actions: seq<Action>): set<string> {
    set id | id in Run(config, actions).store.orders && Paid in StatusHistory(config, actions, id)
  }

  lemma {:induction false} ChangeEnters(store: Store, change: Change)
    requires LegalChange(store, change)
    ensures var after := NewOrders(store.orders, change);
      && Entering(store.orders, after) ==
           (match change case Nothing => {} case Created(order) => {order.id} case Moved(id, _, _) => {id})
      && |Emitted(store.orders, change)| == |Entering(store.orders, after)|
           + (if change.Moved? && change.status == Paid then 1 else 0)
  {
    hide N.ForOrder, N.OrderPaidEvent;
  }

  lemma {:induction false} PaidEntered(config: Config, before: seq<Action>, a: Action, id: string)
    ensures var change := ChangeOf(Run(config, before), a);
      var paid := change.Moved? && change.status == Paid && change.id == id;
      && (Paid in StatusHistory(config, before + [a], id) <==> Paid in StatusHistory(config, before, id) || paid)
      && (paid ==> Paid !in StatusHistory(config, before, id))
    ensures Paid in StatusHistory(config, before, id) ==> id in Run(config, before).store.orders
  {
    hide Run, Emitted, LegalHistory, ChangeOf, StatusHistory;
    var change := LastChange(config, before, a);
    HistoryExtends(config, before, a, id);
    HistoryTracked(config, before, id);
    LegalHistories(StatusHistory(config, before, id));
  }

  lemma {:induction false} PaidGrows(config: Config, before: seq<Action>, a: Action)
    ensures |EverPaid(config, before + [a])| == |EverPaid(config, before)|
      + var change := ChangeOf(Run(config, before), a);
        if change.Moved? && change.status == Paid then 1 else 0
  {
    hide Run, ChangeOf, StatusHistory;
    var change := ChangeOf(Run(config, before), a);
    var entered := if change.Moved? && change.status == Paid then {change.id} else {};
    forall id: string
      ensures id in EverPaid(config, before + [a]) <==> id in EverPaid(config, before) || id in entered
      ensures id in entered ==> id !in EverPaid(config, before)
    {
      PaidEntered(config, before, a, id);
      HistoryTracked(config, before, id);
      HistoryTracked(config, before + [a], id);
    }
    assert EverPaid(config, before + [a]) == EverPaid(config, before) + entered;
  }

  lemma {:induction false} EventsLength(outbox: seq<OutboxRow>)
    ensures |Events(outbox)| == |outbox|
  {
  }

  /** The outbox has one row per status entry and one more per order ever paid. */
  lemma {:induction false} OutboxSize(config: Config, actions: seq<Action>)
    ensures |Run(config, actions).store.outbox| == StatusEntries(config, actions) + |EverPaid(config, actions)|
  {
    if actions == [] {
      assert EverPaid(config, actions) == {};
    } else {
      hide Step, ChangeOf, StatusHistory, Emitted, Entering, NewOrders, LegalChange, Events, EverPaid;
      var before, a := actions[..|actions| - 1], actions[|actions| - 1];
      assert before + [a] == actions;
      OutboxSize(config, before);
      var change := LastChange(config, before, a);
      ChangeEnters(Run(config, before).store, change);
      PaidGrows(config, before, a);
      EventsLength(Run(config, before).store.outbox);
      EventsLength(Run(config, actions).store.outbox);
    }
  }
}
