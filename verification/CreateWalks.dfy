/**
 One create call on its own: the steps it takes over the stores that everybody else leaves it. The
 imperative call takes such a walk, and every run of the machine is one for each of its calls.
 */
module CreateWalks {
  import opened Wrappers
  import opened Entities
  import opened Transitions
  import opened Protocol
  import opened Creates
  import opened OutboxWorker
  import Amounts
  import Outbox
  import N = OrderNotifications

  type CreateAction = a: Action |
    a.FirstLookup? || a.AskCatalog? || a.SecondLookup? || a.Insert? || a.RequestPayment? || a.CancelUnpaid?
      || a.Abandon?
    witness FirstLookup(0)

  /** A step of the call, and the committed store it finds. */
  datatype Turn = Turn(store: Store, action: CreateAction)

  /** The machine with one create call and nothing else in flight. */
  function Solo(store: Store, command: CreateCommand, phase: Phase, requests: seq<PaymentRequest>): State {
    State(store, map[0 := CreateCall(command, phase)], requests, map[], [], [])
  }

  /** The call takes its steps; before each, others have left the store of that turn. */
  ghost function Walk(start: State, path: seq<Turn>): State {
    if path == [] then start
    else
      var last := path[|path| - 1];
      CreateStep(Walk(start, path[..|path| - 1]).(store := last.store), last.action)
  }

  /** Every store found is a committed one, within the rely of the one left before, and so is every store left. */
  ghost predicate Walked(versions: seq<Store>, start: State, path: seq<Turn>) {
    path != [] ==>
      var init, last := path[..|path| - 1], path[|path| - 1];
      && Walked(versions, start, init)
      && Rely(Walk(start, init).store, last.store)
      && last.store in versions
      && Walk(start, path).store in versions
  }

  function Actions(path: seq<Turn>): seq<Action> {
    seq(|path|, i requires 0 <= i < |path| => path[i].action)
  }

  function CreateActions(command: CreateCommand, item: CatalogReply, id: string, reply: PaymentReply): seq<Action> {
    [FirstLookup(0), AskCatalog(0, command.itemId, item, id), SecondLookup(0), Insert(0), RequestPayment(0, reply),
     CancelUnpaid(0)]
  }

  function EndOf(r: Result<OrderRow, CreateError>): Phase {
    match r
    case Success(order) => Returned(order)
    case Failure(error) => Raised(error)
  }

  /** The committed order that has the key. */
  predicate Holder(store: Store, key: string, order: OrderRow) {
    order.idempotencyKey == key && order.id in store.orders && store.orders[order.id] == order
  }

  /** The turn is a lookup that finds the order under the key. */
  predicate FoundBy(turn: Turn, key: string, order: OrderRow) {
    (turn.action.FirstLookup? || turn.action.SecondLookup?) && Holder(turn.store, key, order)
  }

  ghost predicate At(
    versions: seq<Store>, start: State, path: seq<Turn>,
    store: Store, command: CreateCommand, phase: Phase, requests: seq<PaymentRequest>)
  {
    Walked(versions, start, path) && Walk(start, path) == Solo(store, command, phase, requests)
  }

  lemma {:induction false} StaysIn(versions: seq<Store>, later: seq<Store>, store: Store)
    requires versions <= later && store in versions
    ensures store in later
  {
    var i :| 0 <= i < |versions| && versions[i] == store;
    assert later[i] == store;
  }

  lemma {:induction false} RelyFacts(a: Store, b: Store)
    requires OrdersSound(a) && (a == b || Rely(a, b))
    ensures Rely(a, b) && OrdersSound(b) && Keyed(b)
    ensures forall id :: id in a.orders ==> id in b.orders
    ensures forall order :: Known(a.orders, order) ==> Known(b.orders, order)
  {
  }

  lemma {:induction false} HolderKnown(before: Store, now: Store, key: string, order: OrderRow)
    requires Rely(before, now) && Holder(now, key, order)
    ensures Known(now.orders, order)
  {
  }

  lemma {:induction false} FoundNotAdded(store: Store, order: OrderRow)
    requires KeyTaken(store.orders, order.idempotencyKey)
    ensures InsertOrder(store, order) == None
  {
  }

  lemma {:induction false} RefusedInsert(store: Store, order: OrderRow)
    requires InsertOrder(store, order) == None && !KeyTaken(store.orders, order.idempotencyKey)
    ensures order.id in store.orders
  {
  }

  lemma {:induction false} InsertKeepsRely(store: Store, order: OrderRow)
    requires OrdersSound(store) && UuidText(order.id) && InsertOrder(store, order).Some?
    ensures var after := InsertOrder(store, order).value;
      Rely(store, after) && Known(after.orders, order) && order.id !in store.orders
  {
    hide N.ForOrder;
    OrdersStaySound(INIT.(store := store), Created(order), InsertOrder(store, order).value);
  }

  lemma {:induction false} CancelKeepsRely(store: Store, id: string)
    requires OrdersSound(store) && id in store.orders
    ensures var after := match Compensate(store, id) case None => store case Some(c) => c;
      Rely(store, after) && id in after.orders && after.orders[id].status != New
  {
    hide N.ForOrder;
    if Compensate(store, id).Some? {
      OrdersStaySound(INIT.(store := store), Moved(id, Cancelled, Some(PAYMENT_ERROR)), Compensate(store, id).value);
    }
  }

  lemma {:induction false} WalkedLater(versions: seq<Store>, later: seq<Store>, start: State, path: seq<Turn>)
    requires Walked(versions, start, path) && versions <= later
    ensures Walked(later, start, path)
  {
    if path != [] {
      WalkedLater(versions, later, start, path[..|path| - 1]);
    }
  }

  lemma {:induction false} TakeTurn(
    versions: seq<Store>, later: seq<Store>, start: State, path: seq<Turn>, turn: Turn,
    store: Store, command: CreateCommand, phase: Phase, requests: seq<PaymentRequest>,
    left: Store, next: Phase, made: seq<PaymentRequest>)
    requires At(versions, start, path, store, command, phase, requests) && versions <= later
    requires Rely(store, turn.store) && turn.store in later && left in later
    requires CreateStep(Solo(turn.store, command, phase, requests), turn.action) == Solo(left, command, next, made)
    ensures At(later, start, path + [turn], left, command, next, made)
  {
    hide Rely, CreateStep;
    WalkedLater(versions, later, start, path);
    assert (path + [turn])[..|path|] == path;
    assert Walk(start, path).(store := turn.store) == Solo(turn.store, command, phase, requests);
  }

  lemma {:induction false} FirstTurn(
    versions: seq<Store>, start: State, turn: Turn, command: CreateCommand, next: Phase, requests: seq<PaymentRequest>)
    requires OrdersSound(turn.store) && turn.store in versions
    requires start == Solo(turn.store, command, AtFirstLookup, requests)
    requires CreateStep(start, turn.action) == Solo(turn.store, command, next, requests)
    ensures At(versions, start, [turn], turn.store, command, next, requests)
  {
    RelyFacts(turn.store, turn.store);
    assert At(versions, start, [], turn.store, command, AtFirstLookup, requests);
    TakeTurn(versions, versions, start, [], turn, turn.store, command, AtFirstLookup, requests,
      turn.store, next, requests);
    assert [] + [turn] == [turn];
  }

  lemma {:induction false} FindByKeyIs(store: Store, key: string, order: OrderRow)
    requires Keyed(store) && UniqueKeys(store.orders) && Holder(store, key, order)
    ensures FindByKey(store.orders, key) == Some(order)
  {
  }

  lemma {:induction false} LookupStep(
    store: Store, command: CreateCommand, found: Option<OrderRow>, phase: Phase, requests: seq<PaymentRequest>)
    requires OrdersSound(store) && (phase.AtFirstLookup? || phase.AtSecondLookup?)
    requires found.None? <==> !KeyTaken(store.orders, command.idempotencyKey)
    requires found.Some? ==> Holder(store, command.idempotencyKey, found.value)
    ensures var (action, next) :=
        if phase.AtFirstLookup? then (FirstLookup(0), AtCatalog)
        else (SecondLookup(0), AtInsert(phase.order, phase.price));
      CreateStep(Solo(store, command, phase, requests), action)
        == Solo(store, command, if found.Some? then Returned(found.value) else next, requests)
  {
    if found.Some? {
      FindByKeyIs(store, command.idempotencyKey, found.value);
    }
  }

  lemma {:induction false} CatalogStep(
    store: Store, command: CreateCommand, item: CatalogReply, id: string, requests: seq<PaymentRequest>)
    requires UuidText(id)
    ensures CreateStep(Solo(store, command, AtCatalog, requests), AskCatalog(0, command.itemId, item, id))
         == Solo(store, command, Quote(command, item, id), requests)
  {
    hide Quote;
  }

  /** What the catalog answer decides: an error, too little in stock, or going on with the order at that price. */
  lemma {:induction false} CatalogDecides(
    store: Store, command: CreateCommand, item: CatalogReply, id: string, requests: seq<PaymentRequest>)
    requires UuidText(id)
    ensures
      var t := CreateStep(Solo(store, command, AtCatalog, requests), AskCatalog(0, command.itemId, item, id));
      && 0 in t.calls && t.store == store && t.payments == requests
      && var phase := t.calls[0].phase;
        && (phase == Raised(CatalogError) <==> item == CatalogFailed)
        && (phase == Raised(InsufficientStock) <==> item.Item? && item.availableQty < command.quantity)
        && (phase.Raised? ==> phase.error in {CatalogError, InsufficientStock})
        && (item.Item? && item.availableQty >= command.quantity ==>
              phase == AtSecondLookup(
                OrderRow(id, command.userId, command.itemId, command.quantity, New, command.idempotencyKey),
                item.price))
  {
  }

  lemma {:induction false} InsertStep(
    store: Store, command: CreateCommand, order: OrderRow, price: Amounts.Decimal, requests: seq<PaymentRequest>)
    ensures CreateStep(Solo(store, command, AtInsert(order, price), requests), Insert(0)) ==
      match InsertOrder(store, order)
      case None => Solo(store, command, Raised(IntegrityError), requests)
      case Some(after) => Solo(after, command, AtPayment(order, price), requests)
  {
    hide InsertOrder;
  }

  lemma {:induction false} PaymentStep(
    store: Store, command: CreateCommand, order: OrderRow, price: Amounts.Decimal, reply: PaymentReply,
    requests: seq<PaymentRequest>)
    ensures CreateStep(Solo(store, command, AtPayment(order, price), requests), RequestPayment(0, reply)) ==
      match Amounts.Amount(price, order.quantity)
      case None => Solo(store, command, Raised(InvalidAmount), requests)
      case Some(cents) =>
        Solo(store, command, AfterPayment(order, reply),
          requests + [PaymentRequest(order.id, cents, command.idempotencyKey)])
  {
    hide Amounts.Amount, AfterPayment;
  }

  /** What the compensation leaves. */
  function Closed(store: Store, id: string): Store {
    match Compensate(store, id)
    case None => store
    case Some(after) => after
  }

  lemma {:induction false} CancelStep(
    store: Store, command: CreateCommand, order: OrderRow, requests: seq<PaymentRequest>)
    ensures CreateStep(Solo(store, command, AtCompensation(order), requests), CancelUnpaid(0))
         == Solo(Closed(store, order.id), command, Raised(PaymentsError), requests)
  {
    hide Compensate;
  }

  // ---------------------------------------------------------------- a call within a run

  predicate Own(a: Action, c: nat) {
    && (a.FirstLookup? || a.AskCatalog? || a.SecondLookup? || a.Insert? || a.RequestPayment? || a.CancelUnpaid?
        || a.Abandon?)
    && a.call == c
  }

  /** The same step, as one of call 0. */
  function AsFirst(a: CreateAction): CreateAction {
    match a
    case FirstLookup(_) => FirstLookup(0)
    case AskCatalog(_, itemId, item, id) => AskCatalog(0, itemId, item, id)
    case SecondLookup(_) => SecondLookup(0)
    case Insert(_) => Insert(0)
    case RequestPayment(_, reply) => RequestPayment(0, reply)
    case CancelUnpaid(_) => CancelUnpaid(0)
    case Abandon(_) => Abandon(0)
  }

  /** The turns of one call in a run: its own steps, each with the store it finds. */
  ghost function TurnsOf(config: Config, s: State, actions: seq<Action>, c: nat): seq<Turn> {
    if actions == [] then []
    else
      var before, a := actions[..|actions| - 1], actions[|actions| - 1];
      TurnsOf(config, s, before, c)
        + (if Own(a, c) then [Turn(RunFrom(config, s, before).store, AsFirst(a))] else [])
  }

  function Added(before: seq<PaymentRequest>, after: seq<PaymentRequest>): seq<PaymentRequest> {
    if |before| <= |after| then after[|before|..] else []
  }

  /** The payment requests that the own steps of one call add to the log. */
  ghost function RequestsBy(config: Config, s: State, actions: seq<Action>, c: nat): seq<PaymentRequest> {
    if actions == [] then []
    else
      var before, a := actions[..|actions| - 1], actions[|actions| - 1];
      RequestsBy(config, s, before, c)
        + (if Own(a, c) then Added(RunFrom(config, s, before).payments, RunFrom(config, s, actions).payments) else [])
  }

  ghost function StoresOf(config: Config, s: State, actions: seq<Action>): seq<Store> {
    if actions == [] then [s.store]
    else StoresOf(config, s, actions[..|actions| - 1]) + [RunFrom(config, s, actions).store]
  }

  lemma {:induction false} LastStore(config: Config, s: State, actions: seq<Action>)
    ensures RunFrom(config, s, actions).store in StoresOf(config, s, actions)
  {
    if actions != [] {
      var before := StoresOf(config, s, actions[..|actions| - 1]);
      assert StoresOf(config, s, actions)[|before|] == RunFrom(config, s, actions).store;
    }
  }

  /** A step of the call does to it, to the store and to the log what it does where the call is alone. */
  ghost predicate SameAlone(s: State, a: CreateAction, c: nat, requests: seq<PaymentRequest>)
    requires c in s.calls
  {
    var call, t := s.calls[c], CreateStep(s, a);
    && c in t.calls && t.calls[c].command == call.command
    && CreateStep(Solo(s.store, call.command, call.phase, requests), AsFirst(a))
         == Solo(t.store, call.command, t.calls[c].phase, requests + Added(s.payments, t.payments))
  }

  lemma {:induction false} OwnReading(s: State, a: CreateAction, c: nat, requests: seq<PaymentRequest>)
    requires Own(a, c) && c in s.calls
    requires a.FirstLookup? || a.AskCatalog? || a.SecondLookup? || a.Abandon?
    ensures SameAlone(s, a, c, requests)
  {
    hide FindByKey, Lookup, Quote, UuidText;
    assert requests + [] == requests;
  }

  lemma {:induction false} OwnWriting(s: State, a: CreateAction, c: nat, requests: seq<PaymentRequest>)
    requires Own(a, c) && c in s.calls && (a.Insert? || a.CancelUnpaid?)
    ensures SameAlone(s, a, c, requests)
  {
    hide InsertOrder, Compensate;
    assert requests + [] == requests;
  }

  lemma {:induction false} OwnRequest(s: State, a: CreateAction, c: nat, requests: seq<PaymentRequest>)
    requires Own(a, c) && c in s.calls && a.RequestPayment?
    ensures SameAlone(s, a, c, requests)
  {
    hide Amounts.Amount, AfterPayment;
    assert requests + [] == requests;
  }

  lemma {:induction false} OwnStep(s: State, a: CreateAction, c: nat, requests: seq<PaymentRequest>)
    requires Own(a, c) && c in s.calls
    ensures SameAlone(s, a, c, requests)
  {
    hide SameAlone;
    if a.RequestPayment? {
      OwnRequest(s, a, c, requests);
    } else if a.Insert? || a.CancelUnpaid? {
      OwnWriting(s, a, c, requests);
    } else {
      OwnReading(s, a, c, requests);
    }
  }

  lemma {:induction false} OtherStep(config: Config, s: State, a: Action, c: nat)
    requires c in s.calls && !Own(a, c)
    ensures c in Step(config, s, a).calls && Step(config, s, a).calls[c] == s.calls[c]
  {
    hide N.ForOrder, Amounts.Amount, InsertOrder, Compensate, Lookup, Quote, AfterPayment, UuidText, PaymentCallback,
      ShipmentEvent, Outbox.MarkAll, Outbox.Select, Possible;
  }

  lemma {:induction false} CreateSteps(config: Config, s: State, a: CreateAction)
    ensures Step(config, s, a) == CreateStep(s, a)
  {
    hide CreateStep;
  }

  lemma {:induction false} SoundRelies(s: State)
    requires Sound(s)
    ensures Rely(s.store, s.store)
  {
    RelyFacts(s.store, s.store);
  }

  lemma {:induction false} WalkStarts(config: Config, s: State, c: nat)
    requires Sound(s) && c in s.calls
    ensures var start := Solo(s.store, s.calls[c].command, s.calls[c].phase, []);
      && RunFrom(config, s, []) == s && TurnsOf(config, s, [], c) == [] && RequestsBy(config, s, [], c) == []
      && Walk(start, []) == start && Walked(StoresOf(config, s, []), start, [])
      && Rely(s.store, s.store)
  {
    SoundRelies(s);
  }

  /**
   Every run is, seen from one of its calls, a walk of that call alone: over stores of the run, each within
   the rely of the one the call left before, with the phase and the payment requests it has in the run.
   */
  lemma {:induction false} RunIsWalk(config: Config, s: State, actions: seq<Action>, c: nat)
    requires Sound(s) && c in s.calls
    ensures
      var t := RunFrom(config, s, actions);
      var start := Solo(s.store, s.calls[c].command, s.calls[c].phase, []);
      var path := TurnsOf(config, s, actions, c);
      && Sound(t) && c in t.calls && t.calls[c].command == s.calls[c].command
      && At(StoresOf(config, s, actions), start, path, Walk(start, path).store, s.calls[c].command, t.calls[c].phase,
           RequestsBy(config, s, actions, c))
      && Rely(Walk(start, path).store, t.store)
  {
    hide Sound, Step, Rely, Walk, Walked, OrdersSound;
    var command, start := s.calls[c].command, Solo(s.store, s.calls[c].command, s.calls[c].phase, []);
    if actions == [] {
      WalkStarts(config, s, c);
    } else {
      var before, a := actions[..|actions| - 1], actions[|actions| - 1];
      RunIsWalk(config, s, before, c);
      var u, t := RunFrom(config, s, before), RunFrom(config, s, actions);
      var path, requests := TurnsOf(config, s, before, c), RequestsBy(config, s, before, c);
      var left := Walk(start, path).store;
      StepSound(config, u, a);
      LastStore(config, s, before);
      LastStore(config, s, actions);
      StaysIn(StoresOf(config, s, before), StoresOf(config, s, actions), u.store);
      if Own(a, c) {
        CreateSteps(config, u, a);
        OwnStep(u, a, c, requests);
        TakeTurn(StoresOf(config, s, before), StoresOf(config, s, actions), start, path, Turn(u.store, AsFirst(a)),
          left, command, u.calls[c].phase, requests,
          t.store, t.calls[c].phase, requests + Added(u.payments, t.payments));
        SoundRelies(t);
      } else {
        OtherStep(config, u, a, c);
        StepKeepsRely(config, u, a);
        RelyTransitive(left, u.store, t.store);
        WalkedLater(StoresOf(config, s, before), StoresOf(config, s, actions), start, path);
        assert path + [] == path && requests + [] == requests;
      }
    }
  }

  // ---------------------------------------------------------------- a whole call among the steps of everybody else

  predicate NotOwn(actions: seq<Action>, c: nat) {
    forall i :: 0 <= i < |actions| ==> !Own(actions[i], c)
  }

  /** Steps of others, each run of them followed by a step of the call. */
  function Weave(own: seq<Action>, others: seq<seq<Action>>): seq<Action>
    requires |others| == |own|
  {
    var k := |own|;
    if k == 0 then [] else Weave(own[..k - 1], others[..k - 1]) + others[k - 1] + [own[k - 1]]
  }

  lemma {:induction false} TurnsOfOthers(config: Config, s: State, actions: seq<Action>, more: seq<Action>, c: nat)
    requires NotOwn(more, c)
    ensures TurnsOf(config, s, actions + more, c) == TurnsOf(config, s, actions, c)
  {
    hide RunFrom;
    if more == [] {
      assert actions + more == actions;
    } else {
      assert (actions + more)[..|actions + more| - 1] == actions + more[..|more| - 1];
      TurnsOfOthers(config, s, actions, more[..|more| - 1], c);
    }
  }

  lemma {:induction false} TurnsOfWeave(
    config: Config, s: State, own: seq<CreateAction>, others: seq<seq<Action>>, c: nat)
    requires |others| == |own| && forall i :: 0 <= i < |own| ==> own[i].call == c && NotOwn(others[i], c)
    ensures var path := TurnsOf(config, s, Weave(own, others), c);
      |path| == |own| && forall i :: 0 <= i < |own| ==> path[i].action == AsFirst(own[i])
    decreases |own|
  {
    hide RunFrom, NotOwn;
    var k := |own|;
    if k > 0 {
      var before := Weave(own[..k - 1], others[..k - 1]);
      TurnsOfWeave(config, s, own[..k - 1], others[..k - 1], c);
      TurnsOfOthers(config, s, before, others[k - 1], c);
      var whole := Weave(own, others);
      assert whole[..|whole| - 1] == before + others[k - 1];
    }
  }

  predicate Finished(phase: Phase) {
    phase.Returned? || phase.Raised?
  }

  lemma {:induction false} FinishedStays(config: Config, s: State, a: Action, c: nat)
    requires c in s.calls && Finished(s.calls[c].phase)
    ensures c in Step(config, s, a).calls && Step(config, s, a).calls[c] == s.calls[c]
  {
    hide N.ForOrder, Amounts.Amount, InsertOrder, Compensate, Lookup, Quote, AfterPayment, UuidText, PaymentCallback,
      ShipmentEvent, Outbox.MarkAll, Outbox.Select, Possible;
  }

  /** A call that returned or raised stays as it is, with its answer, in every longer run. */
  lemma {:induction false} FinishedForGood(config: Config, actions: seq<Action>, more: seq<Action>, c: nat)
    requires c in Run(config, actions).calls && Finished(Run(config, actions).calls[c].phase)
    ensures c in Run(config, actions + more).calls
    ensures Run(config, actions + more).calls[c] == Run(config, actions).calls[c]
  {
    hide RunFrom, Finished;
    if more == [] {
      assert actions + more == actions;
    } else {
      var before, a := actions + more[..|more| - 1], more[|more| - 1];
      assert actions + more == before + [a];
      FinishedForGood(config, actions, more[..|more| - 1], c);
      RunSplits(config, before, a);
      FinishedStays(config, Run(config, before), a, c);
    }
  }

  /** How far a call is: behind its k-th step, or at an end. */
  predicate Reached(phase: Phase, k: nat) {
    || Finished(phase)
    || (k == 0 && phase.AtFirstLookup?) || (k == 1 && phase.AtCatalog?) || (k == 2 && phase.AtSecondLookup?)
    || (k == 3 && phase.AtInsert?) || (k == 4 && phase.AtPayment?) || (k == 5 && phase.AtCompensation?)
  }

  lemma {:induction false} StepReaches(
    store: Store, command: CreateCommand, phase: Phase, requests: seq<PaymentRequest>,
    item: CatalogReply, id: string, reply: PaymentReply, k: nat)
    requires k < 6 && Reached(phase, k) && UuidText(id)
    ensures var a := CreateActions(command, item, id, reply)[k];
      && a.call == 0
      && var t := CreateStep(Solo(store, command, phase, requests), a);
        0 in t.calls && t.calls[0].command == command && Reached(t.calls[0].phase, k + 1)
        && t == Solo(t.store, command, t.calls[0].phase, t.payments)
  {
    hide N.ForOrder, Amounts.Amount, InsertOrder, Compensate, FindByKey, UuidText;
  }

  lemma {:induction false} WalkReaches(
    start: State, path: seq<Turn>, command: CreateCommand, item: CatalogReply, id: string, reply: PaymentReply)
    requires |path| <= 6 && UuidText(id)
    requires start == Solo(start.store, command, AtFirstLookup, start.payments)
    requires forall i :: 0 <= i < |path| ==> path[i].action == CreateActions(command, item, id, reply)[i]
    ensures var t := Walk(start, path);
      && 0 in t.calls && Reached(t.calls[0].phase, |path|)
      && t == Solo(t.store, command, t.calls[0].phase, t.payments)
  {
    if path != [] {
      hide CreateStep, UuidText;
      var init, last := path[..|path| - 1], path[|path| - 1];
      WalkReaches(start, init, command, item, id, reply);
      var t := Walk(start, init);
      StepReaches(last.store, command, t.calls[0].phase, t.payments, item, id, reply, |init|);
      assert t.(store := last.store) == Solo(last.store, command, t.calls[0].phase, t.payments);
    }
  }

  /** The six steps of call c; those behind its end do nothing. */
  function StepsOf(c: nat, command: CreateCommand, item: CatalogReply, id: string, reply: PaymentReply)
    : (own: seq<CreateAction>)
    ensures |own| == 6 && forall i :: 0 <= i < 6 ==>
      own[i].call == c && AsFirst(own[i]) == CreateActions(command, item, id, reply)[i]
  {
    [FirstLookup(c), AskCatalog(c, command.itemId, item, id), SecondLookup(c), Insert(c), RequestPayment(c, reply),
     CancelUnpaid(c)]
  }

  lemma {:induction false} RunConcat(config: Config, actions: seq<Action>, more: seq<Action>)
    ensures Run(config, actions + more) == RunFrom(config, Run(config, actions), more)
  {
    hide Step;
    if more == [] {
      assert actions + more == actions;
    } else {
      RunConcat(config, actions, more[..|more| - 1]);
      assert (actions + more)[..|actions + more| - 1] == actions + more[..|more| - 1];
    }
  }

  /**
   A create call that begins in a reachable state, with any steps of others between its own, runs to its end,
   and it is the walk of the call alone: the same answer and the same payment requests, over stores the
   others left within the rely. The imperative call is proved to be that walk.
   */
  lemma {:induction false} DisturbedCreateIsWalk(
    config: Config, actions: seq<Action>, c: nat, command: CreateCommand, item: CatalogReply, id: string,
    reply: PaymentReply, others: seq<seq<Action>>)
    requires c !in Run(config, actions).calls && UuidText(id)
    requires |others| == 6 && forall i :: 0 <= i < 6 ==> NotOwn(others[i], c)
    ensures
      var s := Run(config, actions + [Begin(c, command)]);
      var woven := Weave(StepsOf(c, command, item, id, reply), others);
      var t := Run(config, actions + [Begin(c, command)] + woven);
      var start := Solo(s.store, command, AtFirstLookup, []);
      var path := TurnsOf(config, s, woven, c);
      && Actions(path) == CreateActions(command, item, id, reply)
      && c in t.calls && Finished(t.calls[c].phase)
      && At(StoresOf(config, s, woven), start, path, Walk(start, path).store, command, t.calls[c].phase,
           RequestsBy(config, s, woven, c))
      && Rely(Walk(start, path).store, t.store)
  {
    var begun := actions + [Begin(c, command)];
    RunSplits(config, actions, Begin(c, command));
    hide RunFrom, Weave, TurnsOf, Walk, Walked, UuidText, NotOwn, Sound, Rely;
    var s := Run(config, begun);
    var own := StepsOf(c, command, item, id, reply);
    var woven := Weave(own, others);
    RunSound(config, begun);
    RunConcat(config, begun, woven);
    RunIsWalk(config, s, woven, c);
    TurnsOfWeave(config, s, own, others, c);
    var path := TurnsOf(config, s, woven, c);
    assert Actions(path) == CreateActions(command, item, id, reply);
    WalkReaches(Solo(s.store, command, AtFirstLookup, []), path, command, item, id, reply);
  }
}
