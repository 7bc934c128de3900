/** Interleaved order creation: one order, one answer and at most one payment request per key. */
module Creates {
  import opened Wrappers
  import opened Entities
  import opened Transitions
  import opened Amounts
  import opened Outbox
  import opened OutboxWorker
  import opened Protocol
  import N = OrderNotifications

  /** The same order, at whatever status. */
  predicate SameOrder(a: OrderRow, b: OrderRow) {
    a == b.(status := a.status)
  }

  predicate Known(orders: map<string, OrderRow>, order: OrderRow) {
    order.id in orders && SameOrder(orders[order.id], order)
  }

  predicate UniqueKeys(orders: map<string, OrderRow>) {
    forall i, j :: i in orders && j in orders && orders[i].idempotencyKey == orders[j].idempotencyKey ==> i == j
  }

  predicate OrdersSound(store: Store) {
    && Keyed(store)
    && UniqueKeys(store.orders)
    && forall id :: id in store.orders ==> UuidText(id)
  }

  /** What a parked or finished call knows about the committed orders. */
  predicate CallSound(orders: map<string, OrderRow>, call: CreateCall) {
    match call.phase
    case AtSecondLookup(order, _) => order == NewOrder(order.id, call.command) && UuidText(order.id)
    case AtInsert(order, _) => order == NewOrder(order.id, call.command) && UuidText(order.id)
    case AtPayment(order, _) => order == NewOrder(order.id, call.command) && Known(orders, order)
    case AtCompensation(order) => order == NewOrder(order.id, call.command) && Known(orders, order)
    case Returned(order) => order.idempotencyKey == call.command.idempotencyKey && Known(orders, order)
    case _ => true
  }

  predicate CallsSound(s: State) {
    forall c :: c in s.calls ==> CallSound(s.store.orders, s.calls[c])
  }

  predicate PaysFor(call: CreateCall, id: string) {
    call.phase.AtPayment? && call.phase.order.id == id
  }

  predicate PaymentsSound(s: State) {
    && (forall i :: 0 <= i < |s.payments| ==>
          s.payments[i].orderId in s.store.orders
          && s.store.orders[s.payments[i].orderId].idempotencyKey == s.payments[i].idempotencyKey)
    && (forall i, j :: 0 <= i < j < |s.payments| ==> s.payments[i].orderId != s.payments[j].orderId)
    && (forall c, i :: c in s.calls && 0 <= i < |s.payments| ==> !PaysFor(s.calls[c], s.payments[i].orderId))
    && (forall c, d :: c in s.calls && d in s.calls && c != d && s.calls[c].phase.AtPayment? ==>
          !PaysFor(s.calls[d], s.calls[c].phase.order.id))
  }

  predicate Sound(s: State) {
    OrdersSound(s.store) && CallsSound(s) && PaymentsSound(s)
  }

  lemma {:induction false} FindByKeyFinds(store: Store, key: string)
    requires Keyed(store)
    ensures match FindByKey(store.orders, key)
      case None => !KeyTaken(store.orders, key)
      case Some(order) => order.idempotencyKey == key && Known(store.orders, order)
  {
  }

  predicate Persist(before: map<string, OrderRow>, after: map<string, OrderRow>) {
    forall id :: id in before ==> id in after && SameOrder(after[id], before[id])
  }

  lemma {:induction false} ChangePersists(store: Store, change: Change)
    requires LegalChange(store, change)
    ensures Persist(store.orders, NewOrders(store.orders, change))
  {
  }

  lemma {:induction false} OrdersStaySound(s: State, change: Change, after: Store)
    requires OrdersSound(s.store) && LegalChange(s.store, change)
    requires after.orders == NewOrders(s.store.orders, change)
    requires change.Created? ==> UuidText(change.order.id)
    ensures OrdersSound(after)
  {
    var before := s.store.orders;
    match change {
      case Nothing =>
      case Created(order) =>
        forall i, j | i in after.orders && j in after.orders
          && after.orders[i].idempotencyKey == after.orders[j].idempotencyKey
          ensures i == j
        {
          assert forall k :: k in before ==> before[k].idempotencyKey != order.idempotencyKey;
        }
      case Moved(id, status, _) =>
        assert forall k :: k in after.orders ==> after.orders[k].idempotencyKey == before[k].idempotencyKey;
    }
  }

  lemma {:induction false} CallStaysSound(before: map<string, OrderRow>, after: map<string, OrderRow>, call: CreateCall)
    requires CallSound(before, call) && Persist(before, after)
    ensures CallSound(after, call)
  {
  }

  lemma {:induction false} LookupSound(store: Store, call: CreateCall, next: Phase)
    requires Keyed(store)
    requires CallSound(store.orders, call.(phase := next))
    ensures CallSound(store.orders, call.(phase := Lookup(store.orders, call.command, next)))
  {
    FindByKeyFinds(store, call.command.idempotencyKey);
  }

  lemma {:induction false} InsertSound(store: Store, order: OrderRow)
    ensures InsertOrder(store, order).Some? ==> Known(InsertOrder(store, order).value.orders, order)
  {
  }

  /** The acting call moves to a phase that is sound in the store its step leaves. */
  lemma {:induction false} ActingCallSound(s: State, a: Action)
    requires Sound(s)
    requires a.FirstLookup? || a.AskCatalog? || a.SecondLookup? || a.Insert?
      || a.RequestPayment? || a.CancelUnpaid? || a.Abandon?
    requires Persist(s.store.orders, CreateStep(s, a).store.orders)
    ensures a.call in s.calls ==> CallSound(CreateStep(s, a).store.orders, CreateStep(s, a).calls[a.call])
  {
    hide N.ForOrder, Amount, InsertOrder, Compensate, Lookup, KeyTaken, PaymentsSound, UniqueKeys;
    if a.call in s.calls {
      var call := s.calls[a.call];
      assert CallSound(s.store.orders, call);
      match (a, call.phase) {
        case (FirstLookup(_), AtFirstLookup) => LookupSound(s.store, call, AtCatalog);
        case (SecondLookup(_), AtSecondLookup(order, price)) => LookupSound(s.store, call, AtInsert(order, price));
        case (Insert(_), AtInsert(order, price)) => InsertSound(s.store, order);
        case _ =>
      }
    }
  }

  lemma {:induction false} PaymentsKept(s: State, t: State)
    requires PaymentsSound(s) && Persist(s.store.orders, t.store.orders)
    requires t.payments == s.payments
    requires forall c :: c in t.calls && t.calls[c].phase.AtPayment? ==> c in s.calls && t.calls[c] == s.calls[c]
    ensures PaymentsSound(t)
  {
    forall i | 0 <= i < |t.payments|
      ensures t.payments[i].orderId in t.store.orders
        && t.store.orders[t.payments[i].orderId].idempotencyKey == t.payments[i].idempotencyKey
    {
      assert s.payments[i].orderId in s.store.orders;
    }
  }

  lemma {:induction false} InsertedMayPay(s: State, c: nat, store: Store)
    requires Sound(s) && c in s.calls && s.calls[c].phase.AtInsert?
    requires InsertOrder(s.store, s.calls[c].phase.order) == Some(store)
    requires Persist(s.store.orders, store.orders)
    ensures PaymentsSound(Park(s, c, AtPayment(s.calls[c].phase.order, s.calls[c].phase.price)).(store := store))
  {
    hide N.ForOrder;
    var order := s.calls[c].phase.order;
    var t := Park(s, c, AtPayment(order, s.calls[c].phase.price)).(store := store);
    assert forall i :: 0 <= i < |s.payments| ==> s.payments[i].orderId != order.id;
    forall i | 0 <= i < |t.payments|
      ensures t.payments[i].orderId in t.store.orders
        && t.store.orders[t.payments[i].orderId].idempotencyKey == t.payments[i].idempotencyKey
    {
      assert s.payments[i].orderId in s.store.orders;
    }
    forall d | d in s.calls && d != c && s.calls[d].phase.AtPayment?
      ensures s.calls[d].phase.order.id != order.id
    {
      assert CallSound(s.store.orders, s.calls[d]);
    }
  }

  lemma {:induction false} PaidOnce(s: State, c: nat, reply: PaymentReply, cents: int)
    requires Sound(s) && c in s.calls && s.calls[c].phase.AtPayment?
    ensures var order := s.calls[c].phase.order;
      PaymentsSound(Park(s, c, AfterPayment(order, reply)).(
        payments := s.payments + [PaymentRequest(order.id, cents, s.calls[c].command.idempotencyKey)]))
  {
    assert CallSound(s.store.orders, s.calls[c]);
    var order := s.calls[c].phase.order;
    assert PaysFor(s.calls[c], order.id);
    var t := Park(s, c, AfterPayment(order, reply)).(
      payments := s.payments + [PaymentRequest(order.id, cents, s.calls[c].command.idempotencyKey)]);
    forall d, i | d in t.calls && 0 <= i < |t.payments|
      ensures !PaysFor(t.calls[d], t.payments[i].orderId)
    {
      if d != c && i == |s.payments| {
        assert !PaysFor(s.calls[d], order.id);
      } else if d != c {
        assert !PaysFor(s.calls[d], s.payments[i].orderId);
      }
    }
    forall d, e | d in t.calls && e in t.calls && d != e && t.calls[d].phase.AtPayment?
      ensures !PaysFor(t.calls[e], t.calls[d].phase.order.id)
    {
      if e != c {
        assert !PaysFor(s.calls[e], s.calls[d].phase.order.id);
      }
    }
  }

  predicate Inserts(s: State, a: Action) {
    && a.Insert? && a.call in s.calls && s.calls[a.call].phase.AtInsert?
    && InsertOrder(s.store, s.calls[a.call].phase.order).Some?
  }

  predicate Charges(s: State, a: Action) {
    && a.RequestPayment? && a.call in s.calls && s.calls[a.call].phase.AtPayment?
    && Amount(s.calls[a.call].phase.price, s.calls[a.call].phase.order.quantity).Some?
  }

  lemma {:induction false} OtherStepsKeepPayments(config: Config, s: State, a: Action)
    requires !Inserts(s, a) && !Charges(s, a)
    ensures var t := Step(config, s, a);
      && t.payments == s.payments
      && forall c :: c in t.calls && t.calls[c].phase.AtPayment? ==> c in s.calls && t.calls[c] == s.calls[c]
  {
    hide N.ForOrder, Amount, PaymentCallback, ShipmentEvent, Compensate, InsertOrder, FindByKey, MarkAll, Select,
      Locked, Possible;
  }

  lemma {:induction false} PaymentsStaySound(config: Config, s: State, a: Action)
    requires Sound(s)
    requires Persist(s.store.orders, Step(config, s, a).store.orders)
    ensures PaymentsSound(Step(config, s, a))
  {
    hide N.ForOrder, Amount, PaymentsSound, CallsSound, OrdersSound, Persist, InsertOrder, AfterPayment;
    if Inserts(s, a) {
      InsertedMayPay(s, a.call, Step(config, s, a).store);
    } else if Charges(s, a) {
      PaidOnce(s, a.call, a.reply, Amount(s.calls[a.call].phase.price, s.calls[a.call].phase.order.quantity).value);
    } else {
      hide Step;
      OtherStepsKeepPayments(config, s, a);
      PaymentsKept(s, Step(config, s, a));
    }
  }

  lemma {:induction false} FreshCallSound(orders: map<string, OrderRow>, call: CreateCall)
    requires call.phase == AtFirstLookup
    ensures CallSound(orders, call)
  {
  }

  lemma {:induction false} NewIdIsUuid(s: State, a: Action)
    requires Sound(s)
    ensures ChangeOf(s, a).Created? ==> UuidText(ChangeOf(s, a).order.id) && ChangeOf(s, a).order.status == New
  {
    hide InsertOrder, Compensate, Lower, CallbackReason, ShipmentReason;
    if a.Insert? && a.call in s.calls && s.calls[a.call].phase.AtInsert? {
      assert CallSound(s.store.orders, s.calls[a.call]);
    }
  }

  lemma {:induction false} CallsStaySound(config: Config, s: State, a: Action)
    requires Sound(s)
    requires Persist(s.store.orders, Step(config, s, a).store.orders)
    ensures CallsSound(Step(config, s, a))
  {
    hide N.ForOrder, Amount, PaymentsSound, CallSound, InsertOrder, Compensate, Lookup, KeyTaken, PaymentCallback,
      ShipmentEvent, MarkAll, Possible, Quote, AfterPayment, Persist, OrdersSound, Select, Locked;
    var t := Step(config, s, a);
    forall c | c in t.calls
      ensures CallSound(t.store.orders, t.calls[c])
    {
      if c in s.calls && t.calls[c] == s.calls[c] {
        CallStaysSound(s.store.orders, t.store.orders, t.calls[c]);
      } else if a.Begin? {
        FreshCallSound(t.store.orders, t.calls[c]);
      } else {
        ActingCallSound(s, a);
      }
    }
  }

  lemma {:induction false} StepSound(config: Config, s: State, a: Action)
    requires Sound(s)
    ensures Sound(Step(config, s, a))
    ensures Persist(s.store.orders, Step(config, s, a).store.orders)
  {
    hide Step, ChangeOf, CallsSound, PaymentsSound, Emitted, NewOrders, Persist, LegalChange;
    var change := ChangeOf(s, a);
    StepChange(config, s, a);
    ChangePersists(s.store, change);
    NewIdIsUuid(s, a);
    OrdersStaySound(s, change, Step(config, s, a).store);
    PaymentsStaySound(config, s, a);
    CallsStaySound(config, s, a);
  }

  lemma {:induction false} RunSound(config: Config, actions: seq<Action>)
    ensures Sound(Run(config, actions))
  {
    if actions != [] {
      var before := actions[..|actions| - 1];
      RunSound(config, before);
      StepSound(config, Run(config, before), actions[|actions| - 1]);
    }
  }

  /** No interleaving of create calls puts two orders under one idempotency key. */
  lemma {:induction false} OneOrderPerKey(config: Config, actions: seq<Action>, i: string, j: string)
    requires var orders := Run(config, actions).store.orders;
      i in orders && j in orders && orders[i].idempotencyKey == orders[j].idempotencyKey
    ensures i == j
  {
    RunSound(config, actions);
  }

  /** All calls that return for one key return the same order, and it is the committed one. */
  lemma {:induction false} SameAnswerPerKey(config: Config, actions: seq<Action>, c: nat, d: nat)
    requires var s := Run(config, actions);
      && c in s.calls && s.calls[c].phase.Returned?
      && d in s.calls && s.calls[d].phase.Returned?
      && s.calls[c].command.idempotencyKey == s.calls[d].command.idempotencyKey
    ensures var s := Run(config, actions);
      && s.calls[c].phase.order.id == s.calls[d].phase.order.id
      && Known(s.store.orders, s.calls[c].phase.order)
  {
    RunSound(config, actions);
    var s := Run(config, actions);
    assert CallSound(s.store.orders, s.calls[c]) && CallSound(s.store.orders, s.calls[d]);
  }

  /** At most one payment request is made per key, and it names the committed order with that key. */
  lemma {:induction false} OnePaymentPerKey(config: Config, actions: seq<Action>, i: nat, j: nat)
    requires var p := Run(config, actions).payments;
      i < |p| && j < |p| && p[i].idempotencyKey == p[j].idempotencyKey
    ensures i == j
    ensures var s := Run(config, actions);
      s.payments[i].orderId in s.store.orders
      && s.store.orders[s.payments[i].orderId].idempotencyKey == s.payments[i].idempotencyKey
  {
    RunSound(config, actions);
    var s := Run(config, actions);
    OneOrderPerKey(config, actions, s.payments[i].orderId, s.payments[j].orderId);
    assert s.payments[i].orderId == s.payments[j].orderId;
  }

  /** Once committed, an order is never lost and nothing but its status ever changes. */
  lemma {:induction false} OrdersPersist(config: Config, actions: seq<Action>, k: nat)
    requires k <= |actions|
    ensures Persist(Run(config, actions[..k]).store.orders, Run(config, actions).store.orders)
  {
    if k == |actions| {
      assert actions[..k] == actions;
    } else {
      var before := actions[..|actions| - 1];
      assert before[..k] == actions[..k];
      OrdersPersist(config, before, k);
      RunSound(config, before);
      StepSound(config, Run(config, before), actions[|actions| - 1]);
    }
  }

  /** What a create call can rely on while it awaits: what any other steps may do to the store. */
  predicate Rely(before: Store, after: Store) {
    && OrdersSound(after)
    && Persist(before.orders, after.orders)
    && forall id :: id in before.orders && id in after.orders && before.orders[id].status != New ==>
         after.orders[id].status != New
  }

  lemma {:induction false} RelyTransitive(a: Store, b: Store, c: Store)
    requires Rely(a, b) && Rely(b, c)
    ensures Rely(a, c)
  {
  }

  lemma {:induction false} StepKeepsRely(config: Config, s: State, a: Action)
    requires Sound(s)
    ensures Rely(s.store, Step(config, s, a).store)
  {
    hide Step, ChangeOf, Emitted, CallsSound, PaymentsSound;
    StepSound(config, s, a);
    StepChange(config, s, a);
  }

  /** Any number of steps of the machine keeps to the rely of the create calls. */
  lemma {:induction false} RunsKeepRely(config: Config, actions: seq<Action>, k: nat)
    requires k <= |actions|
    ensures Rely(Run(config, actions[..k]).store, Run(config, actions).store)
  {
    if k == |actions| {
      assert actions[..k] == actions;
      RunSound(config, actions);
    } else {
      hide Step, Sound, Rely, Explains;
      var before, a := actions[..|actions| - 1], actions[|actions| - 1];
      assert before[..k] == actions[..k];
      RunsKeepRely(config, before, k);
      RunSound(config, before);
      StepKeepsRely(config, Run(config, before), a);
      RelyTransitive(Run(config, actions[..k]).store, Run(config, before).store, Run(config, actions).store);
    }
  }

  // ---------------------------------------------------------------- refused payments

  /** A payment was requested under the key, for an order that is (or is no longer) NEW. */
  predicate Requested(s: State, i: nat, key: string, closed: bool) {
    && i < |s.payments|
    && s.payments[i].idempotencyKey == key
    && s.payments[i].orderId in s.store.orders
    && (closed ==> s.store.orders[s.payments[i].orderId].status != New)
  }

  /** A call about to compensate, or done with it, has requested a payment. */
  ghost predicate RefusalSound(s: State, call: CreateCall) {
    match call.phase
    case AtCompensation(order) =>
      exists i: nat :: Requested(s, i, call.command.idempotencyKey, false) && s.payments[i].orderId == order.id
    case Raised(error) =>
      error == PaymentsError ==> exists i: nat :: Requested(s, i, call.command.idempotencyKey, true)
    case _ => true
  }

  lemma {:induction false} RefusalStays(s: State, t: State, call: CreateCall)
    requires RefusalSound(s, call) && Rely(s.store, t.store)
    requires s.payments <= t.payments
    ensures RefusalSound(t, call)
  {
    match call.phase {
      case AtCompensation(order) =>
        var i: nat :| Requested(s, i, call.command.idempotencyKey, false) && s.payments[i].orderId == order.id;
        assert Requested(t, i, call.command.idempotencyKey, false);
      case Raised(error) =>
        if error == PaymentsError {
          var i: nat :| Requested(s, i, call.command.idempotencyKey, true);
          assert Requested(t, i, call.command.idempotencyKey, true);
        }
      case _ =>
    }
  }

  lemma {:induction false} PaymentsGrow(config: Config, s: State, a: Action)
    ensures s.payments <= Step(config, s, a).payments
  {
    hide N.ForOrder, Amount, PaymentCallback, ShipmentEvent, MarkAll, Select, Possible, Lookup, Quote, AfterPayment,
      InsertOrder, Compensate;
  }

  lemma {:induction false} CancelCloses(config: Config, s: State, a: Action, c: nat)
    requires Sound(s) && a.CancelUnpaid? && c in s.calls && s.calls[c].phase.AtCompensation?
    requires RefusalSound(s, s.calls[c]) && Step(config, s, a).calls[c] != s.calls[c]
    ensures RefusalSound(Step(config, s, a), Step(config, s, a).calls[c])
  {
    hide N.ForOrder, PaymentsSound, Lookup, Quote, AfterPayment, InsertOrder, Amount, UuidText, PaymentCallback,
      ShipmentEvent;
    var call, t := s.calls[c], Step(config, s, a);
    assert CallSound(s.store.orders, call);
    var i: nat :| Requested(s, i, call.command.idempotencyKey, false) && s.payments[i].orderId == call.phase.order.id;
    assert Requested(t, i, call.command.idempotencyKey, true);
  }

  lemma {:induction false} RequestRecorded(config: Config, s: State, a: Action, c: nat)
    requires Sound(s) && a.RequestPayment? && c in s.calls && s.calls[c].phase.AtPayment?
    requires Step(config, s, a).calls[c] != s.calls[c]
    ensures RefusalSound(Step(config, s, a), Step(config, s, a).calls[c])
  {
    hide Amount;
    var call, t := s.calls[c], Step(config, s, a);
    assert CallSound(s.store.orders, call);
    if Amount(call.phase.price, call.phase.order.quantity).Some? {
      assert Requested(t, |s.payments|, call.command.idempotencyKey, false);
    }
  }

  lemma {:induction false} OtherPhasesRefuseNothing(config: Config, s: State, a: Action, c: nat)
    requires c in Step(config, s, a).calls && (c !in s.calls || s.calls[c] != Step(config, s, a).calls[c])
    requires !(a.CancelUnpaid? && c in s.calls && s.calls[c].phase.AtCompensation?)
    requires !(a.RequestPayment? && c in s.calls && s.calls[c].phase.AtPayment?)
    ensures RefusalSound(Step(config, s, a), Step(config, s, a).calls[c])
  {
    hide N.ForOrder, Amount, PaymentCallback, ShipmentEvent, MarkAll, Select, Possible, InsertOrder, Compensate,
      FindByKey;
  }

  lemma {:induction false} RefusalsTracked(config: Config, actions: seq<Action>, c: nat)
    requires c in Run(config, actions).calls
    ensures RefusalSound(Run(config, actions), Run(config, actions).calls[c])
  {
    if actions != [] {
      hide Step, Sound, Rely, RefusalSound;
      var before, a := actions[..|actions| - 1], actions[|actions| - 1];
      var s, t := Run(config, before), Run(config, actions);
      RunSound(config, before);
      if c in s.calls {
        RefusalsTracked(config, before, c);
      }
      if c in s.calls && t.calls[c] == s.calls[c] {
        StepKeepsRely(config, s, a);
        PaymentsGrow(config, s, a);
        RefusalStays(s, t, t.calls[c]);
      } else if a.CancelUnpaid? && c in s.calls && s.calls[c].phase.AtCompensation? {
        CancelCloses(config, s, a, c);
      } else if a.RequestPayment? && c in s.calls && s.calls[c].phase.AtPayment? {
        RequestRecorded(config, s, a, c);
      } else {
        OtherPhasesRefuseNothing(config, s, a, c);
      }
    }
  }

  /**
   A call that ends with a refused payment leaves nothing open: its one payment request names the
   committed order of its key, and that order is not NEW, then and in every longer run.
   */
  lemma {:induction false} RefusedPaymentClosesOrder(config: Config, actions: seq<Action>, c: nat)
    requires c in Run(config, actions).calls && Run(config, actions).calls[c].phase == Raised(PaymentsError)
    ensures var s := Run(config, actions);
      exists i: nat :: Requested(s, i, s.calls[c].command.idempotencyKey, true)
  {
    RefusalsTracked(config, actions, c);
  }
}
