/**
 The inbox: what its rows stand for, and the machine that does without it. As long as an event id
 means one thing, remembering ids changes no order and no outbox row; otherwise it can.
 */
module InboxRedundancy {
  import opened Wrappers
  import opened Entities
  import opened Transitions
  import opened ShipmentEvents
  import opened OutboxWorker
  import opened Protocol
  import Effects
  import H = History
  import OrderNotifications
  import Text

  // ---------------------------------------------------------------- inbox rows are the committed events

  /** The commands whose processing committed, in order. */
  ghost function CommittedEvents(config: Config, actions: seq<Action>): seq<ShipmentCommand> {
    if actions == [] then []
    else
      var before, a := actions[..|actions| - 1], actions[|actions| - 1];
      CommittedEvents(config, before)
        + (if a.Shipment? && ShipmentEvent(Run(config, before).store, a.shipment).1 == Applied then [a.shipment]
           else [])
  }

  predicate Closed(orders: map<string, OrderRow>, command: ShipmentCommand) {
    && command.orderId in orders
    && (Recognised(command.eventType) ==>
          orders[command.orderId].status == Shipped || orders[command.orderId].status == Cancelled)
  }

  predicate Stored(store: Store, command: ShipmentCommand) {
    && command.eventId in store.inbox
    && store.inbox[command.eventId] == InboxRow(command.eventType, command.payload)
    && Closed(store.orders, command)
  }

  predicate HasId(events: seq<ShipmentCommand>, id: string) {
    exists i :: 0 <= i < |events| && events[i].eventId == id
  }

  predicate Remembered(store: Store, events: seq<ShipmentCommand>) {
    && (forall i :: 0 <= i < |events| ==> Stored(store, events[i]))
    && (forall i, j :: 0 <= i < j < |events| ==> events[i].eventId != events[j].eventId)
    && (forall id :: id in store.inbox ==> HasId(events, id))
  }

  lemma {:induction false} ClosedStays(store: Store, change: Change, command: ShipmentCommand)
    requires LegalChange(store, change) && Closed(store.orders, command)
    ensures Closed(NewOrders(store.orders, change), command)
  {
  }

  lemma {:induction false} OtherStepsKeepInbox(config: Config, s: State, a: Action)
    requires !(a.Shipment? && ShipmentEvent(s.store, a.shipment).1 == Applied)
    ensures Step(config, s, a).store.inbox == s.store.inbox
  {
    hide OrderNotifications.ForOrder, OrderNotifications.OrderPaidEvent, Outbox.MarkAll, Lower, CallbackReason;
  }

  lemma {:induction false} AppliedIsClosed(s: State, command: ShipmentCommand)
    requires Keyed(s.store) && ShipmentEvent(s.store, command).1 == Applied
    ensures var after := ShipmentEvent(s.store, command).0.value;
      && Closed(after.orders, command)
      && after.inbox == s.store.inbox[command.eventId := InboxRow(command.eventType, command.payload)]
      && command.eventId !in s.store.inbox
  {
    hide OrderNotifications.ForOrder, ShipmentReason;
  }

  lemma {:induction false} RememberedKept(before: Store, change: Change, after: Store, events: seq<ShipmentCommand>)
    requires Remembered(before, events) && LegalChange(before, change)
    requires after.orders == NewOrders(before.orders, change) && after.inbox == before.inbox
    ensures Remembered(after, events)
  {
    forall i | 0 <= i < |events|
      ensures Stored(after, events[i])
    {
      assert Stored(before, events[i]);
      ClosedStays(before, change, events[i]);
    }
  }

  lemma {:induction false} HasIdGrows(events: seq<ShipmentCommand>, command: ShipmentCommand, id: string)
    ensures HasId(events + [command], id) <==> HasId(events, id) || id == command.eventId
  {
    var later := events + [command];
    assert later[|events|] == command;
    assert forall i :: 0 <= i < |events| ==> later[i] == events[i];
  }

  lemma {:induction false} RememberedGrows(
    before: Store, change: Change, after: Store, events: seq<ShipmentCommand>, command: ShipmentCommand)
    requires Remembered(before, events) && LegalChange(before, change)
    requires after.orders == NewOrders(before.orders, change)
    requires after.inbox == before.inbox[command.eventId := InboxRow(command.eventType, command.payload)]
    requires command.eventId !in before.inbox && Closed(after.orders, command)
    ensures Remembered(after, events + [command])
  {
    hide Closed, LegalChange, NewOrders, HasId;
    var later := events + [command];
    forall i | 0 <= i < |events|
      ensures later[i] == events[i] && later[i].eventId != command.eventId && Stored(after, later[i])
    {
      assert Stored(before, events[i]);
      ClosedStays(before, change, events[i]);
    }
    forall id | id in after.inbox
      ensures HasId(later, id)
    {
      HasIdGrows(events, command, id);
    }
  }

  lemma {:induction false} AppliedCommits(store: Store, command: ShipmentCommand)
    ensures ShipmentEvent(store, command).1 == Applied <==> ShipmentEvent(store, command).0.Some?
  {
  }

  lemma {:induction false} InboxStep(
    config: Config, s: State, a: Action, change: Change, events: seq<ShipmentCommand>)
    requires Keyed(s.store) && Explains(s.store, change, Step(config, s, a).store) && Remembered(s.store, events)
    ensures Remembered(Step(config, s, a).store,
      events + if a.Shipment? && ShipmentEvent(s.store, a.shipment).1 == Applied then [a.shipment] else [])
  {
    hide Emitted, ShipmentEvent, LegalChange, NewOrders, CreateStep, WorkerStep, Remembered;
    if a.Shipment? && ShipmentEvent(s.store, a.shipment).1 == Applied {
      AppliedIsClosed(s, a.shipment);
      AppliedCommits(s.store, a.shipment);
      RememberedGrows(s.store, change, Step(config, s, a).store, events, a.shipment);
    } else {
      OtherStepsKeepInbox(config, s, a);
      RememberedKept(s.store, change, Step(config, s, a).store, events);
      assert events + [] == events;
    }
  }

  lemma {:induction false} NothingRemembered()
    ensures Remembered(EMPTY, [])
  {
  }

  lemma {:induction false} InboxTracked(config: Config, actions: seq<Action>)
    ensures Remembered(Run(config, actions).store, CommittedEvents(config, actions))
  {
    if actions != [] {
      hide Step, ChangeOf, ShipmentEvent, Remembered, Explains;
      var before, a := actions[..|actions| - 1], actions[|actions| - 1];
      assert before + [a] == actions;
      InboxTracked(config, before);
      var change := H.LastChange(config, before, a);
      InboxStep(config, Run(config, before), a, change, CommittedEvents(config, before));
    } else {
      NothingRemembered();
    }
  }

  /** An id is in the inbox exactly if processing an event with it committed, which happened once. */
  lemma {:induction false} InboxIsCommittedEvents(config: Config, actions: seq<Action>, id: string)
    ensures id in Run(config, actions).store.inbox <==> HasId(CommittedEvents(config, actions), id)
    ensures forall i, j :: 0 <= i < j < |CommittedEvents(config, actions)| ==>
      CommittedEvents(config, actions)[i].eventId != CommittedEvents(config, actions)[j].eventId
  {
    InboxTracked(config, actions);
  }

  /**
   An event that comes before its order leaves nothing behind; delivered again after any steps that
   created the order and did not commit that id, it is applied as a first delivery.
   */
  lemma {:induction false} EarlyEventIsReplayable(
    config: Config, before: seq<Action>, between: seq<Action>, command: ShipmentCommand)
    requires command.orderId !in Run(config, before).store.orders
    requires var later := before + [Shipment(command)] + between;
      && command.orderId in Run(config, later).store.orders
      && !HasId(CommittedEvents(config, later), command.eventId)
    ensures Run(config, before + [Shipment(command)]) == Run(config, before)
    ensures var store := Run(config, before + [Shipment(command)] + between).store;
      ShipmentEvent(store, command) == (Some(ApplyShipment(Remember(store, command), command)), Applied)
  {
    RunSplits(config, before, Shipment(command));
    InboxTracked(config, before + [Shipment(command)] + between);
  }

  /** The j-th action of the run is an event with this id, and it was applied. */
  ghost predicate AppliedAt(config: Config, actions: seq<Action>, j: nat, id: string)
    requires j < |actions|
  {
    && actions[j].Shipment? && actions[j].shipment.eventId == id
    && ShipmentEvent(Run(config, actions[..j]).store, actions[j].shipment).1 == Applied
  }

  lemma {:induction false} AppliedAtLonger(config: Config, before: seq<Action>, a: Action, j: nat, id: string)
    requires j < |before|
    ensures AppliedAt(config, before + [a], j, id) <==> AppliedAt(config, before, j, id)
  {
    assert (before + [a])[..j] == before[..j];
  }

  lemma {:induction false} NoId(id: string)
    ensures !HasId([], id)
  {
  }

  lemma {:induction false} LastApplied(config: Config, before: seq<Action>, a: Action, id: string)
    ensures HasId(CommittedEvents(config, before + [a]), id) <==>
      HasId(CommittedEvents(config, before), id) || AppliedAt(config, before + [a], |before|, id)
  {
    var actions := before + [a];
    hide Run, ShipmentEvent, HasId;
    assert actions[..|before|] == before && actions[|actions| - 1] == a;
    if a.Shipment? && ShipmentEvent(Run(config, before).store, a.shipment).1 == Applied {
      HasIdGrows(CommittedEvents(config, before), a.shipment, id);
    } else {
      assert CommittedEvents(config, before) + [] == CommittedEvents(config, before);
    }
  }

  lemma {:induction false} CommittedWereApplied(config: Config, actions: seq<Action>, id: string)
    ensures HasId(CommittedEvents(config, actions), id) <==>
      exists j :: 0 <= j < |actions| && AppliedAt(config, actions, j, id)
  {
    if actions != [] {
      hide Run, ShipmentEvent, HasId, AppliedAt;
      var before, a := actions[..|actions| - 1], actions[|actions| - 1];
      assert actions == before + [a];
      CommittedWereApplied(config, before, id);
      forall j: nat | j < |before|
        ensures AppliedAt(config, actions, j, id) <==> AppliedAt(config, before, j, id)
      {
        AppliedAtLonger(config, before, a, j, id);
      }
      LastApplied(config, before, a, id);
      if j :| 0 <= j < |actions| && AppliedAt(config, actions, j, id) && !HasId(CommittedEvents(config, before), id) {
        assert j == |before|;
      }
    } else {
      NoId(id);
    }
  }

  lemma {:induction false} DuplicateIsRemembered(store: Store, command: ShipmentCommand)
    ensures ShipmentEvent(store, command).1 == Duplicate <==> command.eventId in store.inbox
  {
  }

  /** An event is answered as a duplicate exactly if an earlier one with its id was applied. */
  lemma {:induction false} DuplicateExactly(config: Config, actions: seq<Action>, k: nat)
    requires k < |actions| && actions[k].Shipment?
    ensures
      ShipmentEvent(Run(config, actions[..k]).store, actions[k].shipment).1 == Duplicate <==>
        exists j :: 0 <= j < k && AppliedAt(config, actions, j, actions[k].shipment.eventId)
  {
    var id := actions[k].shipment.eventId;
    InboxIsCommittedEvents(config, actions[..k], id);
    CommittedWereApplied(config, actions[..k], id);
    DuplicateIsRemembered(Run(config, actions[..k]).store, actions[k].shipment);
    hide Run, ShipmentEvent, HasId;
    forall j: nat | j < k
      ensures AppliedAt(config, actions[..k], j, id) <==> AppliedAt(config, actions, j, id)
    {
      assert actions[..k][..j] == actions[..j];
    }
  }

  /** The event comes from an accepted message that gives its id. */
  predicate GivesId(command: ShipmentCommand, digest: string -> string, uuid: string -> Option<string>) {
    Effects.Given(command.payload, "event_id").Some? && Parse(command.payload, digest, uuid) == Success(command)
  }

  /** Events from messages that give pairwise different ids are never answered as duplicates. */
  lemma {:induction false} GivenIdsNeverDuplicate(
    config: Config, actions: seq<Action>, digest: string -> string, uuid: string -> Option<string>, k: nat)
    requires forall i :: 0 <= i < |actions| && actions[i].Shipment? ==> GivesId(actions[i].shipment, digest, uuid)
    requires forall i, j :: 0 <= i < j < |actions| && actions[i].Shipment? && actions[j].Shipment? ==>
      Effects.Given(actions[i].shipment.payload, "event_id") != Effects.Given(actions[j].shipment.payload, "event_id")
    requires k < |actions| && actions[k].Shipment?
    ensures ShipmentEvent(Run(config, actions[..k]).store, actions[k].shipment).1 != Duplicate
  {
    DuplicateExactly(config, actions, k);
    hide Run, ShipmentEvent, Parse, Effects.Given;
    if j :| 0 <= j < k && AppliedAt(config, actions, j, actions[k].shipment.eventId) {
      Effects.GivenIdsTellApart(actions[j].shipment.payload, actions[k].shipment.payload, digest, uuid);
      assert false;
    }
  }

  // ---------------------------------------------------------------- the machine without an inbox

  function WithoutInbox(store: Store, command: ShipmentCommand): Option<Store> {
    if command.orderId !in store.orders then None else Some(ApplyShipment(store, command))
  }

  ghost function StepWithout(config: Config, s: State, a: Action): State {
    if a.Shipment? then Install(s, WithoutInbox(s.store, a.shipment)) else Step(config, s, a)
  }

  ghost function RunWithout(config: Config, actions: seq<Action>): State {
    if actions == [] then INIT
    else StepWithout(config, RunWithout(config, actions[..|actions| - 1]), actions[|actions| - 1])
  }

  function Forget(s: State): State {
    s.(store := s.store.(inbox := map[]))
  }

  predicate Agree(a: Action, b: Action) {
    a.Shipment? && b.Shipment? && a.shipment.eventId == b.shipment.eventId ==> SameMeaning(a.shipment, b.shipment)
  }

  /** Every event id of the run means one thing to an order. */
  predicate IdsMeanOneThing(actions: seq<Action>) {
    forall i, j :: 0 <= i < |actions| && 0 <= j < |actions| ==> Agree(actions[i], actions[j])
  }

  /** A delivery the inbox check drops although its order is known and still open to it. */
  predicate Dropped(s: State, a: Action) {
    && a.Shipment?
    && a.shipment.eventId in s.store.inbox
    && a.shipment.orderId in s.store.orders
    && ShipmentTarget(s.store.orders[a.shipment.orderId].status, a.shipment.eventType).Some?
  }

  lemma {:induction false} CommittedAreActions(config: Config, actions: seq<Action>, i: nat) returns (k: nat)
    requires i < |CommittedEvents(config, actions)|
    ensures k < |actions| && actions[k] == Shipment(CommittedEvents(config, actions)[i])
  {
    var before := actions[..|actions| - 1];
    if i < |CommittedEvents(config, before)| {
      k := CommittedAreActions(config, before, i);
    } else {
      k := |actions| - 1;
    }
  }

  lemma {:induction false} ForgetCreate(s: State, a: Action)
    requires a.FirstLookup? || a.AskCatalog? || a.SecondLookup? || a.Insert?
      || a.RequestPayment? || a.CancelUnpaid? || a.Abandon?
    ensures Forget(CreateStep(s, a)) == CreateStep(Forget(s), a)
  {
    hide OrderNotifications.ForOrder, Amounts.Amount, Lookup, Quote, AfterPayment, KeyTaken;
  }

  lemma {:induction false} ForgetWorker(config: Config, s: State, a: Action)
    requires a.SelectBatch? || a.PublishNext? || a.CommitBatch? || a.AbortBatch?
    ensures Forget(WorkerStep(config, s, a)) == WorkerStep(config, Forget(s), a)
  {
    hide Outbox.MarkAll, Outbox.Select, Possible, Locked;
  }

  lemma {:induction false} ForgetPayment(s: State, command: PaymentCommand)
    ensures Forget(Install(s, PaymentCallback(s.store, command).0))
         == Install(Forget(s), PaymentCallback(Forget(s).store, command).0)
  {
    hide OrderNotifications.ForOrder, OrderNotifications.OrderPaidEvent, CallbackReason, VerdictOf;
  }

  lemma {:induction false} ForgetCommutes(config: Config, s: State, a: Action)
    requires !a.Shipment?
    ensures Forget(Step(config, s, a)) == Step(config, Forget(s), a)
  {
    hide CreateStep, WorkerStep, PaymentCallback;
    match a {
      case Begin(_, _) =>
      case Callback(command) => ForgetPayment(s, command);
      case SelectBatch(_) => ForgetWorker(config, s, a);
      case PublishNext(_, _, _) => ForgetWorker(config, s, a);
      case CommitBatch(_) => ForgetWorker(config, s, a);
      case AbortBatch(_, _) => ForgetWorker(config, s, a);
      case _ => ForgetCreate(s, a);
    }
  }

  lemma {:induction false} ForgetApplied(store: Store, command: ShipmentCommand)
    requires command.orderId in store.orders
    ensures var forgotten := store.(inbox := map[]);
      ApplyShipment(Remember(store, command), command).(inbox := map[]) == ApplyShipment(forgotten, command)
  {
    hide OrderNotifications.ForOrder, ShipmentReason;
  }

  /** A duplicate finds its order closed to events of its type. */
  lemma {:induction false} DuplicateStutters(config: Config, before: seq<Action>, command: ShipmentCommand)
    requires IdsMeanOneThing(before + [Shipment(command)])
    requires command.eventId in Run(config, before).store.inbox
    ensures command.orderId in Run(config, before).store.orders
    ensures ShipmentTarget(Run(config, before).store.orders[command.orderId].status, command.eventType) == None
  {
    hide Run, CommittedEvents;
    InboxTracked(config, before);
    var events := CommittedEvents(config, before);
    var i :| 0 <= i < |events| && events[i].eventId == command.eventId;
    var k := CommittedAreActions(config, before, i);
    var actions := before + [Shipment(command)];
    assert Agree(actions[k], actions[|before|]);
    assert Closed(Run(config, before).store.orders, events[i]);
  }

  lemma {:induction false} ShipmentStep(config: Config, s: State, command: ShipmentCommand)
    ensures Step(config, s, Shipment(command)) == Install(s, ShipmentEvent(s.store, command).0)
  {
  }

  lemma {:induction false} ApplyMoves(store: Store, command: ShipmentCommand)
    requires command.orderId in store.orders
    ensures ApplyShipment(store, command) == store <==>
      ShipmentTarget(store.orders[command.orderId].status, command.eventType) == None
  {
    hide OrderNotifications.ForOrder, ShipmentReason;
  }

  /** One step of the two machines agrees exactly if it drops nothing. */
  lemma {:induction false} StepsAgree(config: Config, s: State, a: Action)
    ensures StepWithout(config, Forget(s), a) == Forget(Step(config, s, a)) <==> !Dropped(s, a)
  {
    hide Step, ApplyShipment;
    if a.Shipment? {
      ShipmentStep(config, s, a.shipment);
      if a.shipment.orderId in s.store.orders {
        if a.shipment.eventId in s.store.inbox {
          ApplyMoves(Forget(s).store, a.shipment);
        } else {
          ForgetApplied(s.store, a.shipment);
        }
      }
    } else {
      ForgetCommutes(config, s, a);
    }
  }

  ghost predicate AgreeAlong(config: Config, actions: seq<Action>) {
    forall k :: 0 <= k <= |actions| ==> RunWithout(config, actions[..k]) == Forget(Run(config, actions[..k]))
  }

  ghost predicate NothingDropped(config: Config, actions: seq<Action>) {
    forall k :: 0 <= k < |actions| ==> !Dropped(Run(config, actions[..k]), actions[k])
  }

  lemma {:induction false} AlongPrefix(config: Config, before: seq<Action>, a: Action)
    ensures AgreeAlong(config, before + [a]) <==>
      AgreeAlong(config, before) && RunWithout(config, before + [a]) == Forget(Run(config, before + [a]))
    ensures NothingDropped(config, before + [a]) <==>
      NothingDropped(config, before) && !Dropped(Run(config, before), a)
  {
    hide Run, RunWithout, Dropped;
    var actions := before + [a];
    assert actions[..|before|] == before && actions[..|actions|] == actions;
    forall k | 0 <= k <= |before|
      ensures actions[..k] == before[..k]
    {
    }
  }

  lemma {:induction false} AgreeAtEnd(config: Config, actions: seq<Action>)
    requires AgreeAlong(config, actions)
    ensures RunWithout(config, actions) == Forget(Run(config, actions))
  {
    hide Run, RunWithout;
    assert actions[..|actions|] == actions;
  }

  /**
   Exactly when the inbox is redundant: the machine without inbox check agrees with the service on
   everything but the inbox at every point of a run if and only if no delivery of it is dropped
   while its order is open.
   */
  lemma {:induction false} InboxRedundantExactly(config: Config, actions: seq<Action>)
    ensures AgreeAlong(config, actions) <==> NothingDropped(config, actions)
  {
    if actions == [] {
      assert actions[..0] == [];
    } else {
      hide Step, StepWithout, Dropped, AgreeAlong, NothingDropped;
      var before, a := actions[..|actions| - 1], actions[|actions| - 1];
      assert before + [a] == actions;
      InboxRedundantExactly(config, before);
      AlongPrefix(config, before, a);
      StepsAgree(config, Run(config, before), a);
      if AgreeAlong(config, before) {
        AgreeAtEnd(config, before);
      }
    }
  }

  /**
   The inbox is redundant for outcomes: if ids mean one thing, the machine without inbox check
   agrees with the service on everything but the inbox after every run, under any redelivery.
   */
  lemma {:induction false} InboxRedundant(config: Config, actions: seq<Action>)
    requires IdsMeanOneThing(actions)
    ensures RunWithout(config, actions) == Forget(Run(config, actions))
  {
    hide Run, RunWithout;
    forall k | 0 <= k < |actions|
      ensures !Dropped(Run(config, actions[..k]), actions[k])
    {
      var before := actions[..k];
      assert before + [actions[k]] == actions[..k + 1];
      if actions[k].Shipment? && actions[k].shipment.eventId in Run(config, before).store.inbox {
        DuplicateStutters(config, before, actions[k].shipment);
      }
    }
    InboxRedundantExactly(config, actions);
    AgreeAtEnd(config, actions);
  }

  /** The event comes from an accepted message with a derived id and a colon-free type, as recognised ones are. */
  ghost predicate FromMessage(command: ShipmentCommand, digest: string -> string, uuid: string -> Option<string>) {
    exists p :: Parsed(p, digest, uuid) && Parse(p, digest, uuid).value == command && Text.ColonFree(TypeText(p))
  }

  /** With ids derived from messages whose types have no colon, the inbox never changes an outcome. */
  lemma {:induction false} InboxRedundantForDerivedIds(
    config: Config, actions: seq<Action>, digest: string -> string, uuid: string -> Option<string>)
    requires AcceptsNoMore(uuid)
    requires forall i :: 0 <= i < |actions| && actions[i].Shipment? ==> FromMessage(actions[i].shipment, digest, uuid)
    ensures RunWithout(config, actions) == Forget(Run(config, actions))
  {
    hide Run, RunWithout, AcceptsNoMore, Parse, SameMeaning, Text.ColonFree, TypeText;
    forall i, j | 0 <= i < |actions| && 0 <= j < |actions|
      ensures Agree(actions[i], actions[j])
    {
      if actions[i].Shipment? && actions[j].Shipment? && actions[i].shipment.eventId == actions[j].shipment.eventId {
        var p :| Parsed(p, digest, uuid) && Parse(p, digest, uuid).value == actions[i].shipment
          && Text.ColonFree(TypeText(p));
        var q :| Parsed(q, digest, uuid) && Parse(q, digest, uuid).value == actions[j].shipment
          && Text.ColonFree(TypeText(q));
        ConfusedTypeHasColon(p, q, digest, uuid);
      }
    }
    InboxRedundant(config, actions);
  }

  lemma {:induction false} UnknownTypeTakesId(store: Store, early: ShipmentCommand, shipment: ShipmentCommand)
    requires early.eventId == shipment.eventId && !Recognised(early.eventType) && early.orderId in store.orders
    requires shipment.orderId in store.orders
    requires ShipmentTarget(store.orders[shipment.orderId].status, shipment.eventType).Some?
    ensures var processed := Install(INIT.(store := store), ShipmentEvent(store, early).0);
      && processed.store.orders == store.orders
      && Dropped(processed, Shipment(shipment))
      && ShipmentEvent(processed.store, shipment) == (None, Duplicate)
  {
    hide OrderNotifications.ForOrder;
  }

  /**
   With a colon it can: once the message of the unrecognised type was processed, the shipment of the
   other order is dropped as a duplicate although that order is still open.
   */
  lemma {:induction false} ColonTypeDropsShipment(
    store: Store, first: string, second: string, digest: string -> string, uuid: string -> Option<string>)
    requires first != "" && second != "" && uuid(first).Some? && uuid(second).Some?
    requires uuid(first).value in store.orders && uuid(second).value in store.orders
    requires ShipmentTarget(store.orders[uuid(first).value].status, ORDER_SHIPPED).Some?
    ensures
      var p := Unrecognised(Text.Join(ORDER_SHIPPED, first), second);
      var q := ShippedMessage(first, Text.Join(second, "unknown"));
      && Parsed(p, digest, uuid) && Parsed(q, digest, uuid)
      && var early, shipment := Parse(p, digest, uuid).value, Parse(q, digest, uuid).value;
        && shipment.orderId == uuid(first).value
        && var processed := Install(INIT.(store := store), ShipmentEvent(store, early).0);
          && processed.store.orders == store.orders
          && Dropped(processed, Shipment(shipment))
          && ShipmentEvent(processed.store, shipment) == (None, Duplicate)
  {
    var p := Unrecognised(Text.Join(ORDER_SHIPPED, first), second);
    var q := ShippedMessage(first, Text.Join(second, "unknown"));
    ColonTypeConfusesIds(first, second, digest, uuid);
    hide Parse, Unrecognised, ShippedMessage, Install, ShipmentEvent, Dropped;
    UnknownTypeTakesId(store, Parse(p, digest, uuid).value, Parse(q, digest, uuid).value);
  }

  function ReusedId(id: string, price: Amounts.Decimal): (actions: seq<Action>)
    ensures |actions| == 7
  {
    var create := CreateCommand("user", "item", 1, "key");
    [Begin(0, create), FirstLookup(0), AskCatalog(0, create.itemId, Item(price, 1), id), SecondLookup(0), Insert(0),
     Shipment(ShipmentCommand("event-1", "order.note", id, map[])),
     Shipment(ShipmentCommand("event-1", ORDER_SHIPPED, id, map[]))]
  }

  lemma {:induction false} ReusedIdCreates(config: Config, id: string, price: Amounts.Decimal)
    requires UuidText(id)
    ensures var s := Run(config, ReusedId(id, price)[..5]);
      && id in s.store.orders && s.store.orders[id].status == New
      && s.store.inbox == map[]
  {
    hide OrderNotifications.ForOrder;
    var actions, create := ReusedId(id, price), CreateCommand("user", "item", 1, "key");
    var order := NewOrder(id, create);
    assert actions[..0] == [];
    assert actions[..1] == [] + [actions[0]];
    RunSplits(config, [], actions[0]);
    assert actions[..2] == actions[..1] + [actions[1]];
    RunSplits(config, actions[..1], actions[1]);
    assert Run(config, actions[..2]) == INIT.(calls := map[0 := CreateCall(create, AtCatalog)]);
    assert actions[..3] == actions[..2] + [actions[2]];
    RunSplits(config, actions[..2], actions[2]);
    assert actions[..4] == actions[..3] + [actions[3]];
    RunSplits(config, actions[..3], actions[3]);
    assert Run(config, actions[..4]) == INIT.(calls := map[0 := CreateCall(create, AtInsert(order, price))]);
    assert actions[..5] == actions[..4] + [actions[4]];
    RunSplits(config, actions[..4], actions[4]);
  }

  /**
   Where an id stands for two events the inbox is not redundant: a shipment that reuses the id of
   an event of unknown type is dropped, although its order is still open.
   */
  lemma {:induction false} ReusedIdDropsShipment(config: Config, id: string, price: Amounts.Decimal)
    requires UuidText(id)
    ensures
      var actions := ReusedId(id, price);
      Dropped(Run(config, actions[..6]), actions[6])
  {
    hide RunFrom, CreateStep;
    var actions := ReusedId(id, price);
    ReusedIdCreates(config, id, price);
    assert actions[..6] == actions[..5] + [actions[5]];
    RunSplits(config, actions[..5], actions[5]);
  }
}
