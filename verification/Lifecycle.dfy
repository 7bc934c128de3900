/** The outcome of any run on one order, in closed form. */
module Lifecycle {
  import opened Entities
  import opened Transitions
  import opened OutboxWorker
  import opened Protocol
  import Creates
  import Effects
  import H = History
  import OrderNotifications
  import Text

  /** What reaches an order: payment results, a refusal or compensation being one, and shipment events. */
  datatype Signal = PaymentSucceeded | PaymentFailed | ShippedSignal | CancelledSignal

  function React(status: OrderStatus, signal: Signal): OrderStatus {
    match signal
    case PaymentSucceeded => if status == New then Paid else status
    case PaymentFailed => if status == New then Cancelled else status
    case ShippedSignal => if status == New || status == Paid then Shipped else status
    case CancelledSignal => if status == New || status == Paid then Cancelled else status
  }

  function Fold(signals: seq<Signal>): OrderStatus {
    if signals == [] then New else React(Fold(signals[..|signals| - 1]), signals[|signals| - 1])
  }

  predicate IsPayment(signal: Signal) {
    signal.PaymentSucceeded? || signal.PaymentFailed?
  }

  /** The position of the first payment result, or of the first shipment event; the length if there is none. */
  function First(signals: seq<Signal>, payment: bool): (i: nat)
    ensures i <= |signals|
    ensures forall j :: 0 <= j < i ==> IsPayment(signals[j]) != payment
    ensures i < |signals| ==> IsPayment(signals[i]) == payment
  {
    if signals == [] then 0
    else if IsPayment(signals[0]) == payment then 0
    else 1 + First(signals[1..], payment)
  }

  /**
   Cancelled when the first payment result is a failure and comes before every shipment event;
   otherwise what the first shipment event says; without one, paid if the first result succeeded.
   */
  function ClosedForm(signals: seq<Signal>): OrderStatus {
    var p, s := First(signals, true), First(signals, false);
    if p < s && signals[p] == PaymentFailed then Cancelled
    else if s < |signals| then (if signals[s] == ShippedSignal then Shipped else Cancelled)
    else if p < |signals| then Paid
    else New
  }

  lemma {:induction false} FirstUnique(signals: seq<Signal>, payment: bool, i: nat)
    requires i <= |signals|
    requires forall j :: 0 <= j < i ==> IsPayment(signals[j]) != payment
    requires i < |signals| ==> IsPayment(signals[i]) == payment
    ensures First(signals, payment) == i
  {
  }

  lemma {:induction false} FirstExtends(signals: seq<Signal>, next: Signal, payment: bool)
    ensures First(signals + [next], payment) ==
      if First(signals, payment) < |signals| then First(signals, payment)
      else if IsPayment(next) == payment then |signals| else |signals| + 1
  {
    var f, longer := First(signals, payment), signals + [next];
    assert forall j :: 0 <= j < |signals| ==> longer[j] == signals[j];
    FirstUnique(longer, payment,
      if f < |signals| then f else if IsPayment(next) == payment then |signals| else |signals| + 1);
  }

  lemma {:induction false} FoldClosed(signals: seq<Signal>)
    ensures Fold(signals) == ClosedForm(signals)
  {
    if signals != [] {
      var init, last := signals[..|signals| - 1], signals[|signals| - 1];
      FoldClosed(init);
      assert signals == init + [last];
      FirstExtends(init, last, true);
      FirstExtends(init, last, false);
    }
  }

  lemma {:induction false} FoldConcat(a: seq<Signal>, b: seq<Signal>, c: seq<Signal>)
    requires Fold(a) == Fold(b)
    ensures Fold(a + c) == Fold(b + c)
  {
    if c == [] {
      assert a + c == a && b + c == b;
    } else {
      FoldConcat(a, b, c[..|c| - 1]);
      assert (a + c)[..|a + c| - 1] == a + c[..|c| - 1];
      assert (b + c)[..|b + c| - 1] == b + c[..|c| - 1];
    }
  }

  lemma {:induction false} FoldSnoc(a: seq<Signal>, x: Signal)
    ensures Fold(a + [x]) == React(Fold(a), x)
  {
    hide React;
    assert (a + [x])[..|a|] == a;
  }

  lemma {:induction false} FoldTwo(a: seq<Signal>, x: Signal, y: Signal)
    ensures Fold(a + [x, y]) == React(React(Fold(a), x), y)
  {
    hide React;
    assert a + [x, y] == a + [x] + [y];
    FoldSnoc(a, x);
    FoldSnoc(a + [x], y);
  }

  /** Where the order of two neighbouring signals matters. */
  predicate Conflict(status: OrderStatus, x: Signal, y: Signal) {
    || (status == New && {x, y} == {PaymentSucceeded, PaymentFailed})
    || (status == New && {x, y} == {PaymentFailed, ShippedSignal})
    || ((status == New || status == Paid) && {x, y} == {ShippedSignal, CancelledSignal})
  }

  /**
   Swapping two neighbouring signals changes the status right behind them exactly in a conflict, and
   without a conflict the outcome of the run; a successful payment conflicts with no shipment event.
   */
  lemma {:induction false} SwapNeighbours(a: seq<Signal>, x: Signal, y: Signal, c: seq<Signal>)
    ensures Fold(a + [x, y]) == Fold(a + [y, x]) <==> !Conflict(Fold(a), x, y)
    ensures !Conflict(Fold(a), x, y) ==> Fold(a + [x, y] + c) == Fold(a + [y, x] + c)
    ensures x == PaymentSucceeded && !IsPayment(y) ==> !Conflict(Fold(a), x, y)
  {
    FoldTwo(a, x, y);
    FoldTwo(a, y, x);
    if !Conflict(Fold(a), x, y) {
      FoldConcat(a + [x, y], a + [y, x], c);
    }
  }

  // ---------------------------------------------------------------- signals of a run

  /** The signal an action brings to an order, by its texts; a duplicate event, or one of another type, brings none. */
  function SignalOf(s: State, a: Action, id: string): seq<Signal> {
    match a
    case Callback(command) =>
      if command.orderId != id || id !in s.store.orders then []
      else if Text.SameButForCase(command.status, "succeeded") then [PaymentSucceeded]
      else if Text.SameButForCase(command.status, "failed") then [PaymentFailed]
      else []
    case CancelUnpaid(c) =>
      if c in s.calls && s.calls[c].phase.AtCompensation? && s.calls[c].phase.order.id == id then [PaymentFailed]
      else []
    case Shipment(command) =>
      if command.orderId != id || id !in s.store.orders || command.eventId in s.store.inbox then []
      else if command.eventType == "order.shipped" then [ShippedSignal]
      else if command.eventType == "order.cancelled" then [CancelledSignal]
      else []
    case _ => []
  }

  ghost function Signals(config: Config, actions: seq<Action>, id: string): seq<Signal> {
    if actions == [] then []
    else
      var before := actions[..|actions| - 1];
      Signals(config, before, id) + SignalOf(Run(config, before), actions[|actions| - 1], id)
  }

  lemma {:induction false} ChangeReacts(s: State, a: Action, id: string)
    requires Keyed(s.store) && LegalChange(s.store, ChangeOf(s, a)) && id in s.store.orders
    ensures var after, signal := NewOrders(s.store.orders, ChangeOf(s, a)), SignalOf(s, a, id);
      && |signal| <= 1
      && after[id].status ==
           (if signal == [] then s.store.orders[id].status else React(s.store.orders[id].status, signal[0]))
  {
    if a.Callback? {
      Effects.VerdictByText(a.payment.status);
    }
    hide VerdictOf, Text.SameButForCase, CallbackReason, ShipmentReason, KeyTaken, OrderNotifications.ForOrder;
  }

  lemma {:induction false} NoSignalBeforeCreation(s: State, a: Action, id: string)
    requires Creates.Sound(s) && id !in s.store.orders
    ensures SignalOf(s, a, id) == []
  {
    if a.CancelUnpaid? && a.call in s.calls {
      assert Creates.CallSound(s.store.orders, s.calls[a.call]);
    }
  }

  lemma {:induction false} FoldOne(signals: seq<Signal>, signal: seq<Signal>)
    requires |signal| <= 1
    ensures Fold(signals + signal) == if signal == [] then Fold(signals) else React(Fold(signals), signal[0])
  {
    if signal == [] {
      assert signals + signal == signals;
    } else {
      assert (signals + signal)[..|signals|] == signals;
    }
  }

  lemma {:induction false} SignalsDecide(config: Config, actions: seq<Action>, id: string)
    ensures var orders := Run(config, actions).store.orders;
      if id in orders then orders[id].status == Fold(Signals(config, actions, id))
      else Signals(config, actions, id) == []
  {
    if actions != [] {
      hide Step, ChangeOf, LegalChange, SignalOf, React, Creates.Sound, Emitted;
      var before, a := actions[..|actions| - 1], actions[|actions| - 1];
      assert before + [a] == actions;
      SignalsDecide(config, before, id);
      var change := H.LastChange(config, before, a);
      var s := Run(config, before);
      Creates.RunSound(config, before);
      if id in s.store.orders {
        ChangeReacts(s, a, id);
        FoldOne(Signals(config, before, id), SignalOf(s, a, id));
        Creates.ChangePersists(s.store, change);
      } else {
        NoSignalBeforeCreation(s, a, id);
      }
    }
  }

  /** The status of every order after every run is the closed form of the signals that reached it. */
  lemma {:induction false} OutcomeOfRun(config: Config, actions: seq<Action>, id: string)
    requires id in Run(config, actions).store.orders
    ensures Run(config, actions).store.orders[id].status == ClosedForm(Signals(config, actions, id))
  {
    SignalsDecide(config, actions, id);
    FoldClosed(Signals(config, actions, id));
  }

  // ---------------------------------------------------------------- payment decides at most once

  predicate PaymentAction(a: Action) {
    a.Callback? || a.CancelUnpaid?
  }

  /** How often a callback or a compensation was seen changing the status of the order. */
  ghost function PaymentDecisions(config: Config, actions: seq<Action>, id: string): nat {
    if actions == [] then 0
    else
      var before := actions[..|actions| - 1];
      PaymentDecisions(config, before, id)
        + (if PaymentAction(actions[|actions| - 1])
              && H.Entered(Run(config, before).store.orders, Run(config, actions).store.orders, id) != []
           then 1 else 0)
  }

  lemma {:induction false} PaymentChangesNewOnly(s: State, a: Action, id: string)
    requires Keyed(s.store) && LegalChange(s.store, ChangeOf(s, a)) && PaymentAction(a)
    requires H.Entered(s.store.orders, NewOrders(s.store.orders, ChangeOf(s, a)), id) != []
    ensures id in s.store.orders && s.store.orders[id].status == New
    ensures NewOrders(s.store.orders, ChangeOf(s, a))[id].status != New
  {
    hide Lower, CallbackReason, OrderNotifications.ForOrder;
  }

  lemma {:induction false} DecidedMeansNotNew(config: Config, actions: seq<Action>, id: string)
    ensures PaymentDecisions(config, actions, id) <= 1
    ensures PaymentDecisions(config, actions, id) == 1 ==>
      id in Run(config, actions).store.orders && Run(config, actions).store.orders[id].status != New
  {
    if actions != [] {
      hide Step, ChangeOf, Emitted, H.Entered;
      var before, a := actions[..|actions| - 1], actions[|actions| - 1];
      assert before + [a] == actions;
      DecidedMeansNotNew(config, before, id);
      var change := H.LastChange(config, before, a);
      var s, t := Run(config, before), Run(config, actions);
      if PaymentAction(a) && H.Entered(s.store.orders, t.store.orders, id) != [] {
        PaymentChangesNewOnly(s, a, id);
      }
    }
  }

  /** Over any run at most one of all callbacks and compensations changes a given order. */
  lemma {:induction false} PaymentDecidesOnce(config: Config, actions: seq<Action>, id: string)
    ensures PaymentDecisions(config, actions, id) <= 1
  {
    DecidedMeansNotNew(config, actions, id);
  }

  /** The one step that cancels an order which is not NEW any more. */
  lemma {:induction false} CancelledByShipping(s: State, a: Action)
    requires Keyed(s.store)
    ensures var change := ChangeOf(s, a);
      change.Moved? && change.status == Cancelled && change.id in s.store.orders
      && s.store.orders[change.id].status != New ==>
        a.Shipment? && a.shipment.orderId == change.id && a.shipment.eventType == "order.cancelled"
  {
    hide Lower, CallbackReason, ShipmentReason, OrderNotifications.ForOrder;
  }

  /** An order that was ever PAID and is then cancelled is cancelled by a shipment event of that type. */
  lemma {:induction false} PaidIsCancelledByShipping(config: Config, before: seq<Action>, a: Action, id: string)
    ensures
      && Paid in H.StatusHistory(config, before, id)
      && H.Entered(Run(config, before).store.orders, Run(config, before + [a]).store.orders, id) == [Cancelled]
      ==> a.Shipment? && a.shipment.orderId == id && a.shipment.eventType == "order.cancelled"
  {
    hide Run, H.StatusHistory, Emitted, ChangeOf, H.LegalHistory;
    var change := H.LastChange(config, before, a);
    H.HistoryTracked(config, before, id);
    H.LegalHistories(H.StatusHistory(config, before, id));
    CancelledByShipping(Run(config, before), a);
  }
}
