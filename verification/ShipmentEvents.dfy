/** Reading a shipment message: the event id it is remembered by and the command it becomes. */
module ShipmentEvents {
  import opened Wrappers
  import opened Entities
  import Text

  datatype ShipmentCommand = ShipmentCommand(
    eventId: string,
    eventType: string,
    orderId: string,
    payload: Payload)

  datatype ParseError = MissingOrderId | MalformedUuid

  function TextOr(payload: Payload, key: string, default: string): string {
    if key in payload then payload[key].AsText() else default
  }

  function ShipmentSuffix(payload: Payload): string {
    var v := Get(payload, "shipment_id");
    if v.Truthy() then v.AsText() else "no-shipment"
  }

  /** `digest` stands for the first 16 hexadecimal digits of SHA-256. */
  function EventIdSuffix(payload: Payload, digest: string -> string): string {
    var eventType := TextOr(payload, "event_type", "unknown");
    if eventType == ORDER_SHIPPED then ShipmentSuffix(payload)
    else if eventType == ORDER_CANCELLED then digest(TextOr(payload, "reason", ""))
    else "unknown"
  }

  function BuildEventId(payload: Payload, digest: string -> string): string {
    if Get(payload, "event_id").Truthy() then payload["event_id"].AsText()
    else
      Text.Join(
        TextOr(payload, "event_type", "unknown"),
        Text.Join(TextOr(payload, "order_id", "unknown"), EventIdSuffix(payload, digest)))
  }

  /** `uuid` stands for `str(UUID(text))`: the canonical text, or None where UUID raises. */
  function Parse(payload: Payload, digest: string -> string, uuid: string -> Option<string>)
    : Result<ShipmentCommand, ParseError>
  {
    var raw := Get(payload, "order_id");
    if !raw.Truthy() then Failure(MissingOrderId)
    else
      match uuid(raw.AsText())
      case None => Failure(MalformedUuid)
      case Some(orderId) =>
        Success(ShipmentCommand(
          BuildEventId(payload, digest),
          TextOr(payload, "event_type", ""),
          orderId,
          payload))
  }

  /** The id is derived from the message, and its type and order text can be read back from it. */
  predicate Derived(payload: Payload) {
    && !Get(payload, "event_id").Truthy()
    && Text.ColonFree(TextOr(payload, "event_type", "unknown"))
    && Text.ColonFree(TextOr(payload, "order_id", "unknown"))
  }

  lemma {:induction false} DerivedIdInjective(p: Payload, q: Payload, digest: string -> string)
    requires Derived(p) && Derived(q)
    ensures BuildEventId(p, digest) == BuildEventId(q, digest) <==>
      && TextOr(p, "event_type", "unknown") == TextOr(q, "event_type", "unknown")
      && TextOr(p, "order_id", "unknown") == TextOr(q, "order_id", "unknown")
      && EventIdSuffix(p, digest) == EventIdSuffix(q, digest)
  {
    if BuildEventId(p, digest) == BuildEventId(q, digest) {
      Text.JoinSplitsAtFirstColon(
        TextOr(p, "event_type", "unknown"),
        Text.Join(TextOr(p, "order_id", "unknown"), EventIdSuffix(p, digest)),
        TextOr(q, "event_type", "unknown"),
        Text.Join(TextOr(q, "order_id", "unknown"), EventIdSuffix(q, digest)));
      Text.JoinSplitsAtFirstColon(
        TextOr(p, "order_id", "unknown"), EventIdSuffix(p, digest),
        TextOr(q, "order_id", "unknown"), EventIdSuffix(q, digest));
    }
  }

  /** A derived shipped id never equals a derived cancelled id, whatever the order texts. */
  lemma {:induction false} ShippedNeverCancelled(p: Payload, q: Payload, digest: string -> string)
    requires !Get(p, "event_id").Truthy() && !Get(q, "event_id").Truthy()
    requires TextOr(p, "event_type", "unknown") == ORDER_SHIPPED
    requires TextOr(q, "event_type", "unknown") == ORDER_CANCELLED
    ensures BuildEventId(p, digest) != BuildEventId(q, digest)
  {
    assert BuildEventId(p, digest)[6] == 's';
    assert BuildEventId(q, digest)[6] == 'c';
  }

  /** Two derived shipped ids are equal exactly for the same order text and effective shipment id. */
  lemma {:induction false} ShippedIdInjective(p: Payload, q: Payload, digest: string -> string)
    requires Derived(p) && Derived(q)
    requires TextOr(p, "event_type", "unknown") == TextOr(q, "event_type", "unknown") == ORDER_SHIPPED
    ensures BuildEventId(p, digest) == BuildEventId(q, digest) <==>
      TextOr(p, "order_id", "unknown") == TextOr(q, "order_id", "unknown") && ShipmentSuffix(p) == ShipmentSuffix(q)
  {
    DerivedIdInjective(p, q, digest);
  }

  predicate DerivedShipped(p: Payload) {
    !Get(p, "event_id").Truthy() && TextOr(p, "event_type", "unknown") == ORDER_SHIPPED
  }

  predicate SharesId(p: Payload, q: Payload, digest: string -> string) {
    && DerivedShipped(q)
    && BuildEventId(q, digest) == BuildEventId(p, digest)
    && TextOr(q, "order_id", "unknown") != TextOr(p, "order_id", "unknown")
  }

  /** A shipped message with this order text and shipment id. */
  function ShippedMessage(order: string, shipment: string): Payload {
    map["event_type" := Str(ORDER_SHIPPED), "order_id" := Str(order), "shipment_id" := Str(shipment)]
  }

  lemma {:induction false} ShippedId(p: Payload, digest: string -> string)
    requires DerivedShipped(p)
    ensures BuildEventId(p, digest)
      == Text.Join(ORDER_SHIPPED, Text.Join(TextOr(p, "order_id", "unknown"), ShipmentSuffix(p)))
    ensures ShipmentSuffix(p) != ""
  {
  }

  lemma {:induction false} ShippedColonFree()
    ensures Text.ColonFree(ORDER_SHIPPED)
  {
  }

  /** With no colon but the joining one, and one at the very end, a text splits in one way. */
  lemma {:induction false} OnlySplit(a: string, x: string, b: string, y: string)
    requires Text.Join(a, x) == Text.Join(b, y) && x != "" && y != ""
    requires Text.ColonFree(a) && Text.ColonFree(x[..|x| - 1])
    ensures a == b
  {
    var s := Text.Join(a, x);
    assert s[|a|] == ':' && s[|b|] == ':';
    assert forall i :: 0 <= i < |a| ==> s[i] == a[i];
    assert forall i :: 0 <= i < |x| - 1 ==> s[|a| + 1 + i] == x[i] == x[..|x| - 1][i];
    assert |b| == |a|;
    assert a == s[..|a|] && b == s[..|b|];
  }

  lemma {:induction false} SharedHasColon(p: Payload, q: Payload, digest: string -> string)
    requires DerivedShipped(p) && SharesId(p, q, digest)
    ensures ShipmentSuffix(p) != ""
    ensures !Text.ColonFree(TextOr(p, "order_id", "unknown"))
      || !Text.ColonFree(ShipmentSuffix(p)[..|ShipmentSuffix(p)| - 1])
  {
    hide BuildEventId, TextOr, ShipmentSuffix, Text.Join, Text.ColonFree;
    var order, shipment := TextOr(p, "order_id", "unknown"), ShipmentSuffix(p);
    ShippedId(p, digest);
    ShippedId(q, digest);
    assert Text.ColonFree(ORDER_SHIPPED) by {
      ShippedColonFree();
    }
    Text.JoinSplitsAtFirstColon(
      ORDER_SHIPPED, Text.Join(order, shipment),
      ORDER_SHIPPED, Text.Join(TextOr(q, "order_id", "unknown"), ShipmentSuffix(q)));
    if Text.ColonFree(order) && Text.ColonFree(shipment[..|shipment| - 1]) {
      OnlySplit(order, shipment, TextOr(q, "order_id", "unknown"), ShipmentSuffix(q));
    }
  }

  lemma {:induction false} SplitElsewhere(p: Payload, order: string, shipment: string, digest: string -> string)
    requires DerivedShipped(p) && shipment != ""
    requires Text.Join(order, shipment) == Text.Join(TextOr(p, "order_id", "unknown"), ShipmentSuffix(p))
    requires |order| != |TextOr(p, "order_id", "unknown")|
    ensures SharesId(p, ShippedMessage(order, shipment), digest)
  {
    ShippedId(p, digest);
    ShippedId(ShippedMessage(order, shipment), digest);
  }

  /**
   Which derived shipped ids are ambiguous: some other order text yields the same id exactly if the order
   text has a colon, or the shipment id has one with something behind it. This is about the texts the
   id is built from; which of them a message may carry is decided by the UUID parser.
   */
  lemma {:induction false} SharedShippedId(p: Payload, digest: string -> string)
    requires DerivedShipped(p)
    ensures var order, shipment := TextOr(p, "order_id", "unknown"), ShipmentSuffix(p);
      (exists q :: SharesId(p, q, digest)) <==>
        !Text.ColonFree(order) || !Text.ColonFree(shipment[..|shipment| - 1])
  {
    hide BuildEventId, TextOr, ShipmentSuffix, SharesId, ShippedMessage;
    var order, shipment := TextOr(p, "order_id", "unknown"), ShipmentSuffix(p);
    ShippedId(p, digest);
    if !Text.ColonFree(order) {
      var i :| 0 <= i < |order| && order[i] == ':';
      assert order == Text.Join(order[..i], order[i + 1..]);
      SplitElsewhere(p, order[..i], order[i + 1..] + ":" + shipment, digest);
    } else if !Text.ColonFree(shipment[..|shipment| - 1]) {
      var i :| 0 <= i < |shipment| - 1 && shipment[i] == ':';
      assert shipment == Text.Join(shipment[..i], shipment[i + 1..]);
      SplitElsewhere(p, Text.Join(order, shipment[..i]), shipment[i + 1..], digest);
    } else if q :| SharesId(p, q, digest) {
      SharedHasColon(p, q, digest);
    }
  }

  /** An example of such texts: "a" and "a:b". */
  lemma {:induction false} ColonsConfuseShippedIds(digest: string -> string)
    ensures
      var p := map["event_type" := Str(ORDER_SHIPPED), "order_id" := Str("a:b"), "shipment_id" := Str("c")];
      var q := map["event_type" := Str(ORDER_SHIPPED), "order_id" := Str("a"), "shipment_id" := Str("b:c")];
      && BuildEventId(p, digest) == BuildEventId(q, digest)
      && TextOr(p, "order_id", "unknown") != TextOr(q, "order_id", "unknown")
  {
    assert Text.Join("a:b", "c") == Text.Join("a", "b:c");
    assert "a:b"[1] == ':';
    assert |"a:b"| != |"a"|;
  }

  predicate Recognised(eventType: string) {
    eventType == ORDER_SHIPPED || eventType == ORDER_CANCELLED
  }

  /** Two commands mean the same to an order: same order and type, or both of no recognised type. */
  predicate SameMeaning(a: ShipmentCommand, b: ShipmentCommand) {
    && a.orderId == b.orderId
    && (a.eventType == b.eventType || (!Recognised(a.eventType) && !Recognised(b.eventType)))
  }

  /** Messages parsed with colon-free type and order text: the derived event id determines what they mean. */
  lemma {:induction false} DerivedIdsDetermineMeaning(
    p: Payload, q: Payload, digest: string -> string, uuid: string -> Option<string>)
    requires Derived(p) && Derived(q)
    requires Parse(p, digest, uuid).Success? && Parse(q, digest, uuid).Success?
    requires Parse(p, digest, uuid).value.eventId == Parse(q, digest, uuid).value.eventId
    ensures SameMeaning(Parse(p, digest, uuid).value, Parse(q, digest, uuid).value)
  {
    DerivedIdInjective(p, q, digest);
  }

  // ---------------------------------------------------------------- ids of accepted messages

  /** Nothing that goes on with a colon behind an accepted order text is accepted; true of Python's UUID. */
  ghost predicate AcceptsNoMore(uuid: string -> Option<string>) {
    forall a, z :: uuid(a).Some? ==> uuid(Text.Join(a, z)).None?
  }

  /** The message is accepted, and its event id is derived. */
  predicate Parsed(p: Payload, digest: string -> string, uuid: string -> Option<string>) {
    !Get(p, "event_id").Truthy() && Parse(p, digest, uuid).Success?
  }

  function TypeText(p: Payload): string {
    TextOr(p, "event_type", "unknown")
  }

  function OrderText(p: Payload): string {
    TextOr(p, "order_id", "unknown")
  }

  lemma {:induction false} ParsedParts(p: Payload, digest: string -> string, uuid: string -> Option<string>)
    requires Parsed(p, digest, uuid)
    ensures var command := Parse(p, digest, uuid).value;
      && OrderText(p) != "" && uuid(OrderText(p)) == Some(command.orderId)
      && command.eventId == Text.Join(TypeText(p), Text.Join(OrderText(p), EventIdSuffix(p, digest)))
      && (Recognised(command.eventType) <==> Recognised(TypeText(p)))
      && (Recognised(TypeText(p)) ==> command.eventType == TypeText(p))
      && (!Recognised(TypeText(p)) ==> EventIdSuffix(p, digest) == "unknown")
  {
    assert forall n :: Text.IntText(n) != "";
  }

  lemma {:induction false} RecognisedColonFree(eventType: string)
    requires Recognised(eventType)
    ensures Text.ColonFree(eventType)
  {
  }

  lemma {:induction false} LongerPart(a: string, x: string, b: string, y: string)
    requires |a| < |b| && Text.Join(a, x) == Text.Join(b, y)
    ensures b == Text.Join(a, b[|a| + 1..])
  {
    var s := Text.Join(a, x);
    assert s[|a|] == ':' && a == s[..|a|];
    assert b == s[..|b|];
    assert b == b[..|a|] + [b[|a|]] + b[|a| + 1..];
  }

  lemma {:induction false} OrderPartUnique(a: string, x: string, b: string, y: string, uuid: string -> Option<string>)
    requires AcceptsNoMore(uuid) && uuid(a).Some? && uuid(b).Some?
    requires Text.Join(a, x) == Text.Join(b, y)
    ensures a == b
  {
    if |a| < |b| {
      LongerPart(a, x, b, y);
    } else if |b| < |a| {
      LongerPart(b, y, a, x);
    } else {
      var s := Text.Join(a, x);
      assert a == s[..|a|] && b == s[..|b|];
    }
  }

  /**
   Accepted messages with equal derived ids mean the same, unless one of the two types has a colon.
   Such a type is not a recognised one.
   */
  lemma {:induction false} ConfusedTypeHasColon(
    p: Payload, q: Payload, digest: string -> string, uuid: string -> Option<string>)
    requires AcceptsNoMore(uuid) && Parsed(p, digest, uuid) && Parsed(q, digest, uuid)
    requires Parse(p, digest, uuid).value.eventId == Parse(q, digest, uuid).value.eventId
    ensures SameMeaning(Parse(p, digest, uuid).value, Parse(q, digest, uuid).value)
      || (!Text.ColonFree(TypeText(p)) && !Recognised(TypeText(p)))
      || (!Text.ColonFree(TypeText(q)) && !Recognised(TypeText(q)))
  {
    ParsedParts(p, digest, uuid);
    ParsedParts(q, digest, uuid);
    hide Parse, EventIdSuffix, Text.Join, TypeText, OrderText, Recognised, Text.ColonFree, AcceptsNoMore;
    if !Text.ColonFree(TypeText(p)) {
      if Recognised(TypeText(p)) {
        RecognisedColonFree(TypeText(p));
      }
    } else if !Text.ColonFree(TypeText(q)) {
      if Recognised(TypeText(q)) {
        RecognisedColonFree(TypeText(q));
      }
    } else {
      Text.JoinSplitsAtFirstColon(
        TypeText(p), Text.Join(OrderText(p), EventIdSuffix(p, digest)),
        TypeText(q), Text.Join(OrderText(q), EventIdSuffix(q, digest)));
      OrderPartUnique(OrderText(p), EventIdSuffix(p, digest), OrderText(q), EventIdSuffix(q, digest), uuid);
    }
  }

  /** Among accepted shipped and cancelled messages a derived id determines order and type, whatever the texts. */
  lemma {:induction false} RecognisedIdsDetermineMeaning(
    p: Payload, q: Payload, digest: string -> string, uuid: string -> Option<string>)
    requires AcceptsNoMore(uuid) && Parsed(p, digest, uuid) && Parsed(q, digest, uuid)
    requires Recognised(Parse(p, digest, uuid).value.eventType) && Recognised(Parse(q, digest, uuid).value.eventType)
    requires Parse(p, digest, uuid).value.eventId == Parse(q, digest, uuid).value.eventId
    ensures SameMeaning(Parse(p, digest, uuid).value, Parse(q, digest, uuid).value)
  {
    ParsedParts(p, digest, uuid);
    ParsedParts(q, digest, uuid);
    ConfusedTypeHasColon(p, q, digest, uuid);
  }

  /** The other message is accepted under the same derived id and means something else. */
  predicate Confuses(p: Payload, q: Payload, digest: string -> string, uuid: string -> Option<string>) {
    && Parsed(p, digest, uuid) && Parsed(q, digest, uuid)
    && Parse(p, digest, uuid).value.eventId == Parse(q, digest, uuid).value.eventId
    && !SameMeaning(Parse(p, digest, uuid).value, Parse(q, digest, uuid).value)
  }

  /** The id reads as a type with a colon, an accepted order text and the suffix of unrecognised types. */
  predicate ReadsAs(id: string, eventType: string, order: string, uuid: string -> Option<string>) {
    && id == Text.Join(eventType, Text.Join(order, "unknown"))
    && !Text.ColonFree(eventType) && order != "" && uuid(order).Some?
  }

  function Unrecognised(eventType: string, order: string): Payload {
    map["event_type" := Str(eventType), "order_id" := Str(order)]
  }

  lemma {:induction false} UnrecognisedParsed(
    eventType: string, order: string, digest: string -> string, uuid: string -> Option<string>)
    requires !Text.ColonFree(eventType) && order != "" && uuid(order).Some?
    ensures var q := Unrecognised(eventType, order);
      && Parsed(q, digest, uuid) && !Recognised(Parse(q, digest, uuid).value.eventType)
      && Parse(q, digest, uuid).value.orderId == uuid(order).value
      && Parse(q, digest, uuid).value.eventId == Text.Join(eventType, Text.Join(order, "unknown"))
  {
    if Recognised(eventType) {
      RecognisedColonFree(eventType);
    }
  }

  /**
   When the id of an accepted shipped or cancelled message can stand for something else as well: exactly
   if the id also reads as that of an unrecognised type with a colon.
   */
  lemma {:induction false} ConfusableExactly(p: Payload, digest: string -> string, uuid: string -> Option<string>)
    requires AcceptsNoMore(uuid) && Parsed(p, digest, uuid)
    requires Recognised(Parse(p, digest, uuid).value.eventType)
    ensures (exists q :: Confuses(p, q, digest, uuid)) <==>
      exists eventType, order :: ReadsAs(Parse(p, digest, uuid).value.eventId, eventType, order, uuid)
  {
    ParsedParts(p, digest, uuid);
    hide Parse, EventIdSuffix, Text.Join, TypeText, OrderText, Text.ColonFree, AcceptsNoMore, Unrecognised, Parsed,
      Recognised;
    if q :| Confuses(p, q, digest, uuid) {
      ParsedParts(q, digest, uuid);
      ConfusedTypeHasColon(p, q, digest, uuid);
      assert ReadsAs(Parse(p, digest, uuid).value.eventId, TypeText(q), OrderText(q), uuid);
    }
    if eventType, order :| ReadsAs(Parse(p, digest, uuid).value.eventId, eventType, order, uuid) {
      UnrecognisedParsed(eventType, order, digest, uuid);
      assert Confuses(p, Unrecognised(eventType, order), digest, uuid);
    }
  }

  lemma {:induction false} ShippedParsed(
    order: string, shipment: string, digest: string -> string, uuid: string -> Option<string>)
    requires order != "" && shipment != "" && uuid(order).Some?
    ensures var q := ShippedMessage(order, shipment);
      && Parsed(q, digest, uuid)
      && Parse(q, digest, uuid).value.eventType == ORDER_SHIPPED
      && Parse(q, digest, uuid).value.orderId == uuid(order).value
      && Parse(q, digest, uuid).value.eventId == Text.Join(ORDER_SHIPPED, Text.Join(order, shipment))
  {
  }

  /**
   An example, for any two accepted order texts: an event of an unknown type about the second takes
   the id of a shipment of the first.
   */
  lemma {:induction false} ColonTypeConfusesIds(
    first: string, second: string, digest: string -> string, uuid: string -> Option<string>)
    requires first != "" && second != "" && uuid(first).Some? && uuid(second).Some?
    ensures
      var p := Unrecognised(Text.Join(ORDER_SHIPPED, first), second);
      var q := ShippedMessage(first, Text.Join(second, "unknown"));
      && Confuses(p, q, digest, uuid)
      && Parse(p, digest, uuid).value.orderId == uuid(second).value
      && !Recognised(Parse(p, digest, uuid).value.eventType)
      && Parse(q, digest, uuid).value.orderId == uuid(first).value
      && Parse(q, digest, uuid).value.eventType == ORDER_SHIPPED
  {
    hide Parse, Parsed, Unrecognised, ShippedMessage, Text.Join, Text.ColonFree;
    Text.JoinHasColon(ORDER_SHIPPED, first);
    UnrecognisedParsed(Text.Join(ORDER_SHIPPED, first), second, digest, uuid);
    Text.JoinHasColon(second, "unknown");
    ShippedParsed(first, Text.Join(second, "unknown"), digest, uuid);
    Text.JoinAssociates(ORDER_SHIPPED, first, Text.Join(second, "unknown"));
    assert Recognised(ORDER_SHIPPED);
  }
}
