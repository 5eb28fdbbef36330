/** Dispatching incoming PUBLISH packets: acknowledgement, handler choice and counters. */
module Dispatch {
  import opened Prelude
  import opened PacketReader
  import opened PublishPacket
  import opened TopicFilter

  /** A `MessageCallback`, named; an empty one is None. */
  type Handler = Option<nat>

  datatype Entry = Entry(filter: Bytes, handler: Handler)

  /** The subscription table in its iteration order, which an unordered map leaves open. */
  type Table = seq<Entry>

  predicate DistinctFilters(table: Table) {
    forall i, j :: 0 <= i < j < |table| ==> table[i].filter != table[j].filter
  }

  /** What a dispatch does that others can see, in order. */
  datatype Event =
    | SentPuback(id: u16)
    | Invoked(handler: nat, info: PublishInfo)
    | Dropped(info: PublishInfo)

  /** One packet and the table and fallback that the dispatch finds. */
  datatype Delivery = Delivery(packet: IncomingPacket, table: Table, fallback: Handler)

  // ---- Specification ----

  /** `find`: the entry with this very filter. */
  function ExactEntry(table: Table, topic: Bytes): (r: Option<nat>)
    ensures r.Some? ==> r.value < |table| && table[r.value].filter == topic
    ensures r.None? ==> forall i :: 0 <= i < |table| ==> table[i].filter != topic
  {
    if table == [] then None
    else if table[|table| - 1].filter == topic then Some(|table| - 1)
    else ExactEntry(table[..|table| - 1], topic)
  }

  /** The first entry whose filter matches. */
  function FirstMatch(table: Table, topic: Bytes): (r: Option<nat>)
    ensures r.Some? ==> r.value < |table| && Matches(topic, table[r.value].filter)
    ensures forall i :: 0 <= i < (if r.Some? then r.value else |table|) ==> !Matches(topic, table[i].filter)
  {
    FirstMatchFrom(table, topic, 0)
  }

  function FirstMatchFrom(table: Table, topic: Bytes, from: nat): (r: Option<nat>)
    ensures r.Some? ==> from <= r.value < |table| && Matches(topic, table[r.value].filter)
    ensures forall i :: from <= i < (if r.Some? then r.value else |table|) ==> !Matches(topic, table[i].filter)
    decreases |table| - from
  {
    if from >= |table| then None
    else if Matches(topic, table[from].filter) then Some(from)
    else FirstMatchFrom(table, topic, from + 1)
  }

  /** An exact entry decides alone, also with an empty callback; otherwise the first match does,
      and the fallback stands in for no match or an empty callback. */
  function ChooseHandler(table: Table, fallback: Handler, topic: Bytes): Handler {
    match ExactEntry(table, topic)
    case Some(i) => table[i].handler
    case None =>
      match FirstMatch(table, topic)
      case Some(i) => if table[i].handler.Some? then table[i].handler else fallback
      case None => fallback
  }

  function DispatchEvents(info: PublishInfo, table: Table, fallback: Handler): seq<Event> {
    var h := ChooseHandler(table, fallback, info.topic);
    (if info.qos == 1 then [SentPuback(info.packetId)] else [])
      + [if h.Some? then Invoked(h.value, info) else Dropped(info)]
  }

  /** The PUBLISH that a delivery carries, if it is one and parses. */
  function ParsedInfo(d: Delivery): Option<PublishInfo> {
    if d.packet.kind != 3 then None
    else match ParsedPublish(d.packet.flags, d.packet.body)
      case Ok(info) => Some(info)
      case Err(_) => None
  }

  function DeliveryEvents(d: Delivery): seq<Event> {
    match ParsedInfo(d)
    case Some(info) => DispatchEvents(info, d.table, d.fallback)
    case None => []
  }

  // ---- The code ----

  class Dispatcher {
    var messagesReceived: nat
    var droppedMessages: nat
    var events: seq<Event>

    constructor ()
      ensures messagesReceived == 0 && droppedMessages == 0 && events == []
    {
      messagesReceived, droppedMessages, events := 0, 0, [];
    }

    method FindHandler(table: Table, fallback: Handler, topic: Bytes) returns (cb: Handler)
      ensures cb == ChooseHandler(table, fallback, topic)
    {
      var exact := ExactEntry(table, topic);
      if exact.Some? { return table[exact.value].handler; }
      cb := None;
      var i := 0;
      while i < |table|
        invariant i <= |table| && cb == None
        invariant FirstMatch(table, topic) == FirstMatchFrom(table, topic, i)
      {
        var matched := TopicMatchesFilter(topic, table[i].filter);
        if matched {
          cb := table[i].handler;
          break;
        }
        i := i + 1;
      }
      if cb.None? && fallback.Some? { cb := fallback; }
    }

    method DispatchPublish(info: PublishInfo, table: Table, fallback: Handler)
      modifies this
      ensures events == old(events) + DispatchEvents(info, table, fallback)
      ensures messagesReceived == old(messagesReceived) + 1
      ensures droppedMessages == old(droppedMessages)
        + (if ChooseHandler(table, fallback, info.topic).None? then 1 else 0)
    {
      messagesReceived := messagesReceived + 1;
      if info.qos == 1 { events := events + [SentPuback(info.packetId)]; }
      var cb := FindHandler(table, fallback, info.topic);
      if cb.Some? {
        events := events + [Invoked(cb.value, info)];
      } else {
        events := events + [Dropped(info)];
        droppedMessages := droppedMessages + 1;
      }
    }

    /** The receive loop's PUBLISH case over a whole connection: each packet meets the table of its
        own moment, and packets that do not parse are passed over. */
    method ReceiveLoop(deliveries: seq<Delivery>)
      requires events == [] && messagesReceived == 0 && droppedMessages == 0
      modifies this
      ensures events == RunEvents(deliveries)
      ensures messagesReceived == |Parsed(deliveries)|
      ensures messagesReceived == |Invocations(events)| + droppedMessages
      ensures Pubacks(events) == QosOneIds(Parsed(deliveries))
    {
      var i := 0;
      while i < |deliveries|
        invariant i <= |deliveries|
        invariant events == RunEvents(deliveries[..i])
        invariant messagesReceived == |Parsed(deliveries[..i])|
        invariant messagesReceived == |Invocations(events)| + droppedMessages
      {
        var d := deliveries[i];
        assert deliveries[..i + 1][..i] == deliveries[..i];
        ghost var was := events;
        if d.packet.kind == 3 {
          var r := ParsePublish(d.packet.flags, d.packet.body);
          if r.Ok? {
            DispatchPublish(r.value, d.table, d.fallback);
            InvocationsOfDispatch(was, r.value, d.table, d.fallback);
          }
        }
        assert events == was + DeliveryEvents(d);
        i := i + 1;
      }
      assert deliveries[..i] == deliveries;
      AcksInOrder(deliveries);
    }
  }

  // ---- Over whole runs ----

  function RunEvents(deliveries: seq<Delivery>): seq<Event> {
    if deliveries == [] then []
    else RunEvents(deliveries[..|deliveries| - 1]) + DeliveryEvents(deliveries[|deliveries| - 1])
  }

  /** The PUBLISH packets that parsed, in order. */
  function Parsed(deliveries: seq<Delivery>): seq<PublishInfo> {
    if deliveries == [] then []
    else
      var info := ParsedInfo(deliveries[|deliveries| - 1]);
      Parsed(deliveries[..|deliveries| - 1]) + (if info.Some? then [info.value] else [])
  }

  function QosOneIds(infos: seq<PublishInfo>): seq<u16> {
    if infos == [] then []
    else
      var info := infos[|infos| - 1];
      QosOneIds(infos[..|infos| - 1]) + (if info.qos == 1 then [info.packetId] else [])
  }

  function Pubacks(events: seq<Event>): seq<u16> {
    if events == [] then []
    else
      var e := events[|events| - 1];
      Pubacks(events[..|events| - 1]) + (if e.SentPuback? then [e.id] else [])
  }

  function Invocations(events: seq<Event>): seq<PublishInfo> {
    if events == [] then []
    else
      var e := events[|events| - 1];
      Invocations(events[..|events| - 1]) + (if e.Invoked? then [e.info] else [])
  }

  lemma PubacksAppend(events: seq<Event>, e: Event)
    ensures Pubacks(events + [e]) == Pubacks(events) + (if e.SentPuback? then [e.id] else [])
    ensures Invocations(events + [e]) == Invocations(events) + (if e.Invoked? then [e.info] else [])
  {
    assert (events + [e])[..|events|] == events;
  }

  lemma InvocationsOfDispatch(events: seq<Event>, info: PublishInfo, table: Table, fallback: Handler)
    ensures var h := ChooseHandler(table, fallback, info.topic);
      var all := events + DispatchEvents(info, table, fallback);
      && Pubacks(all) == Pubacks(events) + (if info.qos == 1 then [info.packetId] else [])
      && Invocations(all) == Invocations(events) + (if h.Some? then [info] else [])
  {
    var h := ChooseHandler(table, fallback, info.topic);
    var last := if h.Some? then Invoked(h.value, info) else Dropped(info);
    if info.qos == 1 {
      var acked := events + [SentPuback(info.packetId)];
      assert events + DispatchEvents(info, table, fallback) == acked + [last];
      PubacksAppend(events, SentPuback(info.packetId));
      PubacksAppend(acked, last);
    } else {
      assert events + DispatchEvents(info, table, fallback) == events + [last];
      PubacksAppend(events, last);
    }
  }

  /** Section 4.6: the PUBACKs sent are, in order, exactly the ids of the QoS 1 PUBLISH packets
      that parsed. */
  lemma {:induction false} AcksInOrder(deliveries: seq<Delivery>)
    ensures Pubacks(RunEvents(deliveries)) == QosOneIds(Parsed(deliveries))
  {
    if deliveries != [] {
      var n := |deliveries| - 1;
      AcksInOrder(deliveries[..n]);
      var d, was := deliveries[n], RunEvents(deliveries[..n]);
      match ParsedInfo(d)
      case Some(info) =>
        InvocationsOfDispatch(was, info, d.table, d.fallback);
        var infos := Parsed(deliveries[..n]);
        assert (infos + [info])[..|infos|] == infos;
      case None =>
        assert was + [] == was;
        assert Parsed(deliveries[..n]) + [] == Parsed(deliveries[..n]);
    }
  }

  /** A PUBACK is followed at once by the handling of a QoS 1 packet with its id, and the handling of
      a QoS 1 packet is preceded at once by its PUBACK. */
  predicate PairedAt(events: seq<Event>, i: nat)
    requires i < |events|
  {
    if events[i].SentPuback? then
      i + 1 < |events| && !events[i + 1].SentPuback? && events[i + 1].info.qos == 1
      && events[i + 1].info.packetId == events[i].id
    else events[i].info.qos == 1 ==> i > 0 && events[i - 1] == SentPuback(events[i].info.packetId)
  }

  predicate Paired(events: seq<Event>) { forall i: nat :: i < |events| ==> PairedAt(events, i) }

  lemma PairedAppend(a: seq<Event>, b: seq<Event>)
    requires Paired(a) && Paired(b)
    ensures Paired(a + b)
  {
    forall i: nat | i < |a + b| ensures PairedAt(a + b, i) {
      if i < |a| {
        assert PairedAt(a, i);
        assert i + 1 < |a| ==> (a + b)[i + 1] == a[i + 1];
      } else {
        var k := i - |a|;
        assert PairedAt(b, k);
        assert k + 1 < |b| ==> (a + b)[i + 1] == b[k + 1];
        assert k > 0 ==> (a + b)[i - 1] == b[k - 1];
      }
    }
  }

  /** The packets whose handler was invoked or that were dropped, in order. */
  function Handled(events: seq<Event>): seq<PublishInfo> {
    if events == [] then []
    else
      var e := events[|events| - 1];
      Handled(events[..|events| - 1]) + (if e.SentPuback? then [] else [e.info])
  }

  lemma {:induction false} HandledAppend(events: seq<Event>, info: PublishInfo, table: Table, fallback: Handler)
    ensures Handled(events + DispatchEvents(info, table, fallback)) == Handled(events) + [info]
  {
    var es := DispatchEvents(info, table, fallback);
    assert (events + es)[..|events + es| - 1] == events + es[..|es| - 1];
    if info.qos == 1 {
      assert es[..1] == [SentPuback(info.packetId)];
      assert (events + es[..1])[..|events|] == events;
    } else {
      assert events + es[..0] == events;
    }
  }

  /** Over a whole run: every PUBLISH that parsed is handled exactly once, in the order read, by one
      handler or a drop; and each QoS 1 packet is acknowledged right before that, with its own id. */
  lemma {:induction false} AckBeforeHandler(deliveries: seq<Delivery>)
    ensures Paired(RunEvents(deliveries))
    ensures Handled(RunEvents(deliveries)) == Parsed(deliveries)
  {
    if deliveries != [] {
      var n := |deliveries| - 1;
      AckBeforeHandler(deliveries[..n]);
      var d, was := deliveries[n], RunEvents(deliveries[..n]);
      match ParsedInfo(d)
      case Some(info) =>
        assert Paired(DispatchEvents(info, d.table, d.fallback));
        PairedAppend(was, DispatchEvents(info, d.table, d.fallback));
        HandledAppend(was, info, d.table, d.fallback);
      case None =>
        assert was + [] == was;
        assert Parsed(deliveries[..n]) + [] == Parsed(deliveries[..n]);
    }
  }

  /** What happens to a packet, after its acknowledgement if any. */
  function Outcome(info: PublishInfo, table: Table, fallback: Handler): Event {
    DispatchEvents(info, table, fallback)[|DispatchEvents(info, table, fallback)| - 1]
  }

  function HandledBy(h: Handler, info: PublishInfo): Event { if h.Some? then Invoked(h.value, info) else Dropped(info) }

  /** A topic that is itself a key is handled by that entry's callback, or dropped if that is empty,
      wherever the entry stands and whatever else matches. */
  lemma ExactDecides(info: PublishInfo, table: Table, fallback: Handler, i: nat)
    requires DistinctFilters(table) && i < |table| && table[i].filter == info.topic
    ensures Outcome(info, table, fallback) == HandledBy(table[i].handler, info)
  {
    ExactEntryWins(table, fallback, info.topic, i);
  }

  /** One that is none is handled by the callback of the first entry whose filter matches; by the
      fallback if that is empty; and dropped if there is none either. */
  lemma FirstMatchDecides(info: PublishInfo, table: Table, fallback: Handler, i: nat)
    requires forall k :: 0 <= k < |table| ==> table[k].filter != info.topic
    requires i < |table| && Matches(info.topic, table[i].filter)
    requires forall k :: 0 <= k < i ==> !Matches(info.topic, table[k].filter)
    ensures Outcome(info, table, fallback) == HandledBy(if table[i].handler.Some? then table[i].handler else fallback, info)
  {
    hide Matches;
    var first := FirstMatch(table, info.topic);
    assert first == Some(i);
    assert ExactEntry(table, info.topic) == None;
  }

  /** One that no filter matches goes to the fallback. */
  lemma NoMatchFallsBack(info: PublishInfo, table: Table, fallback: Handler)
    requires forall k :: 0 <= k < |table| ==> table[k].filter != info.topic && !Matches(info.topic, table[k].filter)
    ensures Outcome(info, table, fallback) == HandledBy(fallback, info)
  {
    hide Matches;
    assert FirstMatch(table, info.topic) == None;
    assert ExactEntry(table, info.topic) == None;
  }

  /** A received packet is dispatched if and only if its first byte says PUBLISH and its body parses; so
      what buildPublish makes is, with what went into it, if that fits. */
  lemma PublishIsDispatched(topic: Bytes, payload: Bytes, qos: int, retained: bool, dup: bool, id: u16, d: Delivery)
    requires |topic| <= 0xFFFF && 0 <= qos <= 3
    requires d.packet == Outgoing(PublishByte0(qos, retained, dup), PublishBody(topic, payload, qos, id)).AsReceived()
    ensures ParsedInfo(d) == Some(PublishInfo(topic, if qos > 0 then id else 0, payload, qos, retained, dup))
  {
    hide PublishBody;
    hide ParsedPublish;
    PublishBuildThenParse(topic, payload, qos, retained, dup, id);
  }

  lemma OnlyPublishIsDispatched(typeByte: byte, body: Bytes, d: Delivery)
    requires d.packet == Outgoing(typeByte, body).AsReceived()
    ensures ParsedInfo(d).Some? ==> 0x30 <= typeByte < 0x40
  {
  }

  /** With a fallback registered a message is dropped if and only if its topic is itself a key of the
      table, with an empty callback. */
  lemma DroppedDespiteFallback(table: Table, fallback: Handler, topic: Bytes)
    requires DistinctFilters(table) && fallback.Some?
    ensures ChooseHandler(table, fallback, topic).None?
       <==> exists i :: 0 <= i < |table| && table[i].filter == topic && table[i].handler.None?
  {
    var exact := ExactEntry(table, topic);
    if i :| 0 <= i < |table| && table[i].filter == topic && table[i].handler.None? {
      assert exact.Some? && table[exact.value].filter == topic;
      assert exact.value == i;
    }
  }

  /** An exact entry wins over every wildcard, wherever the iteration order puts it; a handler
      chosen otherwise is that of a matching filter or the fallback. */
  lemma ExactEntryWins(table: Table, fallback: Handler, topic: Bytes, i: nat)
    requires DistinctFilters(table) && i < |table|
    ensures table[i].filter == topic ==> ChooseHandler(table, fallback, topic) == table[i].handler
    ensures ChooseHandler(table, fallback, topic).Some? && ExactEntry(table, topic).None? ==>
      ChooseHandler(table, fallback, topic) == fallback
      || exists j :: 0 <= j < |table| && Matches(topic, table[j].filter)
                     && ChooseHandler(table, fallback, topic) == table[j].handler
  {
    if table[i].filter == topic {
      var j := ExactEntry(table, topic).value;
      assert table[j].filter == topic && j == i;
    }
  }
}
