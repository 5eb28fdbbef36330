/** SUBSCRIBE, UNSUBSCRIBE and SUBACK: list builders and their recovery by the receiver. */
module SubscribePackets {
  import opened Prelude
  import opened WireEncoding
  import opened TopicFilter

  datatype TopicQos = TopicQos(topic: Bytes, qos: int)

  datatype SubackInfo = SubackInfo(packetId: u16, returnCodes: Bytes)

  // ---- Building ----

  function TopicEntry(t: TopicQos): Bytes { MqttString(t.topic) + [t.qos % 4] }

  function TopicEntries(subs: seq<TopicQos>): Bytes {
    if subs == [] then [] else TopicEntry(subs[0]) + TopicEntries(subs[1..])
  }

  function SubscribeBody(packetId: u16, subs: seq<TopicQos>): Bytes {
    U16Bytes(packetId) + TopicEntries(subs)
  }

  function TopicNames(topics: seq<Bytes>): Bytes {
    if topics == [] then [] else MqttString(topics[0]) + TopicNames(topics[1..])
  }

  function UnsubscribeBody(packetId: u16, topics: seq<Bytes>): Bytes {
    U16Bytes(packetId) + TopicNames(topics)
  }

  method BuildSubscribe(packetId: u16, subs: seq<TopicQos>) returns (packet: Bytes)
    ensures packet == Frame(0x82, SubscribeBody(packetId, subs))
  {
    hide MqttString;
    hide U16Bytes;
    var body := new ByteBuffer();
    body.AppendU16(packetId);
    var i := 0;
    while i < |subs|
      invariant i <= |subs|
      invariant body.bytes + TopicEntries(subs[i..]) == SubscribeBody(packetId, subs)
    {
      assert subs[i..][1..] == subs[i + 1..];
      ghost var before := body.bytes;
      body.AppendMqttString(subs[i].topic);
      body.PushBack(subs[i].qos % 4);
      assert body.bytes == before + TopicEntry(subs[i]);
      i := i + 1;
    }
    body.PrependFixedHeader(0x82);
    packet := body.bytes;
  }

  method BuildUnsubscribe(packetId: u16, topics: seq<Bytes>) returns (packet: Bytes)
    ensures packet == Frame(0xA2, UnsubscribeBody(packetId, topics))
  {
    hide MqttString;
    hide U16Bytes;
    var body := new ByteBuffer();
    body.AppendU16(packetId);
    var i := 0;
    while i < |topics|
      invariant i <= |topics|
      invariant body.bytes + TopicNames(topics[i..]) == UnsubscribeBody(packetId, topics)
    {
      assert topics[i..][1..] == topics[i + 1..];
      body.AppendMqttString(topics[i]);
      i := i + 1;
    }
    body.PrependFixedHeader(0xA2);
    packet := body.bytes;
  }

  // ---- Reading the lists back ----

  function ReadEntries(s: Bytes): Option<seq<TopicQos>>
    decreases |s|
  {
    if s == [] then Some([])
    else match TakeString(s)
      case None => None
      case Some((topic, s1)) =>
        if s1 == [] || s1[0] > 3 then None
        else match ReadEntries(s1[1..])
          case None => None
          case Some(more) => Some([TopicQos(topic, s1[0])] + more)
  }

  function ReadSubscribe(body: Bytes): Option<(u16, seq<TopicQos>)> {
    if |body| < 2 then None
    else match ReadEntries(body[2..])
      case None => None
      case Some(subs) => Some((U16Of(body[0], body[1]), subs))
  }

  function ReadNames(s: Bytes): Option<seq<Bytes>>
    decreases |s|
  {
    if s == [] then Some([])
    else match TakeString(s)
      case None => None
      case Some((topic, rest)) =>
        match ReadNames(rest)
        case None => None
        case Some(more) => Some([topic] + more)
  }

  function ReadUnsubscribe(body: Bytes): Option<(u16, seq<Bytes>)> {
    if |body| < 2 then None
    else match ReadNames(body[2..])
      case None => None
      case Some(topics) => Some((U16Of(body[0], body[1]), topics))
  }

  // ---- The broker of sections 3.8 and 3.10 of MQTT 3.1.1 ----

  /** Section 4.7: at least one character, none of them null, and wildcards in their places. */
  predicate ProperFilter(filter: Bytes) { filter != [] && 0 !in filter && WellFormed(filter) }

  /** What the standard asks of a SUBSCRIBE: an id that is not 0 (section 2.3.1), at least one entry,
      no QoS 3. */
  predicate SubscribeConforms(packetId: u16, subs: seq<TopicQos>) {
    packetId != 0 && subs != [] && forall i :: 0 <= i < |subs| ==> subs[i].qos <= 2 && ProperFilter(subs[i].topic)
  }

  predicate UnsubscribeConforms(packetId: u16, topics: seq<Bytes>) {
    packetId != 0 && topics != [] && forall i :: 0 <= i < |topics| ==> ProperFilter(topics[i])
  }

  /** A broker that refuses what the standard tells it to, the flags of the fixed header included. */
  function ReadStandardSubscribe(flags: byte, body: Bytes): Option<(u16, seq<TopicQos>)> {
    match ReadSubscribe(body)
    case None => None
    case Some((id, subs)) => if flags == 2 && SubscribeConforms(id, subs) then Some((id, subs)) else None
  }

  function ReadStandardUnsubscribe(flags: byte, body: Bytes): Option<(u16, seq<Bytes>)> {
    match ReadUnsubscribe(body)
    case None => None
    case Some((id, topics)) => if flags == 2 && UnsubscribeConforms(id, topics) then Some((id, topics)) else None
  }

  // ---- SUBACK as the client reads it ----

  function ParsedSuback(body: Bytes): Result<SubackInfo> {
    if |body| < 3 then Err(DeserializationFailed)
    else Ok(SubackInfo(U16Of(body[0], body[1]), body[2..]))
  }

  /** Every accepted SUBACK has a return code, so the receive loop's fallback code for an empty
      list never applies; and nothing of the body is lost. */
  lemma SubackKeepsTheBody(body: Bytes)
    ensures ParsedSuback(body).Ok? <==> |body| >= 3
    ensures ParsedSuback(body).Ok? ==>
      var s := ParsedSuback(body).value;
      s.returnCodes != [] && U16Bytes(s.packetId) + s.returnCodes == body
  {
    if |body| >= 3 {
      U16Inverse(body[0], body[1]);
      assert body == body[..2] + body[2..];
    }
  }

  // ---- Lists are recoverable ----

  predicate EntryFits(t: TopicQos) { |t.topic| <= 0xFFFF && 0 <= t.qos <= 3 }

  lemma {:induction false} EntriesRoundTrip(subs: seq<TopicQos>)
    requires forall i :: 0 <= i < |subs| ==> EntryFits(subs[i])
    ensures ReadEntries(TopicEntries(subs)) == Some(subs)
  {
    hide ReadEntries;
    hide MqttString;
    if subs == [] {
      NoEntries();
    } else {
      var t, more := subs[0], TopicEntries(subs[1..]);
      var tail := [t.qos % 4] + more;
      EntriesRoundTrip(subs[1..]);
      assert TopicEntries(subs) == MqttString(t.topic) + tail;
      TakeEntry(t, more);
      assert subs == [t] + subs[1..];
    }
  }

  lemma NoEntries()
    ensures ReadEntries([]) == Some([])
  {
  }

  lemma TakeEntry(t: TopicQos, more: Bytes)
    requires EntryFits(t) && ReadEntries(more).Some?
    ensures ReadEntries(MqttString(t.topic) + ([t.qos % 4] + more)) == Some([t] + ReadEntries(more).value)
  {
    var tail := [t.qos % 4] + more;
    StringRoundTrip(t.topic, tail);
    assert tail[1..] == more;
    EntryStep(MqttString(t.topic) + tail, t.topic, tail);
  }

  lemma EntryStep(s: Bytes, topic: Bytes, s1: Bytes)
    requires s != [] && TakeString(s) == Some((topic, s1))
    requires s1 != [] && s1[0] <= 3 && ReadEntries(s1[1..]).Some?
    ensures ReadEntries(s) == Some([TopicQos(topic, s1[0])] + ReadEntries(s1[1..]).value)
  {
  }

  lemma {:induction false} ReadEntriesFit(s: Bytes)
    requires ReadEntries(s).Some?
    ensures forall i :: 0 <= i < |ReadEntries(s).value| ==> EntryFits(ReadEntries(s).value[i])
    decreases |s|
  {
    if s != [] {
      ReadEntriesFit(TakeString(s).value.1[1..]);
    }
  }

  /** Packet id and ordered list can be read back if and only if every topic fits its prefix and
      every QoS its two bits, for lists of any length. */
  lemma SubscribeRoundTrip(packetId: u16, subs: seq<TopicQos>)
    ensures ReadSubscribe(SubscribeBody(packetId, subs)) == Some((packetId, subs))
       <==> forall i :: 0 <= i < |subs| ==> EntryFits(subs[i])
  {
    var body := SubscribeBody(packetId, subs);
    U16RoundTrip(packetId);
    assert body[2..] == TopicEntries(subs);
    if forall i :: 0 <= i < |subs| ==> EntryFits(subs[i]) {
      EntriesRoundTrip(subs);
    } else if ReadSubscribe(body) == Some((packetId, subs)) {
      ReadEntriesFit(body[2..]);
    }
  }

  lemma {:induction false} NamesRoundTrip(topics: seq<Bytes>)
    requires forall i :: 0 <= i < |topics| ==> |topics[i]| <= 0xFFFF
    ensures ReadNames(TopicNames(topics)) == Some(topics)
  {
    if topics != [] {
      StringRoundTrip(topics[0], TopicNames(topics[1..]));
      assert MqttString(topics[0]) != [];
      NamesRoundTrip(topics[1..]);
      assert topics == [topics[0]] + topics[1..];
    }
  }

  lemma {:induction false} ReadNamesFit(s: Bytes)
    requires ReadNames(s).Some?
    ensures forall i :: 0 <= i < |ReadNames(s).value| ==> |ReadNames(s).value[i]| <= 0xFFFF
    decreases |s|
  {
    if s != [] {
      ReadNamesFit(TakeString(s).value.1);
    }
  }

  lemma UnsubscribeRoundTrip(packetId: u16, topics: seq<Bytes>)
    ensures ReadUnsubscribe(UnsubscribeBody(packetId, topics)) == Some((packetId, topics))
       <==> forall i :: 0 <= i < |topics| ==> |topics[i]| <= 0xFFFF
  {
    var body := UnsubscribeBody(packetId, topics);
    U16RoundTrip(packetId);
    assert body[2..] == TopicNames(topics);
    if forall i :: 0 <= i < |topics| ==> |topics[i]| <= 0xFFFF {
      NamesRoundTrip(topics);
    } else if ReadUnsubscribe(body) == Some((packetId, topics)) {
      ReadNamesFit(body[2..]);
    }
  }

  // ---- What the standard's broker accepts ----

  /** It accepts the client's SUBSCRIBE, as it was meant, if and only if id, list and filters conform
      and fit; one that fits and does not conform is refused. */
  lemma SubscribeAccepted(packetId: u16, subs: seq<TopicQos>)
    ensures var read := ReadStandardSubscribe(0x82 % 16, SubscribeBody(packetId, subs));
      var fits := forall i :: 0 <= i < |subs| ==> EntryFits(subs[i]);
      && (read == Some((packetId, subs)) <==> fits && SubscribeConforms(packetId, subs))
      && (fits && !SubscribeConforms(packetId, subs) ==> read == None)
  {
    hide ReadSubscribe;
    hide SubscribeBody;
    hide ProperFilter;
    SubscribeRoundTrip(packetId, subs);
  }

  lemma UnsubscribeAccepted(packetId: u16, topics: seq<Bytes>)
    ensures var read := ReadStandardUnsubscribe(0xA2 % 16, UnsubscribeBody(packetId, topics));
      var fits := forall i :: 0 <= i < |topics| ==> |topics[i]| <= 0xFFFF;
      && (read == Some((packetId, topics)) <==> fits && UnsubscribeConforms(packetId, topics))
      && (fits && !UnsubscribeConforms(packetId, topics) ==> read == None)
  {
    hide ReadUnsubscribe;
    hide UnsubscribeBody;
    hide ProperFilter;
    UnsubscribeRoundTrip(packetId, topics);
  }
}
