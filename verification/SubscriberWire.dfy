/** The session's requests as packets, and what a broker that keeps to sections 3.8 and 3.10 of MQTT
    3.1.1 makes of packets it decodes. */
module SubscriberWire {
  import opened Prelude
  import opened WireEncoding
  import opened SubscribePackets
  import opened PacketReader
  import SubscriberModel

  type Told = SubscriberModel.Told

  function PacketOf(t: Told): Outgoing {
    match t
    case ToldSubscribe(id, topic, qos) => Outgoing(0x82, SubscribeBody(id, [TopicQos(topic, qos)]))
    case ToldUnsubscribe(id, topic) => Outgoing(0xA2, UnsubscribeBody(id, [topic]))
  }

  /** A broker's reading of a packet as a request about one topic. */
  function Heard(p: IncomingPacket): Option<Told> {
    if p.kind == 8 then
      match ReadStandardSubscribe(p.flags, p.body)
      case Some((id, subs)) =>
        if |subs| == 1 then Some(SubscriberModel.ToldSubscribe(id, subs[0].topic, subs[0].qos)) else None
      case None => None
    else if p.kind == 10 then
      match ReadStandardUnsubscribe(p.flags, p.body)
      case Some((id, topics)) =>
        if |topics| == 1 then Some(SubscriberModel.ToldUnsubscribe(id, topics[0])) else None
      case None => None
    else None
  }

  /** The topic is a proper filter that fits its length prefix, and the QoS is one of the three. */
  predicate Askable(t: Told) {
    |t.topic| <= 0xFFFF && ProperFilter(t.topic) && (t.ToldSubscribe? ==> 0 <= t.qos <= 2)
  }

  /** A request is heard as it was meant if and only if it is askable and its id is not 0. */
  lemma HeardAsTold(t: Told)
    ensures Heard(PacketOf(t).AsReceived()) == Some(t) <==> Askable(t) && t.id != 0
  {
    hide ProperFilter;
    hide ReadStandardSubscribe;
    hide ReadStandardUnsubscribe;
    hide SubscribeBody;
    hide UnsubscribeBody;
    match t
    case ToldSubscribe(id, topic, qos) =>
      var subs := [TopicQos(topic, qos)];
      SubscribeAccepted(id, subs);
      assert subs[0] == TopicQos(topic, qos);
      if Heard(PacketOf(t).AsReceived()) == Some(t) {
        var read := ReadStandardSubscribe(2, SubscribeBody(id, subs)).value;
        assert read.1 == [read.1[0]] == subs;
      }
    case ToldUnsubscribe(id, topic) =>
      var topics := [topic];
      UnsubscribeAccepted(id, topics);
      assert topics[0] == topic;
      if Heard(PacketOf(t).AsReceived()) == Some(t) {
        var read := ReadStandardUnsubscribe(2, UnsubscribeBody(id, topics)).value;
        assert read.1 == [read.1[0]] == topics;
      }
  }

  lemma RequestFits(t: Told)
    requires |t.topic| <= 0xFFFF
    ensures PacketOf(t).Fits()
  {
    match t
    case ToldSubscribe(id, topic, qos) =>
      var subs := [TopicQos(topic, qos)];
      assert TopicEntries(subs) == TopicEntry(subs[0]) + TopicEntries(subs[1..]);
      assert TopicEntries(subs[1..]) == [];
    case ToldUnsubscribe(id, topic) =>
      var topics := [topic];
      assert TopicNames(topics) == MqttString(topics[0]) + TopicNames(topics[1..]);
      assert TopicNames(topics[1..]) == [];
  }

  /** The requests that a broker hears in these packets, in order. */
  function HeardAll(packets: seq<IncomingPacket>): seq<Told> {
    if packets == [] then []
    else
      var n := |packets| - 1;
      match Heard(packets[n])
      case Some(t) => HeardAll(packets[..n]) + [t]
      case None => HeardAll(packets[..n])
  }

  /** These packets are the requests in order, with other packets anywhere between them. */
  predicate Carries(packets: seq<Outgoing>, told: seq<Told>) {
    if packets == [] then told == []
    else
      var n, p := |packets| - 1, packets[|packets| - 1];
      if told != [] && p == PacketOf(told[|told| - 1]) then Carries(packets[..n], told[..|told| - 1])
      else Heard(p.AsReceived()).None? && Carries(packets[..n], told)
  }

  lemma {:induction false} ReceivedAppend(packets: seq<Outgoing>, p: Outgoing)
    ensures AllReceived(packets + [p]) == AllReceived(packets) + [p.AsReceived()]
  {
    if packets == [] {
      assert packets + [p] == [p];
      assert AllReceived([p]) == [p.AsReceived()] + AllReceived([p][1..]);
    } else {
      ReceivedAppend(packets[1..], p);
      assert (packets + [p])[1..] == packets[1..] + [p];
    }
  }

  /** Decoding packets that carry the requests, a broker hears exactly those requests, in order. */
  lemma {:induction false} BrokerHearsTold(packets: seq<Outgoing>, told: seq<Told>)
    requires Carries(packets, told) && forall t :: t in told ==> Askable(t) && t.id != 0
    ensures HeardAll(AllReceived(packets)) == told
    decreases |packets|
  {
    hide Heard;
    hide Askable;
    if packets != [] {
      var n, p := |packets| - 1, packets[|packets| - 1];
      assert packets == packets[..n] + [p];
      ReceivedAppend(packets[..n], p);
      var received := AllReceived(packets[..n]);
      assert (received + [p.AsReceived()])[..|received|] == received;
      if told != [] && p == PacketOf(told[|told| - 1]) {
        HeardAsTold(told[|told| - 1]);
        BrokerHearsTold(packets[..n], told[..|told| - 1]);
        assert told == told[..|told| - 1] + [told[|told| - 1]];
      } else {
        BrokerHearsTold(packets[..n], told);
      }
    }
  }
}
