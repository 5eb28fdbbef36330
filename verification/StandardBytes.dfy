/** The wire formats in bytes, as tables and figures of MQTT 3.1.1 print them. */
module StandardBytes {
  import opened Prelude
  import opened WireEncoding
  import opened PublishPacket
  import opened SubscribePackets
  import opened ConnectPacket
  import opened PacketReader
  import SubscriberLine

  /** One digit to the base 128, and the rest. */
  lemma VarLenDigit(d: nat, rest: nat)
    requires d < 128
    ensures VarLen(d + 128 * rest) == if rest == 0 then [d] else [d + 128] + VarLen(rest)
  {
    assert (d + 128 * rest) % 128 == d && (d + 128 * rest) / 128 == rest;
  }

  /** Section 2.2.3: seven bits a byte, the low ones first, the top bit set on all but the last. */
  lemma VarLenBytes(d0: nat, d1: nat, d2: nat, d3: nat)
    requires d0 < 128 && d1 < 128 && d2 < 128 && d3 < 128
    ensures VarLen(d0) == [d0]
    ensures d1 > 0 ==> VarLen(d0 + 128 * d1) == [d0 + 128, d1]
    ensures d2 > 0 ==> VarLen(d0 + 128 * (d1 + 128 * d2)) == [d0 + 128, d1 + 128, d2]
    ensures d3 > 0 ==> VarLen(d0 + 128 * (d1 + 128 * (d2 + 128 * d3))) == [d0 + 128, d1 + 128, d2 + 128, d3]
  {
    hide VarLen;
    VarLenDigit(d0, 0);
    VarLenDigit(d1, 0);
    VarLenDigit(d2, 0);
    VarLenDigit(d3, 0);
    VarLenDigit(d0, d1);
    VarLenDigit(d1, d2);
    VarLenDigit(d0, d1 + 128 * d2);
    VarLenDigit(d2, d3);
    VarLenDigit(d1, d2 + 128 * d3);
    VarLenDigit(d0, d1 + 128 * (d2 + 128 * d3));
  }

  /** Table 2.4. */
  lemma RemainingLengthTable()
    ensures VarLen(0) == [0x00] && VarLen(127) == [0x7F]
    ensures VarLen(128) == [0x80, 0x01] && VarLen(16383) == [0xFF, 0x7F]
    ensures VarLen(16384) == [0x80, 0x80, 0x01] && VarLen(2097151) == [0xFF, 0xFF, 0x7F]
    ensures VarLen(2097152) == [0x80, 0x80, 0x80, 0x01] && VarLen(268435455) == [0xFF, 0xFF, 0xFF, 0x7F]
  {
    hide VarLen;
    VarLenBytes(0, 1, 0, 0);
    VarLenBytes(0, 0, 1, 0);
    VarLenBytes(0, 0, 0, 1);
    VarLenBytes(127, 127, 127, 127);
  }

  /** Sections 1.5.2 and 1.5.3: integers have the high byte first, and so has the length of a string. */
  lemma HighByteFirst(hi: byte, lo: byte, v: u16, s: Bytes)
    requires v == 256 * hi + lo
    ensures U16Bytes(v) == [hi, lo] && U16Of(hi, lo) == v && ParsePacketId([hi, lo]) == v
    ensures |s| == v ==> MqttString(s) == [hi, lo] + s
  {
    assert v / 256 == hi && v % 256 == lo;
    if |s| == v {
      hide U16Bytes;
      assert |s| % 0x1_0000 == v;
    }
  }

  /** Figure 3.11: topic "a/b", packet identifier 10, here with QoS 1 and a payload. */
  lemma PublishFigure(payload: Bytes)
    ensures PublishBody([0x61, 0x2F, 0x62], payload, 1, 10) == [0x00, 0x03, 0x61, 0x2F, 0x62, 0x00, 0x0A] + payload
    ensures PublishBody([0x61, 0x2F, 0x62], payload, 0, 10) == [0x00, 0x03, 0x61, 0x2F, 0x62] + payload
    ensures PublishByte0(1, false, false) == 0x32 && PublishByte0(0, true, false) == 0x31 && PublishByte0(2, false, true) == 0x3C
  {
    var topic: Bytes := [0x61, 0x2F, 0x62];
    assert MqttString(topic) == [0x00, 0x03, 0x61, 0x2F, 0x62];
    assert U16Bytes(10) == [0x00, 0x0A];
  }

  /** Figures 3.23 and 3.31: "a/b" with QoS 1 and "c/d" with QoS 2, under packet identifier 10. */
  lemma SubscribeFigures()
    ensures SubscribeBody(10, [TopicQos([0x61, 0x2F, 0x62], 1), TopicQos([0x63, 0x2F, 0x64], 2)])
         == [0x00, 0x0A, 0x00, 0x03, 0x61, 0x2F, 0x62, 0x01, 0x00, 0x03, 0x63, 0x2F, 0x64, 0x02]
    ensures UnsubscribeBody(10, [[0x61, 0x2F, 0x62], [0x63, 0x2F, 0x64]])
         == [0x00, 0x0A, 0x00, 0x03, 0x61, 0x2F, 0x62, 0x00, 0x03, 0x63, 0x2F, 0x64]
  {
    hide MqttString;
    hide U16Bytes;
    var a: Bytes, c: Bytes := [0x61, 0x2F, 0x62], [0x63, 0x2F, 0x64];
    ThreeByteTopics();
    TwoEntries(TopicQos(a, 1), TopicQos(c, 2));
    TwoNames(a, c);
  }

  lemma ThreeByteTopics()
    ensures MqttString([0x61, 0x2F, 0x62]) == [0x00, 0x03, 0x61, 0x2F, 0x62]
    ensures MqttString([0x63, 0x2F, 0x64]) == [0x00, 0x03, 0x63, 0x2F, 0x64]
    ensures U16Bytes(10) == [0x00, 0x0A]
  {
  }

  lemma TwoEntries(x: TopicQos, y: TopicQos)
    ensures TopicEntries([x, y]) == TopicEntry(x) + TopicEntry(y)
  {
    hide TopicEntry;
    var both, last := [x, y], [y];
    assert both[1..] == last && last[1..] == [];
    assert TopicEntries(last) == TopicEntry(y) + [];
  }

  lemma TwoNames(x: Bytes, y: Bytes)
    ensures TopicNames([x, y]) == MqttString(x) + MqttString(y)
  {
    hide MqttString;
    var both, last := [x, y], [y];
    assert both[1..] == last && last[1..] == [];
    assert TopicNames(last) == MqttString(y) + [];
  }

  /** Figure 3.6 with user name, password, will QoS 1 and clean session: flags 0xCE, keepalive 10; then
      client id, will, user name and password in this order. */
  lemma ConnectFigure(id: Bytes, topic: Bytes, message: Bytes, user: Bytes, secret: Bytes)
    ensures ConnectBody(ConnectParams(id, true, 10, Some(user), Some(secret), Some(Will(topic, message, 1, false))))
         == [0x00, 0x04, 0x4D, 0x51, 0x54, 0x54, 0x04, 0xCE, 0x00, 0x0A]
            + (MqttString(id) + (MqttString(topic) + MqttString(message)) + MqttString(user) + MqttString(secret))
  {
    hide MqttString;
    var p := ConnectParams(id, true, 10, Some(user), Some(secret), Some(Will(topic, message, 1, false)));
    assert ConnectHeader(p) == [0x00, 0x04, 0x4D, 0x51, 0x54, 0x54, 0x04, 0xCE, 0x00, 0x0A] by {
      ConnectStartsWith(p);
      FlagByteAt(p);
      assert MqttString(PROTOCOL_NAME) == [0x00, 0x04, 0x4D, 0x51, 0x54, 0x54] by { NameField(); }
    }
  }

  lemma NameField()
    ensures MqttString(PROTOCOL_NAME) == [0x00, 0x04, 0x4D, 0x51, 0x54, 0x54]
  {
  }

  /** The fixed packets, and PUBACK. */
  lemma ControlBytes(cp: ConnectParams, hi: byte, lo: byte, id: u16)
    requires id == 256 * hi + lo
    ensures SubscriberLine.ControlPacket(cp, SubscriberLine.Pingreq).Bytes() == [0xC0, 0x00]
    ensures SubscriberLine.ControlPacket(cp, SubscriberLine.Disconnect).Bytes() == [0xE0, 0x00]
    ensures SubscriberLine.ControlPacket(cp, SubscriberLine.Puback(id)).Bytes()
         == [0x40, 0x02, hi, lo]
    ensures SubscriberLine.ControlPacket(cp, SubscriberLine.ConnectRequest).typeByte == 0x10
  {
    hide VarLen;
    hide U16Bytes;
    VarLenDigit(0, 0);
    VarLenDigit(2, 0);
    HighByteFirst(hi, lo, id, []);
  }
}
