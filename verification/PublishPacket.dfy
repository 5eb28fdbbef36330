/** PUBLISH and the two-byte acknowledgements: builders, parsers and their inverse laws. */
module PublishPacket {
  import opened Prelude
  import opened WireEncoding
  import opened TopicFilter

  datatype PublishInfo = PublishInfo(
    topic: Bytes, packetId: u16, payload: Bytes, qos: int, retained: bool, dup: bool)

  // ---- Building ----

  /** The fixed-header byte of section 3.3.1: packet type 3, then DUP, two bits of QoS and RETAIN. */
  function PublishByte0(qos: int, retained: bool, dup: bool): byte {
    0x30 + (if dup then 8 else 0) + qos % 4 * 2 + (if retained then 1 else 0)
  }

  function PublishBody(topic: Bytes, payload: Bytes, qos: int, packetId: u16): Bytes {
    MqttString(topic) + (if qos > 0 then U16Bytes(packetId) else []) + payload
  }

  function PublishFrame(topic: Bytes, payload: Bytes, qos: int, retained: bool, dup: bool, packetId: u16): Bytes {
    Frame(PublishByte0(qos, retained, dup), PublishBody(topic, payload, qos, packetId))
  }

  method BuildPublish(topic: Bytes, payload: Bytes, qos: int, retained: bool, dup: bool, packetId: u16)
    returns (packet: Bytes)
    ensures packet == PublishFrame(topic, payload, qos, retained, dup, packetId)
  {
    hide PublishByte0;
    var body := new ByteBuffer();
    body.AppendMqttString(topic);
    if qos > 0 { body.AppendU16(packetId); }
    body.Insert(payload);

    var b0 := PackByte0(qos, retained, dup);
    body.PrependFixedHeader(b0);
    packet := body.bytes;
  }

  /** Or-ing the masks together adds the fields up; `qos & 0x03` of a two's complement int is its
      Euclidean remainder. */
  method PackByte0(qos: int, retained: bool, dup: bool) returns (packed: byte)
    ensures packed == PublishByte0(qos, retained, dup)
  {
    if qos % 4 == 0 {} else if qos % 4 == 1 {} else if qos % 4 == 2 {} else {}
    var b0: bv8 := 0x30;
    if dup { b0 := b0 | 0x08; }
    b0 := b0 | (((qos % 4) as bv8) << 1);
    if retained { b0 := b0 | 0x01; }
    packed := b0 as int;
  }

  method BuildPuback(packetId: u16) returns (packet: Bytes)
    ensures packet == Frame(0x40, U16Bytes(packetId))
  {
    packet := [0x40, 0x02, packetId / 256, packetId % 256];
    assert VarLen(2) == [2];
  }

  // ---- Parsing ----

  function ParsedPublish(flags: byte, body: Bytes): Result<PublishInfo> {
    var qos, retained, dup := flags / 2 % 4, flags % 2 == 1, flags / 8 % 2 == 1;
    match TakeString(body)
    case None => Err(DeserializationFailed)
    case Some((topic, rest)) =>
      if qos == 0 then Ok(PublishInfo(topic, 0, rest, qos, retained, dup))
      else if |rest| < 2 then Err(DeserializationFailed)
      else Ok(PublishInfo(topic, U16Of(rest[0], rest[1]), rest[2..], qos, retained, dup))
  }

  /** Too short a body, a topic past its end or a missing packet id is the source's exception. */
  method ParsePublish(flags: byte, body: Bytes) returns (r: Result<PublishInfo>)
    ensures r == ParsedPublish(flags, body)
  {
    var dup := flags / 8 % 2 != 0;
    var qos := flags / 2 % 4;
    var retained := flags % 2 != 0;
    var packetId: u16 := 0;
    hide U16Of;
    assert dup == (flags / 8 % 2 == 1) && retained == (flags % 2 == 1);

    var pos := 0;
    if |body| < 2 { return Err(DeserializationFailed); }
    var topicLen := U16Of(body[pos], body[pos + 1]);
    pos := pos + 2;

    if pos + topicLen > |body| { return Err(DeserializationFailed); }
    var topic := body[pos..pos + topicLen];
    pos := pos + topicLen;
    ghost var rest := body[pos..];
    assert TakeString(body) == Some((topic, rest));

    if qos > 0 {
      if pos + 2 > |body| { return Err(DeserializationFailed); }
      assert body[pos] == rest[0] && body[pos + 1] == rest[1] && body[pos + 2..] == rest[2..];
      packetId := U16Of(body[pos], body[pos + 1]);
      pos := pos + 2;
    }
    return Ok(PublishInfo(topic, packetId, body[pos..], qos, retained, dup));
  }

  function ParsePacketId(body: Bytes): u16 {
    if |body| < 2 then 0 else U16Of(body[0], body[1])
  }

  // ---- The receiver of section 3.3 of MQTT 3.1.1 ----

  /** Section 4.7: a topic name has at least one character, none of them null or a wildcard. */
  predicate ProperTopic(topic: Bytes) { topic != [] && 0 !in topic && PLUS !in topic && HASH !in topic }

  /** What the standard asks of a PUBLISH: no QoS 3, no DUP with QoS 0, no id 0 (section 2.3.1). */
  predicate PublishConforms(topic: Bytes, qos: int, dup: bool, packetId: u16) {
    ProperTopic(topic) && qos != 3 && (qos == 0 ==> !dup) && (qos > 0 ==> packetId != 0)
  }

  /** A receiver that refuses what the standard tells it to. */
  function ReadStandardPublish(flags: byte, body: Bytes): Option<PublishInfo> {
    match ParsedPublish(flags, body)
    case Err(_) => None
    case Ok(p) => if PublishConforms(p.topic, p.qos, p.dup, p.packetId) then Some(p) else None
  }

  // ---- Inverse laws ----

  /** Each field can be read off the byte again. */
  lemma PublishByte0Fields(qos: int, retained: bool, dup: bool)
    ensures var b0 := PublishByte0(qos, retained, dup);
      && b0 / 16 == 3
      && (b0 / 8 % 2 == 1 <==> dup)
      && b0 / 2 % 4 == qos % 4
      && (b0 % 2 == 1 <==> retained)
  {
  }

  /** Parsing a built packet's flags and body returns what was built, if and only if the topic
      fits its 16-bit prefix and the QoS its two bits. */
  lemma PublishBuildThenParse(topic: Bytes, payload: Bytes, qos: int, retained: bool, dup: bool, packetId: u16)
    ensures var b0 := PublishByte0(qos, retained, dup);
      && b0 / 16 == 3
      && (ParsedPublish(b0 % 16, PublishBody(topic, payload, qos, packetId))
            == Ok(PublishInfo(topic, if qos > 0 then packetId else 0, payload, qos, retained, dup))
          <==> |topic| <= 0xFFFF && 0 <= qos <= 3)
  {
    hide PublishByte0;
    hide ParsedPublish;
    hide TakeString;
    PublishByte0Fields(qos, retained, dup);
    var flags := PublishByte0(qos, retained, dup) % 16;
    assert flags / 2 % 4 == qos % 4 && flags % 2 == (if retained then 1 else 0)
        && flags / 8 % 2 == (if dup then 1 else 0);
    if |topic| <= 0xFFFF && 0 <= qos <= 3 {
      var rest := (if qos > 0 then U16Bytes(packetId) else []) + payload;
      var body := PublishBody(topic, payload, qos, packetId);
      assert body == MqttString(topic) + rest;
      StringRoundTrip(topic, rest);
      ParseAfterTopic(flags, body, topic, rest, payload, packetId);
    } else {
      ParsedFieldsFit(flags, PublishBody(topic, payload, qos, packetId));
    }
  }

  /** The standard's receiver accepts what was built, as it was meant, if and only if it fits its fields
      and conforms; what fits and does not conform is refused. */
  lemma PublishAccepted(topic: Bytes, payload: Bytes, qos: int, retained: bool, dup: bool, packetId: u16)
    ensures var flags := PublishByte0(qos, retained, dup) % 16;
      var read := ReadStandardPublish(flags, PublishBody(topic, payload, qos, packetId));
      var fits := |topic| <= 0xFFFF && 0 <= qos <= 3;
      && (read == Some(PublishInfo(topic, if qos > 0 then packetId else 0, payload, qos, retained, dup))
          <==> fits && PublishConforms(topic, qos, dup, packetId))
      && (fits && !PublishConforms(topic, qos, dup, packetId) ==> read == None)
  {
    hide PublishByte0;
    hide PublishBody;
    hide ParsedPublish;
    hide ProperTopic;
    PublishBuildThenParse(topic, payload, qos, retained, dup, packetId);
  }

  lemma ParsedFieldsFit(flags: byte, body: Bytes)
    ensures var r := ParsedPublish(flags, body); r.Ok? ==> |r.value.topic| <= 0xFFFF && 0 <= r.value.qos <= 3
  {
  }

  lemma ParseAfterTopic(flags: byte, body: Bytes, topic: Bytes, rest: Bytes, payload: Bytes, packetId: u16)
    requires TakeString(body) == Some((topic, rest))
    requires rest == (if flags / 2 % 4 > 0 then U16Bytes(packetId) else []) + payload
    ensures ParsedPublish(flags, body) == Ok(PublishInfo(topic, if flags / 2 % 4 > 0 then packetId else 0,
              payload, flags / 2 % 4, flags % 2 == 1, flags / 8 % 2 == 1))
  {
    if flags / 2 % 4 > 0 {
      U16RoundTrip(packetId);
      assert U16Of(rest[0], rest[1]) == packetId && rest[2..] == payload;
    } else {
      assert rest == payload;
    }
  }

  /** For every flag nibble and every body the parser accepts, rebuilding gives back exactly
      that flag byte and that body. */
  lemma PublishParseThenBuild(flags: byte, body: Bytes)
    requires flags < 16 && ParsedPublish(flags, body).Ok?
    ensures var p := ParsedPublish(flags, body).value;
      && PublishByte0(p.qos, p.retained, p.dup) == 0x30 + flags
      && PublishBody(p.topic, p.payload, p.qos, p.packetId) == body
  {
    hide PublishByte0;
    hide TakeString;
    hide PublishBody;
    hide U16Of;
    var p := ParsedPublish(flags, body).value;
    NibbleIsSum(flags);
    RebuildBody(flags, body);
  }

  lemma NibbleIsSum(flags: byte)
    requires flags < 16
    ensures PublishByte0(flags / 2 % 4, flags % 2 == 1, flags / 8 % 2 == 1) == 0x30 + flags
  {
    assert flags == flags / 8 * 8 + flags / 2 % 4 * 2 + flags % 2;
  }

  lemma RebuildBody(flags: byte, body: Bytes)
    requires ParsedPublish(flags, body).Ok?
    ensures var p := ParsedPublish(flags, body).value;
      PublishBody(p.topic, p.payload, p.qos, p.packetId) == body
  {
    hide MqttString;
    hide TakeString;
    hide U16Bytes;
    hide U16Of;
    var p := ParsedPublish(flags, body).value;
    TakeStringInverse(body);
    var rest := TakeString(body).value.1;
    if p.qos > 0 {
      U16Inverse(rest[0], rest[1]);
      assert rest == U16Bytes(p.packetId) + p.payload;
    }
  }

  /** The acknowledged identifier survives the wire, and a body too short to hold one reads as
      0, which section 2.3.1 of MQTT 3.1.1 never allows. */
  lemma PacketIdRoundTrip(packetId: u16, rest: Bytes, short: Bytes)
    ensures ParsePacketId(U16Bytes(packetId) + rest) == packetId
    ensures |short| < 2 ==> ParsePacketId(short) == 0
  {
    U16RoundTrip(packetId);
  }
}
