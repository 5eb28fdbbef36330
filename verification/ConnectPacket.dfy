/** CONNECT: the builder, a reader that follows the flag bits, and the broker of section 3.1 of
    MQTT 3.1.1 with the refusals it prescribes. */
module ConnectPacket {
  import opened Prelude
  import opened WireEncoding

  datatype Will = Will(topic: Bytes, payload: Bytes, qos: int, retained: bool)

  datatype ConnectParams = ConnectParams(
    clientId: Bytes, cleanSession: bool, keepaliveSeconds: u16,
    username: Option<Bytes>, password: Option<Bytes>, will: Option<Will>)

  const PROTOCOL_NAME: Bytes := [0x4D, 0x51, 0x54, 0x54]
  const PROTOCOL_LEVEL: byte := 4

  // ---- Building ----

  /** The flag byte of section 3.1.2.3, bit 0 reserved and 0. */
  function ConnectFlags(p: ConnectParams): byte {
    (if p.cleanSession then 2 else 0)
      + (if p.will.Some? then 4 + p.will.value.qos % 4 * 8 + (if p.will.value.retained then 32 else 0) else 0)
      + (if p.password.Some? then 64 else 0) + (if p.username.Some? then 128 else 0)
  }

  function OptionalField(f: Option<Bytes>): Bytes {
    if f.Some? then MqttString(f.value) else []
  }

  function WillFields(w: Option<Will>): Bytes {
    if w.Some? then MqttString(w.value.topic) + MqttString(w.value.payload) else []
  }

  function ConnectHeader(p: ConnectParams): Bytes {
    MqttString(PROTOCOL_NAME) + [PROTOCOL_LEVEL] + [ConnectFlags(p)] + U16Bytes(p.keepaliveSeconds)
  }

  function ConnectPayload(p: ConnectParams): Bytes {
    MqttString(p.clientId) + WillFields(p.will) + OptionalField(p.username) + OptionalField(p.password)
  }

  function ConnectBody(p: ConnectParams): Bytes { ConnectHeader(p) + ConnectPayload(p) }

  /** Or-ing the masks together adds the flags up. */
  method PackFlags(p: ConnectParams) returns (packed: byte)
    ensures packed == ConnectFlags(p)
  {
    var flags: bv8 := 0;
    if p.cleanSession { flags := flags | 0x02; }
    if p.will.Some? {
      flags := flags | 0x04;
      flags := flags | (((p.will.value.qos % 4) as bv8) << 3);
      if p.will.value.retained { flags := flags | 0x20; }
    }
    if p.username.Some? { flags := flags | 0x80; }
    if p.password.Some? { flags := flags | 0x40; }
    packed := flags as int;
  }

  method BuildConnect(p: ConnectParams) returns (packet: Bytes)
    ensures packet == Frame(0x10, ConnectBody(p))
  {
    var body := new ByteBuffer();
    body.AppendMqttString(PROTOCOL_NAME);
    body.PushBack(PROTOCOL_LEVEL);

    var flags := PackFlags(p);
    body.PushBack(flags);

    body.AppendU16(p.keepaliveSeconds);
    assert body.bytes == ConnectHeader(p);

    AppendPayload(body, p);
    body.PrependFixedHeader(0x10);
    packet := body.bytes;
  }

  method AppendPayload(body: ByteBuffer, p: ConnectParams)
    modifies body
    ensures body.bytes == old(body.bytes) + ConnectPayload(p)
  {
    hide U16Bytes;
    ghost var header := body.bytes;
    body.AppendMqttString(p.clientId);
    if p.will.Some? {
      body.AppendMqttString(p.will.value.topic);
      body.AppendU16(|p.will.value.payload| % 0x1_0000);
      body.Insert(p.will.value.payload);
    }
    assert body.bytes == header + (MqttString(p.clientId) + WillFields(p.will));
    if p.username.Some? { body.AppendMqttString(p.username.value); }
    assert body.bytes == header + (MqttString(p.clientId) + WillFields(p.will) + OptionalField(p.username));
    if p.password.Some? {
      body.AppendU16(|p.password.value| % 0x1_0000);
      body.Insert(p.password.value);
    }
  }

  // ---- Reading ----

  function TakeOptional(present: bool, s: Bytes): Option<(Option<Bytes>, Bytes)> {
    if !present then Some((None, s))
    else match TakeString(s)
      case None => None
      case Some((f, rest)) => Some((Some(f), rest))
  }

  function TakeWill(flags: byte, s: Bytes): Option<(Option<Will>, Bytes)> {
    if flags / 4 % 2 == 0 then Some((None, s))
    else match TakeString(s)
      case None => None
      case Some((topic, s1)) =>
        match TakeString(s1)
        case None => None
        case Some((payload, s2)) =>
          Some((Some(Will(topic, payload, flags / 8 % 4, flags / 32 % 2 == 1)), s2))
  }

  function ReadPayload(flags: byte, keepalive: u16, s: Bytes): Option<ConnectParams> {
    match TakeString(s)
    case None => None
    case Some((clientId, s1)) =>
      match TakeWill(flags, s1)
      case None => None
      case Some((will, s2)) =>
        match TakeOptional(flags / 128 % 2 == 1, s2)
        case None => None
        case Some((username, s3)) =>
          match TakeOptional(flags / 64 % 2 == 1, s3)
          case None => None
          case Some((password, s4)) =>
            if s4 != [] then None
            else Some(ConnectParams(clientId, flags / 2 % 2 == 1, keepalive, username, password, will))
  }

  /** The flag bits decide which optional fields follow; trailing bytes are refused, nothing else
      that can be laid out is. */
  function ReadConnect(body: Bytes): Option<ConnectParams> {
    match TakeString(body)
    case None => None
    case Some((name, s)) =>
      if name != PROTOCOL_NAME || |s| < 4 || s[0] != PROTOCOL_LEVEL then None
      else ReadPayload(s[1], U16Of(s[2], s[3]), s[4..])
  }

  /** The flag bytes that sections 3.1.2.3 to 3.1.2.9 allow: reserved bit 0, no will settings without
      a will, will QoS not 3, no password without a user name. */
  predicate FlagsConform(f: byte) {
    && f % 2 == 0
    && (f / 4 % 2 == 0 ==> f / 8 % 8 == 0)
    && f / 8 % 4 != 3
    && (f / 128 % 2 == 0 ==> f / 64 % 2 == 0)
  }

  /** A broker that refuses what section 3.1 tells it to: such flags, and an empty client id without
      a clean session (section 3.1.3.1). */
  function ReadStandardConnect(body: Bytes): Option<ConnectParams> {
    match ReadConnect(body)
    case None => None
    case Some(p) =>
      if |body| > 7 && FlagsConform(body[7]) && (p.clientId == [] ==> p.cleanSession) then Some(p) else None
  }

  // ---- Unique decodability ----

  predicate FieldFits(f: Option<Bytes>) { f.Some? ==> |f.value| <= 0xFFFF }

  predicate WillFits(w: Option<Will>) {
    w.Some? ==> |w.value.topic| <= 0xFFFF && |w.value.payload| <= 0xFFFF && 0 <= w.value.qos <= 3
  }

  predicate Encodable(p: ConnectParams) {
    |p.clientId| <= 0xFFFF && FieldFits(p.username) && FieldFits(p.password) && WillFits(p.will)
  }

  lemma ConnectFlagBits(p: ConnectParams)
    ensures var f := ConnectFlags(p);
      && (f / 2 % 2 == 1 <==> p.cleanSession)
      && (f / 4 % 2 == 1 <==> p.will.Some?)
      && (p.will.Some? ==> f / 8 % 4 == p.will.value.qos % 4 && (f / 32 % 2 == 1 <==> p.will.value.retained))
      && (f / 64 % 2 == 1 <==> p.password.Some?)
      && (f / 128 % 2 == 1 <==> p.username.Some?)
      && f % 2 == 0
      && (p.will.None? ==> f / 8 % 8 == 0)
  {
    var q := if p.will.Some? then p.will.value.qos % 4 else 0;
    BitsOfSum(if p.cleanSession then 1 else 0, if p.will.Some? then 1 else 0, q,
              if p.will.Some? && p.will.value.retained then 1 else 0,
              if p.password.Some? then 1 else 0, if p.username.Some? then 1 else 0, ConnectFlags(p));
  }

  lemma BitsOfSum(c: nat, w: nat, q: nat, r: nat, pw: nat, u: nat, f: nat)
    requires c < 2 && w < 2 && q < 4 && r < 2 && pw < 2 && u < 2
    requires f == 2 * c + 4 * w + 8 * q + 32 * r + 64 * pw + 128 * u
    ensures f / 2 % 2 == c && f / 4 % 2 == w && f / 8 % 4 == q && f / 32 % 2 == r && f / 64 % 2 == pw && f / 128 % 2 == u
  {
    assert f / 2 == c + 2 * (w + 2 * q + 8 * r + 16 * pw + 32 * u);
    assert f / 4 == w + 2 * (q + 4 * r + 8 * pw + 16 * u);
    assert f / 8 == q + 4 * (r + 2 * pw + 4 * u);
    assert f / 32 == r + 2 * (pw + 2 * u);
    assert f / 64 == pw + 2 * u;
  }

  lemma OptionalRoundTrip(f: Option<Bytes>, rest: Bytes)
    requires FieldFits(f)
    ensures TakeOptional(f.Some?, OptionalField(f) + rest) == Some((f, rest))
  {
    if f.Some? {
      StringRoundTrip(f.value, rest);
    } else {
      assert OptionalField(f) + rest == rest;
    }
  }

  lemma WillRoundTrip(p: ConnectParams, rest: Bytes)
    requires WillFits(p.will)
    ensures TakeWill(ConnectFlags(p), WillFields(p.will) + rest) == Some((p.will, rest))
  {
    ConnectFlagBits(p);
    match p.will
    case None =>
      assert WillFields(p.will) + rest == rest;
    case Some(w) =>
      assert WillFields(p.will) + rest == MqttString(w.topic) + (MqttString(w.payload) + rest);
      StringRoundTrip(w.topic, MqttString(w.payload) + rest);
      StringRoundTrip(w.payload, rest);
  }

  lemma PayloadRoundTrip(p: ConnectParams)
    requires Encodable(p)
    ensures ReadPayload(ConnectFlags(p), p.keepaliveSeconds, ConnectPayload(p)) == Some(p)
  {
    ConnectFlagBits(p);
    var password := OptionalField(p.password);
    var user := OptionalField(p.username) + password;
    assert ConnectPayload(p) == MqttString(p.clientId) + (WillFields(p.will) + user);
    StringRoundTrip(p.clientId, WillFields(p.will) + user);
    WillRoundTrip(p, user);
    OptionalRoundTrip(p.username, password);
    assert password + [] == password;
    OptionalRoundTrip(p.password, []);
  }

  lemma ReadConnectIsEncodable(body: Bytes)
    requires ReadConnect(body).Some?
    ensures Encodable(ReadConnect(body).value)
  {
  }

  /** The flag-following reader recovers the parameters if and only if every field fits its length
      prefix and the will QoS its two bits. */
  lemma ConnectRoundTrip(p: ConnectParams)
    ensures ReadConnect(ConnectBody(p)) == Some(p) <==> Encodable(p)
  {
    if Encodable(p) {
      var rest := [PROTOCOL_LEVEL] + [ConnectFlags(p)] + U16Bytes(p.keepaliveSeconds) + ConnectPayload(p);
      assert ConnectBody(p) == MqttString(PROTOCOL_NAME) + rest;
      StringRoundTrip(PROTOCOL_NAME, rest);
      HeaderRoundTrip(p, ConnectBody(p), rest);
      PayloadRoundTrip(p);
    } else if ReadConnect(ConnectBody(p)) == Some(p) {
      ReadConnectIsEncodable(ConnectBody(p));
    }
  }

  lemma HeaderRoundTrip(p: ConnectParams, body: Bytes, rest: Bytes)
    requires TakeString(body) == Some((PROTOCOL_NAME, rest))
    requires rest == [PROTOCOL_LEVEL] + [ConnectFlags(p)] + U16Bytes(p.keepaliveSeconds) + ConnectPayload(p)
    ensures ReadConnect(body) == ReadPayload(ConnectFlags(p), p.keepaliveSeconds, ConnectPayload(p))
  {
    U16RoundTrip(p.keepaliveSeconds);
    assert rest[4..] == ConnectPayload(p);
  }

  /** The first bytes of every CONNECT, as sections 3.1.2.1 and 3.1.2.2 print them, then flags and
      keepalive, the high byte first. */
  lemma ConnectStartsWith(p: ConnectParams)
    ensures |ConnectBody(p)| >= 10 && ConnectBody(p)[..7] == [0, 4, 0x4D, 0x51, 0x54, 0x54, 4]
    ensures ConnectBody(p)[7] == ConnectFlags(p)
    ensures (ConnectBody(p)[8] as int) * 256 + ConnectBody(p)[9] as int == p.keepaliveSeconds
  {
    assert ConnectHeader(p) == [0, 4, 0x4D, 0x51, 0x54, 0x54, 4, ConnectFlags(p)] + U16Bytes(p.keepaliveSeconds);
  }

  /** What the standard asks of the parameters, and the builder does not check. */
  predicate Conforms(p: ConnectParams) {
    && (p.password.Some? ==> p.username.Some?)
    && (p.will.Some? ==> p.will.value.qos != 3)
    && (p.clientId == [] ==> p.cleanSession)
  }

  lemma FlagsConformIff(p: ConnectParams)
    requires Encodable(p)
    ensures FlagsConform(ConnectFlags(p))
       <==> (p.password.Some? ==> p.username.Some?) && (p.will.Some? ==> p.will.value.qos != 3)
  {
    ConnectFlagBits(p);
    if p.will.None? {
      assert ConnectFlags(p) / 8 % 4 == ConnectFlags(p) / 8 % 8 % 4;
    }
  }

  lemma FlagByteAt(p: ConnectParams)
    ensures |ConnectBody(p)| > 7 && ConnectBody(p)[7] == ConnectFlags(p)
  {
    assert ConnectHeader(p)[7] == ConnectFlags(p) by {
      assert ConnectHeader(p) == [0, 4, 0x4D, 0x51, 0x54, 0x54, 4, ConnectFlags(p)] + U16Bytes(p.keepaliveSeconds);
    }
  }

  /** The standard's broker accepts what was built, as it was meant, if and only if it is encodable,
      a password comes with a user name, the will QoS is not 3, and an empty client id with a clean
      session; what is encodable and fails that is refused. */
  lemma ConnectAccepted(p: ConnectParams)
    ensures ReadStandardConnect(ConnectBody(p)) == Some(p) <==> Encodable(p) && Conforms(p)
    ensures Encodable(p) && !Conforms(p) ==> ReadStandardConnect(ConnectBody(p)) == None
  {
    hide ReadConnect;
    hide ConnectFlags;
    hide ConnectBody;
    hide FlagsConform;
    ConnectRoundTrip(p);
    FlagByteAt(p);
    if Encodable(p) {
      FlagsConformIff(p);
    }
  }

  lemma ConnectBodySize(p: ConnectParams)
    requires Encodable(p)
    ensures |ConnectBody(p)| < 0x1000_0000
  {
  }

  /** Two encodable parameter sets with the same packet are the same parameters. */
  lemma ConnectInjective(p: ConnectParams, q: ConnectParams)
    requires Encodable(p) && Encodable(q)
    requires Frame(0x10, ConnectBody(p)) == Frame(0x10, ConnectBody(q))
    ensures p == q
  {
    ConnectBodySize(p);
    ConnectBodySize(q);
    FrameInjective(0x10, ConnectBody(p), 0x10, ConnectBody(q));
    ConnectRoundTrip(p);
    ConnectRoundTrip(q);
  }
}
