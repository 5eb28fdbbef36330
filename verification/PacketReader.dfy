/** Reading packets off the transport, and why a stream of packets can be read in only one way. */
module PacketReader {
  import opened Prelude
  import opened WireEncoding
  import opened Transport

  datatype IncomingPacket = IncomingPacket(kind: nat, flags: byte, body: Bytes)

  datatype Decoded =
    | NeedMore
    | BadLength
    | Packet(packet: IncomingPacket, used: nat)

  /** The packet at the head of a stream. */
  function DecodePacket(s: Bytes): Decoded {
    if s == [] then NeedMore
    else match ReadLength(s[1..], 4)
      case Truncated => NeedMore
      case Malformed => BadLength
      case Length(v, n) =>
        if |s| < 1 + n + v then NeedMore
        else Packet(IncomingPacket(s[0] / 16, s[0] % 16, s[1..][n..][..v]), 1 + n + v)
  }

  /** All packets at the head of a stream, and the bytes that do not make a packet. */
  function DecodeStream(s: Bytes): (r: (seq<IncomingPacket>, Bytes))
    decreases |s|
  {
    match DecodePacket(s)
    case Packet(p, n) =>
      var (more, rest) := DecodeStream(s[n..]);
      ([p] + more, rest)
    case _ => ([], s)
  }

  // ---- readPacket ----

  /** The field's meaning when the bytes read so far add up to `acc` and the next counts `m`-fold. */
  function Resume(acc: nat, m: nat, i: nat, rest: LengthField): LengthField {
    match rest
    case Length(v, n) => Length(acc + m * v, i + n)
    case bad => bad
  }

  lemma Distribute(acc: nat, m: nat, b: nat, v: nat)
    ensures acc + m * (b + 128 * v) == acc + b * m + m * 128 * v
  {
    assert m * (b + 128 * v) == m * b + m * (128 * v);
  }

  lemma ResumeStep(acc: nat, m: nat, i: nat, s: Bytes)
    requires i < 4 && s != []
    ensures var whole := Resume(acc, m, i, ReadLength(s, 4 - i));
      if s[0] < 128 then whole == Length(acc + s[0] % 128 * m, i + 1)
      else if i == 3 then whole == Malformed
      else whole == Resume(acc + s[0] % 128 * m, m * 128, i + 1, ReadLength(s[1..], 3 - i))
  {
    if s[0] >= 128 && i < 3 {
      var tail := ReadLength(s[1..], 3 - i);
      if tail.Length? {
        Distribute(acc, m, s[0] % 128, tail.value);
      }
    }
  }

  lemma LengthStep(remaining: nat, m: nat, b: byte)
    requires remaining < m <= 128 * 128 * 128
    ensures 0 <= b % 128 * m <= 127 * m
    ensures remaining + b % 128 * m < 128 * m <= 0x1000_0000
  {
    Scale(b % 128, m);
  }

  lemma Scale(d: nat, m: nat)
    requires d <= 127
    ensures 0 <= d * m <= 127 * m
  {
    assert (127 - d) * m >= 0;
  }

  /** The remaining-length loop; its 32-bit sum and multiplier cannot overflow. */
  method ReadRemaining(t: SocketTransport) returns (r: Result<u32>)
    requires t.Valid()
    modifies t`recvAt, t`inPos
    ensures t.Valid() && old(t.inPos) <= t.inPos
    ensures r.Ok? ==> ReadLength(t.inbound[old(t.inPos)..], 4) == Length(r.value, t.inPos - old(t.inPos))
    ensures r == Err(DeserializationFailed) ==> ReadLength(t.inbound[old(t.inPos)..], 4) == Malformed
    ensures t.Delivers() ==>
      match ReadLength(t.inbound[old(t.inPos)..], 4)
      case Truncated => r == Err(ConnectionLost)
      case Malformed => r == Err(DeserializationFailed)
      case Length(_, _) => r.Ok?
  {
    var remaining: u32 := 0;
    var multiplier: u32 := 1;
    ghost var field := ReadLength(t.inbound[t.inPos..], 4);
    for i := 0 to 4
      invariant t.Valid() && t.inPos == old(t.inPos) + i
      invariant i < 4 ==> multiplier <= 128 * 128 * 128
      invariant i == 0 ==> multiplier == 1
      invariant i == 1 ==> multiplier == 128
      invariant i == 2 ==> multiplier == 128 * 128
      invariant i == 3 ==> multiplier == 128 * 128 * 128
      invariant i < 4 && remaining < multiplier
      invariant field == Resume(remaining, multiplier, i, ReadLength(t.inbound[t.inPos..], 4 - i))
    {
      ghost var unread := t.inbound[t.inPos..];
      var br := t.RecvByte();
      if br.Err? { return Err(br.error); }
      var b := br.value;
      assert unread[0] == b && unread[1..] == t.inbound[t.inPos..];
      ResumeStep(remaining, multiplier, i, unread);
      LengthStep(remaining, multiplier, b);
      remaining := remaining + b % 128 * multiplier;
      multiplier := multiplier * 128;
      if b < 128 { return Ok(remaining); }
      if i == 3 { return Err(DeserializationFailed); }
    }
    assert false;
    return Err(DeserializationFailed);
  }

  /** A packet is returned only if it is the one at the head of the unread stream, and then
      exactly its bytes are taken; when the transport delivers, what happens is decided by those
      bytes alone. */
  method ReadPacket(t: SocketTransport) returns (r: Result<IncomingPacket>)
    requires t.Valid()
    modifies t`recvAt, t`inPos
    ensures t.Valid() && old(t.inPos) <= t.inPos
    ensures r.Ok? ==> DecodePacket(t.inbound[old(t.inPos)..]) == Packet(r.value, t.inPos - old(t.inPos))
    ensures r == Err(DeserializationFailed) ==> DecodePacket(t.inbound[old(t.inPos)..]) == BadLength
    ensures t.Delivers() ==>
      match DecodePacket(t.inbound[old(t.inPos)..])
      case NeedMore => r == Err(ConnectionLost)
      case BadLength => r == Err(DeserializationFailed)
      case Packet(p, n) => r == Ok(p)
  {
    ghost var s := t.inbound[t.inPos..];
    var b0r := t.RecvByte();
    if b0r.Err? { return Err(b0r.error); }
    var b0 := b0r.value;
    assert s[1..] == t.inbound[t.inPos..];

    ghost var at := t.inPos;
    var lengthR := ReadRemaining(t);
    if lengthR.Err? { return Err(lengthR.error); }
    var remaining := lengthR.value;
    ghost var n := t.inPos - at;
    assert s[1..][n..] == t.inbound[t.inPos..];

    var body: Bytes := [];
    if remaining > 0 {
      var bodyR := t.RecvExact(remaining);
      if bodyR.Err? { return Err(bodyR.error); }
      body := bodyR.value;
    }
    assert body == s[1..][n..][..remaining];
    return Ok(IncomingPacket(b0 / 16, b0 % 16, body));
  }

  lemma StreamStep(s: Bytes)
    requires DecodePacket(s).Packet?
    ensures var Packet(p, n) := DecodePacket(s);
      0 < n <= |s| && DecodeStream(s) == ([p] + DecodeStream(s[n..]).0, DecodeStream(s[n..]).1)
  {
  }

  lemma StreamEnds(s: Bytes)
    requires !DecodePacket(s).Packet?
    ensures DecodeStream(s) == ([], s)
  {
  }

  /** The receive loop's reading, up to its first error: never anything but a prefix of the
      packets in the stream, and all of them when the transport delivers. */
  method ReceiveAll(t: SocketTransport) returns (packets: seq<IncomingPacket>, error: ErrorCode)
    requires t.Valid()
    modifies t`recvAt, t`inPos
    ensures t.Valid()
    ensures packets <= DecodeStream(t.inbound[old(t.inPos)..]).0
    ensures t.Delivers() ==> packets == DecodeStream(t.inbound[old(t.inPos)..]).0
  {
    hide DecodePacket;
    hide DecodeStream;
    packets := [];
    ghost var all := DecodeStream(t.inbound[t.inPos..]).0;
    while true
      invariant t.Valid() && old(t.inPos) <= t.inPos
      invariant all == packets + DecodeStream(t.inbound[t.inPos..]).0
      decreases |t.inbound| - t.inPos
    {
      ghost var unread := t.inbound[t.inPos..];
      ghost var at := t.inPos;
      var r := ReadPacket(t);
      if r.Err? {
        if t.Delivers() { StreamEnds(unread); }
        return packets, r.error;
      }
      StreamStep(unread);
      assert unread[t.inPos - at..] == t.inbound[t.inPos..];
      packets := packets + [r.value];
    }
  }

  // ---- Unique decodability of streams ----

  datatype Outgoing = Outgoing(typeByte: byte, body: Bytes) {
    function Bytes(): Bytes { Frame(typeByte, body) }

    function AsReceived(): IncomingPacket { IncomingPacket(typeByte / 16, typeByte % 16, body) }

    predicate Fits() { |body| < 0x1000_0000 }
  }

  function Flatten(packets: seq<Outgoing>): Bytes {
    if packets == [] then [] else packets[0].Bytes() + Flatten(packets[1..])
  }

  function AllReceived(packets: seq<Outgoing>): seq<IncomingPacket> {
    if packets == [] then [] else [packets[0].AsReceived()] + AllReceived(packets[1..])
  }

  /** The reader recovers a packet from the head of a stream if and only if its body is below
      2^28 bytes; a longer one is refused (sizes up to the 32-bit cast). */
  lemma FrameDecodes(p: Outgoing, rest: Bytes)
    requires |p.body| < 0x1_0000_0000
    ensures DecodePacket(p.Bytes() + rest)
         == if p.Fits() then Packet(p.AsReceived(), |p.Bytes()|) else BadLength
  {
    var s := p.Bytes() + rest;
    var len := VarLen(|p.body|);
    assert s[1..] == len + (p.body + rest);
    RemainingLengthRoundTrip(|p.body|, p.body + rest);
    assert s[1..][|len|..] == p.body + rest;
  }

  /** A packet cut short is not yet a packet. */
  lemma CutFrameNeedsMore(p: Outgoing, k: nat)
    requires p.Fits() && k < |p.Bytes()|
    ensures DecodePacket(p.Bytes()[..k]) == NeedMore
  {
    hide VarLen;
    hide ReadLength;
    var s, len := p.Bytes()[..k], VarLen(|p.body|);
    if k > 0 {
      RemainingLengthRoundTrip(|p.body|, p.body);
      assert p.Bytes()[1..] == len + p.body;
      assert s[1..] == (len + p.body)[..k - 1];
      CutLength(len + p.body, k - 1, 4);
    }
  }

  lemma {:induction false} CutLength(s: Bytes, k: nat, budget: nat)
    requires k <= |s| && budget > 0 && ReadLength(s, budget).Length?
    ensures var r := ReadLength(s, budget);
      ReadLength(s[..k], budget) == if k < r.used then Truncated else r
    decreases budget
  {
    if k > 0 && s[0] >= 128 {
      CutLength(s[1..], k - 1, budget - 1);
      assert s[..k][1..] == s[1..][..k - 1];
    }
  }

  lemma HeadDecodes(p: Outgoing, rest: Bytes)
    requires p.Fits()
    ensures DecodeStream(p.Bytes() + rest)
         == ([p.AsReceived()] + DecodeStream(rest).0, DecodeStream(rest).1)
  {
    FrameDecodes(p, rest);
    StreamStep(p.Bytes() + rest);
    assert (p.Bytes() + rest)[|p.Bytes()|..] == rest;
  }

  /** Whole packets at the head of a stream decode to exactly those packets, whatever follows. */
  lemma {:induction false} StreamDecodes(packets: seq<Outgoing>, tail: Bytes)
    requires forall i :: 0 <= i < |packets| ==> packets[i].Fits()
    ensures DecodeStream(Flatten(packets) + tail)
         == (AllReceived(packets) + DecodeStream(tail).0, DecodeStream(tail).1)
  {
    if packets == [] {
      assert Flatten(packets) + tail == tail;
      assert AllReceived(packets) + DecodeStream(tail).0 == DecodeStream(tail).0;
    } else {
      var p, rest := packets[0], Flatten(packets[1..]) + tail;
      assert Flatten(packets) + tail == p.Bytes() + rest;
      StreamDecodes(packets[1..], tail);
      HeadDecodes(p, rest);
      Associate(p.AsReceived(), AllReceived(packets[1..]), DecodeStream(tail).0);
    }
  }

  lemma Associate(p: IncomingPacket, a: seq<IncomingPacket>, b: seq<IncomingPacket>)
    ensures [p] + (a + b) == ([p] + a) + b
  {
  }

  lemma {:induction false} FlattenAppend(packets: seq<Outgoing>, p: Outgoing)
    ensures Flatten(packets + [p]) == Flatten(packets) + p.Bytes()
  {
    if packets == [] {
      assert packets + [p] == [p];
      assert Flatten([p]) == p.Bytes() + Flatten([]);
    } else {
      FlattenAppend(packets[1..], p);
      assert (packets + [p])[1..] == packets[1..] + [p];
    }
  }
}
