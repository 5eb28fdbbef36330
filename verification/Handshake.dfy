/** Connecting, which publisher and subscriber do alike: the CONNECT packet, the answer awaited, and
    what is made of it. */
module Handshake {
  import opened Prelude
  import opened WireEncoding
  import opened ConnectPacket
  import opened Transport
  import opened PacketReader

  /** What one attempt to connect meets. */
  datatype Attempt =
    | TransportFails
    | ConnectNotSent
    | NoAnswer
    | NotConnack
    | Answered(connack: Bytes)

  datatype ConnectResult = Success | Failure | Thrown

  /** parseConnack's return code; None is its exception for a short body. */
  function ConnackCode(body: Bytes): Option<byte> { if |body| < 2 then None else Some(body[1]) }

  function ResultOf(a: Attempt): ConnectResult {
    match a
    case Answered(body) =>
      (match ConnackCode(body)
       case None => Thrown
       case Some(rc) => if rc == 0 then Success else Failure)
    case _ => Failure
  }

  /** What a stream that begins like this makes of an attempt. */
  function AttemptOf(s: Bytes): Attempt {
    match DecodePacket(s)
    case Packet(p, _) => if p.kind == 2 then Answered(p.body) else NotConnack
    case _ => NoAnswer
  }

  /** connect from the opened transport on: the whole CONNECT packet is written before anything is
      read, then exactly one packet is taken; with a transport that neither fails nor starves, the
      peer's bytes alone decide. */
  method Shake(t: SocketTransport, p: ConnectParams) returns (a: Attempt)
    requires t.Valid()
    modifies t`sendAt, t`wire, t`recvAt, t`inPos
    ensures t.Valid() && !a.TransportFails?
    ensures a.ConnectNotSent? ==>
      t.inPos == old(t.inPos)
      && exists k :: 0 <= k < |Frame(0x10, ConnectBody(p))| && t.wire == old(t.wire) + Frame(0x10, ConnectBody(p))[..k]
    ensures !a.ConnectNotSent? ==> t.wire == old(t.wire) + Frame(0x10, ConnectBody(p))
    ensures a.Answered? || a.NotConnack? ==>
      a == AttemptOf(t.inbound[old(t.inPos)..])
      && DecodePacket(t.inbound[old(t.inPos)..]).Packet?
      && t.inPos == old(t.inPos) + DecodePacket(t.inbound[old(t.inPos)..]).used
    ensures old(t.SendsSucceed()) && t.Delivers() ==> a == AttemptOf(t.inbound[old(t.inPos)..])
  {
    hide DecodePacket;
    hide Frame;
    var packet := BuildConnect(p);
    var sent := t.SendAll(packet);
    if sent.Err? { return ConnectNotSent; }
    var r := ReadPacket(t);
    if r.Err? { return NoAnswer; }
    if r.value.kind != 2 { return NotConnack; }
    return Answered(r.value.body);
  }

  /** A CONNACK as section 3.2 lays it out, whatever follows it: success if and only if the return
      code is 0. */
  lemma ConnackDecides(sessionPresent: byte, code: byte, rest: Bytes)
    ensures AttemptOf([0x20, 2, sessionPresent, code] + rest) == Answered([sessionPresent, code])
    ensures ResultOf(AttemptOf([0x20, 2, sessionPresent, code] + rest)) == Success <==> code == 0
  {
    var p := Outgoing(0x20, [sessionPresent, code]);
    assert VarLen(2) == [2];
    assert p.Bytes() == [0x20, 2, sessionPresent, code];
    FrameDecodes(p, rest);
  }

  /** Every other stream, by its bytes. One that ends before its first packet does, and one whose first
      packet is no CONNACK, make the attempt fail; a CONNACK too short for a return code makes it throw;
      a longer one succeeds if and only if its second byte is 0. */
  lemma OtherAnswers(p: Outgoing, rest: Bytes, cut: nat)
    requires p.Fits() && cut < |p.Bytes()|
    ensures ResultOf(AttemptOf(p.Bytes()[..cut])) == Failure
    ensures !(0x20 <= p.typeByte < 0x30) ==> ResultOf(AttemptOf(p.Bytes() + rest)) == Failure
    ensures 0x20 <= p.typeByte < 0x30 && |p.body| < 2 ==> ResultOf(AttemptOf(p.Bytes() + rest)) == Thrown
    ensures 0x20 <= p.typeByte < 0x30 && |p.body| >= 2 ==>
      ResultOf(AttemptOf(p.Bytes() + rest)) == if p.body[1] == 0 then Success else Failure
  {
    hide DecodePacket;
    CutFrameNeedsMore(p, cut);
    FrameDecodes(p, rest);
  }
}
