/** The byte transport over an arbitrary schedule of partial transfers, interrupts and timeouts. */
module Transport {
  import opened Prelude

  /** What the next send system call does: accept up to `n + 1` bytes, or not. */
  datatype SendOutcome = Wrote(n: nat) | SendInterrupted | SendClosed | SendBroken

  /** What the next receive system call does. `TimedOut` is EAGAIN, EWOULDBLOCK or ETIMEDOUT on a
      plain socket and SSL_ERROR_WANT_READ on a TLS one. */
  datatype RecvOutcome = Arrived(n: nat) | RecvInterrupted | TimedOut | Closed | Broken

  /** One turn of a receive loop, with the stop flag as another thread has set it by then. */
  datatype RecvTurn = RecvTurn(stopBefore: bool, outcome: RecvOutcome, stopAfter: bool)

  lemma SliceSplit(s: Bytes, a: nat, b: nat, c: nat)
    requires a <= b <= c <= |s|
    ensures s[a..c] == s[a..b] + s[b..c]
  {
  }

  class SocketTransport {
    const tls: bool
    const sendPlan: nat -> SendOutcome
    const recvPlan: nat -> RecvTurn
    const inbound: Bytes            // everything the peer sends on this connection
    ghost const sendPatience: nat -> nat
    ghost const recvPatience: nat -> nat

    var sendAt: nat
    var recvAt: nat
    var inPos: nat
    ghost var wire: Bytes           // everything the kernel has accepted on this connection

    /** Only a plain send retries, and only on EINTR. */
    predicate SendRetries(i: nat) { !tls && sendPlan(i).SendInterrupted? }

    predicate RecvRetries(i: nat) {
      recvPlan(i).outcome.TimedOut? || (!tls && recvPlan(i).outcome.RecvInterrupted?)
    }

    /** Every unbroken stretch of retries ends: its remaining length is what patience counts. */
    ghost predicate Valid()
      reads this
    {
      && inPos <= |inbound|
      && (forall i: nat :: SendRetries(i) ==> sendPatience(i + 1) < sendPatience(i))
      && (forall i: nat :: RecvRetries(i) ==> recvPatience(i + 1) < recvPatience(i))
    }

    /** No send call from now on fails. */
    ghost predicate SendsSucceed()
      reads this
    {
      forall i: nat :: i >= sendAt ==> sendPlan(i).Wrote? || SendRetries(i)
    }

    /** The peer's bytes are delivered until they run out, and nobody asks to stop. */
    ghost predicate Delivers() {
      forall i: nat ::
        !recvPlan(i).stopBefore && !recvPlan(i).stopAfter && (recvPlan(i).outcome.Arrived? || RecvRetries(i))
    }

    constructor (tls: bool, sendPlan: nat -> SendOutcome, recvPlan: nat -> RecvTurn, inbound: Bytes,
                 ghost sendPatience: nat -> nat, ghost recvPatience: nat -> nat)
      requires forall i: nat :: !tls && sendPlan(i).SendInterrupted? ==> sendPatience(i + 1) < sendPatience(i)
      requires forall i: nat :: recvPlan(i).outcome.TimedOut? || (!tls && recvPlan(i).outcome.RecvInterrupted?)
                 ==> recvPatience(i + 1) < recvPatience(i)
      ensures Valid() && inPos == 0 && wire == []
      ensures this.tls == tls && this.sendPlan == sendPlan && this.recvPlan == recvPlan && this.inbound == inbound
    {
      this.tls, this.sendPlan, this.recvPlan, this.inbound := tls, sendPlan, recvPlan, inbound;
      this.sendPatience, this.recvPatience := sendPatience, recvPatience;
      sendAt, recvAt, inPos, wire := 0, 0, 0, [];
    }

    // ---- System calls ----

    /** `send` or `SSL_write`: positive is the number of bytes accepted. */
    method Write(chunk: Bytes) returns (r: int, interrupted: bool)
      requires Valid() && chunk != []
      modifies `sendAt, `wire
      ensures Valid() && sendAt == old(sendAt) + 1 && -1 <= r <= |chunk|
      ensures wire == if r > 0 then old(wire) + chunk[..r] else old(wire)
      ensures r > 0 <==> sendPlan(old(sendAt)).Wrote?
      ensures r < 0 && interrupted <==> sendPlan(old(sendAt)).SendInterrupted?
    {
      interrupted := false;
      match sendPlan(sendAt) {
        case Wrote(n) =>
          r := if n < |chunk| then n + 1 else |chunk|;
          wire := wire + chunk[..r];
        case SendInterrupted => r, interrupted := -1, true;
        case SendClosed => r := 0;
        case SendBroken => r := -1;
      }
      sendAt := sendAt + 1;
    }

    /** `recv` or `SSL_read` into `buf[off..]`; a stream that has ended is a closed connection. */
    method Read(buf: array<byte>, off: nat) returns (r: int, outcome: RecvOutcome)
      requires Valid() && off < buf.Length
      modifies `recvAt, `inPos, buf
      ensures Valid() && recvAt == old(recvAt) + 1 && -1 <= r <= buf.Length - off
      ensures inPos == old(inPos) + if r > 0 then r else 0
      ensures buf[..off] == old(buf[..off])
      ensures r > 0 ==> buf[off..off + r] == inbound[old(inPos)..inPos]
      ensures outcome == if recvPlan(old(recvAt)).outcome.Arrived? && old(inPos) == |inbound|
                         then Closed else recvPlan(old(recvAt)).outcome
      ensures (r > 0 <==> outcome.Arrived?) && (r == 0 <==> outcome.Closed?)
    {
      outcome := recvPlan(recvAt).outcome;
      recvAt := recvAt + 1;
      match outcome {
        case Arrived(n) =>
          if inPos == |inbound| {
            r, outcome := 0, Closed;
          } else {
            r := n + 1;
            if r > buf.Length - off { r := buf.Length - off; }
            if r > |inbound| - inPos { r := |inbound| - inPos; }
            forall i | off <= i < off + r { buf[i] := inbound[inPos + i - off]; }
            inPos := inPos + r;
          }
        case Closed => r := 0;
        case _ => r := -1;
      }
    }

    // ---- sendAll ----

    /** Ok means exactly the data was appended; an error means a strict prefix was. */
    method SendAll(data: Bytes) returns (r: Result<()>)
      requires Valid()
      modifies `sendAt, `wire
      ensures Valid() && old(sendAt) <= sendAt
      ensures r.Ok? ==> wire == old(wire) + data
      ensures r.Err? ==> r.error == ConnectionLost && exists k :: 0 <= k < |data| && wire == old(wire) + data[..k]
      ensures old(SendsSucceed()) ==> r.Ok?
      ensures forall i: nat :: old(sendAt) <= i < sendAt && (r.Ok? || i + 1 < sendAt) ==>
        sendPlan(i).Wrote? || (!tls && sendPlan(i).SendInterrupted?)
      ensures r.Err? ==>
        old(sendAt) < sendAt && !sendPlan(sendAt - 1).Wrote? && (tls || !sendPlan(sendAt - 1).SendInterrupted?)
    {
      var sent := 0;
      while sent < |data|
        invariant Valid() && 0 <= sent <= |data| && old(sendAt) <= sendAt
        invariant wire == old(wire) + data[..sent]
        invariant forall i: nat :: old(sendAt) <= i < sendAt ==>
          sendPlan(i).Wrote? || (!tls && sendPlan(i).SendInterrupted?)
        decreases |data| - sent, sendPatience(sendAt)
      {
        var n, interrupted := Write(data[sent..]);
        if n <= 0 {
          if !tls && n < 0 && interrupted { continue; }
          return Err(ConnectionLost);
        }
        assert data[..sent] + data[sent..][..n] == data[..sent + n];
        sent := sent + n;
      }
      return Ok(());
    }

    // ---- recvByte and recvExact ----

    /** Ok is the next byte of the stream; an error takes nothing from it. Only retries are passed over; a
        stop flag up before a turn ends it with that turn not taken, and otherwise the turn decides. */
    method RecvByte() returns (r: Result<byte>)
      requires Valid()
      modifies `recvAt, `inPos
      ensures Valid()
      ensures recvPlan(old(recvAt)).stopBefore ==> r == Err(NotConnected) && recvAt == old(recvAt)
      ensures old(recvAt) <= recvAt
      ensures forall i: nat :: old(recvAt) <= i < recvAt ==>
        !recvPlan(i).stopBefore
        && (i + 1 < recvAt ==> recvPlan(i).outcome.TimedOut? || (!tls && recvPlan(i).outcome.RecvInterrupted?))
      ensures r.Err? ==>
        || (recvPlan(recvAt).stopBefore && r.error == NotConnected)
        || (old(recvAt) < recvAt
            && var last := recvPlan(recvAt - 1);
               && !last.outcome.TimedOut? && (tls || !last.outcome.RecvInterrupted?)
               && r.error == if last.stopAfter && (tls || last.outcome.RecvInterrupted? || last.outcome.Broken?)
                             then NotConnected else ConnectionLost)
      ensures r.Ok? ==> old(inPos) < |inbound| && r.value == inbound[old(inPos)] && inPos == old(inPos) + 1
      ensures r.Err? ==> inPos == old(inPos) && r.error in {ConnectionLost, NotConnected}
      ensures Delivers() ==> if old(inPos) < |inbound| then r.Ok? else r == Err(ConnectionLost)
    {
      var b := new byte[1];
      while true
        invariant Valid() && inPos == old(inPos)
        invariant old(recvAt) <= recvAt && forall i: nat :: old(recvAt) <= i < recvAt ==>
          !recvPlan(i).stopBefore
          && (recvPlan(i).outcome.TimedOut? || (!tls && recvPlan(i).outcome.RecvInterrupted?))
        decreases recvPatience(recvAt)
      {
        var turn := recvPlan(recvAt);
        if turn.stopBefore { return Err(NotConnected); }
        var n, outcome := Read(b, 0);
        if n == 1 {
          assert b[0..1][0] == inbound[old(inPos)..inPos][0];
          return Ok(b[0]);
        }
        if outcome.TimedOut? || (!tls && outcome.RecvInterrupted?) { continue; }
        if n < 0 && turn.stopAfter { return Err(NotConnected); }
        if tls && turn.stopAfter { return Err(NotConnected); }
        return Err(ConnectionLost);
      }
    }

    /** Ok is exactly the next `n` bytes, none lost or repeated; an error leaves a gap shorter
        than that, and is NotConnected, with nothing taken, if the stop flag is up at the start. */
    method RecvExact(n: nat) returns (r: Result<Bytes>)
      requires Valid()
      modifies `recvAt, `inPos
      ensures Valid()
      ensures r.Ok? ==> old(inPos) + n == inPos && r.value == inbound[old(inPos)..inPos]
      ensures r.Err? ==> old(inPos) <= inPos < old(inPos) + n && r.error in {ConnectionLost, NotConnected}
      ensures Delivers() ==> if old(inPos) + n <= |inbound| then r.Ok? else r == Err(ConnectionLost)
      ensures n > 0 && recvPlan(old(recvAt)).stopBefore ==> r == Err(NotConnected) && inPos == old(inPos)
      ensures old(recvAt) <= recvAt
      ensures forall i: nat :: old(recvAt) <= i < recvAt ==>
        !recvPlan(i).stopBefore
        && (i + 1 < recvAt ==>
              || recvPlan(i).outcome.TimedOut? || (!tls && recvPlan(i).outcome.RecvInterrupted?)
              || recvPlan(i).outcome.Arrived?)
      ensures r.Err? ==>
        || (recvPlan(recvAt).stopBefore && r.error == NotConnected)
        || (old(recvAt) < recvAt
            && var last := recvPlan(recvAt - 1);
               && !last.outcome.TimedOut? && (tls || !last.outcome.RecvInterrupted?)
               && r.error == if last.stopAfter && (tls || last.outcome.RecvInterrupted? || last.outcome.Broken?)
                             then NotConnected else ConnectionLost)
    {
      var buf := new byte[n];
      var got := 0;
      while got < n
        invariant Valid() && got <= n && inPos == old(inPos) + got
        invariant buf[..got] == inbound[old(inPos)..inPos]
        invariant old(recvAt) <= recvAt && (n > 0 && recvPlan(old(recvAt)).stopBefore ==> recvAt == old(recvAt) && got == 0)
        invariant forall i: nat :: old(recvAt) <= i < recvAt ==>
          !recvPlan(i).stopBefore
          && (|| recvPlan(i).outcome.TimedOut? || (!tls && recvPlan(i).outcome.RecvInterrupted?)
              || recvPlan(i).outcome.Arrived?)
        decreases n - got, recvPatience(recvAt)
      {
        var turn := recvPlan(recvAt);
        if turn.stopBefore { return Err(NotConnected); }
        ghost var at := inPos;
        var k, outcome := Read(buf, got);
        if k <= 0 {
          if outcome.TimedOut? || (!tls && outcome.RecvInterrupted?) { continue; }
          if (tls || k < 0) && turn.stopAfter { return Err(NotConnected); }
          return Err(ConnectionLost);
        }
        assert buf[..got + k] == buf[..got] + buf[got..got + k];
        SliceSplit(inbound, old(inPos), at, inPos);
        got := got + k;
      }
      assert buf[..] == buf[..got];
      return Ok(buf[..]);
    }
  }
}
