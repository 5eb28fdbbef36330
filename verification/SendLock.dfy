/** The bytes of one connection when API, keepalive, dispatch and resubscribe threads all send:
    each holds `sendMtx` for the whole of its `sendAll`. */
module SendLock {
  import opened Prelude
  import opened WireEncoding
  import opened PacketReader
  import opened Transport

  /** The thread that holds `sendMtx`, its packet and how much of it the kernel has accepted. */
  datatype Holding = Holding(thread: nat, packet: Outgoing, done: nat)

  /** A `sendAll` that failed: the packets finished before it, its packet, the part accepted. */
  datatype Failure = Failure(before: nat, packet: Outgoing, done: nat)

  datatype Line = Line(
    wire: Bytes,                    // accepted by the kernel so far
    finished: seq<Outgoing>,        // packets whose sendAll returned Ok, in lock order
    holder: Option<Holding>,
    firstFailure: Option<Failure>)

  datatype Step =
    | Lock(thread: nat, packet: Outgoing)
    | Transfer(thread: nat, n: nat)
    | Unlock(thread: nat)
    | Fail(thread: nat)

  const Fresh := Line([], [], None, None)

  predicate Holds(s: Line, thread: nat) { s.holder.Some? && s.holder.value.thread == thread }

  predicate Enabled(s: Line, step: Step) {
    match step
    case Lock(_, _) => s.holder.None?
    case Transfer(t, n) =>
      Holds(s, t) && 0 < n && s.holder.value.done + n <= |s.holder.value.packet.Bytes()|
    case Unlock(t) => Holds(s, t) && s.holder.value.done == |s.holder.value.packet.Bytes()|
    case Fail(t) => Holds(s, t) && s.holder.value.done < |s.holder.value.packet.Bytes()|
  }

  function Apply(s: Line, step: Step): Line
    requires Enabled(s, step)
  {
    match step
    case Lock(t, p) => s.(holder := Some(Holding(t, p, 0)))
    case Transfer(_, n) =>
      var h := s.holder.value;
      if h.done + n <= |h.packet.Bytes()| then
        s.(wire := s.wire + h.packet.Bytes()[h.done..h.done + n], holder := Some(h.(done := h.done + n)))
      else s
    case Unlock(_) => s.(finished := s.finished + [s.holder.value.packet], holder := None)
    case Fail(_) =>
      var h := s.holder.value;
      s.(holder := None,
         firstFailure := if s.firstFailure.Some? then s.firstFailure
                         else Some(Failure(|s.finished|, h.packet, h.done)))
  }

  predicate IsRun(states: seq<Line>, steps: seq<Step>) {
    && |states| == |steps| + 1
    && states[0] == Fresh
    && forall i :: 0 <= i < |steps| ==> Enabled(states[i], steps[i]) && states[i + 1] == Apply(states[i], steps[i])
  }

  // ---- Frame atomicity ----

  /** The packets finished before any failure. */
  function WholePackets(s: Line): seq<Outgoing> {
    match s.firstFailure
    case Some(f) => if f.before <= |s.finished| then s.finished[..f.before] else s.finished
    case None => s.finished
  }

  /** The part of one more packet: the failed one's, or what its sender has written so far. */
  function PartialPacket(s: Line): Bytes {
    match s.firstFailure
    case Some(f) => if f.done <= |f.packet.Bytes()| then f.packet.Bytes()[..f.done] else []
    case None =>
      match s.holder
      case Some(h) => if h.done <= |h.packet.Bytes()| then h.packet.Bytes()[..h.done] else []
      case None => []
  }

  function CleanPart(s: Line): Bytes { Flatten(WholePackets(s)) + PartialPacket(s) }

  ghost predicate Inv(s: Line) {
    && (s.holder.Some? ==> s.holder.value.done <= |s.holder.value.packet.Bytes()|)
    && (s.firstFailure.Some? ==>
          s.firstFailure.value.before <= |s.finished|
          && s.firstFailure.value.done < |s.firstFailure.value.packet.Bytes()|)
    && (if s.firstFailure.None? then CleanPart(s) == s.wire else CleanPart(s) <= s.wire)
  }

  lemma TransferKeepsInv(s: Line, thread: nat, n: nat)
    requires Inv(s) && Enabled(s, Transfer(thread, n))
    ensures Inv(Apply(s, Transfer(thread, n)))
  {
    hide Flatten;
    hide Frame;
    var h := s.holder.value;
    var b := h.packet.Bytes();
    assert b[..h.done] + b[h.done..h.done + n] == b[..h.done + n];
    var s' := Apply(s, Transfer(thread, n));
    assert WholePackets(s') == WholePackets(s);
    if s.firstFailure.None? {
      assert CleanPart(s') == Flatten(s.finished) + (b[..h.done] + b[h.done..h.done + n]);
    }
  }

  lemma UnlockKeepsInv(s: Line, thread: nat)
    requires Inv(s) && Enabled(s, Unlock(thread))
    ensures Inv(Apply(s, Unlock(thread)))
  {
    var s' := Apply(s, Unlock(thread));
    var h := s.holder.value;
    if s.firstFailure.None? {
      FlattenAppend(s.finished, h.packet);
      assert h.packet.Bytes()[..h.done] == h.packet.Bytes();
      assert CleanPart(s') == s.wire;
    } else {
      assert WholePackets(s') == WholePackets(s);
    }
  }

  lemma StepKeepsInv(s: Line, step: Step)
    requires Inv(s) && Enabled(s, step)
    ensures Inv(Apply(s, step))
  {
    var s' := Apply(s, step);
    match step
    case Lock(_, p) =>
      assert p.Bytes()[..0] == [];
      assert CleanPart(s') == CleanPart(s);
    case Transfer(t, n) => TransferKeepsInv(s, t, n);
    case Unlock(t) => UnlockKeepsInv(s, t);
    case Fail(_) =>
      assert s.finished[..|s.finished|] == s.finished;
      assert WholePackets(s') == WholePackets(s);
      assert CleanPart(s') == CleanPart(s);
  }

  /** In every run, up to the first failed send the wire is the finished packets, whole and in
      lock order, then part of one packet; with no failure that is all there is on the wire. */
  lemma {:induction false} FramesAreAtomic(states: seq<Line>, steps: seq<Step>)
    requires IsRun(states, steps)
    ensures var s := states[|steps|];
      && Inv(s)
      && CleanPart(s) <= s.wire
      && (s.firstFailure.None? ==> CleanPart(s) == s.wire)
    decreases |steps|
  {
    if |steps| > 0 {
      var n := |steps| - 1;
      assert IsRun(states[..n + 1], steps[..n]);
      FramesAreAtomic(states[..n + 1], steps[..n]);
      StepKeepsInv(states[n], steps[n]);
    }
  }

  predicate AllFit(s: Line) {
    && (forall i :: 0 <= i < |s.finished| ==> s.finished[i].Fits())
    && (s.holder.Some? ==> s.holder.value.packet.Fits())
    && (s.firstFailure.Some? ==> s.firstFailure.value.packet.Fits())
  }

  /** What a receiver makes of the wire: first exactly the whole packets, in lock order; and
      nothing else while no send has failed and none is complete but for its unlock. */
  lemma WireDecodes(s: Line)
    requires Inv(s) && AllFit(s)
    ensures AllReceived(WholePackets(s)) <= DecodeStream(s.wire).0
    ensures s.firstFailure.None? && (s.holder.Some? ==> s.holder.value.done < |s.holder.value.packet.Bytes()|)
        ==> DecodeStream(s.wire) == (AllReceived(s.finished), PartialPacket(s))
  {
    var packets := WholePackets(s);
    var tail := s.wire[|Flatten(packets)|..];
    assert s.wire == Flatten(packets) + tail by {
      assert CleanPart(s) <= s.wire;
    }
    StreamDecodes(packets, tail);
    if s.firstFailure.None? {
      assert tail == PartialPacket(s);
      PartialIsStuck(s);
      assert AllReceived(packets) + [] == AllReceived(packets);
    }
  }

  lemma PartialIsStuck(s: Line)
    requires Inv(s) && AllFit(s) && s.firstFailure.None?
    ensures (s.holder.Some? ==> s.holder.value.done < |s.holder.value.packet.Bytes()|)
        ==> DecodeStream(PartialPacket(s)) == ([], PartialPacket(s))
  {
    if s.holder.Some? && s.holder.value.done < |s.holder.value.packet.Bytes()| {
      CutFrameNeedsMore(s.holder.value.packet, s.holder.value.done);
    }
  }

  /** End to end: at any point of any run of the senders, repeated reading on the other side,
      over any fragmentation that delivers, recovers every packet finished before the first
      failed send, in lock order; and exactly those when no send has failed and none is going on. */
  method PeerReads(t: SocketTransport, ghost states: seq<Line>, ghost steps: seq<Step>)
    returns (packets: seq<IncomingPacket>, error: ErrorCode)
    requires IsRun(states, steps) && AllFit(states[|steps|])
    requires t.Valid() && t.Delivers() && t.inPos == 0 && t.inbound == states[|steps|].wire
    modifies t`recvAt, t`inPos
    ensures AllReceived(WholePackets(states[|steps|])) <= packets
    ensures states[|steps|].firstFailure.None? && states[|steps|].holder.None?
        ==> packets == AllReceived(states[|steps|].finished)
  {
    FramesAreAtomic(states, steps);
    WireDecodes(states[|steps|]);
    assert t.inbound[0..] == t.inbound;
    packets, error := ReceiveAll(t);
  }

  // ---- One sendAll under the lock is such a run ----

  /** These steps lead from one state to the other. */
  predicate RunsTo(s: Line, steps: seq<Step>, s': Line)
    decreases |steps|
  {
    if steps == [] then s' == s else Enabled(s, steps[0]) && RunsTo(Apply(s, steps[0]), steps[1..], s')
  }

  /** Nobody else moves while the lock is held, so one transfer stands for any chunks. */
  lemma TransfersCompose(s: Line, thread: nat, n: nat, m: nat)
    requires Inv(s) && Enabled(s, Transfer(thread, n)) && Enabled(Apply(s, Transfer(thread, n)), Transfer(thread, m))
    ensures Enabled(s, Transfer(thread, n + m))
    ensures Apply(Apply(s, Transfer(thread, n)), Transfer(thread, m)) == Apply(s, Transfer(thread, n + m))
  {
    hide Frame;
    hide Flatten;
    var b, done := s.holder.value.packet.Bytes(), s.holder.value.done;
    SliceSplit(b, done, done + n, done + n + m);
    assert s.wire + b[done..done + n] + b[done + n..done + n + m] == s.wire + b[done..done + n + m];
  }

  /** The steps of a sendAll that gets `done` bytes out. */
  function SendSteps(thread: nat, packet: Outgoing, done: nat): seq<Step> {
    [Lock(thread, packet)] + (if done > 0 then [Transfer(thread, done)] else [])
      + [if done == |packet.Bytes()| then Unlock(thread) else Fail(thread)]
  }

  lemma SendAllRefines(s: Line, thread: nat, packet: Outgoing, done: nat, s': Line)
    requires s.holder.None? && done <= |packet.Bytes()|
    requires s'.wire == s.wire + packet.Bytes()[..done] && s'.holder.None?
    requires if done == |packet.Bytes()| then s'.finished == s.finished + [packet] && s'.firstFailure == s.firstFailure
             else s'.finished == s.finished
                  && s'.firstFailure == if s.firstFailure.Some? then s.firstFailure
                                        else Some(Failure(|s.finished|, packet, done))
    ensures RunsTo(s, SendSteps(thread, packet, done), s')
  {
    hide Frame;
    var locked := Apply(s, Lock(thread, packet));
    var moved := if done > 0 then Apply(locked, Transfer(thread, done)) else locked;
    var last := if done == |packet.Bytes()| then Unlock(thread) else Fail(thread);
    assert packet.Bytes()[0..done] == packet.Bytes()[..done];
    assert Enabled(moved, last) && Apply(moved, last) == s';
    assert RunsTo(moved, [last], s') by {
      assert [last][1..] == [];
    }
    var rest := (if done > 0 then [Transfer(thread, done)] else []) + [last];
    assert RunsTo(locked, rest, s') by {
      assert done > 0 ==> rest[1..] == [last];
      assert done == 0 ==> rest == [last];
    }
    assert SendSteps(thread, packet, done)[1..] == rest;
  }

  /** A send region: `sendAll` while holding the lock takes the wire where a run of the machine takes
      it, under any schedule of partial transfers, interrupts and errors. */
  method LockedSend(t: SocketTransport, packet: Outgoing, ghost s: Line, ghost thread: nat)
    returns (r: Result<()>, ghost done: nat, ghost s': Line)
    requires t.Valid() && s.holder.None? && t.wire == s.wire
    modifies t`sendAt, t`wire
    ensures t.Valid() && t.wire == s'.wire && s'.holder.None?
    ensures RunsTo(s, SendSteps(thread, packet, done), s')
    ensures r.Ok? ==> s'.finished == s.finished + [packet] && s'.firstFailure == s.firstFailure
    ensures r.Err? ==> s'.finished == s.finished && s'.firstFailure.Some?
    ensures old(t.SendsSucceed()) ==> r.Ok?
  {
    r := t.SendAll(packet.Bytes());
    if r.Ok? {
      done := |packet.Bytes()|;
      s' := Line(t.wire, s.finished + [packet], None, s.firstFailure);
      assert packet.Bytes()[..done] == packet.Bytes();
    } else {
      done :| 0 <= done < |packet.Bytes()| && t.wire == s.wire + packet.Bytes()[..done];
      s' := Line(t.wire, s.finished, None,
                 if s.firstFailure.Some? then s.firstFailure else Some(Failure(|s.finished|, packet, done)));
    }
    SendAllRefines(s, thread, packet, done, s');
  }
}
