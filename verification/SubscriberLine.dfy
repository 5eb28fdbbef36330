/** The subscriber's session and the line it sends on, in one machine: every request goes out under
    `sendMtx`, chunk by chunk, among the control packets of all threads, and the session's step for it
    is taken when its `sendAll` returns. So what the broker decodes from the bytes is tied to the
    subscription table, over every run. */
module SubscriberLine {
  import opened Prelude
  import opened WireEncoding
  import opened ConnectPacket
  import opened SubscribePackets
  import opened PacketReader
  import opened SubscriberWire
  import SM = SubscriberModel
  import opened SubscriberProofs
  import opened SubscriberBroker
  import SubscriberIds
  import SendLock

  /** The other packets that the subscriber sends. */
  datatype Control = ConnectRequest | Puback(id: u16) | Pingreq | Disconnect

  /** On whose behalf the lock is held. */
  datatype Sender =
    | ForCall(topic: Bytes)         // subscribe or unsubscribe
    | ForTopic(topic: Bytes)        // a turn of resubscribeAll
    | ForControl(control: Control)

  datatype State = State(session: SM.State, line: SendLock.Line, sender: Option<Sender>)

  datatype Step =
    | Elsewhere(step: SM.Step)      // a session step that sends nothing
    | Reopen                        // the transport has connected: a new line
    | Take(thread: nat, who: Sender)
    | Chunk(n: nat)
    | Return(ok: bool)              // sendAll returns and the lock is released

  const Fresh := State(SM.Fresh, SendLock.Fresh, None)

  /** `cp` is what connect() puts into the CONNECT packet, from the configuration. */
  function ControlPacket(cp: ConnectParams, c: Control): Outgoing {
    match c
    case ConnectRequest => Outgoing(0x10, ConnectBody(cp))
    case Puback(id) => Outgoing(0x40, U16Bytes(id))
    case Pingreq => Outgoing(0xC0, [])
    case Disconnect => Outgoing(0xE0, [])
  }

  predicate MaySend(s: SM.State, who: Sender) {
    match who
    case ForCall(t) => t in s.calls && s.calls[t].pc.Sending?
    case ForTopic(t) => SM.Enabled(s, SM.ResubSend(t))
    case ForControl(_) => true
  }

  function RequestOf(s: SM.State, who: Sender): SM.Told
    requires MaySend(s, who) && !who.ForControl?
  {
    match who
    case ForCall(t) => SM.ToldBy(t, s.calls[t])
    case ForTopic(t) => SM.ToldSubscribe(s.connector.id.grant.Id(), t, s.table[t])
  }

  function PacketFor(cp: ConnectParams, s: SM.State, who: Sender): Outgoing
    requires MaySend(s, who)
  {
    if who.ForControl? then ControlPacket(cp, who.control) else PacketOf(RequestOf(s, who))
  }

  /** What the session does when the send returns; resubscribeAll does not look at the result. */
  function StepFor(who: Sender, ok: bool): SM.Step
    requires !who.ForControl?
  {
    match who
    case ForCall(t) => SM.Send(t, ok)
    case ForTopic(t) => SM.ResubSend(t)
  }

  predicate Sends(step: SM.Step) { step.Send? || step.ResubSend? || step.Open? }

  function LineStep(s: State, ok: bool): SendLock.Step
    requires s.line.holder.Some?
  {
    if ok then SendLock.Unlock(s.line.holder.value.thread) else SendLock.Fail(s.line.holder.value.thread)
  }

  predicate Enabled(s: State, step: Step) {
    match step
    case Elsewhere(m) => SM.Enabled(s.session, m) && !Sends(m)
    case Reopen => SM.Enabled(s.session, SM.Open) && s.line.holder.None?
    case Take(_, who) => s.line.holder.None? && MaySend(s.session, who)
    case Chunk(n) => s.line.holder.Some? && SendLock.Enabled(s.line, SendLock.Transfer(s.line.holder.value.thread, n))
    case Return(ok) => s.line.holder.Some? && SendLock.Enabled(s.line, LineStep(s, ok))
  }

  /** The session's side of a return: its step is enabled whenever a request was being sent. */
  function Returned(s: SM.State, sender: Option<Sender>, ok: bool): SM.State {
    if sender.Some? && !sender.value.ForControl? && SM.Enabled(s, StepFor(sender.value, ok))
    then SM.Apply(s, StepFor(sender.value, ok)) else s
  }

  function Apply(cp: ConnectParams, s: State, step: Step): State
    requires Enabled(s, step)
  {
    match step
    case Elsewhere(m) => s.(session := SM.Apply(s.session, m))
    case Reopen => State(SM.Apply(s.session, SM.Open), SendLock.Fresh, None)
    case Take(thread, who) =>
      s.(line := SendLock.Apply(s.line, SendLock.Lock(thread, PacketFor(cp, s.session, who))), sender := Some(who))
    case Chunk(n) => s.(line := SendLock.Apply(s.line, SendLock.Transfer(s.line.holder.value.thread, n)))
    case Return(ok) => State(Returned(s.session, s.sender, ok), SendLock.Apply(s.line, LineStep(s, ok)), None)
  }

  predicate IsRun(cp: ConnectParams, states: seq<State>, steps: seq<Step>) {
    && |states| == |steps| + 1
    && states[0] == Fresh
    && forall i :: 0 <= i < |steps| ==> Enabled(states[i], steps[i]) && states[i + 1] == Apply(cp, states[i], steps[i])
  }

  // ---- What every step keeps ----

  /** The packet under way is its sender's, and the sender can still take its step. */
  predicate SenderInv(cp: ConnectParams, s: State) {
    if s.line.holder.None? then s.sender.None?
    else
      && s.sender.Some? && MaySend(s.session, s.sender.value)
      && s.line.holder.value.packet == PacketFor(cp, s.session, s.sender.value)
  }

  ghost predicate IsControl(cp: ConnectParams, p: Outgoing) { exists c :: p == ControlPacket(cp, c) }

  ghost predicate AllKnown(cp: ConnectParams, finished: seq<Outgoing>, told: seq<SM.Told>) {
    forall p :: p in finished ==> IsControl(cp, p) || exists m :: m in told && p == PacketOf(m)
  }

  /** Until a send fails the line has carried the session's requests, in the session's order. */
  ghost predicate Inv(cp: ConnectParams, s: State) {
    && SendLock.Inv(s.line)
    && SenderInv(cp, s)
    && (s.line.firstFailure.None? ==> Carries(s.line.finished, s.session.told))
    && AllKnown(cp, s.line.finished, s.session.told)
  }

  // ---- A sender keeps its place while others move ----

  /** The call is still about to send the same request. */
  predicate Stays(s: SM.State, s': SM.State, t: Bytes) {
    && MaySend(s, ForCall(t)) && MaySend(s', ForCall(t))
    && s'.calls[t].request == s.calls[t].request && s'.calls[t].grant == s.calls[t].grant
  }

  lemma CallStays(s: SM.State, step: SM.Step, t: Bytes)
    requires SM.Enabled(s, step) && MaySend(s, ForCall(t)) && !(step.Send? && step.topic == t)
    ensures Stays(s, SM.Apply(s, step), t)
  {
    hide SM.Apply;
    hide Stays;
    if step.Register? || step.EraseAck? {
      StaysThroughEntry(s, step, t);
    } else if step.Suback? || step.Unsuback? || step.FailAllAcks? {
      StaysThroughSettling(s, step, t);
    } else {
      StaysThroughOther(s, step, t);
    }
  }

  lemma StaysThroughEntry(s: SM.State, step: SM.Step, t: Bytes)
    requires SM.Enabled(s, step) && MaySend(s, ForCall(t)) && (step.Register? || step.EraseAck?)
    ensures Stays(s, SM.Apply(s, step), t)
  {
    hide SM.Apply;
    hide SM.EraseEntry;
    hide SM.RegisterFresh;
    hide SM.Resolve;
    SubscriberProofs.EraseIs(s, step.topic);
    if step.Register? {
      SubscriberProofs.RegisterIs(s, step.topic);
      SubscriberProofs.FreshIs(SM.EraseEntry(s, step.topic), step.topic);
    } else {
      SubscriberProofs.EraseAckIs(s, step.topic);
    }
  }

  lemma StaysThroughSettling(s: SM.State, step: SM.Step, t: Bytes)
    requires SM.Enabled(s, step) && MaySend(s, ForCall(t)) && (step.Suback? || step.Unsuback? || step.FailAllAcks?)
    ensures Stays(s, SM.Apply(s, step), t)
  {
    hide SM.EraseEntry;
    hide SM.RegisterFresh;
    hide SM.Resolve;
    hide ParsedSuback;
  }

  lemma StaysThroughOther(s: SM.State, step: SM.Step, t: Bytes)
    requires SM.Enabled(s, step) && MaySend(s, ForCall(t)) && !(step.Send? && step.topic == t)
    requires !step.Register? && !step.EraseAck? && !step.Suback? && !step.Unsuback? && !step.FailAllAcks?
    ensures Stays(s, SM.Apply(s, step), t)
  {
    hide SM.View;
    hide SM.EraseEntry;
    hide SM.RegisterFresh;
    hide SM.Resolve;
    hide SM.Sever;
    hide ParsedSuback;
  }

  /** While resubscribeAll is about to send, the table lock keeps the table. */
  lemma TopicStays(s: SM.State, step: SM.Step, t: Bytes)
    requires SM.Enabled(s, step) && MaySend(s, ForTopic(t)) && !step.ResubSend?
    ensures var s' := SM.Apply(s, step); MaySend(s', ForTopic(t)) && s'.connector == s.connector && s'.table == s.table
  {
    if step.Register? || step.EraseAck? {
      hide SM.Apply;
      hide SM.EraseEntry;
      SubscriberIds.EraseKeepsConnector(s, step.topic);
      SubscriberProofs.EraseIs(s, step.topic);
      if step.Register? {
        hide SM.RegisterFresh;
        SubscriberProofs.RegisterIs(s, step.topic);
        SubscriberProofs.FreshIs(SM.EraseEntry(s, step.topic), step.topic);
      } else {
        SubscriberProofs.EraseAckIs(s, step.topic);
      }
    } else {
      TopicStaysElsewhere(s, step, t);
    }
  }

  lemma TopicStaysElsewhere(s: SM.State, step: SM.Step, t: Bytes)
    requires SM.Enabled(s, step) && MaySend(s, ForTopic(t)) && !step.ResubSend? && !step.Register? && !step.EraseAck?
    ensures var s' := SM.Apply(s, step); MaySend(s', ForTopic(t)) && s'.connector == s.connector && s'.table == s.table
  {
    hide SM.FetchedCall;
    hide SM.Dropped;
    hide SM.View;
    hide SM.EraseEntry;
    hide SM.RegisterFresh;
    hide SM.Resolve;
    hide SM.Sever;
    hide ParsedSuback;
  }

  lemma TellsNothing(s: SM.State, step: SM.Step)
    requires SM.Enabled(s, step) && !Sends(step)
    ensures SM.Apply(s, step).told == s.told
  {
    hide SM.View;
    hide SM.Resolve;
    hide SM.Sever;
    hide SM.EraseEntry;
    hide SM.RegisterFresh;
    hide ParsedSuback;
    if step.Register? || step.EraseAck? {
      SubscriberIds.EraseKeepsConnector(s, step.topic);
    }
  }

  /** A return takes its session step, which tells exactly the packet's request. */
  lemma ReturnTells(s: SM.State, who: Sender, ok: bool)
    requires MaySend(s, who) && !who.ForControl?
    ensures SM.Enabled(s, StepFor(who, ok))
    ensures SM.Apply(s, StepFor(who, ok)).told == s.told + [RequestOf(s, who)]
  {
    hide SM.View;
    hide SM.Resolve;
    hide SM.Sever;
    hide SM.EraseEntry;
    hide SM.RegisterFresh;
    hide ParsedSuback;
  }

  // ---- What the line carries ----

  lemma CarriesRequest(finished: seq<Outgoing>, told: seq<SM.Told>, m: SM.Told)
    requires Carries(finished, told)
    ensures Carries(finished + [PacketOf(m)], told + [m])
  {
    hide PacketOf;
    assert (finished + [PacketOf(m)])[..|finished|] == finished && (told + [m])[..|told|] == told;
  }

  lemma CarriesControl(cp: ConnectParams, finished: seq<Outgoing>, told: seq<SM.Told>, c: Control)
    requires Carries(finished, told)
    ensures Carries(finished + [ControlPacket(cp, c)], told)
  {
    var p := ControlPacket(cp, c);
    assert (finished + [p])[..|finished|] == finished;
    assert p.AsReceived().kind in {1, 4, 12, 14} && Heard(p.AsReceived()) == None;
    assert forall m :: p != PacketOf(m) by {
      assert forall m :: PacketOf(m).typeByte in {0x82, 0xA2};
    }
  }

  lemma ElsewhereKeepsInv(cp: ConnectParams, s: State, m: SM.Step)
    requires Inv(cp, s) && Enabled(s, Elsewhere(m))
    ensures Inv(cp, Apply(cp, s, Elsewhere(m)))
  {
    hide SM.Apply;
    hide SM.Enabled;
    hide SendLock.Inv;
    hide Carries;
    hide PacketOf;
    hide AllKnown;
    TellsNothing(s.session, m);
    if s.sender.Some? {
      match s.sender.value
      case ForCall(t) => CallStays(s.session, m, t);
      case ForTopic(t) => TopicStays(s.session, m, t);
      case ForControl(_) =>
    }
  }

  lemma LineKeepsInv(cp: ConnectParams, s: State, step: Step)
    requires Inv(cp, s) && Enabled(s, step) && (step.Take? || step.Chunk?)
    ensures Inv(cp, Apply(cp, s, step))
  {
    hide SM.Enabled;
    hide SendLock.Inv;
    hide MaySend;
    hide PacketFor;
    hide Carries;
    hide AllKnown;
    if step.Take? {
      SendLock.StepKeepsInv(s.line, SendLock.Lock(step.thread, PacketFor(cp, s.session, step.who)));
    } else {
      SendLock.StepKeepsInv(s.line, SendLock.Transfer(s.line.holder.value.thread, step.n));
    }
  }

  lemma KnownGrows(cp: ConnectParams, finished: seq<Outgoing>, told: seq<SM.Told>, told': seq<SM.Told>, p: Outgoing)
    requires AllKnown(cp, finished, told) && told <= told'
    requires IsControl(cp, p) || exists m :: m in told' && p == PacketOf(m)
    ensures AllKnown(cp, finished + [p], told') && AllKnown(cp, finished, told')
  {
    hide PacketOf;
    hide IsControl;
    assert forall m :: m in told ==> m in told';
  }

  lemma ReturnKeepsInv(cp: ConnectParams, s: State, ok: bool)
    requires Inv(cp, s) && Enabled(s, Return(ok))
    ensures Inv(cp, Apply(cp, s, Return(ok)))
  {
    hide SM.Apply;
    hide SM.Enabled;
    hide SendLock.Inv;
    hide MaySend;
    hide Carries;
    hide PacketOf;
    hide ControlPacket;
    hide AllKnown;
    var who, p, told := s.sender.value, s.line.holder.value.packet, s.session.told;
    SendLock.StepKeepsInv(s.line, LineStep(s, ok));
    if who.ForControl? {
      assert p == ControlPacket(cp, who.control) && IsControl(cp, p);
      KnownGrows(cp, s.line.finished, told, told, p);
      if s.line.firstFailure.None? {
        CarriesControl(cp, s.line.finished, told, who.control);
      }
    } else {
      var m := RequestOf(s.session, who);
      ReturnTells(s.session, who, ok);
      assert m in told + [m] && p == PacketOf(m);
      KnownGrows(cp, s.line.finished, told, told + [m], p);
      if s.line.firstFailure.None? {
        CarriesRequest(s.line.finished, told, m);
      }
    }
  }

  lemma StepKeepsInv(cp: ConnectParams, s: State, step: Step)
    requires Inv(cp, s) && Enabled(s, step)
    ensures Inv(cp, Apply(cp, s, step))
  {
    match step
    case Elsewhere(m) => ElsewhereKeepsInv(cp, s, m);
    case Reopen =>
    case Take(_, _) => LineKeepsInv(cp, s, step);
    case Chunk(_) => LineKeepsInv(cp, s, step);
    case Return(ok) => ReturnKeepsInv(cp, s, ok);
  }

  lemma {:induction false} RunKeepsInv(cp: ConnectParams, states: seq<State>, steps: seq<Step>)
    requires IsRun(cp, states, steps)
    ensures Inv(cp, states[|steps|])
    decreases |steps|
  {
    hide Apply;
    hide Enabled;
    if |steps| > 0 {
      var n := |steps| - 1;
      assert IsRun(cp, states[..n + 1], steps[..n]);
      RunKeepsInv(cp, states[..n + 1], steps[..n]);
      StepKeepsInv(cp, states[n], steps[n]);
    }
  }

  // ---- The session's own run ----

  /** Leaving out what only the line does, a run is a run of the session, through the same states. */
  lemma {:induction false} SessionRun(cp: ConnectParams, states: seq<State>, steps: seq<Step>)
    returns (sessions: seq<SM.State>, moves: seq<SM.Step>)
    requires IsRun(cp, states, steps)
    ensures SM.IsRun(sessions, moves) && sessions[|moves|] == states[|steps|].session
    ensures forall x :: x in sessions ==> exists i :: 0 <= i <= |steps| && x == states[i].session
    decreases |steps|
  {
    hide SM.Apply;
    hide SM.Enabled;
    if |steps| == 0 {
      sessions, moves := [SM.Fresh], [];
    } else {
      var n := |steps| - 1;
      assert IsRun(cp, states[..n + 1], steps[..n]);
      sessions, moves := SessionRun(cp, states[..n + 1], steps[..n]);
      var s, s' := states[n], states[n + 1];
      if s'.session != s.session {
        var m := MoveOf(s, steps[n]);
        SessionMoves(cp, s, steps[n]);
        sessions, moves := Extended(sessions, moves, m);
      }
    }
  }

  function MoveOf(s: State, step: Step): SM.Step {
    match step
    case Elsewhere(m) => m
    case Return(ok) =>
      if s.sender.Some? && !s.sender.value.ForControl? then StepFor(s.sender.value, ok) else SM.Open
    case _ => SM.Open
  }

  lemma SessionMoves(cp: ConnectParams, s: State, step: Step)
    requires Enabled(s, step) && Apply(cp, s, step).session != s.session
    ensures SM.Enabled(s.session, MoveOf(s, step)) && Apply(cp, s, step).session == SM.Apply(s.session, MoveOf(s, step))
  {
    hide SM.Apply;
    hide SM.Enabled;
  }

  lemma Extended(sessions: seq<SM.State>, moves: seq<SM.Step>, m: SM.Step)
    returns (sessions': seq<SM.State>, moves': seq<SM.Step>)
    requires SM.IsRun(sessions, moves) && SM.Enabled(sessions[|moves|], m)
    ensures sessions' == sessions + [SM.Apply(sessions[|moves|], m)] && moves' == moves + [m]
    ensures SM.IsRun(sessions', moves')
  {
    hide SM.Apply;
    hide SM.Enabled;
    sessions', moves' := sessions + [SM.Apply(sessions[|moves|], m)], moves + [m];
    forall i | 0 <= i < |moves'|
      ensures SM.Enabled(sessions'[i], moves'[i]) && sessions'[i + 1] == SM.Apply(sessions'[i], moves'[i])
    {
      if i < |moves| {
        assert sessions'[i] == sessions[i] && sessions'[i + 1] == sessions[i + 1] && moves'[i] == moves[i];
      }
    }
  }

  // ---- What the broker hears, and holds ----

  ghost predicate IsWindowedRun(cp: ConnectParams, states: seq<State>, steps: seq<Step>) {
    IsRun(cp, states, steps) && forall i :: 0 <= i <= |steps| ==> SubscriberIds.Window(states[i].session)
  }

  lemma ControlFits(cp: ConnectParams, p: Outgoing)
    requires Encodable(cp) && IsControl(cp, p)
    ensures p.Fits()
  {
    ConnectBodySize(cp);
  }

  /** No packet on this line is too long for its remaining-length field. */
  lemma AllFits(cp: ConnectParams, line: SendLock.Line, told: seq<SM.Told>)
    requires Encodable(cp) && AllKnown(cp, line.finished, told) && line.holder.None? && line.firstFailure.None?
    requires forall m :: m in told ==> Askable(m)
    ensures SendLock.AllFit(line)
  {
    hide PacketOf;
    hide IsControl;
    forall i | 0 <= i < |line.finished| ensures line.finished[i].Fits() {
      var p := line.finished[i];
      if IsControl(cp, p) {
        ControlFits(cp, p);
      } else {
        var m :| m in told && p == PacketOf(m);
        RequestFits(m);
      }
    }
  }

  /** End to end, over every run of session and senders: as long as no send has failed on the current
      connection and none is going on, a broker that decodes its bytes hears exactly the requests that
      the session has told, in order. */
  lemma BrokerHearsSession(cp: ConnectParams, states: seq<State>, steps: seq<Step>)
    requires IsWindowedRun(cp, states, steps) && Encodable(cp)
    requires states[|steps|].line.firstFailure.None? && states[|steps|].line.holder.None?
    requires forall m :: m in states[|steps|].session.told ==> Askable(m)
    ensures var s := states[|steps|];
      HeardAll(DecodeStream(s.line.wire).0) == s.session.told
  {
    hide DecodeStream;
    hide HeardAll;
    hide Carries;
    hide AllKnown;
    hide Askable;
    hide SM.Apply;
    hide SM.Enabled;
    hide SubscriberIds.Window;
    var s := states[|steps|];
    RunKeepsInv(cp, states, steps);
    AllFits(cp, s.line, s.session.told);
    SendLock.WireDecodes(s.line);
    var sessions, moves := SessionRun(cp, states, steps);
    forall i | 0 <= i <= |moves| ensures SubscriberIds.Window(sessions[i]) {
      assert sessions[i] in sessions;
      var j :| 0 <= j <= |steps| && sessions[i] == states[j].session;
    }
    SubscriberIds.WindowedRunKeepsIds(sessions, moves);
    BrokerHearsTold(s.line.finished, s.session.told);
  }

  /** So from the bytes of the current connection and whatever the broker keeps from earlier ones, which
      is nothing if CONNECT asks for a clean session, and whatever it refuses or lowers, while the
      session is Connected and past resubscribeAll: the last it heard of a topic in the table, unless a
      subscribe call is still before its send, is a SUBSCRIBE with the table's QoS, and what it answered
      is what it holds. For a topic without a call it is exact when table and broker agree. */
  lemma BrokerHasTheTable(cp: ConnectParams, states: seq<State>, steps: seq<Step>, b: Broker, t: Bytes)
    returns (sessions: seq<SM.State>, moves: seq<SM.Step>)
    requires IsWindowedRun(cp, states, steps) && Encodable(cp) && (cp.cleanSession ==> b.Clean())
    requires states[|steps|].line.firstFailure.None? && states[|steps|].line.holder.None?
    requires forall m :: m in states[|steps|].session.told ==> Askable(m)
    requires states[|steps|].session.conn == Connected && states[|steps|].session.resubscribed
    ensures SM.IsRun(sessions, moves) && sessions[|moves|] == states[|steps|].session
    ensures var s := states[|steps|].session;
      var heard := HeardAll(DecodeStream(states[|steps|].line.wire).0);
      var kept, answers := Kept(b, s.earlier), b.answers(|s.earlier|);
      var held, last := HeldFrom(kept, heard, answers), LastAbout(heard, t);
      && (cp.cleanSession ==> kept == map[])
      && (t in s.table && (t in s.calls ==> !s.calls[t].BeforeSend()) ==>
            && last.Some? && heard[last.value].ToldSubscribe? && heard[last.value].qos == s.table[t]
            && (answers(last.value).Some? ==> t in held && held[t] == answers(last.value).value))
      && (t !in s.calls ==> (Same(s.table, held, t) <==> Agrees(s.(told := heard), kept, answers, t)))
      && (t !in s.calls && t !in s.table ==>
            (last.Some? && heard[last.value].ToldSubscribe? <==> LeftStanding(sessions, moves, t)))
  {
    hide DecodeStream;
    hide HeardAll;
    hide HeldFrom;
    hide Kept;
    hide Agrees;
    hide Askable;
    hide LeftStanding;
    hide SM.View;
    hide SM.Apply;
    hide SM.Enabled;
    BrokerHearsSession(cp, states, steps);
    sessions, moves := SessionRun(cp, states, steps);
    var s := states[|steps|].session;
    ToldAt(s.told, t);
    HeldAt(Kept(b, s.earlier), s.told, b.answers(|s.earlier|), t);
    if t !in s.calls {
      BrokerAgreesIff(sessions, moves, b, t);
    }
    if t in s.table {
      SubscriberProofs.SubscriptionCoverage(sessions, moves, t);
    }
    if cp.cleanSession {
      CleanKeepsNothing(b, s.earlier);
    }
    assert s.(told := s.told) == s;
  }
}
