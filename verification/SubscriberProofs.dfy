/** What the subscriber's step machine keeps over every run. */
module SubscriberProofs {
  import opened Prelude
  import opened PublishPacket
  import opened SubscribePackets
  import opened SubscriberModel

  // ---- What registering and erasing change ----

  lemma RegisterIs(s: State, t: Bytes)
    requires Enabled(s, Register(t))
    ensures Apply(s, Register(t)) == RegisterFresh(EraseEntry(s, t), t)
  {
    hide RegisterFresh;
    hide EraseEntry;
    hide Resolve;
    hide Sever;
    hide GetAnswer;
  }

  /** What erasing an entry changes, and with what. */
  lemma EraseIs(s: State, t: Bytes)
    requires t in s.calls
    ensures var subscribing, id := s.calls[t].request.Subscribing?, s.calls[t].Id();
      EraseEntry(s, t) == s.(
        calls := Resolve(s.calls, if subscribing then s.pendingSubacks else s.pendingUnsubacks, id, Abandoned),
        pendingSubacks := if subscribing then s.pendingSubacks - {id} else s.pendingSubacks,
        pendingUnsubacks := if subscribing then s.pendingUnsubacks else s.pendingUnsubacks - {id})
  {
    hide Resolve;
  }

  lemma FreshIs(s: State, t: Bytes)
    requires t in s.calls
    ensures var subscribing, id, entry := s.calls[t].request.Subscribing?, s.calls[t].Id(), (t, s.calls[t].uid);
      var r := RegisterFresh(s, t);
      && t in r.calls && r.calls[t] == s.calls[t].(pc := Sending, answer := Pending, regAt := r.calls[t].regAt)
      && r == s.(
        calls := s.calls[t := r.calls[t]],
        pendingSubacks := if subscribing then s.pendingSubacks[id := entry] else s.pendingSubacks,
        pendingUnsubacks := if subscribing then s.pendingUnsubacks else s.pendingUnsubacks[id := entry])
  {
  }

  lemma EraseAckIs(s: State, t: Bytes)
    requires Enabled(s, EraseAck(t))
    ensures var e := EraseEntry(s, t);
      Apply(s, EraseAck(t)) == if s.calls[t].pc.TimedOut? then End(e, t, AckTimeout)
                               else if s.calls[t].request.Unsubscribing? then End(e, t, SendError)
                               else WithCall(e, t, e.calls[t].(pc := RollingBack(SendError)))
  {
    hide RegisterFresh;
    hide EraseEntry;
    hide Resolve;
    hide Sever;
    hide GetAnswer;
  }

  lemma CheckIs(s: State, t: Bytes)
    requires Enabled(s, Check(t))
    ensures Apply(s, Check(t)) ==
      if s.conn == Connected then WithCall(s, t, s.calls[t].(pc := Fetching(false)))
      else End(s, t, NotSent).(orphans := if s.calls[t].request.Unsubscribing? then Dropped(s, t) else s.orphans)
  {
  }

  lemma GetIsAnswer(s: State, t: Bytes)
    requires Enabled(s, Get(t))
    ensures Apply(s, Get(t)) == GetAnswer(s, t)
  {
    hide GetAnswer;
    hide View;
  }

  lemma RollBackIs(s: State, t: Bytes)
    requires Enabled(s, RollBack(t))
    ensures Apply(s, RollBack(t)) == End(s, t, s.calls[t].pc.why).(table := s.table - {t}, orphans := Dropped(s, t))
  {
    hide View;
  }

  lemma ViewAppend(told: seq<Told>, t: Told)
    ensures View(told + [t]) == Hear(View(told), t)
  {
    assert (told + [t])[..|told|] == told;
  }

  // ---- Agreement of the table with what the broker was told ----

  /** Two stages of a call that agree in what the agreement depends on. */
  predicate SameStage(c: Call, d: Call) {
    c.request == d.request && (c.BeforeSend() <==> d.BeforeSend()) && (d.pc.RollingBack? ==> c.pc.RollingBack? || d.request.Subscribing?)
  }

  /** Calls that only move on, and nothing else that the agreement speaks of changing, keep it. */
  lemma StagesKeepInv(s: State, s': State)
    requires Inv(s)
    requires s'.calls.Keys == s.calls.Keys
    requires forall t :: t in s.calls ==> SameStage(s.calls[t], s'.calls[t])
    requires s'.conn == s.conn && s'.table == s.table && s'.told == s.told && s'.orphans == s.orphans
    requires s'.connector == s.connector && s'.resubscribed == s.resubscribed
    ensures Inv(s')
  {
    hide View;
    hide Hear;
  }

  /** A call may return once it is past its send. */
  lemma EndKeepsInv(s: State, t: Bytes, outcome: Outcome)
    requires Inv(s) && t in s.calls && !s.calls[t].BeforeSend()
    ensures Inv(End(s, t, outcome))
  {
    hide View;
  }

  lemma BeginKeepsInv(s: State, step: Step)
    requires Inv(s) && Enabled(s, step) && (step.BeginSubscribe? || step.BeginUnsubscribe?)
    ensures Inv(Apply(s, step))
  {
    hide View;
  }

  lemma CheckKeepsInv(s: State, t: Bytes)
    requires Inv(s) && Enabled(s, Check(t))
    ensures Inv(Apply(s, Check(t)))
  {
    hide View;
    hide Apply;
    CheckIs(s, t);
    if s.conn == Connected {
      hide Inv;
      StagesKeepInv(s, Apply(s, Check(t)));
    } else {
      OfflineEndKeepsInv(s, t);
    }
  }

  lemma OfflineEndKeepsInv(s: State, t: Bytes)
    requires Inv(s) && t in s.calls && s.calls[t].pc.Stored? && s.conn != Connected
    ensures Inv(End(s, t, NotSent).(orphans := if s.calls[t].request.Unsubscribing? then Dropped(s, t) else s.orphans))
  {
    hide View;
  }

  lemma RollBackKeepsInv(s: State, t: Bytes)
    requires Inv(s) && Enabled(s, RollBack(t))
    ensures Inv(Apply(s, RollBack(t)))
  {
    hide View;
  }

  lemma SendKeepsInv(s: State, t: Bytes, ok: bool)
    requires Inv(s) && Enabled(s, Send(t, ok))
    ensures Inv(Apply(s, Send(t, ok)))
  {
    ViewAppend(s.told, ToldBy(t, s.calls[t]));
    hide View;
  }

  lemma MoveKeepsInv(s: State, step: Step)
    requires Inv(s) && Enabled(s, step) && (step.Fetch? || step.Timeout?)
    ensures Inv(Apply(s, step))
  {
    hide Inv;
    StagesKeepInv(s, Apply(s, step));
  }

  lemma EraseEntryKeepsInv(s: State, t: Bytes)
    requires Inv(s) && t in s.calls
    ensures Inv(EraseEntry(s, t)) && EraseEntry(s, t).calls[t].pc == s.calls[t].pc
  {
    hide Inv;
    StagesKeepInv(s, EraseEntry(s, t));
  }

  lemma RegisterFreshKeepsInv(s: State, t: Bytes)
    requires Inv(s) && t in s.calls && s.calls[t].pc.Allocated?
    ensures Inv(RegisterFresh(s, t))
  {
    hide Inv;
    StagesKeepInv(s, RegisterFresh(s, t));
  }

  lemma RegisterKeepsInv(s: State, t: Bytes)
    requires Inv(s) && Enabled(s, Register(t))
    ensures Inv(Apply(s, Register(t)))
  {
    hide Inv;
    hide RegisterFresh;
    hide EraseEntry;
    EraseEntryKeepsInv(s, t);
    RegisterFreshKeepsInv(EraseEntry(s, t), t);
  }

  lemma SettleKeepsInv(s: State, step: Step)
    requires Inv(s) && Enabled(s, step) && (step.Suback? || step.Unsuback? || step.FailAllAcks?)
    ensures Inv(Apply(s, step))
  {
    hide Inv;
    StagesKeepInv(s, Apply(s, step));
  }

  lemma EraseKeepsInv(s: State, t: Bytes)
    requires Inv(s) && Enabled(s, EraseAck(t))
    ensures Inv(Apply(s, EraseAck(t)))
  {
    hide Inv;
    hide View;
    hide Apply;
    hide EraseEntry;
    hide Resolve;
    EraseIs(s, t);
    EraseAckIs(s, t);
    var e := EraseEntry(s, t);
    StagesKeepInv(s, e);
    if s.calls[t].pc.TimedOut? {
      EndKeepsInv(e, t, AckTimeout);
    } else if s.calls[t].request.Unsubscribing? {
      EndKeepsInv(e, t, SendError);
    } else {
      StagesKeepInv(s, Apply(s, EraseAck(t)));
    }
  }

  lemma GetKeepsInv(s: State, t: Bytes)
    requires Inv(s) && Enabled(s, Get(t))
    ensures Inv(Apply(s, Get(t)))
  {
    hide Inv;
    var call := s.calls[t];
    if call.request.Subscribing? && (call.answer.Severed? || (call.answer.Answered? && call.answer.code == 0x80)) {
      StagesKeepInv(s, WithCall(s, t, call.(pc := RollingBack(Rejected))));
    } else {
      EndKeepsInv(s, t, if call.answer.Answered? then Confirmed else Threw);
    }
  }

  lemma ConnectKeepsInv(s: State, step: Step)
    requires Inv(s) && Enabled(s, step)
    requires step.Leave? || step.ConnectStart? || step.ConnectFail? || step.Open? || step.Accept?
      || step.ResubLock? || step.ResubFetch? || step.ResubDone?
    ensures Inv(Apply(s, step))
  {
    hide Resolve;
    hide Sever;
    hide EraseEntry;
    hide RegisterFresh;
    hide GetAnswer;
    hide FetchedCall;
    hide ParsedSuback;
    if !step.Open? {
      hide View;
    }
  }

  lemma ResubSendKeepsInv(s: State, t: Bytes)
    requires Inv(s) && Enabled(s, ResubSend(t))
    ensures Inv(Apply(s, ResubSend(t)))
  {
    ViewAppend(s.told, ToldSubscribe(s.connector.id.grant.Id(), t, s.table[t]));
    hide View;
  }

  lemma StepKeepsInv(s: State, step: Step)
    requires Inv(s) && Enabled(s, step)
    ensures Inv(Apply(s, step))
  {
    hide Inv;
    hide Apply;
    hide Enabled;
    match step
    case BeginSubscribe(_, _) => BeginKeepsInv(s, step);
    case BeginUnsubscribe(_) => BeginKeepsInv(s, step);
    case Check(t) => CheckKeepsInv(s, t);
    case Send(t, ok) => SendKeepsInv(s, t, ok);
    case EraseAck(t) => EraseKeepsInv(s, t);
    case Get(t) => GetKeepsInv(s, t);
    case RollBack(t) => RollBackKeepsInv(s, t);
    case ResubSend(t) => ResubSendKeepsInv(s, t);
    case Fetch(_) => MoveKeepsInv(s, step);
    case Timeout(_) => MoveKeepsInv(s, step);
    case Register(t) => RegisterKeepsInv(s, t);
    case Suback(_) => SettleKeepsInv(s, step);
    case Unsuback(_) => SettleKeepsInv(s, step);
    case FailAllAcks => SettleKeepsInv(s, step);
    case _ => ConnectKeepsInv(s, step);
  }

  // ---- Acknowledgements ----

  /** A call's own consistency. */
  ghost predicate CallAck(call: Call, subacks: seq<(u16, byte)>, unsubacks: seq<u16>) {
    && (call.answer.Unmade? <==> call.pc.Stored? || call.pc.Fetching? || call.pc.Allocated?)
    && (call.pc.RollingBack? ==> !call.answer.Pending? && call.pc.why != Confirmed)
    && (match call.request
        case Subscribing(_) =>
          call.regAt <= |subacks|
          && (call.answer.Answered? ==> AnsweredBy(call, subacks))
        case Unsubscribing =>
          call.regAt <= |unsubacks|
          && (call.answer.Answered? ==>
                call.regAt <= call.answer.at < |unsubacks| && unsubacks[call.answer.at] == call.Id()))
  }

  ghost predicate AnsweredBy(call: Call, subacks: seq<(u16, byte)>)
    requires call.answer.Answered?
  {
    call.regAt <= call.answer.at < |subacks| && subacks[call.answer.at] == (call.Id(), call.answer.code)
  }

  ghost predicate CallsAck(calls: map<Bytes, Call>, subacks: seq<(u16, byte)>, unsubacks: seq<u16>) {
    forall t :: t in calls ==> CallAck(calls[t], subacks, unsubacks)
  }

  /** Each entry holds the pending promise of a call of its kind with its id. */
  ghost predicate EntriesPending(calls: map<Bytes, Call>, pending: AckMap, subscribing: bool) {
    forall id :: id in pending ==>
      && Holds(calls, pending[id])
      && var call := calls[pending[id].0];
         call.answer.Pending? && call.Id() == id && call.request.Subscribing? == subscribing
  }

  /** Each pending promise is in its map. */
  ghost predicate PendingMapped(calls: map<Bytes, Call>, subs: AckMap, unsubs: AckMap) {
    forall t :: t in calls && calls[t].answer.Pending? ==>
      var m := if calls[t].request.Subscribing? then subs else unsubs;
      calls[t].Id() in m && m[calls[t].Id()] == (t, calls[t].uid)
  }

  ghost predicate ResultsAck(s: State) {
    forall i :: 0 <= i < |s.finished| && s.finished[i].outcome == Confirmed ==>
      && s.finished[i].call.answer.Answered?
      && CallAck(s.finished[i].call, s.subacks, s.unsubacks)
      && (s.finished[i].call.request.Subscribing? ==> s.finished[i].call.answer.code != 0x80)
  }

  ghost predicate AckInv(s: State) {
    && CallsAck(s.calls, s.subacks, s.unsubacks)
    && EntriesPending(s.calls, s.pendingSubacks, true)
    && EntriesPending(s.calls, s.pendingUnsubacks, false)
    && PendingMapped(s.calls, s.pendingSubacks, s.pendingUnsubacks)
    && ResultsAck(s)
  }

  lemma BeginKeepsAcks(s: State, step: Step)
    requires AckInv(s) && Enabled(s, step) && (step.BeginSubscribe? || step.BeginUnsubscribe?)
    ensures AckInv(Apply(s, step))
  {
  }

  lemma EndKeepsAcks(s: State, t: Bytes, outcome: Outcome)
    requires AckInv(s) && t in s.calls && !s.calls[t].answer.Pending?
    requires outcome == Confirmed ==>
      s.calls[t].answer.Answered? && (s.calls[t].request.Subscribing? ==> s.calls[t].answer.code != 0x80)
    ensures AckInv(End(s, t, outcome))
  {
  }

  /** A call moving on with its promise and id unchanged. */
  lemma MoveKeepsAcks(s: State, t: Bytes, call: Call)
    requires AckInv(s) && t in s.calls && CallAck(call, s.subacks, s.unsubacks)
    requires call.request == s.calls[t].request && call.uid == s.calls[t].uid && call.answer == s.calls[t].answer
    requires call.answer.Pending? ==> call.grant == s.calls[t].grant
    ensures AckInv(WithCall(s, t, call))
  {
    hide CallAck;
  }

  lemma CallStepKeepsAcks(s: State, step: Step)
    requires AckInv(s) && Enabled(s, step) && (step.Check? || step.Fetch? || step.Send? || step.Timeout? || step.RollBack?)
    ensures AckInv(Apply(s, step))
  {
    var t := step.topic;
    assert CallAck(s.calls[t], s.subacks, s.unsubacks);
    if step.RollBack? {
      EndKeepsAcks(s, t, s.calls[t].pc.why);
    } else if step.Check? && s.conn != Connected {
      EndKeepsAcks(s, t, NotSent);
    } else {
      MoveKeepsAcks(s, t, Apply(s, step).calls[t]);
    }
  }

  lemma GetKeepsAcks(s: State, t: Bytes)
    requires AckInv(s) && Enabled(s, Get(t))
    ensures AckInv(Apply(s, Get(t)))
  {
    var call := s.calls[t];
    assert CallAck(call, s.subacks, s.unsubacks);
    if call.request.Subscribing? && (call.answer.Severed? || (call.answer.Answered? && call.answer.code == 0x80)) {
      MoveKeepsAcks(s, t, call.(pc := RollingBack(Rejected)));
    } else {
      EndKeepsAcks(s, t, if call.answer.Answered? then Confirmed else Threw);
    }
  }

  /** Taking the entry of an id out of its map, and settling the promise it holds. */
  lemma ResolveKeepsMaps(calls: map<Bytes, Call>, subs: AckMap, unsubs: AckMap, id: u16, answer: Answer, subscribing: bool)
    requires EntriesPending(calls, subs, true) && EntriesPending(calls, unsubs, false) && PendingMapped(calls, subs, unsubs)
    requires !answer.Pending?
    ensures var calls' := Resolve(calls, if subscribing then subs else unsubs, id, answer);
      var subs' := if subscribing then subs - {id} else subs;
      var unsubs' := if subscribing then unsubs else unsubs - {id};
      EntriesPending(calls', subs', true) && EntriesPending(calls', unsubs', false) && PendingMapped(calls', subs', unsubs')
  {
  }

  lemma AbandonKeepsCalls(s: State, pending: AckMap, id: u16, subscribing: bool)
    requires CallsAck(s.calls, s.subacks, s.unsubacks) && EntriesPending(s.calls, pending, subscribing)
    ensures CallsAck(Resolve(s.calls, pending, id, Abandoned), s.subacks, s.unsubacks)
  {
    var calls := Resolve(s.calls, pending, id, Abandoned);
    forall t | t in calls ensures CallAck(calls[t], s.subacks, s.unsubacks) {
      assert CallAck(s.calls[t], s.subacks, s.unsubacks);
    }
  }

  lemma EraseEntryKeepsAcks(s: State, t: Bytes)
    requires AckInv(s) && t in s.calls
    ensures AckInv(EraseEntry(s, t)) && !EraseEntry(s, t).calls[t].answer.Pending?
    ensures s.calls[t].answer.Unmade? ==> EraseEntry(s, t).calls[t] == s.calls[t]
  {
    hide CallAck;
    var subscribing := s.calls[t].request.Subscribing?;
    ResolveKeepsMaps(s.calls, s.pendingSubacks, s.pendingUnsubacks, s.calls[t].Id(), Abandoned, subscribing);
    AbandonKeepsCalls(s, if subscribing then s.pendingSubacks else s.pendingUnsubacks, s.calls[t].Id(), subscribing);
  }

  lemma FreshEntryKeepsMaps(calls: map<Bytes, Call>, subs: AckMap, unsubs: AckMap, t: Bytes, call: Call)
    requires EntriesPending(calls, subs, true) && EntriesPending(calls, unsubs, false) && PendingMapped(calls, subs, unsubs)
    requires t in calls && calls[t].answer.Unmade? && call.answer.Pending?
    requires call.Id() !in (if call.request.Subscribing? then subs else unsubs)
    ensures var calls', entry := calls[t := call], (t, call.uid);
      var subs' := if call.request.Subscribing? then subs[call.Id() := entry] else subs;
      var unsubs' := if call.request.Subscribing? then unsubs else unsubs[call.Id() := entry];
      EntriesPending(calls', subs', true) && EntriesPending(calls', unsubs', false) && PendingMapped(calls', subs', unsubs')
  {
  }

  lemma FreshEntryKeepsAcks(s: State, t: Bytes)
    requires AckInv(s) && t in s.calls && s.calls[t].pc.Allocated? && s.calls[t].answer.Unmade?
    requires s.calls[t].Id() !in (if s.calls[t].request.Subscribing? then s.pendingSubacks else s.pendingUnsubacks)
    ensures AckInv(RegisterFresh(s, t))
  {
    hide CallsAck;
    hide EntriesPending;
    hide PendingMapped;
    hide ResultsAck;
    var r := RegisterFresh(s, t);
    FreshEntryKeepsMaps(s.calls, s.pendingSubacks, s.pendingUnsubacks, t, r.calls[t]);
    FreshEntryKeepsCalls(s, t);
  }

  lemma FreshEntryKeepsCalls(s: State, t: Bytes)
    requires CallsAck(s.calls, s.subacks, s.unsubacks) && ResultsAck(s)
    requires t in s.calls && s.calls[t].pc.Allocated?
    ensures CallsAck(RegisterFresh(s, t).calls, s.subacks, s.unsubacks) && ResultsAck(RegisterFresh(s, t))
  {
    var r := RegisterFresh(s, t);
    assert CallAck(s.calls[t], s.subacks, s.unsubacks);
    assert CallAck(r.calls[t], s.subacks, s.unsubacks);
    hide CallAck;
  }

  lemma RegisterKeepsAcks(s: State, t: Bytes)
    requires AckInv(s) && Enabled(s, Register(t))
    ensures AckInv(Apply(s, Register(t)))
  {
    assert CallAck(s.calls[t], s.subacks, s.unsubacks);
    EraseEntryKeepsAcks(s, t);
    hide AckInv;
    FreshEntryKeepsAcks(EraseEntry(s, t), t);
  }

  lemma EraseKeepsAcks(s: State, t: Bytes)
    requires AckInv(s) && Enabled(s, EraseAck(t))
    ensures AckInv(Apply(s, EraseAck(t)))
  {
    assert CallAck(s.calls[t], s.subacks, s.unsubacks);
    EraseEntryKeepsAcks(s, t);
    var e := EraseEntry(s, t);
    assert CallAck(e.calls[t], s.subacks, s.unsubacks);
    hide AckInv;
    if s.calls[t].pc.TimedOut? {
      EndKeepsAcks(e, t, AckTimeout);
    } else if s.calls[t].request.Unsubscribing? {
      EndKeepsAcks(e, t, SendError);
    } else {
      MoveKeepsAcks(e, t, e.calls[t].(pc := RollingBack(SendError)));
    }
  }

  lemma SubackKeepsCalls(s: State, id: u16, rc: byte)
    requires AckInv(s)
    ensures CallsAck(Resolve(s.calls, s.pendingSubacks, id, Answered(rc, |s.subacks|)), s.subacks + [(id, rc)], s.unsubacks)
    ensures ResultsAck(s.(subacks := s.subacks + [(id, rc)]))
  {
    var calls := Resolve(s.calls, s.pendingSubacks, id, Answered(rc, |s.subacks|));
    forall t | t in calls ensures CallAck(calls[t], s.subacks + [(id, rc)], s.unsubacks) {
      assert CallAck(s.calls[t], s.subacks, s.unsubacks);
    }
  }

  lemma SubackKeepsAcks(s: State, body: Bytes)
    requires AckInv(s)
    ensures AckInv(Apply(s, Suback(body)))
  {
    match ParsedSuback(body)
    case Err(_) =>
    case Ok(info) =>
      var id, rc := info.packetId, if info.returnCodes == [] then 0x80 else info.returnCodes[0];
      SubackKeepsCalls(s, id, rc);
      hide CallAck;
      ResolveKeepsMaps(s.calls, s.pendingSubacks, s.pendingUnsubacks, id, Answered(rc, |s.subacks|), true);
  }

  lemma UnsubackKeepsAcks(s: State, body: Bytes)
    requires AckInv(s)
    ensures AckInv(Apply(s, Unsuback(body)))
  {
    var s' := Apply(s, Unsuback(body));
    ResolveKeepsMaps(s.calls, s.pendingSubacks, s.pendingUnsubacks, ParsePacketId(body), Answered(0, |s.unsubacks|), false);
    forall t | t in s'.calls ensures CallAck(s'.calls[t], s'.subacks, s'.unsubacks) {
      assert CallAck(s.calls[t], s.subacks, s.unsubacks);
    }
  }

  lemma FailAllKeepsAcks(s: State)
    requires AckInv(s)
    ensures AckInv(Apply(s, FailAllAcks))
  {
  }

  lemma StepKeepsAcks(s: State, step: Step)
    requires AckInv(s) && Enabled(s, step)
    ensures AckInv(Apply(s, step))
  {
    hide AckInv;
    hide Apply;
    hide Enabled;
    match step
    case BeginSubscribe(_, _) => BeginKeepsAcks(s, step);
    case BeginUnsubscribe(_) => BeginKeepsAcks(s, step);
    case Check(_) => CallStepKeepsAcks(s, step);
    case Fetch(_) => CallStepKeepsAcks(s, step);
    case Send(_, _) => CallStepKeepsAcks(s, step);
    case Timeout(_) => CallStepKeepsAcks(s, step);
    case RollBack(_) => CallStepKeepsAcks(s, step);
    case Register(t) => RegisterKeepsAcks(s, t);
    case EraseAck(t) => EraseKeepsAcks(s, t);
    case Get(t) => GetKeepsAcks(s, t);
    case Suback(body) => SubackKeepsAcks(s, body);
    case Unsuback(body) => UnsubackKeepsAcks(s, body);
    case FailAllAcks => FailAllKeepsAcks(s);
    case _ => ConnectionKeepsAcks(s, step);
  }

  lemma ConnectionKeepsAcks(s: State, step: Step)
    requires AckInv(s) && Enabled(s, step)
    requires step.Leave? || step.ConnectStart? || step.ConnectFail? || step.Open? || step.Accept?
      || step.ResubLock? || step.ResubFetch? || step.ResubSend? || step.ResubDone?
    ensures AckInv(Apply(s, step))
  {
    hide CallAck;
  }

  /** What each acknowledgement does to a pending call: one with its id, of its kind, settles it;
      no other touches it. */
  lemma SubackEffect(s: State, body: Bytes, t: Bytes)
    requires AckInv(s) && t in s.calls && s.calls[t].answer.Pending?
    ensures var r := ParsedSuback(body);
      Apply(s, Suback(body)).calls[t] ==
        if r.Ok? && s.calls[t].request.Subscribing? && r.value.packetId == s.calls[t].Id()
        then s.calls[t].(answer := Answered(if r.value.returnCodes == [] then 0x80 else r.value.returnCodes[0], |s.subacks|))
        else s.calls[t]
  {
    hide CallAck;
  }

  lemma UnsubackEffect(s: State, body: Bytes, t: Bytes)
    requires AckInv(s) && t in s.calls && s.calls[t].answer.Pending?
    ensures Apply(s, Unsuback(body)).calls[t] ==
        if s.calls[t].request.Unsubscribing? && ParsePacketId(body) == s.calls[t].Id()
        then s.calls[t].(answer := Answered(0, |s.unsubacks|)) else s.calls[t]
  {
    hide CallAck;
  }

  lemma FailAllEffect(s: State, t: Bytes)
    requires AckInv(s) && t in s.calls && s.calls[t].answer.Pending?
    ensures Apply(s, FailAllAcks).calls[t] == s.calls[t].(answer := Severed)
  {
    hide CallAck;
    var m := if s.calls[t].request.Subscribing? then s.pendingSubacks else s.pendingUnsubacks;
    assert m[s.calls[t].Id()] in m.Values;
  }

  // ---- Over every run ----

  lemma {:induction false} RunKeepsInv(states: seq<State>, steps: seq<Step>)
    requires IsRun(states, steps)
    ensures Inv(states[|steps|]) && AckInv(states[|steps|])
    decreases |steps|
  {
    hide Inv;
    hide AckInv;
    if |steps| == 0 {
      FreshIsFine();
    } else {
      var n := |steps| - 1;
      assert IsRun(states[..n + 1], steps[..n]);
      RunKeepsInv(states[..n + 1], steps[..n]);
      StepKeepsInv(states[n], steps[n]);
      StepKeepsAcks(states[n], steps[n]);
    }
  }

  lemma FreshIsFine()
    ensures Inv(Fresh) && AckInv(Fresh)
  {
  }

  /** Subscription coverage, over every run of losses and reconnects: while Connected and past
      resubscribeAll, each topic of the table was last told to the broker, on the current
      connection, as a SUBSCRIBE with the table's QoS, or belongs to a subscribe call still before
      its send. */
  lemma SubscriptionCoverage(states: seq<State>, steps: seq<Step>, t: Bytes)
    requires IsRun(states, steps) && t in states[|steps|].table
    requires states[|steps|].conn == Connected && states[|steps|].resubscribed
    ensures var s := states[|steps|];
      || (t in View(s.told) && View(s.told)[t] == s.table[t])
      || (t in s.calls && s.calls[t].request == Subscribing(s.table[t]) && s.calls[t].BeforeSend())
  {
    RunKeepsInv(states, steps);
  }

  // ---- Topics dropped behind the broker's back ----

  /** A topic that the broker has been told of leaves the table without an UNSUBSCRIBE: a rejected or
      unsendable subscribe takes its entry back, or an unsubscribe finds no connection. */
  predicate Drops(s: State, step: Step, t: Bytes) {
    && (step == RollBack(t) || (step == Check(t) && s.conn != Connected && t in s.calls && s.calls[t].request == Unsubscribing))
    && t in View(s.told)
  }

  /** A subscribe stores it again, a request about it is sent, or a new connection opens. */
  predicate Mends(step: Step, t: Bytes) {
    step.Open? || (step.BeginSubscribe? && step.topic == t) || (step.Send? && step.topic == t)
  }

  /** Some step of the run dropped the topic, and none since has mended that. */
  ghost predicate LeftStanding(states: seq<State>, steps: seq<Step>, t: Bytes)
    requires |states| == |steps| + 1
  {
    exists i: nat :: i < |steps| && Drops(states[i], steps[i], t) && forall k :: i < k < |steps| ==> !Mends(steps[k], t)
  }

  lemma StepOrphans(s: State, step: Step, t: Bytes)
    requires Enabled(s, step)
    ensures t in Apply(s, step).orphans <==> Drops(s, step, t) || (t in s.orphans && !Mends(step, t))
  {
    hide View;
    hide Apply;
    if step.BeginSubscribe? || step.Check? || step.Send? || step.RollBack? || step.Open? {
      OrphanStep(s, step, t);
    } else {
      OtherStepsKeepOrphans(s, step);
    }
  }

  lemma OrphanStep(s: State, step: Step, t: Bytes)
    requires Enabled(s, step) && (step.BeginSubscribe? || step.Check? || step.Send? || step.RollBack? || step.Open?)
    ensures t in Apply(s, step).orphans <==>
      match step
      case BeginSubscribe(u, _) => t in s.orphans && t != u
      case Check(u) =>
        t in s.orphans || (t == u && s.conn != Connected && s.calls[t].request.Unsubscribing? && t in View(s.told))
      case Send(u, _) => t in s.orphans && t != u
      case RollBack(u) => t in s.orphans || (t == u && t in View(s.told))
      case _ => false
  {
    hide View;
    hide Resolve;
    hide Sever;
    hide EraseEntry;
    hide RegisterFresh;
    hide ParsedSuback;
    hide GetAnswer;
  }

  lemma OtherStepsKeepOrphans(s: State, step: Step)
    requires Enabled(s, step) && !step.BeginSubscribe? && !step.Check? && !step.Send? && !step.RollBack? && !step.Open?
    ensures Apply(s, step).orphans == s.orphans
  {
    hide View;
    hide Resolve;
    hide Sever;
    hide EraseEntry;
    hide RegisterFresh;
    hide ParsedSuback;
    if step.EraseAck? || step.Register? {
      EraseKeepsOrphans(s, step.topic);
    }
  }

  lemma EraseKeepsOrphans(s: State, t: Bytes)
    requires t in s.calls
    ensures EraseEntry(s, t).orphans == s.orphans
    ensures RegisterCall(s, t).orphans == s.orphans
  {
  }

  lemma {:induction false} OrphanedIff(states: seq<State>, steps: seq<Step>, t: Bytes)
    requires IsRun(states, steps)
    ensures t in states[|steps|].orphans <==> LeftStanding(states, steps, t)
    decreases |steps|
  {
    hide Apply;
    hide Enabled;
    hide Drops;
    hide Mends;
    if |steps| > 0 {
      var n := |steps| - 1;
      assert IsRun(states[..n + 1], steps[..n]);
      OrphanedIff(states[..n + 1], steps[..n], t);
      StepOrphans(states[n], steps[n], t);
      DropsAreNotMended(states[n], steps[n], t);
      if LeftStanding(states[..n + 1], steps[..n], t) && !Mends(steps[n], t) {
        var i: nat :| i < n && Drops(states[..n + 1][i], steps[..n][i], t) && forall k :: i < k < n ==> !Mends(steps[..n][k], t);
        assert Drops(states[i], steps[i], t);
        assert forall k :: i < k < n ==> steps[..n][k] == steps[k];
      }
      if LeftStanding(states, steps, t) && !Drops(states[n], steps[n], t) {
        var i: nat :| i < |steps| && Drops(states[i], steps[i], t) && forall k :: i < k < |steps| ==> !Mends(steps[k], t);
        assert Drops(states[..n + 1][i], steps[..n][i], t);
      }
    }
  }

  lemma DropsAreNotMended(s: State, step: Step, t: Bytes)
    ensures Drops(s, step, t) ==> !Mends(step, t)
  {
    hide View;
  }

  /** The two hold the same about a topic. */
  predicate Same(a: map<Bytes, int>, b: map<Bytes, int>, t: Bytes) {
    (t in a <==> t in b) && (t in a && t in b ==> a[t] == b[t])
  }

  /** Conversely the broker was told nothing more, on the current connection and at any moment, than
      the table holds, but for unsubscribe calls before their send and for topics dropped and not
      mended; and those, without a call under way, are exactly what was told and is not in the table. */
  lemma NothingElseTold(states: seq<State>, steps: seq<Step>, t: Bytes)
    requires IsRun(states, steps)
    ensures var s := states[|steps|];
      && (t in View(s.told) ==>
            || t in s.table
            || (t in s.calls && s.calls[t].request == Unsubscribing && s.calls[t].BeforeSend())
            || LeftStanding(states, steps, t))
      && (t !in s.calls ==> (LeftStanding(states, steps, t) <==> t in View(s.told) && t !in s.table))
  {
    hide LeftStanding;
    RunKeepsInv(states, steps);
    OrphanedIff(states, steps, t);
  }

  /** Agreement, topic by topic: without a call under way on it, the table and what the broker was
      told are the same if and only if no drop is left standing. */
  lemma TableAgreesWithTold(states: seq<State>, steps: seq<Step>, t: Bytes)
    requires IsRun(states, steps) && t !in states[|steps|].calls
    requires states[|steps|].conn == Connected && states[|steps|].resubscribed
    ensures Same(states[|steps|].table, View(states[|steps|].told), t) <==> !LeftStanding(states, steps, t)
  {
    hide LeftStanding;
    RunKeepsInv(states, steps);
    OrphanedIff(states, steps, t);
  }

  /** No false confirmation, over every run: a subscribe that waited and returned Ok had a SUBACK
      with its id and no failure code, read after its promise was registered; an unsubscribe, an
      UNSUBACK with its id. */
  lemma ConfirmedWasAcknowledged(states: seq<State>, steps: seq<Step>, i: nat)
    requires IsRun(states, steps) && i < |states[|steps|].finished|
    requires states[|steps|].finished[i].outcome == Confirmed
    ensures var s := states[|steps|];
      var call := s.finished[i].call;
      && call.answer.Answered? && call.regAt <= call.answer.at
      && (if call.request.Subscribing?
          then call.answer.at < |s.subacks| && s.subacks[call.answer.at].0 == call.Id()
               && s.subacks[call.answer.at].1 != 0x80
          else call.answer.at < |s.unsubacks| && s.unsubacks[call.answer.at] == call.Id())
  {
    RunKeepsInv(states, steps);
  }
}
