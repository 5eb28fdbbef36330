/** A run that leaves the broker subscribed to a topic the table no longer holds: the connection
    drops while a subscribe waits for its SUBACK, the reconnect tells the broker the topic again,
    and only then does the caller act on the failure code that failAllAcks gave its future. */
module SubscriberAnomaly {
  import opened Prelude
  import opened PacketIds
  import opened SubscribePackets
  import opened SubscriberModel
  import opened SubscriberProofs
  import opened SubscriberBroker

  ghost predicate Reachable(s: State) {
    exists states: seq<State>, steps: seq<Step> :: IsRun(states, steps) && states[|steps|] == s
  }

  lemma StepReaches(s: State, step: Step)
    requires Reachable(s) && Enabled(s, step)
    ensures Reachable(Apply(s, step))
  {
    var states: seq<State>, steps: seq<Step> :| IsRun(states, steps) && states[|steps|] == s;
    var states', steps' := states + [Apply(s, step)], steps + [step];
    forall i | 0 <= i < |steps'| ensures Enabled(states'[i], steps'[i]) && states'[i + 1] == Apply(states'[i], steps'[i]) {
      if i < |steps| {
        assert states'[i] == states[i] && states'[i + 1] == states[i + 1] && steps'[i] == steps[i];
      }
    }
    assert IsRun(states', steps') && states'[|steps'|] == Apply(s, step);
  }

  lemma FreshReachable()
    ensures Reachable(Fresh)
  {
    var states: seq<State>, steps: seq<Step> := [Fresh], [];
    assert IsRun(states, steps) && states[|steps|] == Fresh;
  }

  function AfterConnect(s: State): State {
    s.(conn := Connected, connector := Resubscribing(s.table.Keys, NoId), told := [], earlier := s.earlier + [s.told],
       resubscribed := false, orphans := {})
  }

  /** A connect that succeeds, up to the table lock of resubscribeAll. */
  lemma ConnectReaches(s: State)
    requires Reachable(s) && s.connector.Idle? && s.conn != Connected
    ensures Reachable(AfterConnect(s))
  {
    hide Reachable;
    StepReaches(s, ConnectStart);
    var s1 := Apply(s, ConnectStart);
    StepReaches(s1, Open);
    var s2 := Apply(s1, Open);
    StepReaches(s2, Accept);
    var s3 := Apply(s2, Accept);
    StepReaches(s3, ResubLock);
  }

  /** A subscribe up to its wait, on a fresh id. */
  function SentSubscribe(s: State, t: Bytes, qos: int): State {
    var call := Call(Subscribing(qos), s.nextUid, Waiting, Grant(s.counter, s.counter), Pending, |s.subacks|);
    s.(table := s.table[t := qos], calls := s.calls[t := call], nextUid := s.nextUid + 1, counter := s.counter + 1,
       orphans := s.orphans - {t}, pendingSubacks := s.pendingSubacks[IdOf(s.counter) := (t, s.nextUid)],
       told := s.told + [ToldSubscribe(IdOf(s.counter), t, qos)])
  }

  function AllocatedSubscribe(s: State, t: Bytes, qos: int): State {
    var call := Call(Subscribing(qos), s.nextUid, Allocated, Grant(s.counter, s.counter), Unmade, 0);
    s.(table := s.table[t := qos], calls := s.calls[t := call], nextUid := s.nextUid + 1, counter := s.counter + 1,
       orphans := s.orphans - {t})
  }

  lemma AllocateReaches(s: State, t: Bytes, qos: int)
    requires Reachable(s) && s.connector.Idle? && s.conn == Connected && s.calls == map[] && IdOf(s.counter) != 0
    ensures Reachable(AllocatedSubscribe(s, t, qos))
  {
    StepReaches(s, BeginSubscribe(t, qos));
    var s1 := Apply(s, BeginSubscribe(t, qos));
    StepReaches(s1, Check(t));
    var s2 := Apply(s1, Check(t));
    StepReaches(s2, Fetch(t));
    assert Apply(s2, Fetch(t)) == AllocatedSubscribe(s, t, qos);
  }

  lemma SendReaches(s: State, t: Bytes)
    requires Reachable(s) && t in s.calls && s.calls[t].pc.Allocated? && s.calls[t].request.Subscribing?
    requires s.pendingSubacks == map[]
    ensures var call := s.calls[t].(pc := Waiting, answer := Pending, regAt := |s.subacks|);
      Reachable(s.(calls := s.calls[t := call], pendingSubacks := map[call.Id() := (t, call.uid)],
                   told := s.told + [ToldBy(t, call)], orphans := s.orphans - {t}))
  {
    StepReaches(s, Register(t));
    var s1 := Apply(s, Register(t));
    assert s1.pendingSubacks == map[s.calls[t].Id() := (t, s.calls[t].uid)];
    StepReaches(s1, Send(t, true));
    var call := s.calls[t].(pc := Waiting, answer := Pending, regAt := |s.subacks|);
    assert Apply(s1, Send(t, true)) == s.(calls := s.calls[t := call],
      pendingSubacks := map[call.Id() := (t, call.uid)], told := s.told + [ToldBy(t, call)], orphans := s.orphans - {t});
  }

  lemma SubscribeReaches(s: State, t: Bytes, qos: int)
    requires Reachable(s) && s.connector.Idle? && s.conn == Connected
    requires s.calls == map[] && s.pendingSubacks == map[] && IdOf(s.counter) != 0
    ensures Reachable(SentSubscribe(s, t, qos))
  {
    hide Reachable;
    AllocateReaches(s, t, qos);
    var a := AllocatedSubscribe(s, t, qos);
    SendReaches(a, t);
    var call := a.calls[t].(pc := Waiting, answer := Pending, regAt := |a.subacks|);
    assert a.calls[t := call] == s.calls[t := call] && a.orphans - {t} == a.orphans;
    assert s.pendingSubacks[call.Id() := (t, call.uid)] == map[call.Id() := (t, call.uid)];
  }

  /** failAllAcks on the one waiting call. */
  lemma LossReaches(s: State, t: Bytes)
    requires Reachable(s) && s.calls.Keys == {t} && s.pendingSubacks.Values == {(t, s.calls[t].uid)}
    requires s.pendingUnsubacks == map[]
    ensures Reachable(s.(conn := Reconnecting, calls := map[t := s.calls[t].(answer := Severed)], pendingSubacks := map[]))
  {
    StepReaches(s, Leave(Reconnecting));
    var s1 := Apply(s, Leave(Reconnecting));
    StepReaches(s1, FailAllAcks);
    assert Apply(s1, FailAllAcks)
        == s.(conn := Reconnecting, calls := map[t := s.calls[t].(answer := Severed)], pendingSubacks := map[]);
  }

  lemma ResubscribeReaches(s: State, t: Bytes)
    requires Reachable(s) && s.connector == Resubscribing({t}, NoId) && t in s.table && IdOf(s.counter) != 0
    ensures Reachable(s.(told := s.told + [ToldSubscribe(IdOf(s.counter), t, s.table[t])], counter := s.counter + 1,
                         connector := Idle, resubscribed := true))
  {
    StepReaches(s, ResubFetch);
    var s1 := Apply(s, ResubFetch);
    StepReaches(s1, ResubSend(t));
    var s2 := Apply(s1, ResubSend(t));
    assert s2.connector.todo == {};
    StepReaches(s2, ResubDone);
    assert Apply(s2, ResubDone) == s.(told := s.told + [ToldSubscribe(IdOf(s.counter), t, s.table[t])],
      counter := s.counter + 1, connector := Idle, resubscribed := true);
  }

  predicate OnlyEntryDropped(s: State, s': State, t: Bytes) {
    && s'.conn == s.conn && s'.resubscribed == s.resubscribed
    && s'.table == s.table - {t} && s'.told == s.told && s'.calls == map[]
  }

  /** Nothing under way, yet the broker was told of one topic and the table is empty. */
  predicate LeftBehind(s: State, t: Bytes, qos: int) {
    && s.conn == Connected && s.resubscribed && s.calls == map[]
    && s.table == map[] && View(s.told) == map[t := qos]
  }

  lemma RollBackReaches(s: State, t: Bytes)
    requires Reachable(s) && s.connector.Idle? && s.calls.Keys == {t}
    requires s.calls[t].pc.Waiting? && s.calls[t].answer.Severed? && s.calls[t].request.Subscribing?
    ensures exists s' :: Reachable(s') && OnlyEntryDropped(s, s', t)
  {
    StepReaches(s, Get(t));
    var s1 := Apply(s, Get(t));
    StepReaches(s1, RollBack(t));
    var s2 := Apply(s1, RollBack(t));
    assert s2.calls == map[] && s2.table == s.table - {t};
  }

  // ---- The run, stage by stage ----

  /** The first connection, with nothing to resubscribe. */
  const Online: State := Fresh.(conn := Connected, earlier := [[]], resubscribed := true)

  lemma OnlineReachable()
    ensures Reachable(Online)
  {
    hide Reachable;
    FreshReachable();
    ConnectReaches(Fresh);
    var locked := AfterConnect(Fresh);
    assert locked.connector == Resubscribing({}, NoId) && locked.earlier == [[]];
    StepReaches(locked, ResubDone);
  }

  function Sent(t: Bytes, qos: int): State { SentSubscribe(Online, t, qos) }

  lemma SentReachable(t: Bytes, qos: int)
    ensures Reachable(Sent(t, qos))
  {
    hide Reachable;
    OnlineReachable();
    SubscribeReaches(Online, t, qos);
  }

  function CutOff(t: Bytes, qos: int): State {
    var s := Sent(t, qos);
    s.(conn := Reconnecting, calls := map[t := s.calls[t].(answer := Severed)], pendingSubacks := map[])
  }

  lemma CutOffReachable(t: Bytes, qos: int)
    ensures Reachable(CutOff(t, qos))
  {
    hide Reachable;
    SentReachable(t, qos);
    var s := Sent(t, qos);
    assert s.pendingSubacks[IdOf(1)] == (t, 0);
    LossReaches(s, t);
  }

  /** Connected again, the topic told again, the call still to read its future. */
  function Retold(t: Bytes, qos: int): State {
    CutOff(t, qos).(conn := Connected, connector := Idle, resubscribed := true, counter := 3, orphans := {},
                     earlier := [[], [ToldSubscribe(1, t, qos)]], told := [ToldSubscribe(2, t, qos)])
  }

  lemma RetoldReachable(t: Bytes, qos: int)
    ensures Reachable(Retold(t, qos))
  {
    hide Reachable;
    CutOffReachable(t, qos);
    ConnectReaches(CutOff(t, qos));
    var locked := AfterConnect(CutOff(t, qos));
    assert CutOff(t, qos).table.Keys == {t} && locked.table[t] == qos;
    ResubscribeReaches(locked, t);
    assert locked.told + [ToldSubscribe(2, t, qos)] == [ToldSubscribe(2, t, qos)];
    assert CutOff(t, qos).told == [ToldSubscribe(1, t, qos)];
    assert locked.earlier == [[], [ToldSubscribe(1, t, qos)]];
  }

  /** Connected, past resubscribeAll, no call under way and the table empty: yet the broker's last
      word on the topic is a SUBSCRIBE. So agreement needs the absence of such drops. */
  lemma OrphanedSubscription(t: Bytes, qos: int)
    ensures exists s :: Reachable(s) && LeftBehind(s, t, qos)
  {
    hide Reachable;
    RetoldReachable(t, qos);
    var s := Retold(t, qos);
    RollBackReaches(s, t);
    var s' :| Reachable(s') && OnlyEntryDropped(s, s', t);
    ToldOnce(2, t, qos);
    assert s'.table == map[];
  }

  // ---- Refusals ----

  /** SUBACK with this return code, for the first id. */
  function AckOf(code: byte): Bytes { [0, 1, code] }

  lemma AckParses(code: byte)
    ensures ParsedSuback(AckOf(code)) == Ok(SubackInfo(1, [code]))
  {
    assert AckOf(code)[2..] == [code];
  }

  /** The waiting call's promise is settled with it. */
  lemma AckReaches(s: State, t: Bytes, code: byte)
    requires Reachable(s) && s.calls.Keys == {t} && s.pendingSubacks == map[1 := (t, s.calls[t].uid)]
    ensures Reachable(s.(calls := map[t := s.calls[t].(answer := Answered(code, |s.subacks|))], pendingSubacks := map[],
                         subacks := s.subacks + [(1, code)]))
  {
    hide Reachable;
    AckParses(code);
    StepReaches(s, Suback(AckOf(code)));
    assert s.pendingSubacks - {1} == map[];
    assert s.calls[t := s.calls[t].(answer := Answered(code, |s.subacks|))]
        == map[t := s.calls[t].(answer := Answered(code, |s.subacks|))];
  }

  /** Told and dropped, so a drop by what was told; but refused, so gone on both sides. */
  predicate RefusedOnBothSides(s: State, t: Bytes, qos: int) {
    && s.conn == Connected && s.resubscribed && s.calls == map[] && s.subacks == [(1, 0x80)]
    && s.table == map[] && s.told == [ToldSubscribe(1, t, qos)]
  }

  /** The return code read, the call still to act on it. */
  function Acked(t: Bytes, qos: int, code: byte): State {
    var s := Sent(t, qos);
    s.(calls := map[t := s.calls[t].(answer := Answered(code, 0))], pendingSubacks := map[], subacks := [(1, code)])
  }

  lemma AckedReachable(t: Bytes, qos: int, code: byte)
    ensures Reachable(Acked(t, qos, code))
  {
    hide Reachable;
    SentReachable(t, qos);
    AckReaches(Sent(t, qos), t, code);
    assert Sent(t, qos).subacks + [(1, code)] == [(1, code)];
  }

  /** The call about to take its entry back. */
  function Rejected80(t: Bytes, qos: int): State {
    var s := Acked(t, qos, 0x80);
    s.(calls := map[t := s.calls[t].(pc := RollingBack(Rejected))])
  }

  lemma Rejected80Reachable(t: Bytes, qos: int)
    ensures Reachable(Rejected80(t, qos))
  {
    hide Reachable;
    hide Apply;
    AckedReachable(t, qos, 0x80);
    var s := Acked(t, qos, 0x80);
    GetIsAnswer(s, t);
    StepReaches(s, Get(t));
    assert s.calls[t := s.calls[t].(pc := RollingBack(Rejected))] == Rejected80(t, qos).calls;
  }

  /** A subscribe that the broker refuses leads to such a state. */
  lemma RefusedSubscribe(t: Bytes, qos: int)
    ensures exists s :: Reachable(s) && RefusedOnBothSides(s, t, qos)
  {
    hide Reachable;
    Rejected80Reachable(t, qos);
    StepReaches(Rejected80(t, qos), RollBack(t));
    RolledBackIsRefused(t, qos);
  }

  lemma RolledBackIsRefused(t: Bytes, qos: int)
    ensures RefusedOnBothSides(Apply(Rejected80(t, qos), RollBack(t)), t, qos)
  {
    hide Apply;
    hide View;
    var s := Rejected80(t, qos);
    RollBackIs(s, t);
    assert s.calls - {t} == map[] && s.table - {t} == map[];
    assert s.told == [ToldSubscribe(1, t, qos)];
  }

  /** There, by what was told table and broker disagree, and by what a broker with a clean session, that
      has answered as was read, holds they agree. */
  lemma RefusedIsNoDisagreement(s: State, t: Bytes, qos: int, b: Broker)
    requires RefusedOnBothSides(s, t, qos) && b.Clean() && Acknowledges(b, s, 0)
    ensures t in View(s.told) && t !in s.table && HeldBy(b, s) == s.table
  {
    ToldOnce(1, t, qos);
    RefusedOnly(s, t, qos, b);
  }

  /** Its one request was refused, so it holds nothing. */
  lemma RefusedOnly(s: State, t: Bytes, qos: int, b: Broker)
    requires s.told == [ToldSubscribe(1, t, qos)] && s.subacks == [(1, 0x80)]
    requires b.Clean() && Acknowledges(b, s, 0)
    ensures HeldBy(b, s) == map[]
  {
    assert s.told[0].id == s.subacks[0].0;
    CleanKeepsNothing(b, s.earlier);
    var answers := b.answers(|s.earlier|);
    assert answers(0) == None;
    assert s.told[..0] == [];
    assert HeldFrom(map[], s.told, answers) == AfterAnswer(HeldFrom(map[], [], answers), s.told[0], answers(0));
  }

  /** A subscription stored before the first connect, then told by resubscribeAll. */
  function StoredFirst(t: Bytes, qos: int): State {
    Fresh.(table := map[t := qos], nextUid := 1,
           finished := [Finished(t, Call(Subscribing(qos), 0, Stored, Grant(0, 0), Unmade, 0), NotSent)])
  }

  lemma StoredFirstReachable(t: Bytes, qos: int)
    ensures Reachable(StoredFirst(t, qos))
  {
    hide Reachable;
    FreshReachable();
    StepReaches(Fresh, BeginSubscribe(t, qos));
    var s := Apply(Fresh, BeginSubscribe(t, qos));
    StepReaches(s, Check(t));
    assert s.calls - {t} == map[];
    assert Apply(s, Check(t)) == StoredFirst(t, qos);
  }

  /** The table has the topic, and its failure code has been read. */
  predicate KeptThoughRefused(s: State, t: Bytes, qos: int) {
    && s.conn == Connected && s.resubscribed && s.calls == map[] && s.subacks == [(1, 0x80)]
    && s.table == map[t := qos] && s.told == [ToldSubscribe(1, t, qos)]
  }

  /** All told by resubscribeAll, no acknowledgement read yet. */
  function ToldFirst(t: Bytes, qos: int): State {
    StoredFirst(t, qos).(conn := Connected, told := [ToldSubscribe(1, t, qos)], earlier := [[]], counter := 2,
                         resubscribed := true)
  }

  lemma ToldFirstReachable(t: Bytes, qos: int)
    ensures Reachable(ToldFirst(t, qos))
  {
    hide Reachable;
    StoredFirstReachable(t, qos);
    var stored := StoredFirst(t, qos);
    ConnectReaches(stored);
    assert stored.table.Keys == {t};
    ResubscribeReaches(AfterConnect(stored), t);
    assert AfterConnect(stored).told + [ToldSubscribe(1, t, qos)] == [ToldSubscribe(1, t, qos)];
    assert AfterConnect(stored).earlier == [[]];
  }

  /** A request of resubscribeAll that the broker refuses leads to such a state: the failure code finds
      no promise. */
  lemma RefusedResubscribe(t: Bytes, qos: int)
    ensures exists s :: Reachable(s) && KeptThoughRefused(s, t, qos)
  {
    hide Reachable;
    ToldFirstReachable(t, qos);
    var told := ToldFirst(t, qos);
    AckParses(0x80);
    StepReaches(told, Suback(AckOf(0x80)));
    assert told.subacks + [(1, 0x80)] == [(1, 0x80)];
    assert KeptThoughRefused(Apply(told, Suback(AckOf(0x80))), t, qos);
  }

  /** There, by what was told table and broker agree, and a broker with a clean session, that has
      answered as was read, does not hold the topic. */
  lemma KeptIsNoAgreement(s: State, t: Bytes, qos: int, b: Broker)
    requires KeptThoughRefused(s, t, qos) && b.Clean() && Acknowledges(b, s, 0)
    ensures View(s.told) == s.table && t in s.table && t !in HeldBy(b, s)
  {
    ToldOnce(1, t, qos);
    RefusedOnly(s, t, qos, b);
  }

  // ---- A session kept over a reconnect ----

  /** Subscribed and confirmed. */
  function Subscribed(t: Bytes, qos: int, code: byte): State {
    var s := Acked(t, qos, code);
    s.(calls := map[], finished := [Finished(t, s.calls[t], Confirmed)])
  }

  lemma SubscribedReachable(t: Bytes, qos: int, code: byte)
    requires code != 0x80
    ensures Reachable(Subscribed(t, qos, code))
  {
    hide Reachable;
    hide Apply;
    AckedReachable(t, qos, code);
    var s := Acked(t, qos, code);
    GetIsAnswer(s, t);
    StepReaches(s, Get(t));
    assert s.calls - {t} == map[] && s.finished + [Finished(t, s.calls[t], Confirmed)] == Subscribed(t, qos, code).finished;
  }

  /** The connection lost, and the topic unsubscribed before the next one. */
  function UnsubscribedOffline(t: Bytes, qos: int, code: byte): State {
    var s := Subscribed(t, qos, code);
    s.(conn := Reconnecting, table := map[], nextUid := 2, orphans := {t},
       finished := s.finished + [Finished(t, Call(Unsubscribing, 1, Stored, Grant(0, 0), Unmade, 0), NotSent)])
  }

  lemma UnsubscribedOfflineReachable(t: Bytes, qos: int, code: byte)
    requires code != 0x80
    ensures Reachable(UnsubscribedOffline(t, qos, code))
  {
    hide Reachable;
    SubscribedReachable(t, qos, code);
    var s0 := Subscribed(t, qos, code);
    StepReaches(s0, Leave(Reconnecting));
    var s1 := s0.(conn := Reconnecting);
    StepReaches(s1, BeginUnsubscribe(t));
    var s2 := Apply(s1, BeginUnsubscribe(t));
    StepReaches(s2, Check(t));
    OfflineCheck(t, qos, code, s2);
  }

  lemma OfflineCheck(t: Bytes, qos: int, code: byte, s: State)
    requires s == Apply(Subscribed(t, qos, code).(conn := Reconnecting), BeginUnsubscribe(t))
    ensures Apply(s, Check(t)) == UnsubscribedOffline(t, qos, code)
  {
    CheckIs(s, t);
    hide Apply;
    ToldOnce(1, t, qos);
    assert s.told == [ToldSubscribe(1, t, qos)];
    assert s.calls - {t} == map[] && s.table == map[];
    assert Dropped(s, t) == {t};
  }

  /** Connected again, nothing under way, nothing stored and nothing told. */
  predicate KeptBehindBack(s: State, t: Bytes, qos: int) {
    && s.conn == Connected && s.resubscribed && s.calls == map[]
    && s.table == map[] && s.told == [] && s.earlier == [[], [ToldSubscribe(1, t, qos)]]
  }

  /** A confirmed subscription, unsubscribed while there is no connection, leads to such a state. */
  lemma OfflineUnsubscribe(t: Bytes, qos: int, code: byte)
    requires code != 0x80
    ensures exists s :: Reachable(s) && KeptBehindBack(s, t, qos)
  {
    hide Reachable;
    UnsubscribedOfflineReachable(t, qos, code);
    var s := UnsubscribedOffline(t, qos, code);
    ConnectReaches(s);
    var locked := AfterConnect(s);
    assert s.told == [ToldSubscribe(1, t, qos)];
    assert locked.connector == Resubscribing({}, NoId) && locked.earlier == [[], [ToldSubscribe(1, t, qos)]];
    StepReaches(locked, ResubDone);
    assert KeptBehindBack(Apply(locked, ResubDone), t, qos);
  }

  /** There a broker that keeps the session holds the topic, and one with a clean session does not. */
  lemma KeptBehindBackIsHeld(s: State, t: Bytes, qos: int, b: Broker)
    requires KeptBehindBack(s, t, qos)
    ensures b.Willing(s.earlier + [s.told]) ==> HeldBy(b, s) == map[t := qos] != s.table
    ensures b.Clean() ==> HeldBy(b, s) == s.table
  {
    hide Kept;
    hide HeldFrom;
    if b.Willing(s.earlier + [s.told]) {
      WillingHolds(b, s);
      ToldOnce(1, t, qos);
      JoinedTwo([ToldSubscribe(1, t, qos)]);
      assert EverTold(s) == [ToldSubscribe(1, t, qos)];
      assert t in map[t := qos] && t !in s.table;
    }
    if b.Clean() {
      CleanKeepsNothing(b, s.earlier);
      NothingHeld(b.answers(|s.earlier|));
    }
  }

  lemma JoinedTwo(told: seq<Told>)
    ensures Joined([[], told]) == told
  {
    var first: seq<seq<Told>> := [[]];
    assert first[..0] == [] && Joined(first) == Joined([]) + [] == [];
    assert [[], told][..1] == first && Joined([[], told]) == Joined(first) + told;
  }

  lemma NothingHeld(answers: Answers)
    ensures HeldFrom(map[], [], answers) == map[]
  {
  }

  lemma ToldOnce(id: u16, t: Bytes, qos: int)
    ensures View([ToldSubscribe(id, t, qos)]) == map[t := qos]
  {
    var told := [ToldSubscribe(id, t, qos)];
    assert told[..0] == [];
    assert View(told) == Hear(View([]), told[0]);
  }
}
