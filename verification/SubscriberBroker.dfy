/** What a broker holds: it may keep a session over connections or forget it, refuse a SUBSCRIBE or
    grant it with a lower QoS, and lose the end of what was sent on a broken connection. The exact
    condition on which it agrees with the subscription table. */
module SubscriberBroker {
  import opened Prelude
  import opened SubscribePackets
  import opened SubscriberModel
  import opened SubscriberProofs

  /** The answer to each request of a connection, counted from 0: the QoS granted to a SUBSCRIBE, or None
      for the failure code 0x80 (section 3.9.3). An UNSUBSCRIBE cannot be refused. */
  type Answers = nat -> Option<int>

  /** A broker's choices and fortunes. Connection number c is the one after c earlier ones. */
  datatype Broker = Broker(
    initial: map<Bytes, int>,       // held for this client id before everything
    forgets: nat -> bool,           // connection c starts without a session (section 3.1.2.4)
    arrived: nat -> nat,            // how many requests of connection c, now over, have reached it
    answers: nat -> Answers)
  {
    /** As a clean session has it. */
    ghost predicate Clean() { forall c :: forgets(c) }

    /** It keeps the session, nothing is lost, and it grants what it is asked for. */
    ghost predicate Willing(told: seq<seq<Told>>) {
      && initial == map[]
      && (forall c :: !forgets(c))
      && (forall c :: 0 <= c < |told| ==> arrived(c) >= |told[c]|)
      && (forall c :: 0 <= c < |told| ==> GrantsAll(told[c], answers(c)))
    }
  }

  ghost predicate GrantsAll(told: seq<Told>, answers: Answers) {
    forall n: nat :: n < |told| && told[n].ToldSubscribe? ==> answers(n) == Some(told[n].qos)
  }

  /** One request more: a refused SUBSCRIBE leaves what is held as it is. */
  function AfterAnswer(held: map<Bytes, int>, m: Told, answer: Option<int>): map<Bytes, int> {
    match m
    case ToldSubscribe(_, topic, _) => if answer.Some? then held[topic := answer.value] else held
    case ToldUnsubscribe(_, topic) => held - {topic}
  }

  /** What is held after these requests, if the connection began with `kept`. */
  function HeldFrom(kept: map<Bytes, int>, told: seq<Told>, answers: Answers): map<Bytes, int> {
    if told == [] then kept
    else
      var n := |told| - 1;
      AfterAnswer(HeldFrom(kept, told[..n], answers), told[n], answers(n))
  }

  /** The requests of a connection that reached the broker. */
  function Arrived(told: seq<Told>, count: nat): seq<Told> { if count < |told| then told[..count] else told }

  /** What the connection after these began with. */
  function Kept(b: Broker, earlier: seq<seq<Told>>): map<Bytes, int> {
    if b.forgets(|earlier|) then map[]
    else if earlier == [] then b.initial
    else
      var c := |earlier| - 1;
      HeldFrom(Kept(b, earlier[..c]), Arrived(earlier[c], b.arrived(c)), b.answers(c))
  }

  /** What the broker holds when it has read all that was told on the current connection. */
  function HeldBy(b: Broker, s: State): map<Bytes, int> {
    HeldFrom(Kept(b, s.earlier), s.told, b.answers(|s.earlier|))
  }

  /** The last request about a topic. */
  function LastAbout(told: seq<Told>, t: Bytes): (r: Option<nat>)
    ensures r.Some? ==> r.value < |told| && told[r.value].topic == t
    ensures forall i :: (if r.Some? then r.value + 1 else 0) <= i < |told| ==> told[i].topic != t
  {
    if told == [] then None
    else if told[|told| - 1].topic == t then Some(|told| - 1)
    else LastAbout(told[..|told| - 1], t)
  }

  /** It alone decides what was told about the topic. */
  lemma {:induction false} ToldAt(told: seq<Told>, t: Bytes)
    ensures match LastAbout(told, t)
      case None => t !in View(told)
      case Some(n) =>
        if told[n].ToldSubscribe? then t in View(told) && View(told)[t] == told[n].qos else t !in View(told)
  {
    if told != [] && told[|told| - 1].topic != t {
      ToldAt(told[..|told| - 1], t);
    }
  }

  /** And, with its answer, what is held; a refused one leaves what was held before it. */
  lemma {:induction false} HeldAt(kept: map<Bytes, int>, told: seq<Told>, answers: Answers, t: Bytes)
    ensures var held := HeldFrom(kept, told, answers);
      match LastAbout(told, t)
      case None => Same(held, kept, t)
      case Some(n) =>
        if told[n].ToldUnsubscribe? then t !in held
        else if answers(n).None? then Same(held, HeldFrom(kept, told[..n], answers), t)
        else t in held && held[t] == answers(n).value
  {
    if told != [] {
      var n := |told| - 1;
      if told[n].topic != t {
        HeldAt(kept, told[..n], answers, t);
        if LastAbout(told[..n], t).Some? {
          assert told[..n][..LastAbout(told[..n], t).value] == told[..LastAbout(told[..n], t).value];
        }
      }
    }
  }

  /** When a broker that began the connection with `kept` and gives these answers agrees with the table
      about a topic. One in the table: the last request about it was granted the table's QoS, or it was
      refused and what was held before is the same. One not in the table: if nothing was told of it on
      this connection, it was not kept; else the last request was an UNSUBSCRIBE, or it was refused and
      nothing was held before. */
  predicate Agrees(s: State, kept: map<Bytes, int>, answers: Answers, t: Bytes) {
    var last := LastAbout(s.told, t);
    if last.None? then t !in s.table && t !in kept
    else
      var n := last.value;
      var before := HeldFrom(kept, s.told[..n], answers);
      if t in s.table then
        answers(n) == Some(s.table[t]) || (answers(n).None? && Same(s.table, before, t))
      else
        s.told[n].ToldUnsubscribe? || (answers(n).None? && t !in before)
  }

  /** Over every run and whatever the broker keeps, refuses or lowers, that is the exact condition for a
      topic without a call under way. The table's topics were last told with the table's QoS; and a
      topic not in it was last told by a SUBSCRIBE if and only if a drop is left standing. */
  lemma BrokerAgreesIff(states: seq<State>, steps: seq<Step>, b: Broker, t: Bytes)
    requires IsRun(states, steps) && t !in states[|steps|].calls
    requires states[|steps|].conn == Connected && states[|steps|].resubscribed
    ensures var s := states[|steps|];
      var last := LastAbout(s.told, t);
      && (Same(s.table, HeldBy(b, s), t) <==> Agrees(s, Kept(b, s.earlier), b.answers(|s.earlier|), t))
      && (t in s.table ==> last.Some? && s.told[last.value].ToldSubscribe? && s.told[last.value].qos == s.table[t])
      && (t !in s.table ==> (last.Some? && s.told[last.value].ToldSubscribe? <==> LeftStanding(states, steps, t)))
  {
    hide LeftStanding;
    hide HeldFrom;
    hide Kept;
    hide View;
    hide Apply;
    hide Enabled;
    var s := states[|steps|];
    ToldAt(s.told, t);
    HeldAt(Kept(b, s.earlier), s.told, b.answers(|s.earlier|), t);
    NothingElseTold(states, steps, t);
    TableAgreesWithTold(states, steps, t);
  }

  /** A clean session keeps nothing. */
  lemma CleanKeepsNothing(b: Broker, earlier: seq<seq<Told>>)
    requires b.Clean()
    ensures Kept(b, earlier) == map[]
  {
  }

  /** So with a clean session, for a topic told only once on the connection: one in the table is held as
      stored if and only if that was granted its QoS, and a dropped one is gone if and only if it was
      refused. */
  lemma ToldOnceAgreesIff(states: seq<State>, steps: seq<Step>, b: Broker, t: Bytes, n: nat)
    requires IsRun(states, steps) && t !in states[|steps|].calls && b.Clean()
    requires states[|steps|].conn == Connected && states[|steps|].resubscribed
    requires n < |states[|steps|].told| && states[|steps|].told[n].topic == t
    requires forall i :: 0 <= i < |states[|steps|].told| && i != n ==> states[|steps|].told[i].topic != t
    requires states[|steps|].told[n].ToldSubscribe?
    ensures var s := states[|steps|];
      var answer := b.answers(|s.earlier|)(n);
      Same(s.table, HeldBy(b, s), t) <==> answer == if t in s.table then Some(s.table[t]) else None
  {
    hide LeftStanding;
    hide HeldFrom;
    hide Kept;
    hide Apply;
    hide Enabled;
    var s := states[|steps|];
    CleanKeepsNothing(b, s.earlier);
    BrokerAgreesIff(states, steps, b, t);
    HeldAt(Kept(b, s.earlier), s.told[..n], b.answers(|s.earlier|), t);
    assert LastAbout(s.told[..n], t).None?;
  }

  // ---- What an acknowledgement says ----

  /** The SUBACKs read since number `from` are the broker's answers to requests of this connection. */
  ghost predicate Acknowledges(b: Broker, s: State, from: nat) {
    forall k, n: nat :: from <= k < |s.subacks| && n < |s.told| && s.told[n].ToldSubscribe? && s.told[n].id == s.subacks[k].0 ==>
      b.answers(|s.earlier|)(n) == if s.subacks[k].1 == 0x80 then None else Some(s.subacks[k].1 as int)
  }

  /** No false confidence, over every run: if a subscribe was confirmed on this connection and its request
      is the last about the topic, the broker holds the topic, with the QoS of its SUBACK. That is not
      compared with the one asked for: if the table has the topic, the two agree if and only if the
      granted QoS is the table's. */
  lemma ConfirmedIsHeld(states: seq<State>, steps: seq<Step>, b: Broker, from: nat, i: nat, n: nat)
    requires IsRun(states, steps) && i < |states[|steps|].finished|
    requires states[|steps|].finished[i].outcome == Confirmed && states[|steps|].finished[i].call.request.Subscribing?
    requires Acknowledges(b, states[|steps|], from)
    requires var call := states[|steps|].finished[i].call; call.answer.Answered? ==> from <= call.answer.at
    requires LastAbout(states[|steps|].told, states[|steps|].finished[i].topic) == Some(n)
    requires var m := states[|steps|].told[n]; m.ToldSubscribe? && m.id == states[|steps|].finished[i].call.Id()
    ensures var s := states[|steps|];
      var f := s.finished[i];
      var held := HeldBy(b, s);
      && f.call.answer.Answered? && f.call.answer.at < |s.subacks|
      && f.topic in held && held[f.topic] == s.subacks[f.call.answer.at].1
      && (f.topic in s.table ==>
            (Same(s.table, held, f.topic) <==> s.subacks[f.call.answer.at].1 == s.table[f.topic]))
  {
    hide HeldFrom;
    hide Kept;
    hide Apply;
    hide Enabled;
    hide LastAbout;
    var s := states[|steps|];
    ConfirmedWasAcknowledged(states, steps, i);
    HeldAt(Kept(b, s.earlier), s.told, b.answers(|s.earlier|), s.finished[i].topic);
  }

  // ---- Brokers that grant everything ----

  lemma {:induction false} GrantedIsTold(kept: map<Bytes, int>, before: seq<Told>, told: seq<Told>, answers: Answers)
    requires GrantsAll(told, answers) && kept == View(before)
    ensures HeldFrom(kept, told, answers) == View(before + told)
  {
    if told == [] {
      assert before + told == before;
    } else {
      var n := |told| - 1;
      GrantedIsTold(kept, before, told[..n], answers);
      assert (before + told)[..|before + told| - 1] == before + told[..n];
      assert (before + told)[|before + told| - 1] == told[n];
    }
  }

  /** With a clean session what such a broker holds is what it was told, and it agrees with the table if
      and only if no drop is left standing. */
  lemma CleanAgreesIff(states: seq<State>, steps: seq<Step>, b: Broker, t: Bytes)
    requires IsRun(states, steps) && t !in states[|steps|].calls && b.Clean()
    requires states[|steps|].conn == Connected && states[|steps|].resubscribed
    requires GrantsAll(states[|steps|].told, b.answers(|states[|steps|].earlier|))
    ensures HeldBy(b, states[|steps|]) == View(states[|steps|].told)
    ensures Same(states[|steps|].table, HeldBy(b, states[|steps|]), t) <==> !LeftStanding(states, steps, t)
  {
    hide LeftStanding;
    hide Apply;
    hide Enabled;
    var s := states[|steps|];
    CleanKeepsNothing(b, s.earlier);
    GrantedIsTold(map[], [], s.told, b.answers(|s.earlier|));
    assert [] + s.told == s.told;
    TableAgreesWithTold(states, steps, t);
  }

  // ---- A session kept over all connections ----

  function Joined(connections: seq<seq<Told>>): seq<Told> {
    if connections == [] then []
    else Joined(connections[..|connections| - 1]) + connections[|connections| - 1]
  }

  /** Every request so far, on any connection. */
  function EverTold(s: State): seq<Told> { Joined(s.earlier) + s.told }

  lemma {:induction false} KeptIsTold(b: Broker, earlier: seq<seq<Told>>)
    requires b.Willing(earlier)
    ensures Kept(b, earlier) == View(Joined(earlier))
  {
    if earlier != [] {
      var c := |earlier| - 1;
      assert b.Willing(earlier[..c]);
      KeptIsTold(b, earlier[..c]);
      GrantedIsTold(Kept(b, earlier[..c]), Joined(earlier[..c]), earlier[c], b.answers(c));
    }
  }

  lemma WillingHolds(b: Broker, s: State)
    requires b.Willing(s.earlier + [s.told])
    ensures HeldBy(b, s) == View(EverTold(s))
  {
    var c := |s.earlier|;
    assert (s.earlier + [s.told])[c] == s.told;
    assert b.Willing(s.earlier) by {
      assert forall i :: 0 <= i < c ==> (s.earlier + [s.told])[i] == s.earlier[i];
    }
    KeptIsTold(b, s.earlier);
    GrantedIsTold(Kept(b, s.earlier), Joined(s.earlier), s.told, b.answers(c));
  }

  /** A drop of a topic that was ever told; a new connection does not mend it. */
  predicate DropsEver(s: State, step: Step, t: Bytes) {
    && (step == RollBack(t) || (step == Check(t) && s.conn != Connected && t in s.calls && s.calls[t].request == Unsubscribing))
    && t in View(EverTold(s))
  }

  predicate MendsEver(step: Step, t: Bytes) {
    (step.BeginSubscribe? && step.topic == t) || (step.Send? && step.topic == t)
  }

  ghost predicate LeftStandingEver(states: seq<State>, steps: seq<Step>, t: Bytes)
    requires |states| == |steps| + 1
  {
    exists i: nat :: i < |steps| && DropsEver(states[i], steps[i], t)
      && forall k :: i < k < |steps| ==> !MendsEver(steps[k], t)
  }

  /** The state as if there had been one connection only, with these orphans. */
  function AsOne(s: State, strays: set<Bytes>): State { s.(told := EverTold(s), orphans := strays) }

  /** The orphans of that after a step. */
  function StraysAfter(s: State, strays: set<Bytes>, step: Step): set<Bytes>
    requires Enabled(s, step)
  {
    if step.Open? then strays
    else
      EnabledAsOne(s, strays, step);
      Apply(AsOne(s, strays), step).orphans
  }

  lemma EnabledAsOne(s: State, strays: set<Bytes>, step: Step)
    requires Enabled(s, step)
    ensures Enabled(AsOne(s, strays), step)
  {
  }

  /** What is to be shown of a step, on the two sides. */
  ghost predicate Alike(s: State, strays: set<Bytes>, step: Step)
    requires Enabled(s, step) && !step.Open?
  {
    EnabledAsOne(s, strays, step);
    var one, s' := Apply(AsOne(s, strays), step), Apply(s, step);
    one == AsOne(s', one.orphans)
  }

  lemma EntryStepIsAlike(s: State, strays: set<Bytes>, step: Step)
    requires Enabled(s, step) && (step.Register? || step.EraseAck?)
    ensures Alike(s, strays, step)
  {
    hide Apply;
    hide EraseEntry;
    hide RegisterFresh;
    hide Resolve;
    hide View;
    var one, t := AsOne(s, strays), step.topic;
    EnabledAsOne(s, strays, step);
    EraseIs(s, t);
    EraseIs(one, t);
    if step.Register? {
      RegisterIs(s, t);
      RegisterIs(one, t);
      FreshIsAlike(EraseEntry(s, t), EraseEntry(one, t), t);
    } else {
      EraseAckIs(s, t);
      EraseAckIs(one, t);
    }
  }

  lemma FreshIsAlike(s: State, one: State, t: Bytes)
    requires t in s.calls && one == AsOne(s, one.orphans)
    ensures RegisterFresh(one, t) == AsOne(RegisterFresh(s, t), one.orphans)
  {
    hide View;
    hide Joined;
    var r, call := RegisterFresh(s, t), s.calls[t];
    assert EverTold(r) == EverTold(s);
    if call.request.Subscribing? {
      assert RegisterFresh(one, t).calls == r.calls;
    } else {
      assert RegisterFresh(one, t).calls == r.calls;
    }
  }

  lemma SettleStepIsAlike(s: State, strays: set<Bytes>, step: Step)
    requires Enabled(s, step) && (step.Suback? || step.Unsuback? || step.FailAllAcks?)
    ensures Alike(s, strays, step)
  {
    hide EraseEntry;
    hide RegisterFresh;
    hide GetAnswer;
    hide Resolve;
    hide Sever;
    hide View;
    hide ParsedSuback;
  }

  lemma CallStepIsAlike(s: State, strays: set<Bytes>, step: Step)
    requires Enabled(s, step) && (step.Check? || step.Get? || step.RollBack?)
    ensures Alike(s, strays, step)
  {
    hide Apply;
    hide View;
    hide Joined;
    var one, t := AsOne(s, strays), step.topic;
    EnabledAsOne(s, strays, step);
    if step.Check? {
      hide Dropped;
      CheckIs(s, t);
      CheckIs(one, t);
    } else if step.Get? {
      hide GetAnswer;
      GetIsAnswer(s, t);
      GetIsAnswer(one, t);
      AnswerIsAlike(s, one, t);
    } else {
      hide Dropped;
      RollBackIs(s, t);
      RollBackIs(one, t);
    }
  }

  lemma AnswerIsAlike(s: State, one: State, t: Bytes)
    requires t in s.calls && one == AsOne(s, one.orphans)
    ensures GetAnswer(one, t) == AsOne(GetAnswer(s, t), one.orphans) && GetAnswer(one, t).orphans == one.orphans
  {
    hide End;
    hide WithCall;
    hide AsOne;
    assert one.calls[t] == s.calls[t] by { SameCalls(s, one); }
    var call := s.calls[t];
    WithCallIsAlike(s, one, t, call.(pc := RollingBack(Rejected)));
    EndIsAlike(s, one, t, Confirmed);
    EndIsAlike(s, one, t, Threw);
  }

  lemma SameCalls(s: State, one: State)
    requires one == AsOne(s, one.orphans)
    ensures one.calls == s.calls
  {
  }

  lemma WithCallIsAlike(s: State, one: State, t: Bytes, call: Call)
    requires one == AsOne(s, one.orphans)
    ensures WithCall(one, t, call) == AsOne(WithCall(s, t, call), one.orphans)
    ensures WithCall(one, t, call).orphans == one.orphans
  {
    hide Joined;
  }

  lemma EndIsAlike(s: State, one: State, t: Bytes, outcome: Outcome)
    requires t in s.calls && t in one.calls && one == AsOne(s, one.orphans)
    ensures End(one, t, outcome) == AsOne(End(s, t, outcome), one.orphans)
    ensures End(one, t, outcome).orphans == one.orphans
  {
    hide Joined;
  }

  lemma TellingStepIsAlike(s: State, strays: set<Bytes>, step: Step)
    requires Enabled(s, step) && (step.Send? || step.ResubSend?)
    ensures Alike(s, strays, step)
  {
    hide EraseEntry;
    hide RegisterFresh;
    hide GetAnswer;
    hide Resolve;
    hide Sever;
    hide View;
    hide ParsedSuback;
    hide Joined;
    var m := if step.Send? then ToldBy(step.topic, s.calls[step.topic])
             else ToldSubscribe(s.connector.id.grant.Id(), step.topic, s.table[step.topic]);
    assert Joined(s.earlier) + s.told + [m] == Joined(s.earlier) + (s.told + [m]);
  }

  lemma OtherStepIsAlike(s: State, strays: set<Bytes>, step: Step)
    requires Enabled(s, step) && !step.Open? && !step.Register? && !step.EraseAck? && !step.Send? && !step.ResubSend?
    requires !step.Suback? && !step.Unsuback? && !step.FailAllAcks? && !step.Check? && !step.Get? && !step.RollBack?
    ensures Alike(s, strays, step)
  {
    hide EraseEntry;
    hide RegisterFresh;
    hide GetAnswer;
    hide Resolve;
    hide Sever;
    hide View;
    hide ParsedSuback;
    hide Joined;
  }

  lemma StepIsAlike(s: State, strays: set<Bytes>, step: Step)
    requires Enabled(s, step) && !step.Open?
    ensures Alike(s, strays, step)
  {
    hide Alike;
    hide Apply;
    hide Enabled;
    match step
    case Register(_) => EntryStepIsAlike(s, strays, step);
    case EraseAck(_) => EntryStepIsAlike(s, strays, step);
    case Suback(_) => SettleStepIsAlike(s, strays, step);
    case Unsuback(_) => SettleStepIsAlike(s, strays, step);
    case FailAllAcks => SettleStepIsAlike(s, strays, step);
    case Check(_) => CallStepIsAlike(s, strays, step);
    case Get(_) => CallStepIsAlike(s, strays, step);
    case RollBack(_) => CallStepIsAlike(s, strays, step);
    case Send(_, _) => TellingStepIsAlike(s, strays, step);
    case ResubSend(_) => TellingStepIsAlike(s, strays, step);
    case _ => OtherStepIsAlike(s, strays, step);
  }

  lemma OpenAsOne(s: State, strays: set<Bytes>)
    requires Enabled(s, Open) && Inv(AsOne(s, strays))
    ensures Inv(AsOne(Apply(s, Open), strays))
  {
    hide Apply;
    hide Inv;
    hide View;
    hide Joined;
    OpenIs(s);
    var s' := Apply(s, Open);
    JoinedAppend(s.earlier, s.told);
    assert EverTold(s') == EverTold(s);
    OpeningKeepsInv(AsOne(s, strays), AsOne(s', strays));
  }

  lemma OpenIs(s: State)
    requires Enabled(s, Open)
    ensures Apply(s, Open) == s.(connector := Handshaking, told := [], earlier := s.earlier + [s.told], orphans := {})
  {
    hide View;
    hide EraseEntry;
    hide RegisterFresh;
    hide GetAnswer;
    hide Resolve;
    hide Sever;
    hide ParsedSuback;
  }

  lemma JoinedAppend(connections: seq<seq<Told>>, told: seq<Told>)
    ensures Joined(connections + [told]) == Joined(connections) + told
  {
    assert (connections + [told])[..|connections|] == connections;
  }

  lemma OpeningKeepsInv(s: State, s': State)
    requires Inv(s) && s.connector.Opening? && s'.connector.Handshaking?
    requires s'.calls == s.calls && s'.table == s.table && s'.told == s.told && s'.orphans == s.orphans
    requires s'.conn == s.conn && s'.resubscribed == s.resubscribed
    ensures Inv(s')
  {
    hide View;
  }

  lemma StepAsOne(s: State, strays: set<Bytes>, step: Step, t: Bytes)
    requires Enabled(s, step) && Inv(AsOne(s, strays))
    ensures var strays' := StraysAfter(s, strays, step);
      && Inv(AsOne(Apply(s, step), strays'))
      && (t in strays' <==> DropsEver(s, step, t) || (t in strays && !MendsEver(step, t)))
  {
    hide Inv;
    hide Apply;
    hide Enabled;
    hide View;
    if step.Open? {
      OpenAsOne(s, strays);
    } else {
      var one := AsOne(s, strays);
      EnabledAsOne(s, strays, step);
      StepKeepsInv(one, step);
      StepOrphans(one, step, t);
      StepIsAlike(s, strays, step);
    }
  }

  lemma {:induction false} RunAsOne(states: seq<State>, steps: seq<Step>, t: Bytes) returns (strays: set<Bytes>)
    requires IsRun(states, steps)
    ensures Inv(AsOne(states[|steps|], strays)) && (t in strays <==> LeftStandingEver(states, steps, t))
    decreases |steps|
  {
    hide Inv;
    hide Apply;
    hide Enabled;
    hide DropsEver;
    hide MendsEver;
    if |steps| == 0 {
      strays := {};
      FreshIsFine();
      assert AsOne(Fresh, {}) == Fresh;
    } else {
      var n := |steps| - 1;
      assert IsRun(states[..n + 1], steps[..n]);
      var before := RunAsOne(states[..n + 1], steps[..n], t);
      StepAsOne(states[n], before, steps[n], t);
      strays := StraysAfter(states[n], before, steps[n]);
      DropsEverAreNotMended(states[n], steps[n], t);
      StandingStep(states, steps, t);
    }
  }

  lemma DropsEverAreNotMended(s: State, step: Step, t: Bytes)
    ensures DropsEver(s, step, t) ==> !MendsEver(step, t)
  {
    hide View;
  }

  lemma StandingStep(states: seq<State>, steps: seq<Step>, t: Bytes)
    requires |states| == |steps| + 1 && steps != []
    requires var n := |steps| - 1; DropsEver(states[n], steps[n], t) ==> !MendsEver(steps[n], t)
    ensures var n := |steps| - 1;
      LeftStandingEver(states, steps, t)
      <==> DropsEver(states[n], steps[n], t) || (LeftStandingEver(states[..n + 1], steps[..n], t) && !MendsEver(steps[n], t))
  {
    hide DropsEver;
    hide MendsEver;
    var n := |steps| - 1;
    if LeftStandingEver(states[..n + 1], steps[..n], t) && !MendsEver(steps[n], t) {
      var i: nat :| i < n && DropsEver(states[..n + 1][i], steps[..n][i], t)
                    && forall k :: i < k < n ==> !MendsEver(steps[..n][k], t);
      assert DropsEver(states[i], steps[i], t);
      assert forall k :: i < k < n ==> steps[..n][k] == steps[k];
    }
    if LeftStandingEver(states, steps, t) && !DropsEver(states[n], steps[n], t) {
      var i: nat :| i < |steps| && DropsEver(states[i], steps[i], t)
                    && forall k :: i < k < |steps| ==> !MendsEver(steps[k], t);
      assert DropsEver(states[..n + 1][i], steps[..n][i], t);
    }
  }

  /** With a session kept over all connections, by a broker that grants what it is asked and gets all that
      is sent: it agrees with the table if and only if no drop is left standing from any connection; a
      reconnect mends none. */
  lemma PersistentAgreesIff(states: seq<State>, steps: seq<Step>, b: Broker, t: Bytes)
    requires IsRun(states, steps) && t !in states[|steps|].calls
    requires states[|steps|].conn == Connected && states[|steps|].resubscribed
    requires b.Willing(states[|steps|].earlier + [states[|steps|].told])
    ensures Same(states[|steps|].table, HeldBy(b, states[|steps|]), t) <==> !LeftStandingEver(states, steps, t)
  {
    hide LeftStandingEver;
    hide Apply;
    hide Enabled;
    hide View;
    hide Joined;
    var s := states[|steps|];
    var strays := RunAsOne(states, steps, t);
    WillingHolds(b, s);
    AsOneAgrees(s, strays, t);
  }

  lemma AsOneAgrees(s: State, strays: set<Bytes>, t: Bytes)
    requires Inv(AsOne(s, strays)) && s.conn == Connected && s.resubscribed && t !in s.calls
    ensures Same(s.table, View(EverTold(s)), t) <==> t !in strays
  {
    hide View;
    hide Joined;
  }
}
