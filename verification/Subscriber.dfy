/** The subscriber object: its shared fields and the code that changes them, each region proved to
    be a step of the machine, so that an object's whole history is one of the machine's runs. */
module Subscriber {
  import opened Prelude
  import opened PacketIds
  import opened PublishPacket
  import opened SubscribePackets
  import opened SubscriberModel
  import opened SubscriberProofs
  import Handshake

  /** A promise as its future sees it; `HasValue` is the return code of a SUBACK, or 0. */
  datatype PromiseValue = Unset | HasValue(code: byte) | Disconnect | Destroyed

  function ValueOf(a: Answer): PromiseValue {
    match a
    case Answered(code, _) => HasValue(code)
    case Severed => Disconnect
    case Abandoned => Destroyed
    case _ => Unset
  }

  ghost predicate Shows(promises: map<Bytes, PromiseValue>, calls: map<Bytes, Call>) {
    promises.Keys == calls.Keys && forall t :: t in calls ==> promises[t] == ValueOf(calls[t].answer)
  }

  /** What the receive thread does while an API call waits. */
  datatype Arrival = SubackRead(body: Bytes) | UnsubackRead(body: Bytes) | ConnectionBroke

  /** What an arrival gives the future of a waiting call with this id. */
  function ArrivalValue(subscribing: bool, a: Arrival, id: u16): (v: PromiseValue)
    ensures v != Destroyed
  {
    match a
    case ConnectionBroke => Disconnect
    case UnsubackRead(body) => if !subscribing && ParsePacketId(body) == id then HasValue(0) else Unset
    case SubackRead(body) =>
      match ParsedSuback(body)
      case Err(_) => Unset
      case Ok(info) =>
        if !subscribing || info.packetId != id then Unset
        else HasValue(if info.returnCodes == [] then 0x80 else info.returnCodes[0])
  }

  /** The outcome that the future's value gives. */
  function OutcomeOf(value: PromiseValue, subscribing: bool): Outcome {
    if value.HasValue? then (if subscribing && value.code == 0x80 then Rejected else Confirmed)
    else if subscribing && value.Disconnect? then Rejected
    else Threw
  }

  /** How a wait ends: the first arrival that settles the id decides, or it times out. */
  function Verdict(subscribing: bool, arrivals: seq<Arrival>, id: u16): (o: Outcome)
    ensures o in {Confirmed, Rejected, Threw, AckTimeout}
  {
    if arrivals == [] then AckTimeout
    else
      var v := ArrivalValue(subscribing, arrivals[0], id);
      if v == Unset then Verdict(subscribing, arrivals[1..], id) else OutcomeOf(v, subscribing)
  }

  /** What the future holds after a wait with this verdict. */
  predicate WaitGave(o: Outcome, value: PromiseValue, subscribing: bool) {
    o == if value == Unset then AckTimeout else OutcomeOf(value, subscribing)
  }

  lemma FirstValueDecides(subscribing: bool, arrivals: seq<Arrival>, id: u16)
    requires arrivals != [] && ArrivalValue(subscribing, arrivals[0], id) != Unset
    ensures WaitGave(Verdict(subscribing, arrivals, id), ArrivalValue(subscribing, arrivals[0], id), subscribing)
  {
    hide ArrivalValue;
  }

  /** This arrival settles the promise of a call with this id, by the bytes: a loss, or the acknowledgement
      of its kind with its id, the high byte first; an UNSUBACK too short for one has id 0. */
  predicate SettledBy(a: Arrival, subscribing: bool, id: u16) {
    match a
    case ConnectionBroke => true
    case SubackRead(body) => subscribing && |body| >= 3 && (body[0] as int) * 256 + body[1] as int == id
    case UnsubackRead(body) =>
      !subscribing && id == if |body| < 2 then 0 else (body[0] as int) * 256 + body[1] as int
  }

  /** The wait is ended by a loss of the connection. */
  ghost predicate LossEnds(arrivals: seq<Arrival>, subscribing: bool, id: u16) {
    exists k :: 0 <= k < |arrivals| && arrivals[k].ConnectionBroke?
      && forall j :: 0 <= j < k ==> !SettledBy(arrivals[j], subscribing, id)
  }

  /** Only a loss that ends the wait changes the connection state. */
  ghost function StateAfterWait(state: ConnectionState, sendOk: bool, arrivals: seq<Arrival>, subscribing: bool, id: u16)
    : ConnectionState
  {
    if state == Connected && sendOk && LossEnds(arrivals, subscribing, id) then Reconnecting else state
  }

  lemma SettlesIff(subscribing: bool, a: Arrival, id: u16)
    ensures SettledBy(a, subscribing, id) <==> ArrivalValue(subscribing, a, id) != Unset
  {
  }

  lemma {:induction false} VerdictSkips(subscribing: bool, arrivals: seq<Arrival>, id: u16, k: nat)
    requires k <= |arrivals| && forall j :: 0 <= j < k ==> !SettledBy(arrivals[j], subscribing, id)
    ensures Verdict(subscribing, arrivals, id) == Verdict(subscribing, arrivals[k..], id)
  {
    if k > 0 {
      SettlesIff(subscribing, arrivals[0], id);
      VerdictSkips(subscribing, arrivals[1..], id, k - 1);
      assert arrivals[1..][k - 1..] == arrivals[k..];
    } else {
      assert arrivals[0..] == arrivals;
    }
  }

  /** What a call that was sent returns, by the first arrival that settles it: a loss makes subscribe
      report a rejection and unsubscribe throw; the SUBACK's first code decides between rejection, for
      0x80, and Ok; an UNSUBACK is Ok. */
  lemma FirstSettlingDecides(request: Request, arrivals: seq<Arrival>, id: u16, k: nat)
    requires k < |arrivals| && SettledBy(arrivals[k], request.Subscribing?, id)
    requires forall j :: 0 <= j < k ==> !SettledBy(arrivals[j], request.Subscribing?, id)
    ensures Ending(request, Connected, true, arrivals, id) ==
      match arrivals[k]
      case ConnectionBroke => if request.Subscribing? then Rejected else Threw
      case SubackRead(body) => if body[2] == 0x80 then Rejected else Confirmed
      case UnsubackRead(_) => Confirmed
  {
    VerdictSkips(request.Subscribing?, arrivals, id, k);
    assert arrivals[k..][0] == arrivals[k];
  }

  /** And it times out if none does. */
  lemma NoneSettles(request: Request, arrivals: seq<Arrival>, id: u16)
    requires forall j :: 0 <= j < |arrivals| ==> !SettledBy(arrivals[j], request.Subscribing?, id)
    ensures Ending(request, Connected, true, arrivals, id) == AckTimeout
  {
    VerdictSkips(request.Subscribing?, arrivals, id, |arrivals|);
  }

  lemma ResolveShows(promises: map<Bytes, PromiseValue>, calls: map<Bytes, Call>, pending: AckMap, id: u16,
                     answer: Answer, subscribing: bool)
    requires Shows(promises, calls) && EntriesPending(calls, pending, subscribing)
    ensures Shows(if id in pending then promises[pending[id].0 := ValueOf(answer)] else promises,
                  Resolve(calls, pending, id, answer))
    ensures id in pending ==> pending[id].0 in promises
  {
  }

  /** Nothing but promises, ids and acknowledgement maps changes. */
  predicate Quiet(s: State, s': State) {
    && s'.conn == s.conn && s'.table == s.table && s'.connector == s.connector && s'.told == s.told
    && s'.resubscribed == s.resubscribed && s'.orphans == s.orphans && s'.calls.Keys == s.calls.Keys
    && s'.finished == s.finished
  }

  /** The machine has recorded one more finished call, about this topic and with this outcome. */
  predicate EndsAs(before: seq<Finished>, after: seq<Finished>, t: Bytes, o: Outcome) {
    && |after| == |before| + 1 && after[..|before|] == before
    && after[|before|].topic == t && after[|before|].outcome == o
  }

  lemma SettleIsQuiet(s: State, step: Step)
    requires Enabled(s, step) && (step.Suback? || step.Unsuback? || step.FailAllAcks?)
    ensures Quiet(s, Apply(s, step))
  {
  }

  /** The promises after `pending[id] = promise` for a call on `topic`. */
  function Replaced(promises: map<Bytes, PromiseValue>, pending: AckMap, id: u16, topic: Bytes): map<Bytes, PromiseValue> {
    (if id in pending then promises[pending[id].0 := Destroyed] else promises)[topic := Unset]
  }

  lemma RegisterShows(promises: map<Bytes, PromiseValue>, s: State, t: Bytes)
    requires AckInv(s) && Enabled(s, Register(t)) && Shows(promises, s.calls)
    ensures var subscribing, id := s.calls[t].request.Subscribing?, s.calls[t].Id();
      Shows(Replaced(promises, if subscribing then s.pendingSubacks else s.pendingUnsubacks, id, t),
            Apply(s, Register(t)).calls)
  {
    hide Apply;
    hide RegisterFresh;
    hide EraseEntry;
    hide CallAck;
    hide PendingMapped;
    hide Resolve;
    RegisterIs(s, t);
    EraseIs(s, t);
    var subscribing, id := s.calls[t].request.Subscribing?, s.calls[t].Id();
    var mine := if subscribing then s.pendingSubacks else s.pendingUnsubacks;
    ResolveShows(promises, s.calls, mine, id, Abandoned, subscribing);
    FreshShows(if id in mine then promises[mine[id].0 := Destroyed] else promises, EraseEntry(s, t), t);
  }

  lemma FreshShows(promises: map<Bytes, PromiseValue>, s: State, t: Bytes)
    requires t in s.calls && Shows(promises, s.calls)
    ensures Shows(promises[t := Unset], RegisterFresh(s, t).calls)
  {
  }

  /** The id that an undisturbed allocation gives: 0 is passed over. */
  function NextId(counter: u16): u16 { if counter == 0 then 1 else counter }

  /** How a call ends that nothing but its own packets' fate concerns. */
  function Ending(request: Request, conn: ConnectionState, sendOk: bool, arrivals: seq<Arrival>, id: u16): Outcome {
    if conn != Connected then NotSent
    else if !sendOk then SendError
    else Verdict(request.Subscribing?, arrivals, id)
  }

  /** A subscribe() that fails takes its table entry back. */
  predicate TakesEntryBack(request: Request, o: Outcome) { request.Subscribing? && o in {SendError, Rejected} }

  function ToldFor(request: Request, topic: Bytes, id: u16): Told {
    match request
    case Subscribing(qos) => ToldSubscribe(id, topic, qos)
    case Unsubscribing => ToldUnsubscribe(id, topic)
  }

  /** The connector after an increment for resubscribeAll. */
  function FetchedConnector(c: Connector, counter: nat): Connector
    requires c.Resubscribing?
  {
    match c.id
    case Again(origin) => c.(id := HasGrant(Grant(origin, counter)))
    case _ => c.(id := if IdOf(counter) == 0 then Again(counter) else HasGrant(Grant(counter, counter)))
  }

  lemma ResubFetchIs(s: State)
    requires Enabled(s, ResubFetch)
    ensures Apply(s, ResubFetch)
         == s.(connector := FetchedConnector(s.connector, s.counter), counter := s.counter + 1)
  {
    hide Resolve;
    hide Sever;
    hide EraseEntry;
    hide RegisterFresh;
    hide GetAnswer;
    hide View;
    hide ParsedSuback;
  }

  lemma BeginIs(s: State, t: Bytes, request: Request)
    requires t !in s.calls && s.connector.Idle?
    ensures var step := if request.Subscribing? then BeginSubscribe(t, request.qos) else BeginUnsubscribe(t);
      && Enabled(s, step)
      && var s' := Apply(s, step);
         s' == WithCall(s, t, Call(request, s.nextUid, Stored, Grant(0, 0), Unmade, 0))
           .(table := if request.Subscribing? then s.table[t := request.qos] else s.table - {t},
             nextUid := s.nextUid + 1, orphans := s'.orphans)
  {
    hide Resolve;
    hide Sever;
    hide EraseEntry;
    hide RegisterFresh;
    hide GetAnswer;
    hide View;
    hide ParsedSuback;
  }

  lemma BeginShows(promises: map<Bytes, PromiseValue>, calls: map<Bytes, Call>, t: Bytes, request: Request, uid: nat)
    requires Shows(promises, calls)
    ensures Shows(promises[t := Unset], calls[t := Call(request, uid, Stored, Grant(0, 0), Unmade, 0)])
  {
  }

  lemma SendIs(s: State, t: Bytes, ok: bool)
    requires Enabled(s, Send(t, ok))
    ensures Apply(s, Send(t, ok)) == WithCall(s, t, s.calls[t].(pc := if ok then Waiting else SendFailed))
        .(told := s.told + [ToldFor(s.calls[t].request, t, s.calls[t].Id())], orphans := s.orphans - {t})
  {
  }

  lemma TimeoutIs(s: State, t: Bytes)
    requires Enabled(s, Timeout(t))
    ensures Apply(s, Timeout(t)) == WithCall(s, t, s.calls[t].(pc := TimedOut))
  {
  }

  lemma GetIs(s: State, t: Bytes)
    requires Enabled(s, Get(t)) && s.calls[t].answer != Unmade
    ensures var request, s' := s.calls[t].request, Apply(s, Get(t));
      var o := OutcomeOf(ValueOf(s.calls[t].answer), request.Subscribing?);
      if TakesEntryBack(request, o) then s' == WithCall(s, t, s.calls[t].(pc := RollingBack(o)))
      else s' == End(s, t, o)
  {
  }

  predicate Names(pending: AckMap, t: Bytes) { exists id :: id in pending && pending[id].0 == t }

  lemma SeverShows(promises: map<Bytes, PromiseValue>, calls: map<Bytes, Call>, subs: AckMap, unsubs: AckMap,
                   ps: map<Bytes, PromiseValue>)
    requires Shows(promises, calls) && EntriesPending(calls, subs, true) && EntriesPending(calls, unsubs, false)
    requires ps.Keys == promises.Keys
    requires forall t :: t in ps ==>
      ps[t] == if Names(unsubs, t) || Names(subs, t) then Disconnect else promises[t]
    ensures Shows(ps, Sever(calls, subs.Values + unsubs.Values))
  {
    forall t | t in calls
      ensures (t, calls[t].uid) in subs.Values + unsubs.Values <==> Names(unsubs, t) || Names(subs, t)
    {
    }
  }

  /** A request for a topic with the table's QoS and an id that is not 0. */
  predicate TellsStored(m: Told, table: map<Bytes, int>) {
    m.ToldSubscribe? && m.id != 0 && m.topic in table && m.qos == table[m.topic]
  }

  ghost predicate TopicsDiffer(news: seq<Told>) {
    forall i, j :: 0 <= i < j < |news| ==> news[i].topic != news[j].topic
  }

  /** Their topics are exactly these. */
  ghost predicate TopicsAre(news: seq<Told>, topics: set<Bytes>) {
    && (forall i :: 0 <= i < |news| ==> news[i].topic in topics)
    && (forall t :: t in topics ==> exists i :: 0 <= i < |news| && news[i].topic == t)
  }

  /** These requests name each of the topics once, as stored. */
  ghost predicate TellEachOnce(news: seq<Told>, table: map<Bytes, int>, topics: set<Bytes>) {
    && (forall i :: 0 <= i < |news| ==> TellsStored(news[i], table))
    && TopicsDiffer(news) && TopicsAre(news, topics)
  }

  lemma NothingTold(table: map<Bytes, int>)
    ensures TellEachOnce([], table, {})
  {
  }

  lemma TellOneMore(news: seq<Told>, table: map<Bytes, int>, topics: set<Bytes>, t: Bytes, id: u16)
    requires TellEachOnce(news, table, topics) && t !in topics && t in table && id != 0
    ensures TellEachOnce(news + [ToldSubscribe(id, t, table[t])], table, topics + {t})
  {
    hide TopicsDiffer;
    hide TopicsAre;
    OneMoreTopic(news, topics, ToldSubscribe(id, t, table[t]));
  }

  lemma OneMoreTopic(news: seq<Told>, topics: set<Bytes>, m: Told)
    requires TopicsDiffer(news) && TopicsAre(news, topics) && m.topic !in topics
    ensures TopicsDiffer(news + [m]) && TopicsAre(news + [m], topics + {m.topic})
  {
    var all := news + [m];
    forall u | u in topics + {m.topic} ensures exists i :: 0 <= i < |all| && all[i].topic == u {
      if u == m.topic {
        assert all[|news|].topic == u;
      } else {
        var i :| 0 <= i < |news| && news[i].topic == u;
        assert all[i] == news[i];
      }
    }
  }

  class MqttSubscriber {
    var state: ConnectionState
    var nextPacketId: u16
    var subscriptions: map<Bytes, int>
    var pendingSubacks: AckMap
    var pendingUnsubacks: AckMap
    var promises: map<Bytes, PromiseValue>   // of the call under way on each topic
    var nextHandle: nat                      // tells promises apart

    ghost var states: seq<State>
    ghost var steps: seq<Step>

    /** The machine's state that the fields are. */
    ghost function Model(): State
      reads this
      requires |states| == |steps| + 1
    {
      states[|steps|]
    }

    ghost predicate Valid(): (v: bool)
      reads this
      ensures v ==>
        |states| == |steps| + 1 && state == Model().conn && subscriptions == Model().table
    {
      && |states| == |steps| + 1 && IsRun(states, steps)
      && Inv(Model()) && AckInv(Model())
      && state == Model().conn
      && nextPacketId == IdOf(Model().counter)
      && subscriptions == Model().table
      && pendingSubacks == Model().pendingSubacks
      && pendingUnsubacks == Model().pendingUnsubacks
      && Shows(promises, Model().calls)
      && nextHandle == Model().nextUid
    }

    ghost predicate Stepped(before: State, step: Step)
      reads this
    {
      Valid() && Enabled(before, step) && Model() == Apply(before, step)
    }

    constructor ()
      ensures Valid() && Model() == Fresh
    {
      state, nextPacketId, subscriptions := Disconnected, 1, map[];
      pendingSubacks, pendingUnsubacks, promises, nextHandle := map[], map[], map[], 0;
      states, steps := [Fresh], [];
    }

    ghost method Advance(step: Step)
      requires |states| == |steps| + 1 && IsRun(states, steps)
      requires Inv(Model()) && AckInv(Model()) && Enabled(Model(), step)
      modifies `states, `steps
      ensures |states| == |steps| + 1 && IsRun(states, steps)
      ensures Inv(Model()) && AckInv(Model()) && Model() == Apply(old(Model()), step)
    {
      hide Inv;
      hide AckInv;
      hide Apply;
      hide Enabled;
      StepKeepsInv(Model(), step);
      StepKeepsAcks(Model(), step);
      ghost var next := Apply(Model(), step);
      ghost var was, done := states, steps;
      states, steps := states + [next], steps + [step];
      forall i | 0 <= i < |steps|
        ensures Enabled(states[i], steps[i]) && states[i + 1] == Apply(states[i], steps[i])
      {
        if i < |done| {
          assert states[i] == was[i] && states[i + 1] == was[i + 1] && steps[i] == done[i];
        }
      }
    }

    // ---- Regions under one mutex and single atomic operations ----

    method TransitionState(s: ConnectionState)
      requires Valid() && s != Connected
      modifies this
      ensures Stepped(old(Model()), Leave(s))
    {
      hide Inv;
      hide AckInv;
      state := s;
      Advance(Leave(s));
    }

    /** The receive loop's SUBACK case. */
    method OnSuback(body: Bytes)
      requires Valid()
      modifies this
      ensures Stepped(old(Model()), Suback(body))
    {
      hide Sever;
      hide EraseEntry;
      hide RegisterFresh;
      hide GetAnswer;
      hide View;
      hide Inv;
      hide IsRun;
      hide CallsAck;
      hide EntriesPending;
      hide PendingMapped;
      hide ResultsAck;
      ghost var before := Model();
      var r := ParsedSuback(body);
      if r.Ok? {
        var id := r.value.packetId;
        var rc := if r.value.returnCodes == [] then 0x80 else r.value.returnCodes[0];
        ResolveShows(promises, before.calls, before.pendingSubacks, id, Answered(rc, |before.subacks|), true);
        if id in pendingSubacks {
          promises := promises[pendingSubacks[id].0 := HasValue(rc)];
          pendingSubacks := pendingSubacks - {id};
        }
        assert pendingSubacks == before.pendingSubacks - {id};
      }
      Advance(Suback(body));
    }

    /** The receive loop's UNSUBACK case. */
    method OnUnsuback(body: Bytes)
      requires Valid()
      modifies this
      ensures Stepped(old(Model()), Unsuback(body))
    {
      hide Sever;
      hide EraseEntry;
      hide RegisterFresh;
      hide GetAnswer;
      hide View;
      hide Inv;
      hide IsRun;
      hide CallsAck;
      hide EntriesPending;
      hide PendingMapped;
      hide ResultsAck;
      ghost var before := Model();
      var id := ParsePacketId(body);
      ResolveShows(promises, before.calls, before.pendingUnsubacks, id, Answered(0, |before.unsubacks|), false);
      if id in pendingUnsubacks {
        promises := promises[pendingUnsubacks[id].0 := HasValue(0)];
        pendingUnsubacks := pendingUnsubacks - {id};
      }
      assert pendingUnsubacks == before.pendingUnsubacks - {id};
      Advance(Unsuback(body));
    }

    /** failAllAcks: both maps' promises are settled, then the maps are emptied. */
    method FailAll()
      requires Valid()
      modifies this
      ensures Stepped(old(Model()), FailAllAcks)
    {
      hide Inv;
      hide IsRun;
      hide CallsAck;
      hide PendingMapped;
      hide ResultsAck;
      ghost var before := Model();
      var first := SettleAll(pendingSubacks, promises);
      var second := SettleAll(pendingUnsubacks, first);
      SeverShows(promises, before.calls, pendingSubacks, pendingUnsubacks, second);
      promises := second;
      pendingSubacks, pendingUnsubacks := map[], map[];
      Advance(FailAllAcks);
    }

    static method SettleAll(pending: AckMap, promises: map<Bytes, PromiseValue>) returns (ps: map<Bytes, PromiseValue>)
      requires forall id :: id in pending ==> pending[id].0 in promises
      ensures ps.Keys == promises.Keys
      ensures forall t :: t in ps ==> ps[t] == if Names(pending, t) then Disconnect else promises[t]
    {
      ps := promises;
      var ids := pending.Keys;
      while ids != {}
        invariant ids <= pending.Keys && ps.Keys == promises.Keys
        invariant forall id :: id in pending.Keys - ids ==> ps[pending[id].0] == Disconnect
        invariant forall t :: t in ps && !Names(pending, t) ==> ps[t] == promises[t]
        decreases |ids|
      {
        var id :| id in ids;
        ps := ps[pending[id].0 := Disconnect];
        ids := ids - {id};
      }
    }

    // ---- connect and resubscribeAll ----

    method FetchForResubscribe() returns (id: u16)
      requires Valid() && Enabled(Model(), ResubFetch)
      modifies this
      ensures Valid() && id == old(nextPacketId) == IdOf(old(Model()).counter) && nextPacketId == IdOf(old(Model()).counter + 1)
      ensures Model() == old(Model()).(connector := FetchedConnector(old(Model()).connector, old(Model()).counter),
                                       counter := old(Model()).counter + 1)
    {
      hide Inv;
      hide AckInv;
      hide IsRun;
      hide Shows;
      hide Apply;
      ResubFetchIs(Model());
      id := nextPacketId;
      nextPacketId := (nextPacketId + 1) % 0x1_0000;
      Advance(ResubFetch);
    }

    /** allocPacketId for resubscribeAll: undisturbed, never 0. */
    method AllocForResubscribe() returns (id: u16)
      requires Valid() && Model().connector.Resubscribing? && Model().connector.todo != {} && Model().connector.id.NoId?
      modifies this
      ensures Valid() && id != 0
      ensures Model() == old(Model()).(connector := Model().connector, counter := Model().counter)
      ensures Model().connector.Resubscribing? && Model().connector.todo == old(Model()).connector.todo
      ensures Model().connector.id.HasGrant? && Model().connector.id.grant.Id() == id
    {
      hide Valid;
      hide Inv;
      hide AckInv;
      hide IsRun;
      hide Shows;
      hide Apply;
      hide View;
      id := FetchForResubscribe();
      if id == 0 { id := FetchForResubscribe(); }
    }

    /** One turn of resubscribeAll's loop; what the send returns is not looked at. */
    method ResubscribeOne(topic: Bytes) returns (id: u16)
      requires Valid() && Model().connector.Resubscribing? && Model().connector.id.NoId?
      requires topic in Model().connector.todo && topic in subscriptions
      modifies this
      ensures Valid() && Model().connector == Resubscribing(old(Model()).connector.todo - {topic}, NoId)
      ensures state == old(state) && subscriptions == old(subscriptions) && Model().calls == old(Model()).calls
      ensures id != 0 && Model().told == old(Model()).told + [ToldSubscribe(id, topic, subscriptions[topic])]
    {
      hide Inv;
      hide AckInv;
      hide IsRun;
      hide Shows;
      id := AllocForResubscribe();
      Advance(ResubSend(topic));
    }

    /** One more topic of the pass that `told` was the start of. */
    method ResubscribeNext(topic: Bytes, ghost told: seq<Told>, ghost done: set<Bytes>)
      requires Valid() && Model().connector.Resubscribing? && Model().connector.id.NoId?
      requires topic in Model().connector.todo && topic in subscriptions && topic !in done
      requires told <= Model().told && TellEachOnce(Model().told[|told|..], subscriptions, done)
      modifies this
      ensures Valid() && Model().connector == Resubscribing(old(Model()).connector.todo - {topic}, NoId)
      ensures state == old(state) && subscriptions == old(subscriptions) && Model().calls == old(Model()).calls
      ensures told <= Model().told && TellEachOnce(Model().told[|told|..], subscriptions, done + {topic})
    {
      hide Valid;
      hide Inv;
      hide AckInv;
      hide IsRun;
      hide Shows;
      hide View;
      hide TellEachOnce;
      ghost var news := Model().told[|told|..];
      var id := ResubscribeOne(topic);
      TellOneMore(news, subscriptions, done, topic, id);
      assert Model().told[|told|..] == news + [ToldSubscribe(id, topic, subscriptions[topic])];
    }

    ghost method TakeTableLock()
      requires Valid() && Model().connector.Accepted?
      modifies `states, `steps
      ensures Stepped(old(Model()), ResubLock)
      ensures Model() == old(Model()).(connector := Resubscribing(subscriptions.Keys, NoId))
    {
      hide Inv;
      hide AckInv;
      Advance(ResubLock);
    }

    ghost method ReleaseTableLock()
      requires Valid() && Model().connector == Resubscribing({}, NoId)
      modifies `states, `steps
      ensures Stepped(old(Model()), ResubDone)
      ensures Model() == old(Model()).(connector := Idle, resubscribed := true)
      ensures forall t :: t in subscriptions ==> ToldAsStored(Model(), t)
    {
      hide AckInv;
      assert LoopCovers(Model());
      assert forall t :: t in subscriptions ==> ToldAsStored(Model(), t);
      Advance(ResubDone);
    }

    /** Every topic of the table is told to the broker once, whatever the sends return, while the
        shared lock keeps the table as it is. */
    method ResubscribeAll()
      requires Valid() && Model().connector.Accepted?
      modifies this
      ensures Valid() && Model().connector.Idle? && Model().resubscribed
      ensures state == old(state) && subscriptions == old(subscriptions) && Model().calls == old(Model()).calls
      ensures old(Model()).told <= Model().told
      ensures TellEachOnce(Model().told[|old(Model()).told|..], subscriptions, subscriptions.Keys)
      ensures forall t :: t in subscriptions ==> ToldAsStored(Model(), t)
    {
      hide Valid;
      hide Enabled;
      hide Apply;
      hide Inv;
      hide AckInv;
      hide IsRun;
      hide Shows;
      hide View;
      hide TellEachOnce;
      hide ToldAsStored;
      ghost var told := Model().told;
      TakeTableLock();
      var todo := subscriptions.Keys;
      NothingTold(subscriptions);
      assert Model().told[|told|..] == [] && subscriptions.Keys - todo == {};
      while todo != {}
        invariant Valid() && todo <= subscriptions.Keys
        invariant Model().connector == Resubscribing(todo, NoId)
        invariant state == old(state) && subscriptions == old(subscriptions) && Model().calls == old(Model()).calls
        invariant told <= Model().told
        invariant TellEachOnce(Model().told[|told|..], subscriptions, subscriptions.Keys - todo)
        decreases |todo|
      {
        var topic :| topic in todo;
        ResubscribeNext(topic, told, subscriptions.Keys - todo);
        assert subscriptions.Keys - (todo - {topic}) == subscriptions.Keys - todo + {topic};
        todo := todo - {topic};
      }
      assert subscriptions.Keys - todo == subscriptions.Keys;
      ReleaseTableLock();
    }

    /** connect from its opened transport on, with the answer it meets. */
    method FinishConnect(r: Handshake.ConnectResult)
      requires Valid() && Model().connector.Handshaking? && state == Connecting
      modifies this
      ensures Valid() && Model().connector.Idle?
      ensures subscriptions == old(subscriptions) && Model().calls == old(Model()).calls
      ensures r == Handshake.Success ==>
        && state == Connected && Model().resubscribed
        && old(Model()).told <= Model().told
        && TellEachOnce(Model().told[|old(Model()).told|..], subscriptions, subscriptions.Keys)
        && forall t :: t in subscriptions ==> ToldAsStored(Model(), t)
      ensures r == Handshake.Failure ==> state == ConnectionState.Failed
      ensures r == Handshake.Thrown ==> state == Connecting
    {
      hide Inv;
      hide AckInv;
      hide IsRun;
      hide Shows;
      hide View;
      if r == Handshake.Success {
        state := Connected;
        Advance(Accept);
        ResubscribeAll();
      } else {
        if r == Handshake.Failure { state := ConnectionState.Failed; }
        Advance(ConnectFail(r == Handshake.Thrown));
      }
    }

    /** Past the guard. */
    method StartConnect()
      requires Valid() && Model().connector.Idle? && state != Connected
      modifies this
      ensures Valid() && state == Connecting
      ensures Model() == old(Model()).(conn := Connecting, connector := Opening, resubscribed := false)
    {
      hide Inv;
      hide AckInv;
      hide IsRun;
      hide Shows;
      hide View;
      state := Connecting;
      Advance(ConnectStart);
    }

    /** The transport fails to open. */
    method AbandonConnect()
      requires Valid() && Model().connector.Opening?
      modifies this
      ensures Valid() && state == ConnectionState.Failed
      ensures Model() == old(Model()).(conn := ConnectionState.Failed, connector := Idle)
    {
      hide Inv;
      hide AckInv;
      hide IsRun;
      hide Shows;
      hide View;
      state := ConnectionState.Failed;
      Advance(ConnectFail(false));
    }

    /** The transport opens: nothing has been told on the new connection. */
    ghost method OpenConnection()
      requires Valid() && Model().connector.Opening?
      modifies `states, `steps
      ensures Valid()
      ensures Model() == old(Model()).(connector := Handshaking, told := [], orphans := {},
                                       earlier := old(Model()).earlier + [old(Model()).told])
    {
      hide Inv;
      hide AckInv;
      hide IsRun;
      hide Shows;
      hide View;
      Advance(Open);
    }

    /** One connect at a time: on success every topic of the table has been told to the broker on
        the new connection. */
    method Connect(a: Handshake.Attempt) returns (r: Handshake.ConnectResult)
      requires Valid() && Model().connector.Idle?
      modifies this
      ensures Valid() && Model().connector.Idle?
      ensures subscriptions == old(subscriptions) && Model().calls == old(Model()).calls
      ensures r == if old(state) == Connected then Handshake.Failure else Handshake.ResultOf(a)
      ensures r == Handshake.Success ==>
        && state == Connected && Model().resubscribed
        && TellEachOnce(Model().told, subscriptions, subscriptions.Keys)
        && forall t :: t in subscriptions ==> ToldAsStored(Model(), t)
      ensures old(state) != Connected && r == Handshake.Failure ==> state == ConnectionState.Failed
      ensures old(state) == Connected ==> Model() == old(Model())
      ensures r == Handshake.Thrown ==> state == Connecting
    {
      hide Valid;
      hide Enabled;
      hide Apply;
      hide Inv;
      hide AckInv;
      hide IsRun;
      hide Shows;
      hide View;
      hide TellEachOnce;
      hide ToldAsStored;
      if state == Connected { return Handshake.Failure; }
      StartConnect();
      if a.TransportFails? {
        AbandonConnect();
        return Handshake.Failure;
      }
      OpenConnection();
      r := Handshake.ResultOf(a);
      ghost var told := Model().told;
      FinishConnect(r);
      assert r == Handshake.Success ==> Model().told[|told|..] == Model().told;
    }

    // ---- subscribe and unsubscribe ----

    /** The table region at the start of either call. */
    method StoreRequest(topic: Bytes, request: Request)
      requires Valid() && topic !in Model().calls && Model().connector.Idle?
      modifies this
      ensures nextPacketId == old(nextPacketId)
      ensures Valid() && Model().connector.Idle?
      ensures Stepped(old(Model()), if request.Subscribing? then BeginSubscribe(topic, request.qos) else BeginUnsubscribe(topic))
      ensures subscriptions == if request.Subscribing? then old(subscriptions)[topic := request.qos] else old(subscriptions) - {topic}
      ensures var call := Call(request, old(nextHandle), Stored, Grant(0, 0), Unmade, 0);
        Model() == WithCall(old(Model()), topic, call)
          .(table := subscriptions, nextUid := nextHandle, orphans := Model().orphans)
    {
      hide Inv;
      hide AckInv;
      hide IsRun;
      hide Apply;
      hide Shows;
      hide Dropped;
      BeginIs(Model(), topic, request);
      BeginShows(promises, Model().calls, topic, request, nextHandle);
      promises := promises[topic := Unset];
      nextHandle := nextHandle + 1;
      if request.Subscribing? {
        subscriptions := subscriptions[topic := request.qos];
        Advance(BeginSubscribe(topic, request.qos));
      } else {
        subscriptions := subscriptions - {topic};
        Advance(BeginUnsubscribe(topic));
      }
    }

    method FetchAdd(topic: Bytes) returns (id: u16)
      requires Valid() && topic in Model().calls && Model().calls[topic].pc.Fetching?
      modifies this
      ensures Stepped(old(Model()), Fetch(topic)) && id == IdOf(old(Model()).counter)
    {
      hide Inv;
      hide AckInv;
      hide IsRun;
      id := nextPacketId;
      nextPacketId := (nextPacketId + 1) % 0x1_0000;
      Advance(Fetch(topic));
    }

    /** allocPacketId for a call: undisturbed, never 0. */
    method AllocPacketId(topic: Bytes) returns (id: u16)
      requires Valid() && topic in Model().calls && Model().calls[topic].pc == Fetching(false)
      modifies this
      ensures Valid() && id == NextId(old(nextPacketId)) && topic in Model().calls
      ensures var call := Model().calls[topic];
        && call == old(Model()).calls[topic].(pc := Allocated, grant := call.grant) && call.Id() == id
        && Model() == old(Model()).(calls := old(Model()).calls[topic := call], counter := Model().counter)
    {
      hide Inv;
      hide AckInv;
      hide IsRun;
      hide Shows;
      id := FetchAdd(topic);
      if id == 0 { id := FetchAdd(topic); }
    }

    /** `pendingSubacks[id]` or `pendingUnsubacks[id] = std::move(prom)`. */
    method RegisterPromise(topic: Bytes, id: u16, handle: nat, subscribing: bool)
      requires Valid() && topic in Model().calls && Model().calls[topic].pc.Allocated?
      requires Model().calls[topic].Id() == id && Model().calls[topic].uid == handle
      requires subscribing == Model().calls[topic].request.Subscribing?
      modifies this
      ensures Stepped(old(Model()), Register(topic)) && Quiet(old(Model()), Model())
      ensures var call := Model().calls[topic];
        call == old(Model()).calls[topic].(pc := SubscriberModel.Sending, answer := Pending, regAt := call.regAt)
    {
      hide Inv;
      hide AckInv;
      hide IsRun;
      hide Shows;
      hide EraseEntry;
      hide RegisterFresh;
      hide Apply;
      hide Resolve;
      ghost var before := Model();
      RegisterShows(promises, before, topic);
      RegisterIs(before, topic);
      EraseIs(before, topic);
      FreshIs(EraseEntry(before, topic), topic);
      CallOfErased(before, topic);
      promises := Replaced(promises, if subscribing then pendingSubacks else pendingUnsubacks, id, topic);
      assert (before.pendingSubacks - {id})[id := (topic, handle)] == before.pendingSubacks[id := (topic, handle)];
      assert (before.pendingUnsubacks - {id})[id := (topic, handle)] == before.pendingUnsubacks[id := (topic, handle)];
      if subscribing {
        pendingSubacks := pendingSubacks[id := (topic, handle)];
      } else {
        pendingUnsubacks := pendingUnsubacks[id := (topic, handle)];
      }
      Advance(Register(topic));
    }

    /** The map region after a failed send or a timed-out wait. */
    method TakeBack(topic: Bytes, id: u16, subscribing: bool, sendFailed: bool)
      requires Valid() && topic in Model().calls && Model().calls[topic].Id() == id
      requires Model().calls[topic].pc.SendFailed? || Model().calls[topic].pc.TimedOut?
      requires subscribing == Model().calls[topic].request.Subscribing? && sendFailed == Model().calls[topic].pc.SendFailed?
      modifies this
      ensures Stepped(old(Model()), EraseAck(topic))
      ensures subscribing && sendFailed ==> Quiet(old(Model()), Model()) && Model().calls[topic].pc == RollingBack(SendError)
      ensures !(subscribing && sendFailed) ==>
        Returned(old(Model()), Model(), topic, if sendFailed then SendError else AckTimeout)
    {
      hide Inv;
      hide AckInv;
      hide IsRun;
      hide Shows;
      hide EraseEntry;
      hide Apply;
      hide Resolve;
      hide View;
      TakeBackIs(promises, Model(), topic);
      var mine := if subscribing then pendingSubacks else pendingUnsubacks;
      if id in mine { promises := promises[mine[id].0 := Destroyed]; }
      if !(subscribing && sendFailed) { promises := promises - {topic}; }
      if subscribing { pendingSubacks := mine - {id}; } else { pendingUnsubacks := mine - {id}; }
      Advance(EraseAck(topic));
    }

    method HandleArrival(topic: Bytes, a: Arrival)
      requires Valid() && topic in Model().calls && Model().calls[topic].answer.Pending?
      modifies this
      ensures Valid() && Quiet(old(Model()).(conn := state), Model())
      ensures var was, call := old(Model()).calls[topic], Model().calls[topic];
        && call == was.(answer := call.answer)
        && topic in promises && promises[topic] == ValueOf(call.answer)
        && promises[topic] == ArrivalValue(was.request.Subscribing?, a, was.Id())
        && (call.answer.Pending? <==> promises[topic] == Unset)
      ensures state == if a.ConnectionBroke? then Reconnecting else old(state)
    {
      hide Inv;
      hide AckInv;
      hide IsRun;
      hide Shows;
      hide Apply;
      hide View;
      match a {
        case SubackRead(body) =>
          SubackEffect(Model(), body, topic);
          SettleIsQuiet(Model(), Suback(body));
          OnSuback(body);
        case UnsubackRead(body) =>
          UnsubackEffect(Model(), body, topic);
          SettleIsQuiet(Model(), Unsuback(body));
          OnUnsuback(body);
        case ConnectionBroke =>
          LeaveIs(Model(), Reconnecting);
          TransitionState(Reconnecting);
          FailAllEffect(Model(), topic);
          SettleIsQuiet(Model(), FailAllAcks);
          FailAll();
      }
      ShowsAt(topic);
    }

    /** The wait for the future, while the receive thread works through `arrivals`. */
    method AwaitAck(topic: Bytes, id: u16, arrivals: seq<Arrival>) returns (timedOut: bool)
      requires Valid() && topic in Model().calls
      requires Model().calls[topic].answer.Pending? && Model().calls[topic].Id() == id
      modifies this
      ensures Valid() && Quiet(old(Model()).(conn := state), Model())
      ensures var call := Model().calls[topic]; call == old(Model()).calls[topic].(answer := call.answer)
      ensures timedOut <==> Model().calls[topic].answer.Pending?
      ensures topic in promises && promises[topic] == ValueOf(Model().calls[topic].answer)
      ensures timedOut <==> promises[topic] == Unset
      ensures var subscribing := Model().calls[topic].request.Subscribing?;
        && WaitGave(Verdict(subscribing, arrivals, id), promises[topic], subscribing)
        && state == if LossEnds(arrivals, subscribing, id) then Reconnecting else old(state)
    {
      hide Inv;
      hide AckInv;
      hide IsRun;
      hide Shows;
      hide Apply;
      hide View;
      hide ArrivalValue;
      ghost var subscribing := Model().calls[topic].request.Subscribing?;
      var i := 0;
      while i < |arrivals|
        invariant i <= |arrivals|
        invariant Valid() && Quiet(old(Model()).(conn := state), Model())
        invariant Model().calls[topic] == old(Model()).calls[topic]
        invariant Verdict(subscribing, arrivals, id) == Verdict(subscribing, arrivals[i..], id)
        invariant state == old(state) && forall j :: 0 <= j < i ==> !SettledBy(arrivals[j], subscribing, id)
      {
        assert arrivals[i..][1..] == arrivals[i + 1..];
        SettlesIff(subscribing, arrivals[i], id);
        HandleArrival(topic, arrivals[i]);
        if promises[topic] != Unset {
          FirstValueDecides(subscribing, arrivals[i..], id);
          return false;
        }
        i := i + 1;
      }
      ShowsAt(topic);
      return true;
    }

    /** `if (!isConnected()) return ok;` */
    method CheckConnection(topic: Bytes) returns (connected: bool)
      requires Valid() && topic in Model().calls && Model().calls[topic].pc.Stored?
      modifies this
      ensures nextPacketId == old(nextPacketId)
      ensures Stepped(old(Model()), Check(topic)) && connected == (old(state) == Connected)
      ensures connected ==>
        Model() == WithCall(old(Model()), topic, old(Model()).calls[topic].(pc := Fetching(false)))
      ensures !connected ==>
        && subscriptions == old(subscriptions) && Model().calls.Keys == old(Model()).calls.Keys - {topic}
        && Model().told == old(Model()).told && Model().connector == old(Model()).connector
        && EndsAs(old(Model()).finished, Model().finished, topic, NotSent)
      ensures state == old(state)
    {
      hide Inv;
      hide AckInv;
      hide IsRun;
      hide Shows;
      hide Apply;
      CheckIs(Model(), topic);
      connected := state == Connected;
      if connected {
        MoveShows(promises, Model().calls, topic, Fetching(false));
      } else {
        EndShows(promises, Model().calls, topic);
        promises := promises - {topic};
      }
      Advance(Check(topic));
    }

    /** The region under the send lock, when the transport answers `sendOk`. */
    method SendPacket(topic: Bytes, sendOk: bool)
      requires Valid() && topic in Model().calls && Model().calls[topic].pc == SubscriberModel.Sending
      modifies this
      ensures Stepped(old(Model()), Send(topic, sendOk))
      ensures var before := old(Model()); var was := before.calls[topic];
        Model() == WithCall(before, topic, was.(pc := if sendOk then Waiting else SendFailed))
          .(told := before.told + [ToldFor(was.request, topic, was.Id())], orphans := before.orphans - {topic})
    {
      hide Inv;
      hide AckInv;
      hide IsRun;
      hide Shows;
      hide Apply;
      SendIs(Model(), topic, sendOk);
      MoveShows(promises, Model().calls, topic, if sendOk then Waiting else SendFailed);
      Advance(Send(topic, sendOk));
    }

    /** The wait gave up; the call is still registered. */
    method GiveUp(topic: Bytes)
      requires Valid() && topic in Model().calls && Model().calls[topic].pc.Waiting?
      requires Model().calls[topic].answer.Pending?
      modifies this
      ensures Stepped(old(Model()), Timeout(topic))
      ensures Model() == WithCall(old(Model()), topic, old(Model()).calls[topic].(pc := TimedOut))
    {
      hide Inv;
      hide AckInv;
      hide IsRun;
      hide Shows;
      hide Apply;
      TimeoutIs(Model(), topic);
      MoveShows(promises, Model().calls, topic, TimedOut);
      Advance(Timeout(topic));
    }

    /** `fut.get()` and what the call makes of it. */
    method TakeAnswer(topic: Bytes, subscribing: bool) returns (o: Outcome)
      requires Valid() && topic in Model().calls && Model().calls[topic].pc.Waiting?
      requires !Model().calls[topic].answer.Pending? && Model().calls[topic].answer != Unmade
      requires subscribing == Model().calls[topic].request.Subscribing?
      modifies this
      ensures Stepped(old(Model()), Get(topic))
      ensures o == OutcomeOf(ValueOf(old(Model()).calls[topic].answer), subscribing)
      ensures subscribing && o == Rejected ==>
        Model() == WithCall(old(Model()), topic, old(Model()).calls[topic].(pc := RollingBack(o)))
      ensures !(subscribing && o == Rejected) ==> Returned(old(Model()), Model(), topic, o)
    {
      hide Inv;
      hide AckInv;
      hide IsRun;
      hide Shows;
      hide Apply;
      GetIs(Model(), topic);
      ShowsAt(topic);
      o := OutcomeOf(promises[topic], subscribing);
      if subscribing && o == Rejected {
        MoveShows(promises, Model().calls, topic, RollingBack(o));
      } else {
        EndShows(promises, Model().calls, topic);
        promises := promises - {topic};
      }
      Advance(Get(topic));
    }

    /** `subscriptions.erase(topic)` after a failed send or a refusal. */
    method RollBackEntry(topic: Bytes)
      requires Valid() && topic in Model().calls && Model().calls[topic].pc.RollingBack? && Model().connector.Idle?
      modifies this
      ensures Stepped(old(Model()), RollBack(topic))
      ensures subscriptions == old(subscriptions) - {topic} && Model().calls.Keys == old(Model()).calls.Keys - {topic}
      ensures state == old(state) && Model().told == old(Model()).told && Model().connector == old(Model()).connector
      ensures EndsAs(old(Model()).finished, Model().finished, topic, old(Model()).calls[topic].pc.why)
    {
      hide Inv;
      hide AckInv;
      hide IsRun;
      hide Shows;
      hide Apply;
      RollBackIs(Model(), topic);
      EndShows(promises, Model().calls, topic);
      promises := promises - {topic};
      subscriptions := subscriptions - {topic};
      Advance(RollBack(topic));
    }

    /** A registered call from its send on: it returns, or is about to take its entry back. */
    method SendAndAwait(topic: Bytes, id: u16, subscribing: bool, sendOk: bool, arrivals: seq<Arrival>) returns (o: Outcome)
      requires Valid() && topic in Model().calls
      requires var call := Model().calls[topic];
        && call.pc == SubscriberModel.Sending && call.answer == Pending
        && call.Id() == id && subscribing == call.request.Subscribing?
      modifies this
      ensures Valid() && o == if sendOk then Verdict(subscribing, arrivals, id) else SendError
      ensures state == if sendOk && LossEnds(arrivals, subscribing, id) then Reconnecting else old(state)
      ensures var was := old(Model());
        && subscriptions == was.table && Model().connector == was.connector
        && Model().told == was.told + [ToldFor(was.calls[topic].request, topic, id)]
        && Model().calls.Keys == was.calls.Keys - (if TakesEntryBack(was.calls[topic].request, o) then {} else {topic})
        && (if TakesEntryBack(was.calls[topic].request, o) then Model().finished == was.finished
            else EndsAs(was.finished, Model().finished, topic, o))
      ensures TakesEntryBack(old(Model()).calls[topic].request, o) ==> Model().calls[topic].pc == RollingBack(o)
    {
      hide Valid;
      hide Enabled;
      hide Inv;
      hide AckInv;
      hide IsRun;
      hide Shows;
      hide Apply;
      hide View;
      hide Verdict;
      hide EraseEntry;
      SendPacket(topic, sendOk);
      if !sendOk {
        TakeBack(topic, id, subscribing, true);
        return SendError;
      }
      o := AwaitAndTake(topic, id, subscribing, arrivals);
    }

    /** A sent call's wait and what follows it. */
    method AwaitAndTake(topic: Bytes, id: u16, subscribing: bool, arrivals: seq<Arrival>) returns (o: Outcome)
      requires Valid() && topic in Model().calls
      requires var call := Model().calls[topic];
        call.pc.Waiting? && call.answer == Pending && call.Id() == id && subscribing == call.request.Subscribing?
      modifies this
      ensures Valid() && o == Verdict(subscribing, arrivals, id)
      ensures state == if LossEnds(arrivals, subscribing, id) then Reconnecting else old(state)
      ensures var was := old(Model());
        && subscriptions == was.table && Model().connector == was.connector && Model().told == was.told
        && Model().calls.Keys == was.calls.Keys - (if TakesEntryBack(was.calls[topic].request, o) then {} else {topic})
        && (if TakesEntryBack(was.calls[topic].request, o) then Model().finished == was.finished
            else EndsAs(was.finished, Model().finished, topic, o))
      ensures TakesEntryBack(old(Model()).calls[topic].request, o) ==> Model().calls[topic].pc == RollingBack(o)
    {
      hide Valid;
      hide Enabled;
      hide Inv;
      hide AckInv;
      hide IsRun;
      hide Shows;
      hide Apply;
      hide View;
      hide Verdict;
      hide EraseEntry;
      var timedOut := AwaitAck(topic, id, arrivals);
      if timedOut {
        GiveUp(topic);
        TakeBack(topic, id, subscribing, false);
        return AckTimeout;
      }
      o := TakeAnswer(topic, subscribing);
    }

    /** allocPacketId and the registration of the promise. */
    method Enlist(topic: Bytes, handle: nat, subscribing: bool) returns (id: u16)
      requires Valid() && topic in Model().calls
      requires var call := Model().calls[topic];
        call.pc == Fetching(false) && call.uid == handle && subscribing == call.request.Subscribing?
      modifies this
      ensures Valid() && Quiet(old(Model()), Model()) && id == NextId(old(nextPacketId))
      ensures var call := Model().calls[topic];
        && call.pc == SubscriberModel.Sending && call.answer == Pending && call.Id() == id
        && call.request == old(Model()).calls[topic].request
    {
      hide Valid;
      hide Enabled;
      hide Inv;
      hide AckInv;
      hide IsRun;
      hide Shows;
      hide Apply;
      id := AllocPacketId(topic);
      RegisterPromise(topic, id, handle, subscribing);
    }

    /** The table region and the look at the connection state. */
    method Begin(topic: Bytes, request: Request) returns (connected: bool)
      requires Valid() && topic !in Model().calls && Model().connector.Idle?
      modifies this
      ensures Valid() && Model().connector.Idle? && connected == (old(state) == Connected)
      ensures nextPacketId == old(nextPacketId) && Model().told == old(Model()).told
      ensures subscriptions == if request.Subscribing? then old(subscriptions)[topic := request.qos] else old(subscriptions) - {topic}
      ensures connected ==>
        && Model().calls.Keys == old(Model()).calls.Keys + {topic}
        && var call := Model().calls[topic]; call.pc == Fetching(false) && call.uid == old(nextHandle) && call.request == request
      ensures state == old(state) && (connected ==> Model().finished == old(Model()).finished)
      ensures !connected ==>
        Model().calls.Keys == old(Model()).calls.Keys && EndsAs(old(Model()).finished, Model().finished, topic, NotSent)
    {
      hide Valid;
      hide Enabled;
      hide Inv;
      hide AckInv;
      hide IsRun;
      hide Shows;
      hide Apply;
      hide View;
      StoreRequest(topic, request);
      connected := CheckConnection(topic);
    }

    /** What subscribe and unsubscribe share: everything up to the taking back of a table entry. */
    method Perform(topic: Bytes, request: Request, sendOk: bool, arrivals: seq<Arrival>) returns (o: Outcome)
      requires Valid() && topic !in Model().calls && Model().connector.Idle?
      modifies this
      ensures Valid() && Model().connector.Idle?
      ensures o == Ending(request, old(state), sendOk, arrivals, NextId(old(nextPacketId)))
      ensures subscriptions == if request.Subscribing? then old(subscriptions)[topic := request.qos] else old(subscriptions) - {topic}
      ensures Model().told == old(Model()).told +
        if o == NotSent then [] else [ToldFor(request, topic, NextId(old(nextPacketId)))]
      ensures Model().calls.Keys == old(Model()).calls.Keys + if TakesEntryBack(request, o) then {topic} else {}
      ensures TakesEntryBack(request, o) ==> Model().calls[topic].pc == RollingBack(o) && Model().finished == old(Model()).finished
      ensures !TakesEntryBack(request, o) ==> EndsAs(old(Model()).finished, Model().finished, topic, o)
      ensures o == NotSent <==> old(state) != Connected
      ensures o == SendError <==> old(state) == Connected && !sendOk
      ensures state == StateAfterWait(old(state), sendOk, arrivals, request.Subscribing?, NextId(old(nextPacketId)))
    {
      hide Valid;
      hide Enabled;
      hide Inv;
      hide AckInv;
      hide IsRun;
      hide Shows;
      hide Apply;
      hide View;
      hide Verdict;
      var handle := nextHandle;
      var connected := Begin(topic, request);
      if !connected { return NotSent; }
      var id := Enlist(topic, handle, request.Subscribing?);
      o := SendAndAwait(topic, id, request.Subscribing?, sendOk, arrivals);
    }

    /** The entry stays unless the send fails or the broker refuses; then it is gone even if an
        earlier subscription had put one there. */
    method Subscribe(topic: Bytes, qos: int, sendOk: bool, arrivals: seq<Arrival>) returns (o: Outcome)
      requires Valid() && topic !in Model().calls && Model().connector.Idle?
      modifies this
      ensures Valid() && Model().connector.Idle? && Model().calls.Keys == old(Model()).calls.Keys
      ensures o == Ending(Subscribing(qos), old(state), sendOk, arrivals, NextId(old(nextPacketId)))
      ensures EndsAs(old(Model()).finished, Model().finished, topic, o)
      ensures o == NotSent <==> old(state) != Connected
      ensures o == SendError <==> old(state) == Connected && !sendOk
      ensures state == StateAfterWait(old(state), sendOk, arrivals, true, NextId(old(nextPacketId)))
      ensures subscriptions ==
        if o in {SendError, Rejected} then old(subscriptions) - {topic} else old(subscriptions)[topic := qos]
      ensures Model().told == old(Model()).told +
        if o == NotSent then [] else [ToldSubscribe(NextId(old(nextPacketId)), topic, qos)]
    {
      hide Valid;
      hide Enabled;
      hide Inv;
      hide AckInv;
      hide IsRun;
      hide Shows;
      hide Apply;
      hide View;
      hide Verdict;
      o := Perform(topic, Subscribing(qos), sendOk, arrivals);
      if o == SendError || o == Rejected { RollBackEntry(topic); }
    }

    /** The entry is gone however the call ends. */
    method Unsubscribe(topic: Bytes, sendOk: bool, arrivals: seq<Arrival>) returns (o: Outcome)
      requires Valid() && topic !in Model().calls && Model().connector.Idle?
      modifies this
      ensures Valid() && Model().connector.Idle? && Model().calls.Keys == old(Model()).calls.Keys
      ensures o == Ending(Unsubscribing, old(state), sendOk, arrivals, NextId(old(nextPacketId)))
      ensures EndsAs(old(Model()).finished, Model().finished, topic, o)
      ensures o == NotSent <==> old(state) != Connected
      ensures o == SendError <==> old(state) == Connected && !sendOk
      ensures state == StateAfterWait(old(state), sendOk, arrivals, false, NextId(old(nextPacketId)))
      ensures subscriptions == old(subscriptions) - {topic}
      ensures Model().told == old(Model()).told +
        if o == NotSent then [] else [ToldUnsubscribe(NextId(old(nextPacketId)), topic)]
    {
      hide Valid;
      hide Enabled;
      hide Inv;
      hide AckInv;
      hide IsRun;
      hide Shows;
      hide Apply;
      hide View;
      hide Verdict;
      o := Perform(topic, Unsubscribing, sendOk, arrivals);
    }

    lemma ShowsAt(topic: Bytes)
      requires Valid() && topic in Model().calls
      ensures topic in promises && promises[topic] == ValueOf(Model().calls[topic].answer)
    {
    }
  }

  lemma LeaveIs(s: State, to: ConnectionState)
    requires Enabled(s, Leave(to))
    ensures Apply(s, Leave(to)) == s.(conn := to)
  {
  }

  /** All that TakeBack changes. */
  lemma TakeBackIs(promises: map<Bytes, PromiseValue>, s: State, t: Bytes)
    requires AckInv(s) && Enabled(s, EraseAck(t)) && Shows(promises, s.calls)
    ensures var subscribing, id := s.calls[t].request.Subscribing?, s.calls[t].Id();
      var mine := if subscribing then s.pendingSubacks else s.pendingUnsubacks;
      var erased := if id in mine then promises[mine[id].0 := Destroyed] else promises;
      var stays := subscribing && s.calls[t].pc.SendFailed?;
      var s' := Apply(s, EraseAck(t));
      && Shows(if stays then erased else erased - {t}, s'.calls)
      && s'.pendingSubacks == (if subscribing then mine - {id} else s.pendingSubacks)
      && s'.pendingUnsubacks == (if subscribing then s.pendingUnsubacks else mine - {id})
      && s'.counter == s.counter && s'.nextUid == s.nextUid
      && (if stays then Quiet(s, s') && s'.calls[t].pc == RollingBack(SendError) else Returned(s, s', t, if s.calls[t].pc.SendFailed? then SendError else AckTimeout))
  {
    hide Apply;
    hide EraseEntry;
    hide Resolve;
    hide Shows;
    hide AckInv;
    EraseShows(promises, s, t);
    EraseIs(s, t);
    EraseAckIs(s, t);
    var subscribing, id := s.calls[t].request.Subscribing?, s.calls[t].Id();
    var mine := if subscribing then s.pendingSubacks else s.pendingUnsubacks;
    var erased := if id in mine then promises[mine[id].0 := Destroyed] else promises;
    EndShows(erased, EraseEntry(s, t).calls, t);
    MoveShows(erased, EraseEntry(s, t).calls, t, RollingBack(SendError));
  }

  /** The call on this topic is over, and nothing else but promises and maps has changed. */
  predicate Returned(s: State, s': State, t: Bytes, o: Outcome) {
    && s'.conn == s.conn && s'.table == s.table && s'.connector == s.connector && s'.told == s.told
    && s'.resubscribed == s.resubscribed && s'.orphans == s.orphans && s'.calls.Keys == s.calls.Keys - {t}
    && EndsAs(s.finished, s'.finished, t, o)
  }

  lemma EraseShows(promises: map<Bytes, PromiseValue>, s: State, t: Bytes)
    requires AckInv(s) && t in s.calls && Shows(promises, s.calls)
    ensures var mine := if s.calls[t].request.Subscribing? then s.pendingSubacks else s.pendingUnsubacks;
      var id := s.calls[t].Id();
      Shows(if id in mine then promises[mine[id].0 := Destroyed] else promises, EraseEntry(s, t).calls)
  {
    hide CallAck;
    hide PendingMapped;
    hide EraseEntry;
    hide Resolve;
    EraseIs(s, t);
    var subscribing := s.calls[t].request.Subscribing?;
    ResolveShows(promises, s.calls, if subscribing then s.pendingSubacks else s.pendingUnsubacks,
                 s.calls[t].Id(), Abandoned, subscribing);
  }

  lemma EndShows(promises: map<Bytes, PromiseValue>, calls: map<Bytes, Call>, t: Bytes)
    requires Shows(promises, calls)
    ensures Shows(promises - {t}, calls - {t})
  {
  }

  lemma MoveShows(promises: map<Bytes, PromiseValue>, calls: map<Bytes, Call>, t: Bytes, pc: Pc)
    requires Shows(promises, calls) && t in calls
    ensures Shows(promises, calls[t := calls[t].(pc := pc)])
  {
  }

  lemma CallOfErased(s: State, t: Bytes)
    requires t in s.calls
    ensures var c := EraseEntry(s, t).calls[t]; c == s.calls[t].(answer := c.answer)
  {
  }
}
