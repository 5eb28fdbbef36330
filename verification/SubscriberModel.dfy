/** The subscriber's session as a step machine: API calls, the receive thread and the reconnect
    thread over the subscription table, the acknowledgement maps and the connection state. Each
    atomic operation and each region under one mutex is one step. Any number of API calls may be
    under way, as long as no two of them are about the same topic; one connect runs at a time. */
module SubscriberModel {
  import opened Prelude
  import opened PacketIds
  import opened PublishPacket
  import opened SubscribePackets

  datatype Request = Subscribing(qos: int) | Unsubscribing

  /** The promise behind a call's future. */
  datatype Answer =
    | Unmade
    | Pending
    | Answered(code: byte, at: nat) // by the acknowledgement read as number `at`
    | Severed                       // by failAllAcks: 0x80, or an exception for an unsubscribe
    | Abandoned                     // destroyed unset

  datatype Pc =
    | Stored                        // table changed, about to look at the connection state
    | Fetching(again: bool)         // in allocPacketId
    | Allocated                     // about to put its promise into the map
    | Sending                       // about to hand its packet to the transport
    | Waiting                       // for the future
    | SendFailed                    // about to take its promise back
    | TimedOut                      // likewise
    | RollingBack(why: Outcome)     // about to take its table entry back

  datatype Call = Call(request: Request, uid: nat, pc: Pc, grant: Grant, answer: Answer, regAt: nat) {
    predicate BeforeSend() { pc.Stored? || pc.Fetching? || pc.Allocated? || pc.Sending? }

    predicate HasId() { !pc.Stored? && !pc.Fetching? }

    function Id(): u16 { grant.Id() }
  }

  datatype Outcome =
    | NotSent                       // stored or erased locally, Ok without a connection
    | Confirmed                     // Ok after the acknowledgement
    | Rejected
    | SendError
    | AckTimeout
    | Threw                         // the future's exception

  datatype Finished = Finished(topic: Bytes, call: Call, outcome: Outcome)

  /** A packet handed to the transport on the current connection. */
  datatype Told = ToldSubscribe(id: u16, topic: Bytes, qos: int) | ToldUnsubscribe(id: u16, topic: Bytes)

  datatype ResubId = NoId | Again(origin: nat) | HasGrant(grant: Grant)

  datatype Connector =
    | Idle
    | Opening                       // connect() past its guard
    | Handshaking                   // transport connected, CONNACK not yet accepted
    | Accepted                      // state set to Connected, table lock not yet taken
    | Resubscribing(todo: set<Bytes>, id: ResubId)  // inside resubscribeAll's loop, table read-locked

  type AckMap = map<u16, (Bytes, nat)>

  datatype State = State(
    conn: ConnectionState,
    counter: nat,                   // nextPacketId without its wrap-around
    table: map<Bytes, int>,         // subscriptions: topic -> QoS
    pendingSubacks: AckMap,
    pendingUnsubacks: AckMap,
    calls: map<Bytes, Call>,        // API calls under way, by topic
    nextUid: nat,
    finished: seq<Finished>,
    subacks: seq<(u16, byte)>,      // every SUBACK read that parsed: id and first return code
    unsubacks: seq<u16>,            // every UNSUBACK read
    connector: Connector,
    told: seq<Told>,                // handed to the transport on the current connection
    earlier: seq<seq<Told>>,        // and on each one before it
    resubscribed: bool,             // the last connect() is past resubscribeAll
    orphans: set<Bytes>)            // dropped from the table after the broker was told, without telling it

  datatype Step =
    | BeginSubscribe(topic: Bytes, qos: int)
    | BeginUnsubscribe(topic: Bytes)
    | Check(topic: Bytes)
    | Fetch(topic: Bytes)
    | Register(topic: Bytes)
    | Send(topic: Bytes, ok: bool)
    | Timeout(topic: Bytes)
    | EraseAck(topic: Bytes)
    | Get(topic: Bytes)
    | RollBack(topic: Bytes)
    | Suback(body: Bytes)
    | Unsuback(body: Bytes)
    | FailAllAcks
    | Leave(to: ConnectionState)    // loss or disconnect
    | ConnectStart
    | ConnectFail(thrown: bool)
    | Open
    | Accept
    | ResubLock
    | ResubFetch
    | ResubSend(topic: Bytes)
    | ResubDone

  const Fresh := State(Disconnected, 1, map[], map[], map[], map[], 0, [], [], [], Idle, [], [], false, {})

  // ---- What the broker has been told ----

  function Hear(view: map<Bytes, int>, t: Told): map<Bytes, int> {
    match t
    case ToldSubscribe(_, topic, qos) => view[topic := qos]
    case ToldUnsubscribe(_, topic) => view - {topic}
  }

  /** What was told: the last word on each topic counts. It is what a broker holds that hears all of it
      and refuses nothing. */
  function View(told: seq<Told>): map<Bytes, int> {
    if told == [] then map[] else Hear(View(told[..|told| - 1]), told[|told| - 1])
  }

  /** The orphans after a topic leaves the table without an UNSUBSCRIBE. */
  function Dropped(s: State, t: Bytes): set<Bytes> { if t in View(s.told) then s.orphans + {t} else s.orphans }

  // ---- The acknowledgement maps ----

  /** A call whose promise an entry holds. */
  predicate Holds(calls: map<Bytes, Call>, entry: (Bytes, nat)) {
    entry.0 in calls && calls[entry.0].uid == entry.1
  }

  /** Replacing, erasing or setting the promise under an id. */
  function Resolve(calls: map<Bytes, Call>, pending: AckMap, id: u16, answer: Answer): (r: map<Bytes, Call>)
    ensures r.Keys == calls.Keys
    ensures forall t :: t in r ==> r[t] == calls[t] || r[t] == calls[t].(answer := answer)
  {
    if id in pending && Holds(calls, pending[id]) then
      calls[pending[id].0 := calls[pending[id].0].(answer := answer)]
    else calls
  }

  function Sever(calls: map<Bytes, Call>, entries: set<(Bytes, nat)>): map<Bytes, Call> {
    map t | t in calls :: if (t, calls[t].uid) in entries then calls[t].(answer := Severed) else calls[t]
  }

  // ---- Steps ----

  /** resubscribeAll holds the table lock shared, so nothing can change the table meanwhile. */
  predicate TableLocked(s: State) { s.connector.Resubscribing? }

  predicate Enabled(s: State, step: Step) {
    match step
    case BeginSubscribe(t, _) => t !in s.calls && !TableLocked(s)
    case BeginUnsubscribe(t) => t !in s.calls && !TableLocked(s)
    case Check(t) => t in s.calls && s.calls[t].pc.Stored?
    case Fetch(t) => t in s.calls && s.calls[t].pc.Fetching?
    case Register(t) => t in s.calls && s.calls[t].pc.Allocated?
    case Send(t, _) => t in s.calls && s.calls[t].pc.Sending?
    case Timeout(t) => t in s.calls && s.calls[t].pc.Waiting? && s.calls[t].answer.Pending?
    case EraseAck(t) => t in s.calls && (s.calls[t].pc.SendFailed? || s.calls[t].pc.TimedOut?)
    case Get(t) => t in s.calls && s.calls[t].pc.Waiting? && !s.calls[t].answer.Pending?
    case RollBack(t) => t in s.calls && s.calls[t].pc.RollingBack? && !TableLocked(s)
    case Leave(to) => to != Connected
    case ConnectStart => s.connector.Idle? && s.conn != Connected
    case ConnectFail(_) => s.connector.Opening? || s.connector.Handshaking?
    case Open => s.connector.Opening?
    case Accept => s.connector.Handshaking?
    case ResubLock => s.connector.Accepted?
    case ResubFetch => s.connector.Resubscribing? && s.connector.todo != {} && !s.connector.id.HasGrant?
    case ResubSend(t) =>
      s.connector.Resubscribing? && s.connector.id.HasGrant? && t in s.connector.todo && t in s.table
    case ResubDone => s.connector.Resubscribing? && s.connector.todo == {}
    case _ => true
  }

  function WithCall(s: State, t: Bytes, call: Call): State { s.(calls := s.calls[t := call]) }

  /** The call returns. */
  function End(s: State, t: Bytes, outcome: Outcome): State
    requires t in s.calls
  {
    s.(calls := s.calls - {t}, finished := s.finished + [Finished(t, s.calls[t], outcome)])
  }

  function FetchedCall(call: Call, counter: nat): Call
    requires call.pc.Fetching?
  {
    if !call.pc.again && IdOf(counter) == 0 then call.(pc := Fetching(true), grant := Grant(counter, counter))
    else call.(pc := Allocated, grant := Grant(if call.pc.again then call.grant.origin else counter, counter))
  }

  function ToldBy(t: Bytes, call: Call): Told {
    match call.request
    case Subscribing(qos) => ToldSubscribe(call.Id(), t, qos)
    case Unsubscribing => ToldUnsubscribe(call.Id(), t)
  }

  function EraseEntry(s: State, t: Bytes): (r: State)
    requires t in s.calls
    ensures t in r.calls
  {
    var call := s.calls[t];
    if call.request.Subscribing? then
      s.(calls := Resolve(s.calls, s.pendingSubacks, call.Id(), Abandoned),
         pendingSubacks := s.pendingSubacks - {call.Id()})
    else
      s.(calls := Resolve(s.calls, s.pendingUnsubacks, call.Id(), Abandoned),
         pendingUnsubacks := s.pendingUnsubacks - {call.Id()})
  }

  /** `pending[id] = promise`: whatever the id mapped to is destroyed first. */
  function RegisterCall(s: State, t: Bytes): State
    requires t in s.calls
  {
    RegisterFresh(EraseEntry(s, t), t)
  }

  function RegisterFresh(s: State, t: Bytes): State
    requires t in s.calls
  {
    var call := s.calls[t];
    if call.request.Subscribing? then
      WithCall(s, t, call.(pc := Sending, answer := Pending, regAt := |s.subacks|))
        .(pendingSubacks := s.pendingSubacks[call.Id() := (t, call.uid)])
    else
      WithCall(s, t, call.(pc := Sending, answer := Pending, regAt := |s.unsubacks|))
        .(pendingUnsubacks := s.pendingUnsubacks[call.Id() := (t, call.uid)])
  }

  /** What the future's value makes of a waiting call. */
  function GetAnswer(s: State, t: Bytes): State
    requires t in s.calls
  {
    var call := s.calls[t];
    match call.answer
    case Answered(rc, _) =>
      if call.request.Subscribing? && rc == 0x80 then WithCall(s, t, call.(pc := RollingBack(Rejected)))
      else End(s, t, Confirmed)
    case Severed =>
      if call.request.Subscribing? then WithCall(s, t, call.(pc := RollingBack(Rejected))) else End(s, t, Threw)
    case _ => End(s, t, Threw)
  }

  function Apply(s: State, step: Step): State
    requires Enabled(s, step)
  {
    match step
    case BeginSubscribe(t, qos) =>
      WithCall(s, t, Call(Subscribing(qos), s.nextUid, Stored, Grant(0, 0), Unmade, 0))
        .(table := s.table[t := qos], nextUid := s.nextUid + 1, orphans := s.orphans - {t})
    case BeginUnsubscribe(t) =>
      WithCall(s, t, Call(Unsubscribing, s.nextUid, Stored, Grant(0, 0), Unmade, 0))
        .(table := s.table - {t}, nextUid := s.nextUid + 1)
    case Check(t) =>
      if s.conn == Connected then WithCall(s, t, s.calls[t].(pc := Fetching(false)))
      else End(s, t, NotSent).(orphans := if s.calls[t].request.Unsubscribing? then Dropped(s, t) else s.orphans)
    case Fetch(t) => WithCall(s, t, FetchedCall(s.calls[t], s.counter)).(counter := s.counter + 1)
    case Register(t) => RegisterCall(s, t)
    case Send(t, ok) =>
      WithCall(s, t, s.calls[t].(pc := if ok then Waiting else SendFailed))
        .(told := s.told + [ToldBy(t, s.calls[t])], orphans := s.orphans - {t})
    case Timeout(t) => WithCall(s, t, s.calls[t].(pc := TimedOut))
    case EraseAck(t) =>
      var e := EraseEntry(s, t);
      if s.calls[t].pc.TimedOut? then End(e, t, AckTimeout)
      else if s.calls[t].request.Unsubscribing? then End(e, t, SendError)
      else WithCall(e, t, e.calls[t].(pc := RollingBack(SendError)))
    case Get(t) => GetAnswer(s, t)
    case RollBack(t) =>
      End(s, t, s.calls[t].pc.why).(table := s.table - {t}, orphans := Dropped(s, t))
    case Suback(body) =>
      (match ParsedSuback(body)
       case Err(_) => s
       case Ok(info) =>
         var rc := if info.returnCodes == [] then 0x80 else info.returnCodes[0];
         s.(calls := Resolve(s.calls, s.pendingSubacks, info.packetId, Answered(rc, |s.subacks|)),
            pendingSubacks := s.pendingSubacks - {info.packetId},
            subacks := s.subacks + [(info.packetId, rc)]))
    case Unsuback(body) =>
      var id := ParsePacketId(body);
      s.(calls := Resolve(s.calls, s.pendingUnsubacks, id, Answered(0, |s.unsubacks|)),
         pendingUnsubacks := s.pendingUnsubacks - {id},
         unsubacks := s.unsubacks + [id])
    case FailAllAcks =>
      s.(calls := Sever(s.calls, s.pendingSubacks.Values + s.pendingUnsubacks.Values),
         pendingSubacks := map[], pendingUnsubacks := map[])
    case Leave(to) => s.(conn := to)
    case ConnectStart => s.(conn := Connecting, connector := Opening, resubscribed := false)
    case ConnectFail(thrown) => s.(conn := if thrown then s.conn else ConnectionState.Failed, connector := Idle)
    case Open => s.(connector := Handshaking, told := [], earlier := s.earlier + [s.told], orphans := {})
    case Accept => s.(conn := Connected, connector := Accepted)
    case ResubLock => s.(connector := Resubscribing(s.table.Keys, NoId))
    case ResubFetch =>
      var id := match s.connector.id
        case Again(origin) => HasGrant(Grant(origin, s.counter))
        case _ => if IdOf(s.counter) == 0 then Again(s.counter) else HasGrant(Grant(s.counter, s.counter));
      s.(connector := s.connector.(id := id), counter := s.counter + 1)
    case ResubSend(t) =>
      s.(told := s.told + [ToldSubscribe(s.connector.id.grant.Id(), t, s.table[t])],
         connector := Resubscribing(s.connector.todo - {t}, NoId))
    case ResubDone => s.(connector := Idle, resubscribed := true)
  }

  predicate IsRun(states: seq<State>, steps: seq<Step>) {
    && |states| == |steps| + 1
    && states[0] == Fresh
    && forall i :: 0 <= i < |steps| ==> Enabled(states[i], steps[i]) && states[i + 1] == Apply(states[i], steps[i])
  }

  // ---- What every step keeps ----

  /** The broker was last told to subscribe to this topic, with the table's QoS. */
  predicate ToldAsStored(s: State, t: Bytes)
    requires t in s.table
  {
    var view := View(s.told); t in view && view[t] == s.table[t]
  }

  predicate InSubscribe(s: State, t: Bytes) {
    t in s.calls && s.calls[t].request.Subscribing? && s.calls[t].BeforeSend()
  }

  predicate InUnsubscribe(s: State, t: Bytes) {
    t in s.calls && s.calls[t].request.Unsubscribing? && s.calls[t].BeforeSend()
  }

  /** A call under way keeps what it did to the table. */
  ghost predicate CallsMatchTable(s: State) {
    forall t :: t in s.calls ==>
      match s.calls[t].request
      case Subscribing(qos) => t in s.table && s.table[t] == qos
      case Unsubscribing => t !in s.table && !s.calls[t].pc.RollingBack?
  }

  ghost predicate Covered(s: State) {
    s.conn == Connected && s.resubscribed ==> forall t :: t in s.table ==> InSubscribe(s, t) || ToldAsStored(s, t)
  }

  ghost predicate LoopCovers(s: State) {
    s.connector.Resubscribing? ==>
      s.connector.todo <= s.table.Keys && forall t :: t in s.table && t !in s.connector.todo ==> ToldAsStored(s, t)
  }

  ghost predicate Explained(s: State) {
    forall t :: t in View(s.told) ==> t in s.table || InUnsubscribe(s, t) || t in s.orphans
  }

  ghost predicate OrphansAreTold(s: State) {
    forall t :: t in s.orphans ==> t in View(s.told) && t !in s.table
  }

  ghost predicate Inv(s: State) {
    && CallsMatchTable(s)
    && OrphansAreTold(s)
    && Covered(s)
    && LoopCovers(s)
    && Explained(s)
    && (!s.connector.Idle? ==> !s.resubscribed)
  }
}
