/** Acknowledgement tracking in the publisher as a step machine: any number of threads inside
    publish and publishAsync, the receive thread, connection losses and disconnects. Each atomic
    operation and each region under `pubackMtx` is one step. */
module PublisherModel {
  import opened Prelude
  import opened PacketIds
  import opened PublishPacket

  datatype Kind = Sync | Async(callback: bool)

  /** The promise made for a call's acknowledgement and what has become of it. */
  datatype Promise =
    | Unmade
    | Pending
    | Acked(at: nat)                // set to Ok by the PUBACK read as number `at`
    | Lost                          // set to ConnectionLost
    | Abandoned(taker: nat)         // destroyed unset: erased or overwritten by call `taker`

  datatype Outcome = Published | PublishFailed | PublishTimeout | LostWhileWaiting | BrokenPromise

  datatype Pc =
    | Entered                       // past the connection guard
    | FetchingAgain                 // the first increment of the id counter gave 0
    | Allocated                     // holds an id, promise not yet in the map
    | Sending                       // about to hand its packet to the transport
    | Waiting                       // packet sent, waiting for the future
    | Withdrawing(why: Outcome)     // about to erase its map entry
    | Recording(what: Outcome)      // about to count its outcome and return
    | Done(outcome: Outcome)

  datatype Call = Call(kind: Kind, qos: int, pc: Pc, grant: Grant, regAt: nat, sent: bool) {
    /** Its acknowledgement is tracked in the map. */
    predicate Tracked() { qos > 0 && (kind.Sync? || kind.callback) }

    predicate HasId() { !pc.Entered? && !pc.FetchingAgain? && (kind.Async? || qos > 0) }

    predicate Registered() { Tracked() && HasId() && !pc.Allocated? }

    function Id(): u16 { grant.Id() }
  }

  datatype State = State(
    conn: ConnectionState,
    offlineBuffering: bool,
    defaultQos: int,
    counter: nat,                   // nextPacketId without its wrap-around
    pending: map<u16, nat>,         // pendingPubacks: id -> the call whose promise it holds
    promises: seq<Promise>,         // one for each call
    calls: seq<Call>,
    pubacks: seq<u16>,              // ids of all PUBACKs read
    published: nat,
    failures: nat)

  datatype Step =
    | Begin(kind: Kind, msgQos: int)
    | Fetch(c: nat)
    | Register(c: nat)
    | Send(c: nat, ok: bool)
    | Timeout(c: nat)
    | Withdraw(c: nat)
    | Get(c: nat)
    | Record(c: nat)
    | Puback(body: Bytes)
    | FailAll
    | Transition(to: ConnectionState)
    | SetDefaultQos(qos: int)

  function Fresh(offlineBuffering: bool): State {
    State(Disconnected, offlineBuffering, 0, 1, map[], [], [], [], 0, 0)
  }

  // ---- The regions that touch shared state ----

  /** `pendingPubacks[id] = promise`, destroying any promise it replaces. */
  function RegisterPromise(pending: map<u16, nat>, promises: seq<Promise>, id: u16, c: nat): seq<Promise>
    requires c < |promises| && forall k :: k in pending ==> pending[k] < |promises|
  {
    (if id in pending then promises[pending[id] := Abandoned(c)] else promises)[c := Pending]
  }

  /** `pendingPubacks.erase(id)`. */
  function ErasePromise(pending: map<u16, nat>, promises: seq<Promise>, id: u16, c: nat): seq<Promise>
    requires forall k :: k in pending ==> pending[k] < |promises|
  {
    if id in pending then promises[pending[id] := Abandoned(c)] else promises
  }

  /** Setting the promise that a PUBACK's id finds. */
  function AckPromise(pending: map<u16, nat>, promises: seq<Promise>, id: u16, at: nat): seq<Promise>
    requires forall k :: k in pending ==> pending[k] < |promises|
  {
    if id in pending then promises[pending[id] := Acked(at)] else promises
  }

  /** failAllPending's effect on every promise in the map. */
  function FailPromises(pending: map<u16, nat>, promises: seq<Promise>): seq<Promise> {
    seq(|promises|, i requires 0 <= i < |promises| => if i in pending.Values then Lost else promises[i])
  }

  // ---- Steps ----

  predicate At(s: State, c: nat) { c < |s.calls| && c < |s.promises| }

  predicate MapInRange(s: State) { forall k :: k in s.pending ==> s.pending[k] < |s.promises| }

  predicate Enabled(s: State, step: Step) {
    && MapInRange(s)
    && match step
       case Begin(kind, _) => s.conn == Connected || (kind.Async? && s.offlineBuffering)
       case Fetch(c) => At(s, c) && (s.calls[c].pc.Entered? || s.calls[c].pc.FetchingAgain?)
       case Register(c) => At(s, c) && s.calls[c].pc.Allocated?
       case Send(c, _) => At(s, c) && s.calls[c].pc.Sending?
       case Timeout(c) => At(s, c) && s.calls[c].pc.Waiting? && s.promises[c].Pending?
       case Withdraw(c) => At(s, c) && s.calls[c].pc.Withdrawing?
       case Get(c) => At(s, c) && s.calls[c].pc.Waiting? && !s.promises[c].Pending?
       case Record(c) => At(s, c) && s.calls[c].pc.Recording?
       case _ => true
  }

  function WithCall(s: State, c: nat, call: Call): State
    requires c < |s.calls|
  {
    s.(calls := s.calls[c := call])
  }

  function FetchedCall(call: Call, counter: nat): Call {
    if call.pc.Entered? && IdOf(counter) == 0 then
      call.(pc := FetchingAgain, grant := Grant(counter, counter))
    else
      call.(grant := Grant(if call.pc.Entered? then counter else call.grant.origin, counter),
            pc := if call.Tracked() then Allocated else Sending)
  }

  function SentCall(call: Call, ok: bool): Call {
    var waits := call.kind.Sync? && call.qos > 0;
    if ok then call.(sent := true, pc := if waits then Waiting else Recording(Published))
    else call.(pc := if waits then Withdrawing(PublishFailed) else Recording(PublishFailed))
  }

  function OutcomeOf(p: Promise): Outcome {
    match p
    case Acked(_) => Published
    case Lost => LostWhileWaiting
    case _ => BrokenPromise
  }

  function Apply(s: State, step: Step): State
    requires Enabled(s, step)
  {
    match step
    case Begin(kind, msgQos) =>
      var qos := if msgQos > 0 then msgQos else s.defaultQos;
      var pc := if kind.Sync? && qos <= 0 then Sending else Entered;
      s.(calls := s.calls + [Call(kind, qos, pc, Grant(0, 0), 0, false)], promises := s.promises + [Unmade])
    case Fetch(c) =>
      WithCall(s, c, FetchedCall(s.calls[c], s.counter)).(counter := s.counter + 1)
    case Register(c) =>
      var id := s.calls[c].Id();
      WithCall(s, c, s.calls[c].(pc := Sending, regAt := |s.pubacks|))
        .(promises := RegisterPromise(s.pending, s.promises, id, c), pending := s.pending[id := c])
    case Send(c, ok) => WithCall(s, c, SentCall(s.calls[c], ok))
    case Timeout(c) => WithCall(s, c, s.calls[c].(pc := Withdrawing(PublishTimeout)))
    case Withdraw(c) =>
      var id := s.calls[c].Id();
      WithCall(s, c, s.calls[c].(pc := Recording(s.calls[c].pc.why)))
        .(promises := ErasePromise(s.pending, s.promises, id, c), pending := s.pending - {id})
    case Get(c) =>
      var o := OutcomeOf(s.promises[c]);
      WithCall(s, c, s.calls[c].(pc := if o == BrokenPromise then Done(o) else Recording(o)))
    case Record(c) =>
      var o := s.calls[c].pc.what;
      var r := WithCall(s, c, s.calls[c].(pc := Done(o)));
      if o == Published then r.(published := s.published + 1) else r.(failures := s.failures + 1)
    case Puback(body) =>
      var id := ParsePacketId(body);
      s.(promises := AckPromise(s.pending, s.promises, id, |s.pubacks|),
         pending := s.pending - {id}, pubacks := s.pubacks + [id])
    case FailAll => s.(promises := FailPromises(s.pending, s.promises), pending := map[])
    case Transition(to) => s.(conn := to)
    case SetDefaultQos(qos) => s.(defaultQos := qos)
  }

  ghost predicate IsRun(states: seq<State>, steps: seq<Step>) {
    && |states| == |steps| + 1
    && (exists b :: states[0] == Fresh(b))
    && forall i :: 0 <= i < |steps| ==> Enabled(states[i], steps[i]) && states[i + 1] == Apply(states[i], steps[i])
  }

  // ---- Windows ----

  /** From its first increment until it has returned. */
  predicate Busy(s: State, c: nat)
    requires At(s, c)
  {
    s.calls[c].Tracked() && !s.calls[c].pc.Entered? && !s.calls[c].pc.Done?
  }

  /** From its first increment until it has returned and its promise is settled or gone: longer than
      the call itself for a publishAsync. */
  predicate Live(s: State, c: nat)
    requires At(s, c)
  {
    s.calls[c].Tracked() && !s.calls[c].pc.Entered? && (!s.calls[c].pc.Done? || s.promises[c].Pending?)
  }

  /** Fewer than 65536 increments of the id counter during each tracked call. */
  ghost predicate CallWindow(s: State) {
    |s.calls| == |s.promises| && forall c: nat :: c < |s.calls| && Busy(s, c) ==> s.calls[c].grant.Recent(s.counter)
  }

  /** And during the lifetime of each promise. */
  ghost predicate PromiseWindow(s: State) {
    |s.calls| == |s.promises| && forall c: nat :: c < |s.calls| && Live(s, c) ==> s.calls[c].grant.Recent(s.counter)
  }

  // ---- What every step keeps ----

  /** A call's own consistency. */
  ghost predicate CallInv(call: Call, p: Promise, counter: nat, pubacks: seq<u16>) {
    && (call.HasId() ==> call.grant.Valid(counter))
    && (call.pc.FetchingAgain? ==> call.grant.origin < counter && IdOf(call.grant.origin) == 0)
    && (call.kind.Sync? && call.qos <= 0 ==> !call.pc.Entered? && !call.pc.FetchingAgain?)
    && (call.pc.Allocated? ==> call.Tracked())
    && (p.Unmade? <==> !call.Registered())
    && (call.pc.Waiting? ==> call.kind.Sync? && call.qos > 0 && call.sent)
    && (call.pc.Withdrawing? ==> call.kind.Sync? && call.qos > 0 && call.pc.why in {PublishFailed, PublishTimeout})
    && (call.pc.Recording? ==> OutcomeInv(call, p, call.pc.what) && call.pc.what != BrokenPromise)
    && (call.pc.Done? ==> OutcomeInv(call, p, call.pc.outcome))
    && (p.Acked? ==> call.regAt <= p.at < |pubacks| && pubacks[p.at] == call.Id())
    && call.regAt <= |pubacks|
    && (call.sent ==> !call.pc.Entered? && !call.pc.FetchingAgain? && !call.pc.Allocated? && !call.pc.Sending?)
  }

  /** What a finished call's outcome says about its promise. */
  ghost predicate OutcomeInv(call: Call, p: Promise, o: Outcome) {
    && (o == Published ==> call.sent)
    && (call.kind.Sync? && call.qos > 0 ==>
          && (o == Published ==> p.Acked?)
          && (o == LostWhileWaiting ==> p.Lost?)
          && (o == BrokenPromise ==> p.Abandoned?)
          && !p.Pending?)
    && (!(call.kind.Sync? && call.qos > 0) ==> o in {Published, PublishFailed})
  }

  ghost predicate CallsInv(calls: seq<Call>, promises: seq<Promise>, counter: nat, pubacks: seq<u16>)
    requires |calls| == |promises|
  {
    forall c: nat :: c < |calls| ==> CallInv(calls[c], promises[c], counter, pubacks)
  }

  ghost predicate TicketsDiffer(calls: seq<Call>) {
    forall c: nat, d: nat :: c < d < |calls| && calls[c].HasId() && calls[d].HasId()
      ==> calls[c].grant.ticket != calls[d].grant.ticket
  }

  /** Each map entry holds a pending promise of a call with that id. */
  ghost predicate MapHoldsPending(calls: seq<Call>, promises: seq<Promise>, pending: map<u16, nat>)
    requires |calls| == |promises|
  {
    forall k :: k in pending ==>
      pending[k] < |promises| && promises[pending[k]].Pending? && calls[pending[k]].Id() == k
  }

  /** Each pending promise is in the map, under its call's id. */
  ghost predicate PendingIsMapped(calls: seq<Call>, promises: seq<Promise>, pending: map<u16, nat>)
    requires |calls| == |promises|
  {
    forall c: nat :: c < |promises| && promises[c].Pending? ==>
      calls[c].Id() in pending && pending[calls[c].Id()] == c
  }

  /** No PUBACK settles two calls. */
  ghost predicate AcksDiffer(promises: seq<Promise>) {
    forall c: nat, d: nat :: c < d < |promises| && promises[c].Acked? && promises[d].Acked?
      ==> promises[c].at != promises[d].at
  }

  ghost predicate Inv(s: State) {
    && |s.calls| == |s.promises|
    && CallsInv(s.calls, s.promises, s.counter, s.pubacks)
    && TicketsDiffer(s.calls)
    && MapHoldsPending(s.calls, s.promises, s.pending)
    && PendingIsMapped(s.calls, s.promises, s.pending)
    && AcksDiffer(s.promises)
  }

  /** Besides, while calls keep their window: no synchronous call's promise is taken away by another
      call, and no tracked id is 0. */
  ghost predicate OwnSync(s: State)
    requires |s.calls| == |s.promises|
  {
    forall c: nat :: c < |s.promises| ==>
      && (s.promises[c].Abandoned? && s.calls[c].kind.Sync? ==>
            s.promises[c].taker == c && (s.calls[c].pc.Recording? || s.calls[c].pc.Done?))
      && (s.calls[c].Tracked() && s.calls[c].HasId() ==> s.calls[c].Id() != 0)
      && s.calls[c].pc != Done(BrokenPromise)
  }

  /** And while promises keep theirs: none of an asynchronous call is destroyed. */
  ghost predicate AsyncKept(s: State)
    requires |s.calls| == |s.promises|
  {
    forall c: nat :: c < |s.promises| && s.calls[c].kind.Async? ==> !s.promises[c].Abandoned?
  }
}
