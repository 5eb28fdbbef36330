/** The publisher object: its shared fields and the code that changes them, each region proved to
    be a step of the machine, so that an object's whole history is one of the machine's runs. */
module Publisher {
  import opened Prelude
  import opened PacketIds
  import opened PublishPacket
  import opened PublisherModel
  import opened PublisherProofs

  /** What the receive thread does while a publish waits: a PUBACK read, or the connection lost. */
  datatype Arrival = PubackRead(body: Bytes) | ConnectionBroke

  datatype PublishResult = NotConnectedResult | Finished(outcome: Outcome)

  /** How a wait for `id` ends: the first arrival that settles it decides, or it times out. */
  function Verdict(arrivals: seq<Arrival>, id: u16): (o: Outcome)
    ensures o in {PublisherModel.Published, LostWhileWaiting, PublishTimeout}
  {
    if arrivals == [] then PublishTimeout
    else match arrivals[0]
      case ConnectionBroke => LostWhileWaiting
      case PubackRead(body) => if ParsePacketId(body) == id then PublisherModel.Published else Verdict(arrivals[1..], id)
  }

  /** This arrival settles the promise of a publish with this id, by the bytes; a PUBACK too short for an
      id has id 0. */
  predicate SettledBy(a: Arrival, id: u16) {
    match a
    case ConnectionBroke => true
    case PubackRead(body) => id == if |body| < 2 then 0 else (body[0] as int) * 256 + body[1] as int
  }

  lemma {:induction false} VerdictSkips(arrivals: seq<Arrival>, id: u16, k: nat)
    requires k <= |arrivals| && forall j :: 0 <= j < k ==> !SettledBy(arrivals[j], id)
    ensures Verdict(arrivals, id) == Verdict(arrivals[k..], id)
  {
    if k > 0 {
      assert !SettledBy(arrivals[0], id);
      VerdictSkips(arrivals[1..], id, k - 1);
      assert arrivals[1..][k - 1..] == arrivals[k..];
    } else {
      assert arrivals[0..] == arrivals;
    }
  }

  /** The first arrival that settles it decides: a loss, or a PUBACK, which means success. */
  lemma FirstSettlingDecides(arrivals: seq<Arrival>, id: u16, k: nat)
    requires k < |arrivals| && SettledBy(arrivals[k], id) && forall j :: 0 <= j < k ==> !SettledBy(arrivals[j], id)
    ensures Verdict(arrivals, id) == if arrivals[k].ConnectionBroke? then LostWhileWaiting else PublisherModel.Published
  {
    VerdictSkips(arrivals, id, k);
    assert arrivals[k..][0] == arrivals[k];
  }

  lemma NoneSettles(arrivals: seq<Arrival>, id: u16)
    requires forall j :: 0 <= j < |arrivals| ==> !SettledBy(arrivals[j], id)
    ensures Verdict(arrivals, id) == PublishTimeout
  {
    VerdictSkips(arrivals, id, |arrivals|);
  }

  /** A `std::promise<ErrorCode>` as its future sees it. */
  datatype PromiseValue = Unset | SetOk | SetConnectionLost | Destroyed

  function ValueOf(p: Promise): PromiseValue {
    match p
    case Acked(_) => SetOk
    case Lost => SetConnectionLost
    case Abandoned(_) => Destroyed
    case _ => Unset
  }

  ghost predicate Shows(values: seq<PromiseValue>, promises: seq<Promise>) {
    |values| == |promises| && forall i :: 0 <= i < |values| ==> values[i] == ValueOf(promises[i])
  }

  class MqttPublisher {
    var state: ConnectionState
    const offlineBufferingEnabled: bool
    var defaultQos: int
    var nextPacketId: u16
    var pendingPubacks: map<u16, nat>
    var promises: seq<PromiseValue>   // one for each call so far
    var messagesPublished: nat
    var publishFailures: nat

    ghost var states: seq<State>
    ghost var steps: seq<Step>

    /** The machine's state that the fields are. */
    ghost function Model(): State
      reads this
      requires |states| == |steps| + 1
    {
      states[|steps|]
    }

    ghost predicate Valid()
      reads this
    {
      && |states| == |steps| + 1 && IsRun(states, steps)
      && Inv(Model())
      && |Model().calls| == |Model().promises| && MapInRange(Model())
      && state == Model().conn
      && offlineBufferingEnabled == Model().offlineBuffering
      && defaultQos == Model().defaultQos
      && nextPacketId == IdOf(Model().counter)
      && pendingPubacks == Model().pending
      && Shows(promises, Model().promises)
      && messagesPublished == Model().published
      && publishFailures == Model().failures
    }

    /** One more step has been taken. */
    ghost predicate Stepped(before: State, step: Step)
      reads this
    {
      Valid() && Enabled(before, step) && Model() == Apply(before, step)
    }

    constructor (offlineBufferingEnabled: bool)
      ensures Valid() && Model() == Fresh(offlineBufferingEnabled)
    {
      this.offlineBufferingEnabled := offlineBufferingEnabled;
      state, defaultQos, nextPacketId := Disconnected, 0, 1;
      pendingPubacks, promises, messagesPublished, publishFailures := map[], [], 0, 0;
      states, steps := [Fresh(offlineBufferingEnabled)], [];
    }

    /** The machine's side of a step; the fields are the caller's. */
    ghost method Advance(step: Step)
      requires IsRun(states, steps) && Inv(Model()) && Enabled(Model(), step)
      modifies `states, `steps
      ensures IsRun(states, steps) && Inv(Model()) && Model() == Apply(old(Model()), step)
    {
      StepKeepsInv(Model(), step);
      ghost var next := Apply(Model(), step);
      ghost var was, done := states, steps;
      states, steps := states + [next], steps + [step];
      assert exists b :: states[0] == Fresh(b) by { assert states[0] == was[0]; }
      forall i | 0 <= i < |steps|
        ensures Enabled(states[i], steps[i]) && states[i + 1] == Apply(states[i], steps[i])
      {
        if i < |done| {
          assert states[i] == was[i] && states[i + 1] == was[i + 1] && steps[i] == done[i];
        }
      }
    }

    // ---- Regions under pubackMtx and single atomic operations ----

    method TransitionState(s: ConnectionState)
      requires Valid()
      modifies this
      ensures Stepped(old(Model()), Transition(s))
    {
      state := s;
      Advance(Transition(s));
    }

    method SetDefaultQoS(qos: int)
      requires Valid()
      modifies this
      ensures Stepped(old(Model()), SetDefaultQos(qos))
    {
      defaultQos := qos;
      Advance(SetDefaultQos(qos));
    }

    method FetchAdd(ghost c: nat) returns (id: u16)
      requires Valid() && Enabled(Model(), Fetch(c))
      modifies this
      ensures Stepped(old(Model()), Fetch(c)) && id == IdOf(old(Model()).counter)
    {
      id := nextPacketId;
      nextPacketId := (nextPacketId + 1) % 0x1_0000;
      Advance(Fetch(c));
    }

    /** Undisturbed, the id is that of the call's grant and not 0. */
    method AllocPacketId(ghost c: nat) returns (id: u16)
      requires Valid() && c < |Model().calls| && Model().calls[c].pc.Entered?
      modifies this
      ensures Valid() && |Model().calls| == |old(Model()).calls|
      ensures id != 0 && id == Model().calls[c].Id() && Model().calls[c].HasId()
      ensures Model() == old(Model()).(calls := old(Model()).calls[c := Model().calls[c]], counter := Model().counter)
      ensures var was := old(Model()).calls[c]; var call := Model().calls[c];
        call == was.(pc := if was.Tracked() then Allocated else Sending, grant := call.grant)
    {
      assert CallInv(Model().calls[c], Model().promises[c], Model().counter, Model().pubacks);
      id := FetchAdd(c);
      if id == 0 { id := FetchAdd(c); }
    }

    /** `pendingPubacks[id] = std::move(prom)`. */
    method RegisterPending(id: u16, c: nat)
      requires Valid() && Enabled(Model(), Register(c)) && id == Model().calls[c].Id()
      modifies this
      ensures Stepped(old(Model()), Register(c))
    {
      if id in pendingPubacks { promises := promises[pendingPubacks[id] := Destroyed]; }
      promises := promises[c := Unset];
      pendingPubacks := pendingPubacks[id := c];
      Advance(Register(c));
    }

    /** `pendingPubacks.erase(id)`. */
    method ErasePending(id: u16, c: nat)
      requires Valid() && Enabled(Model(), Withdraw(c)) && id == Model().calls[c].Id()
      modifies this
      ensures Stepped(old(Model()), Withdraw(c))
    {
      if id in pendingPubacks { promises := promises[pendingPubacks[id] := Destroyed]; }
      pendingPubacks := pendingPubacks - {id};
      Advance(Withdraw(c));
    }

    /** The receive loop's PUBACK case. */
    method OnPuback(body: Bytes)
      requires Valid()
      modifies this
      ensures Stepped(old(Model()), Puback(body))
    {
      var id := ParsePacketId(body);
      if id in pendingPubacks {
        promises := promises[pendingPubacks[id] := SetOk];
        pendingPubacks := pendingPubacks - {id};
      }
      assert id !in old(pendingPubacks) ==> old(pendingPubacks) - {id} == old(pendingPubacks);
      Advance(Puback(body));
    }

    /** failAllPending: every promise in the map is set to ConnectionLost, then the map is emptied. */
    method FailAllPending()
      requires Valid()
      modifies this
      ensures Stepped(old(Model()), FailAll)
    {
      promises := SetAllLost(pendingPubacks, promises);
      ghost var was := Model().promises;
      assert Shows(promises, FailPromises(pendingPubacks, was));
      pendingPubacks := map[];
      Advance(FailAll);
    }

    static method SetAllLost(pending: map<u16, nat>, promises: seq<PromiseValue>) returns (ps: seq<PromiseValue>)
      requires forall k :: k in pending ==> pending[k] < |promises|
      ensures |ps| == |promises|
      ensures forall i :: 0 <= i < |ps| ==> ps[i] == if i in pending.Values then SetConnectionLost else promises[i]
    {
      ps := promises;
      var ids := pending.Keys;
      while ids != {}
        invariant ids <= pending.Keys && |ps| == |promises|
        invariant forall k :: k in pending.Keys - ids ==> ps[pending[k]] == SetConnectionLost
        invariant forall i :: 0 <= i < |ps| && i !in pending.Values ==> ps[i] == promises[i]
        decreases |ids|
      {
        var id :| id in ids;
        ps := ps[pending[id] := SetConnectionLost];
        ids := ids - {id};
      }
    }

    // ---- publish ----

    /** The guard, the QoS and the call's start. */
    method BeginCall(kind: Kind, msgQos: int) returns (ok: bool, qos: int, c: nat)
      requires Valid()
      modifies this
      ensures Valid() && c == |old(promises)|
      ensures ok <==> old(state) == Connected || (kind.Async? && offlineBufferingEnabled)
      ensures qos == if msgQos > 0 then msgQos else old(defaultQos)
      ensures if ok then Stepped(old(Model()), Begin(kind, msgQos)) else Model() == old(Model())
    {
      c := |promises|;
      qos := if msgQos > 0 then msgQos else defaultQos;
      ok := state == Connected || (kind.Async? && offlineBufferingEnabled);
      if ok {
        promises := promises + [Unset];
        Advance(Begin(kind, msgQos));
      }
    }

    /** The metrics update that completes a call. */
    method RecordOutcome(ghost c: nat, ok: bool)
      requires Valid() && Enabled(Model(), Record(c)) && (ok <==> Model().calls[c].pc.what == PublisherModel.Published)
      modifies this
      ensures Stepped(old(Model()), Record(c))
    {
      if ok {
        messagesPublished := messagesPublished + 1;
      } else {
        publishFailures := publishFailures + 1;
      }
      Advance(Record(c));
    }

    /** The wait for the future, while the receive thread works through `arrivals`. */
    method AwaitAck(c: nat, id: u16, arrivals: seq<Arrival>) returns (timedOut: bool)
      requires Valid() && c < |Model().calls| && Model().promises[c].Pending? && Model().calls[c].Id() == id
      modifies this
      ensures Valid() && Model().calls == old(Model()).calls
      ensures messagesPublished == old(messagesPublished) && publishFailures == old(publishFailures)
      ensures var p := Model().promises[c];
        match Verdict(arrivals, id)
        case Published => !timedOut && p.Acked?
        case LostWhileWaiting => !timedOut && p.Lost?
        case _ => timedOut && p.Pending?
      ensures !timedOut ==> id !in pendingPubacks
      ensures state == if Model().promises[c].Lost? then Reconnecting else old(state)
    {
      hide Inv;
      hide IsRun;
      var i := 0;
      while i < |arrivals|
        invariant i <= |arrivals|
        invariant Valid() && Model().calls == old(Model()).calls && Model().promises[c].Pending?
        invariant messagesPublished == old(messagesPublished) && publishFailures == old(publishFailures)
        invariant Verdict(arrivals, id) == Verdict(arrivals[i..], id) && state == old(state)
      {
        assert arrivals[i..][1..] == arrivals[i + 1..];
        match arrivals[i] {
          case PubackRead(body) =>
            PubackSettlesItsCall(Model(), body, c);
            OnPuback(body);
            if ParsePacketId(body) == id { return false; }
          case ConnectionBroke =>
            TransitionState(Reconnecting);
            FailAllSettlesPending(Model(), c);
            FailAllPending();
            return false;
        }
        i := i + 1;
      }
      return true;
    }

    /** Taking the promise back and reporting why. */
    method GiveUp(c: nat, id: u16)
      requires Valid() && Enabled(Model(), Withdraw(c)) && Model().calls[c].Id() == id
      requires Model().calls[c].pc.why != PublisherModel.Published
      modifies this
      ensures Valid() && |Model().calls| == |old(Model()).calls|
      ensures var was := old(Model()).calls[c]; Model().calls[c] == was.(pc := Done(was.pc.why))
      ensures messagesPublished == old(messagesPublished) && publishFailures == old(publishFailures) + 1
      ensures id !in pendingPubacks && state == old(state)
    {
      hide Inv;
      hide IsRun;
      ErasePending(id, c);
      RecordOutcome(c, false);
    }

    /** The wait for the future and what follows it. */
    method AwaitAndReport(c: nat, id: u16, arrivals: seq<Arrival>) returns (outcome: Outcome)
      requires Valid() && c < |Model().calls| && Model().calls[c].pc.Waiting?
      requires Model().promises[c].Pending? && Model().calls[c].Id() == id
      modifies this
      ensures Valid() && |Model().calls| == |old(Model()).calls|
      ensures Model().calls[c].pc == Done(outcome) && Model().calls[c].grant == old(Model()).calls[c].grant
      ensures outcome == Verdict(arrivals, id)
      ensures messagesPublished == old(messagesPublished) + (if outcome == PublisherModel.Published then 1 else 0)
      ensures publishFailures == old(publishFailures) + (if outcome == PublisherModel.Published then 0 else 1)
      ensures id !in pendingPubacks
      ensures state == if outcome == LostWhileWaiting then Reconnecting else old(state)
    {
      hide Inv;
      hide IsRun;
      var timedOut := AwaitAck(c, id, arrivals);
      if timedOut {
        Advance(Timeout(c));
        GiveUp(c, id);
        return PublishTimeout;
      }
      var value := promises[c];
      Advance(Get(c));
      RecordOutcome(c, value == SetOk);
      return if value == SetOk then PublisherModel.Published else LostWhileWaiting;
    }

    /** publish from its send on. */
    method SendAndAwait(c: nat, id: u16, qos: int, sendOk: bool, arrivals: seq<Arrival>) returns (outcome: Outcome)
      requires Valid() && c < |Model().calls| && Model().calls[c].pc.Sending?
      requires Model().calls[c].kind.Sync? && Model().calls[c].qos == qos
      requires qos > 0 ==> Model().promises[c].Pending? && Model().calls[c].Id() == id
      modifies this
      ensures Valid() && |Model().calls| == |old(Model()).calls|
      ensures Model().calls[c].pc == Done(outcome) && Model().calls[c].grant == old(Model()).calls[c].grant
      ensures outcome == if !sendOk then PublishFailed
                         else if qos <= 0 then PublisherModel.Published else Verdict(arrivals, id)
      ensures messagesPublished == old(messagesPublished) + (if outcome == PublisherModel.Published then 1 else 0)
      ensures publishFailures == old(publishFailures) + (if outcome == PublisherModel.Published then 0 else 1)
      ensures qos > 0 ==> id !in pendingPubacks
      ensures state == if outcome == LostWhileWaiting then Reconnecting else old(state)
    {
      hide Inv;
      hide IsRun;
      Advance(Send(c, sendOk));
      if qos > 0 {
        if sendOk {
          outcome := AwaitAndReport(c, id, arrivals);
        } else {
          GiveUp(c, id);
          outcome := PublishFailed;
        }
      } else {
        RecordOutcome(c, sendOk);
        outcome := if sendOk then PublisherModel.Published else PublishFailed;
      }
    }

    /** What publish reports is decided by the send and, with QoS above 0, by the first arrival
        that settles its id; the call's outcome is counted once, and no promise of it stays behind. */
    method Publish(msgQos: int, sendOk: bool, arrivals: seq<Arrival>) returns (r: PublishResult)
      requires Valid()
      modifies this
      ensures Valid()
      ensures r.NotConnectedResult? <==> old(state) != Connected
      ensures r.NotConnectedResult? ==> Model() == old(Model())
      ensures r.Finished? ==>
        var c, qos := |old(promises)|, if msgQos > 0 then msgQos else old(defaultQos);
        && |Model().calls| == c + 1 && Model().calls[c].pc == Done(r.outcome)
        && r.outcome == (if !sendOk then PublishFailed else if qos <= 0 then PublisherModel.Published
                         else Verdict(arrivals, Model().calls[c].Id()))
        && messagesPublished == old(messagesPublished) + (if r.outcome == PublisherModel.Published then 1 else 0)
        && publishFailures == old(publishFailures) + (if r.outcome == PublisherModel.Published then 0 else 1)
        && (qos > 0 ==> Model().calls[c].Id() != 0 && Model().calls[c].Id() !in pendingPubacks)
      ensures state == if r == Finished(LostWhileWaiting) then Reconnecting else old(state)
    {
      hide Inv;
      hide IsRun;
      var ok, qos, c := BeginCall(Sync, msgQos);
      if !ok { return NotConnectedResult; }

      var id: u16 := 0;
      if qos > 0 {
        id := AllocPacketId(c);
        RegisterPending(id, c);
      }
      var outcome := SendAndAwait(c, id, qos, sendOk, arrivals);
      return Finished(outcome);
    }

    /** After a publish that lost its connection while waiting, the next one is refused. */
    method PublishAfterLoss(msgQos: int, arrivals: seq<Arrival>, nextQos: int, nextOk: bool, nextArrivals: seq<Arrival>)
      returns (first: PublishResult, next: PublishResult)
      requires Valid() && state == Connected && (if msgQos > 0 then msgQos else defaultQos) > 0
      requires arrivals != [] && arrivals[0].ConnectionBroke?
      modifies this
      ensures Valid() && first == Finished(LostWhileWaiting) && next == NotConnectedResult && state == Reconnecting
    {
      hide Inv;
      hide IsRun;
      hide Valid;
      first := Publish(msgQos, true, arrivals);
      next := Publish(nextQos, nextOk, nextArrivals);
    }

    /** publishAsync counts its outcome at the send; a tracked promise stays in the map either way,
        also when the send failed, until a PUBACK or a lost connection settles it. */
    method PublishAsync(msgQos: int, callback: bool, sendOk: bool) returns (r: PublishResult)
      requires Valid()
      modifies this
      ensures Valid()
      ensures r.NotConnectedResult? <==> old(state) != Connected && !offlineBufferingEnabled
      ensures r.NotConnectedResult? ==> Model() == old(Model())
      ensures state == old(state)
      ensures r.Finished? ==>
        var c, qos := |old(promises)|, if msgQos > 0 then msgQos else old(defaultQos);
        && |Model().calls| == c + 1 && Model().calls[c].pc == Done(r.outcome)
        && r.outcome == (if sendOk then PublisherModel.Published else PublishFailed)
        && messagesPublished == old(messagesPublished) + (if sendOk then 1 else 0)
        && publishFailures == old(publishFailures) + (if sendOk then 0 else 1)
        && Model().calls[c].Id() != 0
        && pendingPubacks == if qos > 0 && callback then old(pendingPubacks)[Model().calls[c].Id() := c] else old(pendingPubacks)
    {
      hide Inv;
      hide IsRun;
      var ok, qos, c := BeginCall(Async(callback), msgQos);
      if !ok { return NotConnectedResult; }

      var id := AllocPacketId(c);
      if qos > 0 && callback { RegisterPending(id, c); }

      Advance(Send(c, sendOk));
      RecordOutcome(c, sendOk);
      return Finished(if sendOk then PublisherModel.Published else PublishFailed);
    }
  }
}
