/** Packet ids of the subscriber's calls: when one call destroys another's promise, and what holds of
    answers and ids while calls keep their window. */
module SubscriberIds {
  import opened Prelude
  import opened PacketIds
  import opened SubscribePackets
  import opened SubscriberModel
  import opened SubscriberProofs

  ghost predicate GrantInv(s: State) {
    && (forall t :: t in s.calls ==>
          && (s.calls[t].HasId() ==> s.calls[t].grant.Valid(s.counter))
          && (s.calls[t].pc == Fetching(true) ==>
                s.calls[t].grant.origin < s.counter && IdOf(s.calls[t].grant.origin) == 0))
    && (forall t, u :: t in s.calls && u in s.calls && t != u && s.calls[t].HasId() && s.calls[u].HasId() ==>
          s.calls[t].grant.ticket != s.calls[u].grant.ticket)
  }

  /** Neither call has taken an increment, or it is the old call with the grant it had. */
  predicate SameGrant(s: State, s': State, t: Bytes)
    requires t in s'.calls
  {
    var call := s'.calls[t];
    || (!call.HasId() && call.pc != Fetching(true))
    || (t in s.calls && call.grant == s.calls[t].grant
        && (call.HasId() ==> s.calls[t].HasId()) && (call.pc == Fetching(true) ==> s.calls[t].pc == Fetching(true)))
  }

  ghost predicate SameGrants(s: State, s': State) {
    s.counter <= s'.counter && forall t :: t in s'.calls ==> SameGrant(s, s', t)
  }

  lemma SameGrantsKeepInv(s: State, s': State)
    requires GrantInv(s) && SameGrants(s, s')
    ensures GrantInv(s')
  {
  }

  lemma FetchKeepsGrants(s: State, t: Bytes)
    requires GrantInv(s) && Enabled(s, Fetch(t))
    ensures GrantInv(Apply(s, Fetch(t)))
  {
    var s' := Apply(s, Fetch(t));
    assert s'.calls == s.calls[t := FetchedCall(s.calls[t], s.counter)];
  }

  lemma BeginKeepsGrants(s: State, step: Step)
    requires Enabled(s, step) && (step.BeginSubscribe? || step.BeginUnsubscribe?)
    ensures SameGrants(s, Apply(s, step))
  {
    hide Resolve;
    hide Sever;
    hide EraseEntry;
    hide RegisterFresh;
    hide GetAnswer;
    hide View;
  }

  lemma MoveKeepsGrants(s: State, step: Step)
    requires Enabled(s, step) && (step.Send? || step.Timeout?)
    ensures SameGrants(s, Apply(s, step))
  {
    hide Resolve;
    hide Sever;
    hide EraseEntry;
    hide RegisterFresh;
    hide GetAnswer;
    hide View;
  }

  lemma ReturnKeepsGrants(s: State, step: Step)
    requires Enabled(s, step) && (step.Check? || step.Get? || step.RollBack?)
    ensures SameGrants(s, Apply(s, step))
  {
    hide Apply;
    hide View;
    if step.Check? {
      CheckIs(s, step.topic);
    } else if step.Get? {
      GetIsAnswer(s, step.topic);
    } else {
      RollBackIs(s, step.topic);
    }
  }

  lemma RegisterKeepsGrants(s: State, t: Bytes)
    requires Enabled(s, Register(t))
    ensures SameGrants(s, Apply(s, Register(t)))
  {
    hide Apply;
    hide Resolve;
    hide RegisterFresh;
    hide EraseEntry;
    RegisterIs(s, t);
    EraseIs(s, t);
    FreshIs(EraseEntry(s, t), t);
  }

  lemma EraseKeepsGrants(s: State, t: Bytes)
    requires Enabled(s, EraseAck(t))
    ensures SameGrants(s, Apply(s, EraseAck(t)))
  {
    hide Apply;
    hide Resolve;
    hide EraseEntry;
    EraseAckIs(s, t);
    EraseIs(s, t);
  }

  lemma SettleKeepsGrants(s: State, step: Step)
    requires Enabled(s, step) && (step.Suback? || step.Unsuback? || step.FailAllAcks?)
    ensures SameGrants(s, Apply(s, step))
  {
    hide ParsedSuback;
    hide Resolve;
    hide EraseEntry;
    hide RegisterFresh;
    hide GetAnswer;
    hide View;
  }

  lemma ConnectionKeepsGrants(s: State, step: Step)
    requires Enabled(s, step)
    requires step.Leave? || step.ConnectStart? || step.ConnectFail? || step.Open? || step.Accept?
      || step.ResubLock? || step.ResubFetch? || step.ResubSend? || step.ResubDone?
    ensures SameGrants(s, Apply(s, step))
  {
    hide ParsedSuback;
    hide Resolve;
    hide Sever;
    hide EraseEntry;
    hide RegisterFresh;
    hide GetAnswer;
    hide View;
  }

  /** Only a Fetch gives a call a grant. */
  lemma StepKeepsCallGrants(s: State, step: Step)
    requires Enabled(s, step) && !step.Fetch?
    ensures SameGrants(s, Apply(s, step))
  {
    hide SameGrants;
    hide Apply;
    hide Enabled;
    match step
    case BeginSubscribe(_, _) => BeginKeepsGrants(s, step);
    case BeginUnsubscribe(_) => BeginKeepsGrants(s, step);
    case Check(_) => ReturnKeepsGrants(s, step);
    case Get(_) => ReturnKeepsGrants(s, step);
    case RollBack(_) => ReturnKeepsGrants(s, step);
    case Send(_, _) => MoveKeepsGrants(s, step);
    case Timeout(_) => MoveKeepsGrants(s, step);
    case Suback(_) => SettleKeepsGrants(s, step);
    case Unsuback(_) => SettleKeepsGrants(s, step);
    case FailAllAcks => SettleKeepsGrants(s, step);
    case Register(t) => RegisterKeepsGrants(s, t);
    case EraseAck(t) => EraseKeepsGrants(s, t);
    case _ => ConnectionKeepsGrants(s, step);
  }

  lemma StepKeepsGrants(s: State, step: Step)
    requires GrantInv(s) && Enabled(s, step)
    ensures GrantInv(Apply(s, step))
  {
    hide GrantInv;
    hide SameGrants;
    hide Apply;
    hide Enabled;
    if step.Fetch? {
      FetchKeepsGrants(s, step.topic);
    } else {
      StepKeepsCallGrants(s, step);
      SameGrantsKeepInv(s, Apply(s, step));
    }
  }

  lemma {:induction false} RunKeepsGrants(states: seq<State>, steps: seq<Step>)
    requires IsRun(states, steps)
    ensures GrantInv(states[|steps|])
    decreases |steps|
  {
    hide Apply;
    if |steps| > 0 {
      var n := |steps| - 1;
      assert IsRun(states[..n + 1], steps[..n]);
      RunKeepsGrants(states[..n + 1], steps[..n]);
      StepKeepsGrants(states[n], steps[n]);
    }
  }

  // ---- Which calls lose their promise to another ----

  /** Over every run: a registration destroys another call's pending promise exactly when that call
      is of the same kind and its increment lies a multiple of 65536 away; so does the erasing that
      follows a failed send or a timeout. */
  lemma RegisterOverwrites(states: seq<State>, steps: seq<Step>, step: Step, u: Bytes)
    requires IsRun(states, steps) && Enabled(states[|steps|], step) && (step.Register? || step.EraseAck?)
    requires step.topic != u && u in states[|steps|].calls && states[|steps|].calls[u].answer.Pending?
    ensures var s := states[|steps|];
      var call, other := s.calls[step.topic], s.calls[u];
      u in Apply(s, step).calls
      && (Apply(s, step).calls[u] != other
          <==> call.request.Subscribing? == other.request.Subscribing?
               && (other.grant.ticket - call.grant.ticket) % 0x1_0000 == 0)
  {
    hide Inv;
    hide AckInv;
    hide Apply;
    hide EraseEntry;
    hide RegisterFresh;
    var s, t := states[|steps|], step.topic;
    RunKeepsInv(states, steps);
    EraseOverwrites(s, t, u);
    if step.Register? {
      RegisterIs(s, t);
      FreshIs(EraseEntry(s, t), t);
    } else {
      EraseAckIs(s, t);
    }
  }

  lemma EraseOverwrites(s: State, t: Bytes, u: Bytes)
    requires AckInv(s) && t in s.calls && u in s.calls && t != u && s.calls[u].answer.Pending?
    ensures u in EraseEntry(s, t).calls
    ensures EraseEntry(s, t).calls[u] != s.calls[u]
       <==> s.calls[t].request.Subscribing? == s.calls[u].request.Subscribing?
            && (s.calls[u].grant.ticket - s.calls[t].grant.ticket) % 0x1_0000 == 0
  {
    hide CallAck;
    hide EraseEntry;
    EraseIs(s, t);
    SameId(s.calls[t].grant.ticket, s.calls[u].grant.ticket);
  }

  // ---- The window assumption ----

  /** Fewer than 65536 increments of the id counter during each call under way, and between an
      allocation of resubscribeAll and its send. */
  predicate Window(s: State) {
    && (forall t :: t in s.calls && s.calls[t].HasId() ==> s.calls[t].grant.Recent(s.counter))
    && (s.connector.Resubscribing? && s.connector.id.HasGrant? ==> s.connector.id.grant.Recent(s.counter))
  }

  ghost predicate IsWindowedRun(states: seq<State>, steps: seq<Step>) {
    IsRun(states, steps) && forall i :: 0 <= i <= |steps| ==> Window(states[i])
  }

  /** Erasing a call's entry leaves every other call alone. */
  lemma EraseTouchesOwn(s: State, t: Bytes, u: Bytes)
    requires AckInv(s) && GrantInv(s) && Window(s) && t in s.calls && s.calls[t].HasId()
    requires u in s.calls && u != t
    ensures u in EraseEntry(s, t).calls && EraseEntry(s, t).calls[u] == s.calls[u]
  {
    hide AckInv;
    hide EraseEntry;
    EraseIs(s, t);
    if EraseEntry(s, t).calls[u] != s.calls[u] {
      ErasedWasPending(s, t, u);
      RecentGrants(s.calls[t].grant, s.calls[u].grant, s.counter);
    }
  }

  lemma ErasedWasPending(s: State, t: Bytes, u: Bytes)
    requires AckInv(s) && t in s.calls && u in s.calls && u != t && EraseEntry(s, t).calls[u] != s.calls[u]
    ensures s.calls[u].Id() == s.calls[t].Id() && s.calls[u].HasId()
  {
    hide EraseEntry;
    EraseIs(s, t);
    assert CallAck(s.calls[u], s.subacks, s.unsubacks);
  }

  /** So no registration and no erasing touches another call. */
  lemma OthersKept(states: seq<State>, steps: seq<Step>, step: Step, u: Bytes)
    requires IsRun(states, steps) && Window(states[|steps|])
    requires Enabled(states[|steps|], step) && (step.Register? || step.EraseAck?)
    requires u in states[|steps|].calls && u != step.topic
    ensures u in Apply(states[|steps|], step).calls && Apply(states[|steps|], step).calls[u] == states[|steps|].calls[u]
  {
    hide Inv;
    hide AckInv;
    hide GrantInv;
    hide Window;
    hide Apply;
    hide EraseEntry;
    hide RegisterFresh;
    var s, t := states[|steps|], step.topic;
    RunKeepsInv(states, steps);
    RunKeepsGrants(states, steps);
    EraseTouchesOwn(s, t, u);
    if step.Register? {
      RegisterIs(s, t);
      FreshIs(EraseEntry(s, t), t);
    } else {
      EraseAckIs(s, t);
    }
  }

  // ---- What every step of a windowed run keeps ----

  /** Promises are destroyed by their own calls only, and no future throws but for a loss. */
  ghost predicate OwnAnswers(s: State) {
    && (forall t :: t in s.calls ==> OwnAnswer(s.calls[t]))
    && (forall i :: 0 <= i < |s.finished| ==> OwnOutcome(s.finished[i]))
  }

  predicate OwnAnswer(call: Call) {
    && (call.answer.Abandoned? ==> call.pc == RollingBack(SendError))
    && (call.pc.RollingBack? ==> call.request.Subscribing? && call.pc.why in {SendError, Rejected})
  }

  predicate OwnOutcome(f: Finished) {
    && (f.call.answer.Abandoned? ==> f.outcome in {SendError, AckTimeout})
    && (f.outcome == Threw ==> f.call.answer.Severed? && f.call.request.Unsubscribing?)
  }

  /** Answers that change, change to something else than Abandoned. */
  lemma MovedKeepsAnswers(s: State, s': State)
    requires OwnAnswers(s) && s'.finished == s.finished
    requires forall t :: t in s'.calls ==> OwnAnswer(s'.calls[t])
    ensures OwnAnswers(s')
  {
  }

  lemma EntryKeepsAnswers(s: State, step: Step)
    requires OwnAnswers(s) && AckInv(s) && GrantInv(s) && Window(s)
    requires Enabled(s, step) && (step.Register? || step.EraseAck?)
    ensures OwnAnswers(Apply(s, step))
  {
    hide AckInv;
    hide GrantInv;
    hide Window;
    hide Apply;
    hide EraseEntry;
    hide RegisterFresh;
    hide Resolve;
    var t := step.topic;
    forall u | u in s.calls && u != t ensures u in EraseEntry(s, t).calls && EraseEntry(s, t).calls[u] == s.calls[u] {
      EraseTouchesOwn(s, t, u);
    }
    EraseIs(s, t);
    if step.Register? {
      RegisterIs(s, t);
      FreshIs(EraseEntry(s, t), t);
    } else {
      EraseAckIs(s, t);
    }
  }

  lemma GetKeepsAnswers(s: State, t: Bytes)
    requires OwnAnswers(s) && AckInv(s) && Enabled(s, Get(t))
    ensures OwnAnswers(Apply(s, Get(t)))
  {
    hide Apply;
    hide AckInv;
    hide View;
    WaitingHasAnswer(s, t);
    GetIsAnswer(s, t);
  }

  lemma WaitingHasAnswer(s: State, t: Bytes)
    requires AckInv(s) && t in s.calls && s.calls[t].pc.Waiting?
    ensures !s.calls[t].answer.Unmade?
  {
    assert CallAck(s.calls[t], s.subacks, s.unsubacks);
  }

  lemma ReturnKeepsAnswers(s: State, step: Step)
    requires OwnAnswers(s) && Enabled(s, step) && (step.RollBack? || step.Check?)
    ensures OwnAnswers(Apply(s, step))
  {
    hide Apply;
    hide View;
    if step.Check? {
      CheckIs(s, step.topic);
    } else {
      RollBackIs(s, step.topic);
    }
  }

  /** The steps that settle promises. */
  lemma SettleKeepsAnswers(s: State, step: Step)
    requires OwnAnswers(s) && Enabled(s, step) && (step.Suback? || step.Unsuback? || step.FailAllAcks?)
    ensures OwnAnswers(Apply(s, step))
  {
    hide EraseEntry;
    hide RegisterFresh;
    hide GetAnswer;
    hide ParsedSuback;
    hide View;
  }

  lemma OtherKeepsAnswers(s: State, step: Step)
    requires OwnAnswers(s) && Enabled(s, step)
    requires !step.Register? && !step.EraseAck? && !step.Get? && !step.RollBack? && !step.Check?
    requires !step.Suback? && !step.Unsuback? && !step.FailAllAcks?
    ensures OwnAnswers(Apply(s, step))
  {
    hide Dropped;
    hide EraseEntry;
    hide RegisterFresh;
    hide GetAnswer;
    hide Resolve;
    hide Sever;
    hide ParsedSuback;
    hide View;
    hide OwnAnswers;
    assert forall t :: t in s.calls ==> OwnAnswer(s.calls[t]) by { AllOwn(s); }
    MovedKeepsAnswers(s, Apply(s, step));
  }

  lemma AllOwn(s: State)
    requires OwnAnswers(s)
    ensures forall t :: t in s.calls ==> OwnAnswer(s.calls[t])
  {
  }

  lemma StepKeepsAnswers(s: State, step: Step)
    requires OwnAnswers(s) && AckInv(s) && GrantInv(s) && Window(s) && Enabled(s, step)
    ensures OwnAnswers(Apply(s, step))
  {
    hide OwnAnswers;
    hide AckInv;
    hide GrantInv;
    hide Window;
    hide Apply;
    hide Enabled;
    if step.Register? || step.EraseAck? {
      EntryKeepsAnswers(s, step);
    } else if step.Get? {
      GetKeepsAnswers(s, step.topic);
    } else if step.RollBack? || step.Check? {
      ReturnKeepsAnswers(s, step);
    } else if step.Suback? || step.Unsuback? || step.FailAllAcks? {
      SettleKeepsAnswers(s, step);
    } else {
      OtherKeepsAnswers(s, step);
    }
  }

  lemma {:induction false} WindowedRunKeepsAnswers(states: seq<State>, steps: seq<Step>)
    requires IsWindowedRun(states, steps)
    ensures OwnAnswers(states[|steps|])
    decreases |steps|
  {
    hide Window;
    hide Apply;
    if |steps| > 0 {
      var n := |steps| - 1;
      assert IsRun(states[..n + 1], steps[..n]);
      WindowedRunKeepsAnswers(states[..n + 1], steps[..n]);
      RunKeepsInv(states[..n + 1], steps[..n]);
      RunKeepsGrants(states[..n + 1], steps[..n]);
      assert Window(states[n]);
      StepKeepsAnswers(states[n], steps[n]);
    }
  }

  /** Over every windowed run: no call's promise is destroyed by another's registration or erasing. A
      destroyed promise belongs to a call whose own send failed or wait timed out; and no future
      throws but that of an unsubscribe severed by a loss. */
  lemma NoneOverwritten(states: seq<State>, steps: seq<Step>, t: Bytes, i: nat)
    requires IsWindowedRun(states, steps)
    ensures var s := states[|steps|];
      && (t in s.calls && s.calls[t].answer.Abandoned? ==> s.calls[t].pc == RollingBack(SendError))
      && (i < |s.finished| && s.finished[i].call.answer.Abandoned? ==> s.finished[i].outcome in {SendError, AckTimeout})
      && (i < |s.finished| && s.finished[i].outcome == Threw ==>
            s.finished[i].call.answer.Severed? && s.finished[i].call.request.Unsubscribing?)
  {
    WindowedRunKeepsAnswers(states, steps);
  }

  /** And an UNSUBACK too short to hold an id, which reads as 0, settles nothing. */
  lemma ShortUnsubackSettlesNothing(states: seq<State>, steps: seq<Step>, body: Bytes)
    requires IsRun(states, steps) && Window(states[|steps|]) && |body| < 2
    ensures var s := states[|steps|];
      var s' := Apply(s, Unsuback(body));
      s'.calls == s.calls && s'.pendingUnsubacks == s.pendingUnsubacks && s'.pendingSubacks == s.pendingSubacks
  {
    hide Inv;
    RunKeepsInv(states, steps);
    RunKeepsGrants(states, steps);
    var s := states[|steps|];
    if 0 in s.pendingUnsubacks {
      var t := s.pendingUnsubacks[0].0;
      assert CallAck(s.calls[t], s.subacks, s.unsubacks);
      RecentGrants(s.calls[t].grant, s.calls[t].grant, s.counter);
      assert false;
    }
  }

  // ---- Ids on the wire ----

  /** resubscribeAll's allocation is one of the counter's. */
  ghost predicate ConnectorInv(s: State) {
    s.connector.Resubscribing? ==>
      match s.connector.id
      case NoId => true
      case Again(origin) => origin < s.counter && IdOf(origin) == 0
      case HasGrant(g) => g.Valid(s.counter)
  }

  ghost predicate IdsNotZero(s: State) {
    && (forall t :: t in s.calls && s.calls[t].HasId() ==> s.calls[t].Id() != 0)
    && (s.connector.Resubscribing? && s.connector.id.HasGrant? ==> s.connector.id.grant.Id() != 0)
    && (forall m :: m in s.told ==> m.id != 0)
  }

  lemma ConnectorStep(s: State, step: Step)
    requires ConnectorInv(s) && Enabled(s, step)
    ensures ConnectorInv(Apply(s, step))
  {
    hide Dropped;
    hide Resolve;
    hide Sever;
    hide EraseEntry;
    hide RegisterFresh;
    hide View;
    hide ParsedSuback;
    if step.Register? || step.EraseAck? {
      EraseKeepsConnector(s, step.topic);
    }
  }

  lemma EraseKeepsConnector(s: State, t: Bytes)
    requires t in s.calls
    ensures EraseEntry(s, t).connector == s.connector && EraseEntry(s, t).counter == s.counter
    ensures EraseEntry(s, t).told == s.told
    ensures RegisterCall(s, t).connector == s.connector && RegisterCall(s, t).counter == s.counter
    ensures RegisterCall(s, t).told == s.told
  {
    hide Resolve;
  }

  /** The steps that take increments; the window in the state after them makes the ids not 0. */
  lemma FetchKeepsIdsNotZero(s: State, step: Step)
    requires IdsNotZero(s) && Enabled(s, step) && (step.Fetch? || step.ResubFetch?)
    requires GrantInv(Apply(s, step)) && ConnectorInv(Apply(s, step)) && Window(Apply(s, step))
    ensures IdsNotZero(Apply(s, step))
  {
    var s' := Apply(s, step);
    if step.Fetch? {
      var call := s'.calls[step.topic];
      if call.HasId() {
        RecentGrants(call.grant, call.grant, s'.counter);
      }
    } else if s'.connector.id.HasGrant? {
      RecentGrants(s'.connector.id.grant, s'.connector.id.grant, s'.counter);
    }
  }

  /** All other steps tell ids they found. */
  lemma ToldIds(s: State, step: Step)
    requires Enabled(s, step) && !step.Fetch? && !step.ResubFetch?
    ensures var s' := Apply(s, step);
      && (forall m :: m in s'.told ==>
            || m in s.told
            || (step.Send? && m.id == s.calls[step.topic].Id())
            || (step.ResubSend? && m.id == s.connector.id.grant.Id()))
      && (s'.connector.Resubscribing? && s'.connector.id.HasGrant? ==>
            s.connector.Resubscribing? && s'.connector.id == s.connector.id)
  {
    hide Dropped;
    hide Resolve;
    hide Sever;
    hide EraseEntry;
    hide RegisterFresh;
    hide View;
    hide ParsedSuback;
    if step.Register? || step.EraseAck? {
      EraseKeepsConnector(s, step.topic);
    }
  }

  lemma OtherKeepsIdsNotZero(s: State, step: Step)
    requires IdsNotZero(s) && Enabled(s, step) && !step.Fetch? && !step.ResubFetch?
    ensures IdsNotZero(Apply(s, step))
  {
    hide Apply;
    StepKeepsCallGrants(s, step);
    ToldIds(s, step);
  }

  lemma {:induction false} WindowedRunKeepsIds(states: seq<State>, steps: seq<Step>)
    requires IsWindowedRun(states, steps)
    ensures ConnectorInv(states[|steps|]) && IdsNotZero(states[|steps|])
    decreases |steps|
  {
    hide Window;
    hide Apply;
    hide Enabled;
    if |steps| > 0 {
      var n := |steps| - 1;
      assert IsRun(states[..n + 1], steps[..n]);
      WindowedRunKeepsIds(states[..n + 1], steps[..n]);
      RunKeepsGrants(states[..n + 1], steps[..n]);
      assert Window(states[n + 1]);
      StepKeepsGrants(states[n], steps[n]);
      ConnectorStep(states[n], steps[n]);
      if steps[n].Fetch? || steps[n].ResubFetch? {
        FetchKeepsIdsNotZero(states[n], steps[n]);
      } else {
        OtherKeepsIdsNotZero(states[n], steps[n]);
      }
    }
  }
}
