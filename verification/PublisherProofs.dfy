/** What the publisher's step machine keeps over every run. */
module PublisherProofs {
  import opened Prelude
  import opened PacketIds
  import opened PublishPacket
  import opened PublisherModel

  /** A call moving on without touching its id leaves tickets and map alone. */
  lemma MovedCall(s: State, c: nat, call: Call)
    requires Inv(s) && c < |s.calls|
    requires call.HasId() ==> s.calls[c].HasId()
    requires call.grant == s.calls[c].grant
    ensures var calls := s.calls[c := call];
      && TicketsDiffer(calls)
      && MapHoldsPending(calls, s.promises, s.pending)
      && PendingIsMapped(calls, s.promises, s.pending)
  {
    hide CallInv;
  }

  /** Only the moved call's own consistency is at stake. */
  lemma MovedCallInv(s: State, c: nat, call: Call)
    requires Inv(s) && c < |s.calls| && CallInv(call, s.promises[c], s.counter, s.pubacks)
    ensures CallsInv(s.calls[c := call], s.promises, s.counter, s.pubacks)
  {
    hide CallInv;
  }

  lemma BeginKeepsInv(s: State, kind: Kind, msgQos: int)
    requires Inv(s) && Enabled(s, Begin(kind, msgQos))
    ensures Inv(Apply(s, Begin(kind, msgQos)))
  {
  }

  lemma FetchKeepsInv(s: State, c: nat)
    requires Inv(s) && Enabled(s, Fetch(c))
    ensures Inv(Apply(s, Fetch(c)))
  {
  }

  /** Send, Timeout, Get and Record: one call moves, nothing else that Inv speaks of. */
  lemma MoveKeepsInv(s: State, step: Step, c: nat)
    requires Inv(s) && Enabled(s, step)
    requires (step.Send? && step.c == c) || (step.Timeout? && step.c == c) || (step.Get? && step.c == c) || (step.Record? && step.c == c)
    ensures Inv(Apply(s, step))
  {
    var call := Apply(s, step).calls[c];
    assert CallInv(s.calls[c], s.promises[c], s.counter, s.pubacks);
    assert CallInv(call, s.promises[c], s.counter, s.pubacks);
    MovedCallInv(s, c, call);
    MovedCall(s, c, call);
  }

  lemma RegisterKeepsInv(s: State, c: nat)
    requires Inv(s) && Enabled(s, Register(c))
    ensures Inv(Apply(s, Register(c)))
  {
    var s' := Apply(s, Register(c));
    var id, call := s.calls[c].Id(), s.calls[c].(pc := Sending, regAt := |s.pubacks|);
    assert CallInv(s.calls[c], s.promises[c], s.counter, s.pubacks);
    assert s.promises[c].Unmade?;
    MovedCall(s, c, call);
    RegisterMaps(s.calls[c := call], s.promises, s.pending, id, c);
    forall d: nat | d < |s'.calls| ensures CallInv(s'.calls[d], s'.promises[d], s'.counter, s'.pubacks) {
      assert CallInv(s.calls[d], s.promises[d], s.counter, s.pubacks);
    }
  }

  lemma RegisterMaps(calls: seq<Call>, promises: seq<Promise>, pending: map<u16, nat>, id: u16, c: nat)
    requires |calls| == |promises| && c < |calls| && promises[c].Unmade? && calls[c].Id() == id
    requires MapHoldsPending(calls, promises, pending) && PendingIsMapped(calls, promises, pending) && AcksDiffer(promises)
    ensures var ps := RegisterPromise(pending, promises, id, c);
      && |ps| == |promises| && ps[c] == Pending
      && MapHoldsPending(calls, ps, pending[id := c])
      && PendingIsMapped(calls, ps, pending[id := c])
      && AcksDiffer(ps)
  {
  }

  lemma EraseMaps(calls: seq<Call>, promises: seq<Promise>, pending: map<u16, nat>, id: u16, c: nat)
    requires |calls| == |promises| && c < |calls| && calls[c].Id() == id
    requires MapHoldsPending(calls, promises, pending) && PendingIsMapped(calls, promises, pending) && AcksDiffer(promises)
    ensures var ps := ErasePromise(pending, promises, id, c);
      && |ps| == |promises| && !ps[c].Pending?
      && MapHoldsPending(calls, ps, pending - {id})
      && PendingIsMapped(calls, ps, pending - {id})
      && AcksDiffer(ps)
  {
  }

  lemma WithdrawKeepsInv(s: State, c: nat)
    requires Inv(s) && Enabled(s, Withdraw(c))
    ensures Inv(Apply(s, Withdraw(c)))
  {
    var s' := Apply(s, Withdraw(c));
    var call := s.calls[c].(pc := Recording(s.calls[c].pc.why));
    MovedCall(s, c, call);
    EraseMaps(s.calls[c := call], s.promises, s.pending, s.calls[c].Id(), c);
    WithdrawKeepsCalls(s, c);
  }

  lemma WithdrawKeepsCalls(s: State, c: nat)
    requires Inv(s) && Enabled(s, Withdraw(c))
    requires !Apply(s, Withdraw(c)).promises[c].Pending?
    ensures var s' := Apply(s, Withdraw(c)); CallsInv(s'.calls, s'.promises, s'.counter, s'.pubacks)
  {
    var s' := Apply(s, Withdraw(c));
    forall d: nat | d < |s'.calls| ensures CallInv(s'.calls[d], s'.promises[d], s'.counter, s'.pubacks) {
      assert CallInv(s.calls[d], s.promises[d], s.counter, s.pubacks);
    }
  }

  lemma PubackKeepsInv(s: State, body: Bytes)
    requires Inv(s) && Enabled(s, Puback(body))
    ensures Inv(Apply(s, Puback(body)))
  {
    var s' := Apply(s, Puback(body));
    forall d: nat | d < |s'.calls| ensures CallInv(s'.calls[d], s'.promises[d], s'.counter, s'.pubacks) {
      assert CallInv(s.calls[d], s.promises[d], s.counter, s.pubacks);
    }
  }

  lemma FailAllKeepsInv(s: State)
    requires Inv(s) && Enabled(s, FailAll)
    ensures Inv(Apply(s, FailAll))
  {
    var s' := Apply(s, FailAll);
    forall d: nat | d < |s.promises|
      ensures s'.promises[d] == if s.promises[d].Pending? then Lost else s.promises[d]
    {
    }
  }

  lemma StepKeepsInv(s: State, step: Step)
    requires Inv(s) && Enabled(s, step)
    ensures Inv(Apply(s, step))
  {
    hide Inv;
    hide Apply;
    hide Enabled;
    match step
    case Begin(kind, qos) => BeginKeepsInv(s, kind, qos);
    case Fetch(c) => FetchKeepsInv(s, c);
    case Register(c) => RegisterKeepsInv(s, c);
    case Send(c, _) => MoveKeepsInv(s, step, c);
    case Timeout(c) => MoveKeepsInv(s, step, c);
    case Withdraw(c) => WithdrawKeepsInv(s, c);
    case Get(c) => MoveKeepsInv(s, step, c);
    case Record(c) => MoveKeepsInv(s, step, c);
    case Puback(body) => PubackKeepsInv(s, body);
    case FailAll => FailAllKeepsInv(s);
    case Transition(_) => SettingKeepsInv(s, step);
    case SetDefaultQos(_) => SettingKeepsInv(s, step);
  }

  lemma SettingKeepsInv(s: State, step: Step)
    requires Inv(s) && (step.Transition? || step.SetDefaultQos?) && Enabled(s, step)
    ensures Inv(Apply(s, step))
  {
  }

  // ---- Under the window assumptions no promise is taken by another call ----

  lemma RecentIdsDiffer(s: State, c: nat, d: nat)
    requires Inv(s) && c < |s.calls| && d < |s.calls| && c != d
    requires s.calls[c].HasId() && s.calls[d].HasId()
    requires s.calls[c].grant.Recent(s.counter) && s.calls[d].grant.Recent(s.counter)
    ensures s.calls[c].Id() != s.calls[d].Id()
  {
    hide OutcomeInv;
    assert CallInv(s.calls[c], s.promises[c], s.counter, s.pubacks);
    assert CallInv(s.calls[d], s.promises[d], s.counter, s.pubacks);
    RecentGrants(s.calls[c].grant, s.calls[d].grant, s.counter);
  }

  /** The entry under a busy call's id, if it is a synchronous call's, is its own. */
  lemma SyncEntryIsOwn(s: State, c: nat)
    requires Inv(s) && CallWindow(s) && c < |s.calls| && Busy(s, c) && s.calls[c].HasId()
    requires s.calls[c].Id() in s.pending && s.calls[s.pending[s.calls[c].Id()]].kind.Sync?
    ensures s.pending[s.calls[c].Id()] == c
  {
    var d := s.pending[s.calls[c].Id()];
    assert CallInv(s.calls[d], s.promises[d], s.counter, s.pubacks);
    assert Busy(s, d);
    if d != c {
      RecentIdsDiffer(s, c, d);
    }
  }

  /** With promises in their window it is its own in any case. */
  lemma LiveEntryIsOwn(s: State, c: nat)
    requires Inv(s) && PromiseWindow(s) && c < |s.calls| && Live(s, c) && s.calls[c].HasId()
    requires s.calls[c].Id() in s.pending
    ensures s.pending[s.calls[c].Id()] == c
  {
    hide OutcomeInv;
    var d := s.pending[s.calls[c].Id()];
    assert CallInv(s.calls[d], s.promises[d], s.counter, s.pubacks);
    assert Live(s, d);
    if d != c {
      RecentIdsDiffer(s, c, d);
    }
  }

  lemma FetchKeepsOwn(s: State, c: nat)
    requires Inv(s) && OwnSync(s) && Enabled(s, Fetch(c)) && CallWindow(Apply(s, Fetch(c)))
    ensures OwnSync(Apply(s, Fetch(c)))
  {
    hide OutcomeInv;
    var s' := Apply(s, Fetch(c));
    assert CallInv(s.calls[c], s.promises[c], s.counter, s.pubacks);
    assert s.promises[c].Unmade?;
    FetchKeepsInv(s, c);
    assert CallInv(s'.calls[c], s'.promises[c], s'.counter, s'.pubacks);
    if s'.calls[c].Tracked() && s'.calls[c].HasId() {
      assert Busy(s', c);
      RecentGrants(s'.calls[c].grant, s'.calls[c].grant, s'.counter);
    }
  }

  lemma RegisterKeepsOwn(s: State, c: nat)
    requires Inv(s) && OwnSync(s) && CallWindow(s) && Enabled(s, Register(c))
    ensures OwnSync(Apply(s, Register(c)))
  {
    assert CallInv(s.calls[c], s.promises[c], s.counter, s.pubacks);
    assert Busy(s, c);
    if s.calls[c].Id() in s.pending && s.calls[s.pending[s.calls[c].Id()]].kind.Sync? {
      SyncEntryIsOwn(s, c);
    }
  }

  lemma WithdrawKeepsOwn(s: State, c: nat)
    requires Inv(s) && OwnSync(s) && CallWindow(s) && Enabled(s, Withdraw(c))
    ensures OwnSync(Apply(s, Withdraw(c)))
  {
    assert CallInv(s.calls[c], s.promises[c], s.counter, s.pubacks);
    assert Busy(s, c);
    if s.calls[c].Id() in s.pending && s.calls[s.pending[s.calls[c].Id()]].kind.Sync? {
      SyncEntryIsOwn(s, c);
    }
  }

  lemma GetKeepsOwn(s: State, c: nat)
    requires Inv(s) && OwnSync(s) && Enabled(s, Get(c))
    ensures OwnSync(Apply(s, Get(c)))
  {
    hide OutcomeInv;
    assert CallInv(s.calls[c], s.promises[c], s.counter, s.pubacks);
    assert !s.promises[c].Abandoned?;
  }

  lemma BeginKeepsOwn(s: State, kind: Kind, msgQos: int)
    requires Inv(s) && OwnSync(s) && Enabled(s, Begin(kind, msgQos))
    ensures OwnSync(Apply(s, Begin(kind, msgQos)))
  {
    hide CallInv;
  }

  lemma MoveKeepsOwn(s: State, step: Step)
    requires Inv(s) && OwnSync(s) && Enabled(s, step) && (step.Send? || step.Timeout? || step.Record?)
    ensures OwnSync(Apply(s, step))
  {
    hide OutcomeInv;
    assert CallInv(s.calls[step.c], s.promises[step.c], s.counter, s.pubacks);
    hide CallInv;
  }

  lemma SettleKeepsOwn(s: State, step: Step)
    requires Inv(s) && OwnSync(s) && Enabled(s, step)
    requires step.Puback? || step.FailAll? || step.Transition? || step.SetDefaultQos?
    ensures OwnSync(Apply(s, step))
  {
    hide CallInv;
  }

  lemma StepKeepsOwn(s: State, step: Step)
    requires Inv(s) && OwnSync(s) && Enabled(s, step) && CallWindow(s) && CallWindow(Apply(s, step))
    ensures OwnSync(Apply(s, step))
  {
    hide Inv;
    hide Apply;
    hide Enabled;
    hide CallWindow;
    hide OwnSync;
    match step
    case Fetch(c) => FetchKeepsOwn(s, c);
    case Register(c) => RegisterKeepsOwn(s, c);
    case Withdraw(c) => WithdrawKeepsOwn(s, c);
    case Get(c) => GetKeepsOwn(s, c);
    case Begin(kind, qos) => BeginKeepsOwn(s, kind, qos);
    case Send(_, _) => MoveKeepsOwn(s, step);
    case Timeout(_) => MoveKeepsOwn(s, step);
    case Record(_) => MoveKeepsOwn(s, step);
    case _ => SettleKeepsOwn(s, step);
  }

  lemma StepKeepsAsync(s: State, step: Step)
    requires Inv(s) && AsyncKept(s) && Enabled(s, step) && PromiseWindow(s)
    ensures |Apply(s, step).calls| == |Apply(s, step).promises| && AsyncKept(Apply(s, step))
  {
    hide CallInv;
    if step.Register? || step.Withdraw? {
      LiveAtEntry(s, step.c);
      if s.calls[step.c].Id() in s.pending {
        LiveEntryIsOwn(s, step.c);
      }
    }
  }

  /** A call about to touch the map under its id: a withdrawing one is synchronous. */
  lemma LiveAtEntry(s: State, c: nat)
    requires Inv(s) && c < |s.calls| && (s.calls[c].pc.Allocated? || s.calls[c].pc.Withdrawing?)
    ensures Live(s, c) && s.calls[c].HasId() && (s.calls[c].pc.Withdrawing? ==> s.calls[c].kind.Sync?)
    ensures s.calls[c].pc.Allocated? ==> s.promises[c].Unmade?
  {
    assert CallInv(s.calls[c], s.promises[c], s.counter, s.pubacks);
  }

  /** Without the assumption: registering destroys another call's pending promise exactly when
      that call's increment lies a multiple of 65536 away. */
  lemma RegisterOverwrites(s: State, c: nat, d: nat)
    requires Inv(s) && Enabled(s, Register(c)) && d < |s.calls| && s.promises[d].Pending?
    ensures Apply(s, Register(c)).promises[d] != s.promises[d]
       <==> (s.calls[d].grant.ticket - s.calls[c].grant.ticket) % 0x1_0000 == 0
  {
    hide OutcomeInv;
    hide IdOf;
    assert CallInv(s.calls[c], s.promises[c], s.counter, s.pubacks);
    SameId(s.calls[c].grant.ticket, s.calls[d].grant.ticket);
  }

  // ---- Settling ----

  predicate Settled(p: Promise) { p.Acked? || p.Lost? || p.Abandoned? }

  /** A settled promise stays as it is: none is settled twice. */
  lemma SettledStays(s: State, step: Step, c: nat)
    requires Inv(s) && Enabled(s, step) && c < |s.calls| && Settled(s.promises[c])
    ensures var s' := Apply(s, step); c < |s'.promises| && s'.promises[c] == s.promises[c]
  {
    hide OutcomeInv;
    if step.Register? {
      assert CallInv(s.calls[step.c], s.promises[step.c], s.counter, s.pubacks);
    }
  }

  /** A PUBACK settles the pending publish with its id, with Ok, and nothing else. */
  lemma PubackSettlesItsCall(s: State, body: Bytes, c: nat)
    requires Inv(s) && Enabled(s, Puback(body)) && c < |s.calls|
    ensures Apply(s, Puback(body)).promises[c]
         == if s.promises[c].Pending? && s.calls[c].Id() == ParsePacketId(body)
            then Acked(|s.pubacks|) else s.promises[c]
  {
    hide CallInv;
  }

  /** A lost connection settles every pending publish as lost, and nothing else. */
  lemma FailAllSettlesPending(s: State, c: nat)
    requires Inv(s) && Enabled(s, FailAll) && c < |s.calls|
    ensures Apply(s, FailAll).promises[c] == if s.promises[c].Pending? then Lost else s.promises[c]
  {
    hide CallInv;
  }

  lemma NoIdZero(s: State)
    requires Inv(s) && OwnSync(s)
    ensures 0 !in s.pending
  {
    hide OutcomeInv;
    forall k | k in s.pending ensures k != 0 {
      var d := s.pending[k];
      assert CallInv(s.calls[d], s.promises[d], s.counter, s.pubacks);
    }
  }

  /** A PUBACK too short to hold an id settles nothing. */
  lemma ShortPubackSettlesNothing(s: State, body: Bytes)
    requires Inv(s) && OwnSync(s) && Enabled(s, Puback(body)) && |body| < 2
    ensures var s' := Apply(s, Puback(body)); s'.promises == s.promises && s'.pending == s.pending
  {
    NoIdZero(s);
  }

  // ---- Accounting ----

  function Count(calls: seq<Call>, counted: Call -> bool): nat {
    if calls == [] then 0 else Count(calls[..|calls| - 1], counted) + (if counted(calls[|calls| - 1]) then 1 else 0)
  }

  lemma {:induction false} CountUpdate(calls: seq<Call>, c: nat, call: Call, counted: Call -> bool)
    requires c < |calls|
    ensures Count(calls[c := call], counted)
         == Count(calls, counted) - (if counted(calls[c]) then 1 else 0) + (if counted(call) then 1 else 0)
  {
    var n := |calls| - 1;
    if c == n {
      assert calls[c := call][..n] == calls[..n];
    } else {
      CountUpdate(calls[..n], c, call, counted);
      assert calls[c := call][..n] == calls[..n][c := call];
    }
  }

  lemma CountAppend(calls: seq<Call>, call: Call, counted: Call -> bool)
    ensures Count(calls + [call], counted) == Count(calls, counted) + (if counted(call) then 1 else 0)
  {
    assert (calls + [call])[..|calls|] == calls;
  }

  const Completed: Call -> bool := (call: Call) => call.pc.Done?
  const Succeeded: Call -> bool := (call: Call) => call.pc == Done(PublisherModel.Published)
  const Threw: Call -> bool := (call: Call) => call.pc == Done(BrokenPromise)

  /** The counters: what completed without throwing was counted, once, as what it was. */
  ghost predicate Accounted(s: State) {
    && s.published == Count(s.calls, Succeeded)
    && s.published + s.failures + Count(s.calls, Threw) == Count(s.calls, Completed)
  }

  lemma BeginKeepsAccounts(s: State, kind: Kind, msgQos: int)
    requires Enabled(s, Begin(kind, msgQos)) && Accounted(s)
    ensures Accounted(Apply(s, Begin(kind, msgQos)))
  {
    var call := Apply(s, Begin(kind, msgQos)).calls[|s.calls|];
    CountAppend(s.calls, call, Completed);
    CountAppend(s.calls, call, Succeeded);
    CountAppend(s.calls, call, Threw);
  }

  /** One call moving, and the counters moving with it. */
  lemma MoveKeepsAccounts(s: State, s': State, c: nat, call: Call)
    requires c < |s.calls| && Accounted(s) && s'.calls == s.calls[c := call] && !s.calls[c].pc.Done?
    requires s'.published == s.published + (if call.pc == Done(PublisherModel.Published) then 1 else 0)
    requires s'.failures == s.failures
      + (if call.pc.Done? && call.pc.outcome != PublisherModel.Published && call.pc.outcome != BrokenPromise then 1 else 0)
    ensures Accounted(s')
  {
    CountUpdate(s.calls, c, call, Completed);
    CountUpdate(s.calls, c, call, Succeeded);
    CountUpdate(s.calls, c, call, Threw);
  }

  lemma StepKeepsAccounts(s: State, step: Step)
    requires Inv(s) && Enabled(s, step) && Accounted(s)
    ensures Accounted(Apply(s, step))
  {
    hide OutcomeInv;
    if step.Begin? {
      BeginKeepsAccounts(s, step.kind, step.msgQos);
    } else if !(step.Puback? || step.FailAll? || step.Transition? || step.SetDefaultQos?) {
      var s', c := Apply(s, step), step.c;
      assert CallInv(s.calls[c], s.promises[c], s.counter, s.pubacks);
      MoveKeepsAccounts(s, s', c, s'.calls[c]);
    }
  }

  lemma {:induction false} NoneThrew(calls: seq<Call>)
    requires forall c :: 0 <= c < |calls| ==> calls[c].pc != Done(BrokenPromise)
    ensures Count(calls, Threw) == 0
  {
    if calls != [] {
      NoneThrew(calls[..|calls| - 1]);
    }
  }

  // ---- Over every run ----

  lemma {:induction false} RunKeepsInv(states: seq<State>, steps: seq<Step>)
    requires IsRun(states, steps)
    ensures Inv(states[|steps|]) && Accounted(states[|steps|])
    decreases |steps|
  {
    if |steps| > 0 {
      var n := |steps| - 1;
      assert IsRun(states[..n + 1], steps[..n]);
      RunKeepsInv(states[..n + 1], steps[..n]);
      StepKeepsInv(states[n], steps[n]);
      StepKeepsAccounts(states[n], steps[n]);
    }
  }

  /** A run in which calls keep their window. */
  ghost predicate IsWindowedRun(states: seq<State>, steps: seq<Step>) {
    IsRun(states, steps) && forall i :: 0 <= i <= |steps| ==> CallWindow(states[i])
  }

  /** A run in which promises keep theirs. */
  ghost predicate IsPromiseWindowedRun(states: seq<State>, steps: seq<Step>) {
    IsRun(states, steps) && forall i :: 0 <= i <= |steps| ==> PromiseWindow(states[i])
  }

  lemma {:induction false} WindowedRunKeepsOwn(states: seq<State>, steps: seq<Step>)
    requires IsWindowedRun(states, steps)
    ensures OwnSync(states[|steps|])
    decreases |steps|
  {
    hide CallWindow;
    if |steps| > 0 {
      var n := |steps| - 1;
      assert IsRun(states[..n + 1], steps[..n]);
      WindowedRunKeepsOwn(states[..n + 1], steps[..n]);
      RunKeepsInv(states[..n + 1], steps[..n]);
      assert CallWindow(states[n]) && CallWindow(states[n + 1]);
      StepKeepsOwn(states[n], steps[n]);
    }
  }

  lemma {:induction false} WindowedRunKeepsAsync(states: seq<State>, steps: seq<Step>)
    requires IsPromiseWindowedRun(states, steps)
    ensures |states[|steps|].calls| == |states[|steps|].promises| && AsyncKept(states[|steps|])
    decreases |steps|
  {
    hide PromiseWindow;
    if |steps| > 0 {
      var n := |steps| - 1;
      assert IsRun(states[..n + 1], steps[..n]);
      WindowedRunKeepsAsync(states[..n + 1], steps[..n]);
      RunKeepsInv(states[..n + 1], steps[..n]);
      assert PromiseWindow(states[n]);
      StepKeepsAsync(states[n], steps[n]);
    }
  }

  /** Conservation, over every run: the map's entries are exactly the pending promises, each under
      its own call's id; every tracked publish past its registration is pending in the map,
      acknowledged, lost with the connection, or had its promise destroyed. */
  lemma Conservation(states: seq<State>, steps: seq<Step>, c: nat)
    requires IsRun(states, steps) && c < |states[|steps|].calls|
    ensures var s := states[|steps|];
      var call := s.calls[c];
      && |s.calls| == |s.promises|
      && (s.promises[c].Pending? <==> c in s.pending.Values)
      && (s.promises[c].Pending? ==> call.Id() in s.pending && s.pending[call.Id()] == c)
      && (call.Registered() <==> s.promises[c].Pending? || Settled(s.promises[c]))
      && (call.Tracked() && call.sent ==> call.Registered())
  {
    RunKeepsInv(states, steps);
    var s := states[|steps|];
    assert CallInv(s.calls[c], s.promises[c], s.counter, s.pubacks);
  }

  /** While calls keep their window, a synchronous publish's destroyed promise was withdrawn by its own
      call, after its send failed or its wait timed out; no call throws, and no id is 0. */
  lemma WindowedConservation(states: seq<State>, steps: seq<Step>, c: nat)
    requires IsWindowedRun(states, steps) && c < |states[|steps|].calls|
    ensures var s := states[|steps|];
      var call := s.calls[c];
      && |s.calls| == |s.promises|
      && (s.promises[c].Abandoned? && call.kind.Sync? ==>
            s.promises[c].taker == c
            && call.pc in {Recording(PublishFailed), Recording(PublishTimeout), Done(PublishFailed), Done(PublishTimeout)})
      && call.pc != Done(BrokenPromise)
      && 0 !in s.pending
  {
    RunKeepsInv(states, steps);
    WindowedRunKeepsOwn(states, steps);
    var s := states[|steps|];
    assert CallInv(s.calls[c], s.promises[c], s.counter, s.pubacks);
    NoIdZero(s);
  }

  /** While promises keep theirs, a publishAsync's promise is never destroyed. */
  lemma AsyncConservation(states: seq<State>, steps: seq<Step>, c: nat)
    requires IsPromiseWindowedRun(states, steps) && c < |states[|steps|].calls|
    requires states[|steps|].calls[c].kind.Async?
    ensures c < |states[|steps|].promises| && !states[|steps|].promises[c].Abandoned?
  {
    WindowedRunKeepsAsync(states, steps);
  }

  /** No false and no shared acknowledgement, over every run: a synchronous publish with QoS above
      0 that reports success was sent, and a PUBACK with its id was read after its registration;
      no two calls owe their success to the same PUBACK. */
  lemma SuccessWasAcknowledged(states: seq<State>, steps: seq<Step>, c: nat, d: nat)
    requires IsRun(states, steps) && c < |states[|steps|].calls| && d < |states[|steps|].calls|
    ensures var s := states[|steps|];
      var call := s.calls[c];
      && |s.calls| == |s.promises|
      && (call.kind.Sync? && call.qos > 0 && call.pc == Done(PublisherModel.Published) ==>
            call.sent && s.promises[c].Acked?)
      && (s.promises[c].Acked? ==>
            call.regAt <= s.promises[c].at < |s.pubacks| && s.pubacks[s.promises[c].at] == call.Id())
      && (c != d && s.promises[c].Acked? && s.promises[d].Acked? ==> s.promises[c].at != s.promises[d].at)
  {
    RunKeepsInv(states, steps);
    var s := states[|steps|];
    assert CallInv(s.calls[c], s.promises[c], s.counter, s.pubacks);
  }

  /** Publish accounting, over every run: the two counters miss exactly the calls that threw a
      broken promise, and while calls keep their window there are none. */
  lemma PublishAccounting(states: seq<State>, steps: seq<Step>)
    requires IsRun(states, steps)
    ensures var s := states[|steps|];
      && s.published + s.failures + Count(s.calls, Threw) == Count(s.calls, Completed)
      && s.published == Count(s.calls, Succeeded)
      && (IsWindowedRun(states, steps) ==> s.published + s.failures == Count(s.calls, Completed))
  {
    RunKeepsInv(states, steps);
    if IsWindowedRun(states, steps) {
      WindowedRunKeepsOwn(states, steps);
      NoneThrew(states[|steps|].calls);
    }
  }

  /** What was settled at some point of a run is the same at every later one. */
  lemma {:induction false} SettledForGood(states: seq<State>, steps: seq<Step>, i: nat, c: nat)
    requires IsRun(states, steps) && i <= |steps| && c < |states[i].promises| && Settled(states[i].promises[c])
    ensures var s := states[|steps|]; c < |s.promises| && s.promises[c] == states[i].promises[c]
    decreases |steps|
  {
    if i < |steps| {
      var n := |steps| - 1;
      assert IsRun(states[..n + 1], steps[..n]);
      SettledForGood(states[..n + 1], steps[..n], i, c);
      RunKeepsInv(states[..n + 1], steps[..n]);
      SettledStays(states[n], steps[n], c);
    }
  }
}
