/** The callback of publishAsync: when it runs, how often and with what code. A tracked call moves its
    callback into a detached thread that waits for the promise; what is left behind is an empty
    function, which the failed send then does not call. */
module PublisherCallbacks {
  import opened Prelude
  import opened PacketIds
  import PM = PublisherModel
  import PublisherProofs

  /** The error code that it is given. */
  datatype Code = Acknowledged | LostConnection | PublishFailed

  datatype Callback = Callback(call: nat, code: Code)

  /** The publisher and the callbacks made so far. */
  datatype State = State(session: PM.State, made: seq<Callback>)

  datatype Step =
    | Base(step: PM.Step)
    | Deliver(call: nat)            // a detached thread's future is ready

  predicate HasCallback(call: PM.Call) { call.kind.Async? && call.kind.callback }

  /** The code that a detached thread gets, if its future is ready and does not throw. */
  function CodeOf(p: PM.Promise): Option<Code> {
    match p
    case Acked(_) => Some(Acknowledged)
    case Lost => Some(LostConnection)
    case _ => None
  }

  predicate Made(made: seq<Callback>, c: nat) { exists k :: 0 <= k < |made| && made[k].call == c }

  predicate Deliverable(s: State, c: nat) {
    && c < |s.session.calls| && c < |s.session.promises|
    && HasCallback(s.session.calls[c]) && s.session.calls[c].Tracked()
    && CodeOf(s.session.promises[c]).Some? && !Made(s.made, c)
  }

  predicate Enabled(s: State, step: Step) {
    match step
    case Base(m) => PM.Enabled(s.session, m)
    case Deliver(c) => Deliverable(s, c)
  }

  /** A failed send of an untracked call has its callback called on the spot. */
  function CalledBy(s: PM.State, step: PM.Step): seq<Callback>
    requires PM.Enabled(s, step)
  {
    if step.Record? && HasCallback(s.calls[step.c]) && !s.calls[step.c].Tracked()
       && s.calls[step.c].pc.what == PM.PublishFailed
    then [Callback(step.c, PublishFailed)] else []
  }

  function Apply(s: State, step: Step): State
    requires Enabled(s, step)
  {
    match step
    case Base(m) => State(PM.Apply(s.session, m), s.made + CalledBy(s.session, m))
    case Deliver(c) => s.(made := s.made + [Callback(c, CodeOf(s.session.promises[c]).value)])
  }

  ghost predicate IsRun(states: seq<State>, steps: seq<Step>) {
    && |states| == |steps| + 1
    && (exists b :: states[0] == State(PM.Fresh(b), []))
    && forall i :: 0 <= i < |steps| ==> Enabled(states[i], steps[i]) && states[i + 1] == Apply(states[i], steps[i])
  }

  // ---- What every step keeps ----

  /** What a callback made says about its call. */
  ghost predicate Justified(s: PM.State, cb: Callback) {
    && cb.call < |s.calls| && cb.call < |s.promises| && HasCallback(s.calls[cb.call])
    && if s.calls[cb.call].Tracked() then CodeOf(s.promises[cb.call]) == Some(cb.code)
       else cb.code == PublishFailed && s.calls[cb.call].pc == PM.Done(PM.PublishFailed)
  }

  ghost predicate AllJustified(s: PM.State, made: seq<Callback>) {
    forall k :: 0 <= k < |made| ==> Justified(s, made[k])
  }

  predicate OnceEach(made: seq<Callback>) {
    forall k, l :: 0 <= k < l < |made| ==> made[k].call != made[l].call
  }

  predicate FailedUntracked(call: PM.Call) {
    HasCallback(call) && !call.Tracked() && call.pc == PM.Done(PM.PublishFailed)
  }

  /** Every untracked failure has been called back. */
  ghost predicate FailuresCalled(s: PM.State, made: seq<Callback>) {
    forall c: nat :: c < |s.calls| && FailedUntracked(s.calls[c]) ==> Made(made, c)
  }

  ghost predicate Inv(s: State) {
    PM.Inv(s.session) && AllJustified(s.session, s.made) && OnceEach(s.made) && FailuresCalled(s.session, s.made)
  }

  /** A call that is done stays so, with its kind and QoS. */
  predicate Later(s: PM.State, s': PM.State, c: nat)
    requires c < |s.calls|
  {
    && c < |s'.calls| && s'.calls[c].kind == s.calls[c].kind && s'.calls[c].qos == s.calls[c].qos
    && (s.calls[c].pc.Done? ==> s'.calls[c].pc == s.calls[c].pc)
  }

  lemma StepIsLater(s: PM.State, step: PM.Step, c: nat)
    requires PM.Enabled(s, step) && c < |s.calls|
    ensures Later(s, PM.Apply(s, step), c)
  {
  }

  lemma StillJustified(s: PM.State, step: PM.Step, cb: Callback)
    requires PM.Inv(s) && PM.Enabled(s, step) && Justified(s, cb)
    ensures Justified(PM.Apply(s, step), cb)
  {
    hide PM.Inv;
    hide PM.Apply;
    hide PM.Enabled;
    StepIsLater(s, step, cb.call);
    SameLength(s);
    if s.calls[cb.call].Tracked() {
      PublisherProofs.SettledStays(s, step, cb.call);
    }
    PublisherProofs.StepKeepsInv(s, step);
    SameLength(PM.Apply(s, step));
  }

  lemma SameLength(s: PM.State)
    requires PM.Inv(s)
    ensures |s.calls| == |s.promises|
  {
  }

  /** The only step that completes an untracked call is the one that counts it. */
  lemma DoneByRecord(s: PM.State, step: PM.Step, c: nat)
    requires PM.Inv(s) && PM.Enabled(s, step) && c < |PM.Apply(s, step).calls|
    requires FailedUntracked(PM.Apply(s, step).calls[c])
    ensures c < |s.calls|
    ensures s.calls[c].pc == PM.Done(PM.PublishFailed) || CalledBy(s, step) == [Callback(c, PublishFailed)]
  {
    if c < |s.calls| {
      assert PM.CallInv(s.calls[c], s.promises[c], s.counter, s.pubacks);
    }
  }

  lemma CalledIsNew(s: State, m: PM.Step)
    requires Inv(s) && PM.Enabled(s.session, m) && CalledBy(s.session, m) != []
    ensures !Made(s.made, m.c) && Justified(PM.Apply(s.session, m), CalledBy(s.session, m)[0])
  {
    assert s.session.calls[m.c].pc.Recording?;
  }

  lemma BaseKeepsInv(s: State, m: PM.Step)
    requires Inv(s) && Enabled(s, Base(m))
    ensures Inv(Apply(s, Base(m)))
  {
    hide PM.Inv;
    hide PM.Apply;
    hide PM.Enabled;
    hide Justified;
    var s' := Apply(s, Base(m));
    var added := CalledBy(s.session, m);
    PublisherProofs.StepKeepsInv(s.session, m);
    if added != [] {
      CalledIsNew(s, m);
    }
    forall k | 0 <= k < |s'.made| ensures Justified(s'.session, s'.made[k]) {
      if k < |s.made| {
        StillJustified(s.session, m, s.made[k]);
      }
    }
    forall c: nat | c < |s'.session.calls| && FailedUntracked(s'.session.calls[c]) ensures Made(s'.made, c) {
      DoneByRecord(s.session, m, c);
      if added == [Callback(c, PublishFailed)] {
        assert s'.made[|s.made|].call == c;
      } else {
        StepIsLater(s.session, m, c);
        MadeStays(s.made, added, c);
      }
    }
  }

  lemma MadeStays(made: seq<Callback>, added: seq<Callback>, c: nat)
    requires Made(made, c)
    ensures Made(made + added, c)
  {
    var k :| 0 <= k < |made| && made[k].call == c;
    assert (made + added)[k].call == c;
  }

  lemma DeliverKeepsInv(s: State, c: nat)
    requires Inv(s) && Enabled(s, Deliver(c))
    ensures Inv(Apply(s, Deliver(c)))
  {
    hide PM.Inv;
    var added := [Callback(c, CodeOf(s.session.promises[c]).value)];
    forall d: nat | Made(s.made, d) ensures Made(s.made + added, d) {
      MadeStays(s.made, added, d);
    }
  }

  lemma {:induction false} RunKeepsInv(states: seq<State>, steps: seq<Step>)
    requires IsRun(states, steps)
    ensures Inv(states[|steps|])
    decreases |steps|
  {
    hide Apply;
    hide Enabled;
    if |steps| > 0 {
      var n := |steps| - 1;
      assert IsRun(states[..n + 1], steps[..n]);
      RunKeepsInv(states[..n + 1], steps[..n]);
      match steps[n]
      case Base(m) => BaseKeepsInv(states[n], m);
      case Deliver(c) => DeliverKeepsInv(states[n], c);
    }
  }

  // ---- Over every run ----

  /** No callback runs twice. For a tracked call, whether its send failed or not: a callback made gave
      Ok for a PUBACK or ConnectionLost for a loss, as its promise was settled, and never PublishFailed;
      and when its thread has nothing left to do it has been made if and only if the promise was
      settled so. For an untracked call: it is made if and only if the send failed, with
      PublishFailed. Without a callback, none. */
  lemma CallbackIff(states: seq<State>, steps: seq<Step>, c: nat)
    requires IsRun(states, steps) && c < |states[|steps|].session.calls|
    ensures var s := states[|steps|];
      var call := s.session.calls[c];
      && c < |s.session.promises|
      && (forall k, l :: 0 <= k < l < |s.made| ==> s.made[k].call != s.made[l].call)
      && (!HasCallback(call) ==> !Made(s.made, c))
      && (HasCallback(call) && call.Tracked() ==>
            && (forall k :: 0 <= k < |s.made| && s.made[k].call == c ==> CodeOf(s.session.promises[c]) == Some(s.made[k].code))
            && (forall k :: 0 <= k < |s.made| && s.made[k].call == c ==>
                  && (s.made[k].code == Acknowledged <==> s.session.promises[c].Acked?)
                  && (s.made[k].code == LostConnection <==> s.session.promises[c].Lost?)
                  && s.made[k].code != PublishFailed)
            && (!Deliverable(s, c) ==> (Made(s.made, c) <==> CodeOf(s.session.promises[c]).Some?)))
      && (HasCallback(call) && !call.Tracked() ==>
            && (Made(s.made, c) <==> call.pc == PM.Done(PM.PublishFailed))
            && (forall k :: 0 <= k < |s.made| && s.made[k].call == c ==> s.made[k].code == PublishFailed))
  {
    hide PM.Inv;
    hide Apply;
    hide Enabled;
    RunKeepsInv(states, steps);
    var s := states[|steps|];
    SameLength(s.session);
    forall k | 0 <= k < |s.made| ensures Justified(s.session, s.made[k]) {
    }
  }

  /** Without the deliveries a run is a run of the publisher, through the same states. */
  lemma {:induction false} SessionRun(states: seq<State>, steps: seq<Step>)
    returns (sessions: seq<PM.State>, moves: seq<PM.Step>)
    requires IsRun(states, steps)
    ensures PM.IsRun(sessions, moves) && sessions[|moves|] == states[|steps|].session
    ensures forall x :: x in sessions ==> exists i :: 0 <= i <= |steps| && x == states[i].session
    decreases |steps|
  {
    hide PM.Apply;
    hide PM.Enabled;
    if |steps| == 0 {
      sessions, moves := [states[0].session], [];
    } else {
      var n := |steps| - 1;
      assert IsRun(states[..n + 1], steps[..n]);
      sessions, moves := SessionRun(states[..n + 1], steps[..n]);
      if steps[n].Base? {
        sessions, moves := Extended(sessions, moves, steps[n].step);
      }
    }
  }

  lemma Extended(sessions: seq<PM.State>, moves: seq<PM.Step>, m: PM.Step)
    returns (sessions': seq<PM.State>, moves': seq<PM.Step>)
    requires PM.IsRun(sessions, moves) && PM.Enabled(sessions[|moves|], m)
    ensures sessions' == sessions + [PM.Apply(sessions[|moves|], m)] && moves' == moves + [m]
    ensures PM.IsRun(sessions', moves')
  {
    hide PM.Apply;
    hide PM.Enabled;
    sessions', moves' := sessions + [PM.Apply(sessions[|moves|], m)], moves + [m];
    forall i | 0 <= i < |moves'|
      ensures PM.Enabled(sessions'[i], moves'[i]) && sessions'[i + 1] == PM.Apply(sessions'[i], moves'[i])
    {
      if i < |moves| {
        assert sessions'[i] == sessions[i] && sessions'[i + 1] == sessions[i + 1] && moves'[i] == moves[i];
      }
    }
  }

  /** While promises keep their window a tracked call's callback is owed exactly as long as its promise
      is pending: none is dropped by a destroyed promise. */
  lemma NoneDropped(states: seq<State>, steps: seq<Step>, c: nat)
    requires IsRun(states, steps) && forall i :: 0 <= i <= |steps| ==> PM.PromiseWindow(states[i].session)
    requires c < |states[|steps|].session.calls|
    requires var call := states[|steps|].session.calls[c]; HasCallback(call) && call.Registered()
    requires !Deliverable(states[|steps|], c)
    ensures var s := states[|steps|];
      c < |s.session.promises| && (Made(s.made, c) <==> !s.session.promises[c].Pending?)
  {
    hide PM.Inv;
    hide Apply;
    hide Enabled;
    hide PM.Apply;
    hide PM.Enabled;
    hide PM.PromiseWindow;
    CallbackIff(states, steps, c);
    var sessions, moves := SessionRun(states, steps);
    forall i | 0 <= i <= |moves| ensures PM.PromiseWindow(sessions[i]) {
      assert sessions[i] in sessions;
      var j :| 0 <= j <= |steps| && sessions[i] == states[j].session;
    }
    PublisherProofs.AsyncConservation(sessions, moves, c);
    PublisherProofs.Conservation(sessions, moves, c);
  }

  // ---- A failed send that is reported as a success ----

  ghost predicate Reachable(s: State) {
    exists states: seq<State>, steps: seq<Step> :: IsRun(states, steps) && states[|steps|] == s
  }

  lemma StepReaches(s: State, step: Step)
    requires Reachable(s) && Enabled(s, step)
    ensures Reachable(Apply(s, step))
  {
    hide Apply;
    hide Enabled;
    var states: seq<State>, steps: seq<Step> :| IsRun(states, steps) && states[|steps|] == s;
    var states', steps' := states + [Apply(s, step)], steps + [step];
    forall i | 0 <= i < |steps'| ensures Enabled(states'[i], steps'[i]) && states'[i + 1] == Apply(states'[i], steps'[i]) {
      if i < |steps| {
        assert states'[i] == states[i] && states'[i + 1] == states[i + 1] && steps'[i] == steps[i];
      }
    }
    assert IsRun(states', steps') && states'[|steps'|] == Apply(s, step);
  }

  lemma FreshReachable(buffering: bool)
    ensures Reachable(State(PM.Fresh(buffering), []))
  {
    var states: seq<State>, steps: seq<Step> := [State(PM.Fresh(buffering), [])], [];
    assert IsRun(states, steps) && states[|steps|] == states[0];
  }

  /** The only call failed to send, and its callback has been given Ok. */
  predicate ReportedWrongly(s: State) {
    && |s.session.calls| == 1 && s.session.calls[0].pc == PM.Done(PM.PublishFailed) && !s.session.calls[0].sent
    && s.made == [Callback(0, Acknowledged)]
  }

  /** A tracked publishAsync up to its failed send, counted as a failure. */
  function FailedSend(qos: int): PM.State
    requires qos > 0
  {
    var call := PM.Call(PM.Async(true), qos, PM.Done(PM.PublishFailed), Grant(1, 1), 0, false);
    PM.Fresh(false).(conn := Connected, counter := 2, pending := map[1 := 0], promises := [PM.Pending], calls := [call],
                     failures := 1)
  }

  lemma FailedSendReachable(qos: int)
    requires qos > 0
    ensures Reachable(State(FailedSend(qos), []))
  {
    hide Reachable;
    FreshReachable(false);
    var s0 := State(PM.Fresh(false), []);
    StepReaches(s0, Base(PM.Transition(Connected)));
    var s1 := Apply(s0, Base(PM.Transition(Connected)));
    StepReaches(s1, Base(PM.Begin(PM.Async(true), qos)));
    var s2 := Apply(s1, Base(PM.Begin(PM.Async(true), qos)));
    StepReaches(s2, Base(PM.Fetch(0)));
    var s3 := Apply(s2, Base(PM.Fetch(0)));
    StepReaches(s3, Base(PM.Register(0)));
    var s4 := Apply(s3, Base(PM.Register(0)));
    StepReaches(s4, Base(PM.Send(0, false)));
    var s5 := Apply(s4, Base(PM.Send(0, false)));
    StepReaches(s5, Base(PM.Record(0)));
    assert Apply(s5, Base(PM.Record(0))) == State(FailedSend(qos), []);
  }

  /** The send fails and is counted, and a PUBACK with its id, meant for another publish or for none,
      has the callback told Ok. */
  lemma FailureReportedAsSuccess(qos: int)
    requires qos > 0
    ensures exists s :: Reachable(s) && ReportedWrongly(s)
  {
    hide Reachable;
    FailedSendReachable(qos);
    var s := State(FailedSend(qos), []);
    StepReaches(s, Base(PM.Puback([0, 1])));
    var acked := Apply(s, Base(PM.Puback([0, 1])));
    StepReaches(acked, Deliver(0));
    assert ReportedWrongly(Apply(acked, Deliver(0)));
  }
}
