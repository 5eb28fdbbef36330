/** Losing the connection, getting it back and giving it up: receive thread, reconnect worker and
    disconnect as a step machine. One thread at a time calls connect or disconnect, and a connect
    succeeds only when the previous receive thread has ended. */
module Reconnect {
  import opened Prelude
  import opened Backoff
  import opened Handshake

  /** The receive thread, as far as a failed read leads. */
  datatype Reader =
    | NoReader
    | Reading
    | Losing                        // its read has failed and it saw no stop request
    | Scheduling                    // state set to Reconnecting, about to schedule

  /** `reconnectThread`, which stays joinable from its launch on. */
  datatype Worker =
    | NotLaunched
    | Waiting                       // at its loop head or in its wait for a request
    | Deciding                      // has taken a request, about to look at the state
    | Asleep                        // in its sleep, then in connect
    | Leaving                       // out of its loop
    | Finished                      // ended, still joinable

  /** A disconnect under way. */
  datatype Leaver =
    | NoLeaver
    | Stopping                      // past its guard: says goodbye, stops the transport
    | Closing                       // has asked the receive thread to stop

  datatype Session = Session(
    state: ConnectionState,
    reader: Reader,
    token: bool,                    // the receive thread's stop request
    leaver: Leaver,
    requested: bool,                // reconnectRequested
    worker: Worker,
    delay: nat,                     // the worker's locals
    attempt: u32,
    sleeps: seq<nat>,               // all its sleeps so far
    launches: nat,
    reconnects: nat,                // the metric
    terminated: bool)               // an exception has left a thread

  const Fresh := Session(Disconnected, NoReader, false, NoLeaver, false, NotLaunched, 0, 0, [], 0, 0, false)

  datatype Step =
    | ReadFails                     // and the stop request is looked at
    | SetLost
    | Schedule
    | Take
    | Decide
    | TryConnect(met: Attempt, draw: nat)
    | Leave
    | Stop                          // the worker sees a stop request
    | OtherConnects                 // a caller's connect succeeds
    | OtherFails(thrown: bool)      // or not
    | Disconnect                    // called; returns at once unless Connected
    | StopReader
    | Return

  /** What connect gives in this state: already connected is an error. */
  function ConnectGives(state: ConnectionState, met: Attempt): ConnectResult {
    if state == Connected then Failure else ResultOf(met)
  }

  function StateAfter(state: ConnectionState, met: Attempt): ConnectionState {
    if state == Connected then Connected
    else match ResultOf(met)
      case Success => Connected
      case Failure => Failed
      case Thrown => Connecting
  }

  predicate Enabled(s: Session, step: Step) {
    && !s.terminated
    && match step
       case ReadFails => s.reader.Reading?
       case SetLost => s.reader.Losing?
       case Schedule => s.reader.Scheduling?
       case Take => s.worker.Waiting? && s.requested
       case Decide => s.worker.Deciding?
       case TryConnect(met, _) =>
         s.worker.Asleep? && (ConnectGives(s.state, met) == Success ==> s.reader.NoReader?)
       case Leave => s.worker.Leaving?
       case Stop => s.worker.Waiting?
       case OtherConnects => s.leaver.NoLeaver? && s.state != Connected && s.reader.NoReader?
       case OtherFails(_) => s.leaver.NoLeaver? && s.state != Connected
       case Disconnect => s.leaver.NoLeaver?
       case StopReader => s.leaver.Stopping?
       case Return => s.leaver.Closing?
  }

  /** `++attempt` of a 32-bit counter. */
  function NextAttempt(attempt: u32): u32 { (attempt + 1) % 0x1_0000_0000 }

  /** The next attempt would be one too many. */
  predicate Spent(p: Policy, s: Session) { p.maxRetries > 0 && NextAttempt(s.attempt) > p.maxRetries }

  function Apply(p: Policy, s: Session, step: Step): Session
    requires p.Valid() && Enabled(s, step)
  {
    match step
    case ReadFails => s.(reader := if s.token then NoReader else Losing)
    case SetLost =>
      s.(state := Reconnecting, reconnects := s.reconnects + 1, reader := if p.enabled then Scheduling else NoReader)
    case Schedule =>
      var asked := s.(reader := NoReader, requested := true);
      if s.worker.NotLaunched? then
        asked.(worker := Waiting, delay := p.initialDelay, attempt := 0, launches := s.launches + 1)
      else asked
    case Take => s.(requested := false, worker := Deciding)
    case Decide =>
      if s.state == Connected then s.(worker := Leaving)
      else if Spent(p, s) then s.(attempt := NextAttempt(s.attempt), state := Failed, worker := Leaving)
      else s.(attempt := NextAttempt(s.attempt), worker := Asleep, sleeps := s.sleeps + [s.delay])
    case TryConnect(met, draw) =>
      var tried := s.(state := StateAfter(s.state, met));
      (match ConnectGives(s.state, met)
       case Success => tried.(reader := Reading, token := false, worker := Leaving)
       case Failure => tried.(delay := NextDelay(p, s.delay, draw), requested := true, worker := Waiting)
       case Thrown => tried.(terminated := true))
    case Leave => s.(worker := Finished)
    case Stop => s.(worker := Leaving)
    case OtherConnects => s.(state := Connected, reader := Reading, token := false)
    case OtherFails(thrown) => s.(state := if thrown then Connecting else Failed)
    case Disconnect => if s.state == Connected then s.(state := Disconnecting, leaver := Stopping) else s
    case StopReader => s.(token := true, leaver := Closing)
    case Return => s.(state := Disconnected, leaver := NoLeaver)
  }

  ghost predicate IsRun(p: Policy, states: seq<Session>, steps: seq<Step>) {
    && p.Valid()
    && |states| == |steps| + 1
    && states[0] == Fresh
    && forall i :: 0 <= i < |steps| ==> Enabled(states[i], steps[i]) && states[i + 1] == Apply(p, states[i], steps[i])
  }

  lemma StepAt(p: Policy, states: seq<Session>, steps: seq<Step>, i: nat)
    requires IsRun(p, states, steps) && i < |steps|
    ensures |states| == |steps| + 1 && Enabled(states[i], steps[i]) && states[i + 1] == Apply(p, states[i], steps[i])
  {
  }

  // ---- What every step keeps ----

  /** A thread on its way to schedule is not Connected; one that reads and has not been asked to stop
      belongs to a connection, a disconnect under way, or a worker that is done. */
  predicate Inv(p: Policy, s: Session) {
    && (s.reader.Scheduling? ==> s.state != Connected)
    && (s.reader.Reading? && !s.token ==>
          (s.state == Connected && s.leaver.NoLeaver?) || s.leaver.Stopping? || Deaf(p, s))
    && (!p.enabled ==> s.worker.NotLaunched? && !s.reader.Scheduling?)
  }

  lemma StepKeepsInv(p: Policy, s: Session, step: Step)
    requires p.Valid() && Enabled(s, step) && Inv(p, s)
    ensures Inv(p, Apply(p, s, step))
  {
  }

  lemma {:induction false} RunKeepsInv(p: Policy, states: seq<Session>, steps: seq<Step>)
    requires IsRun(p, states, steps)
    ensures Inv(p, states[|steps|])
    decreases |steps|
  {
    hide Apply;
    hide Enabled;
    if |steps| > 0 {
      var n := |steps| - 1;
      assert IsRun(p, states[..n + 1], steps[..n]);
      RunKeepsInv(p, states[..n + 1], steps[..n]);
      StepKeepsInv(p, states[n], steps[n]);
    }
  }

  lemma InvAt(p: Policy, states: seq<Session>, steps: seq<Step>, i: nat)
    requires IsRun(p, states, steps) && i <= |steps|
    ensures Inv(p, states[i])
  {
    hide Apply;
    hide Enabled;
    assert IsRun(p, states[..i + 1], steps[..i]);
    RunKeepsInv(p, states[..i + 1], steps[..i]);
  }

  // ---- When the worker connects ----

  ghost predicate TriesAfter(steps: seq<Step>, i: nat) {
    exists k: nat :: i < k < |steps| && steps[k].TryConnect?
  }

  /** Ended, on its way out, or out of retries before another connect. */
  predicate Deaf(p: Policy, s: Session) {
    s.worker.Finished? || s.worker.Leaving? || ((s.worker.Waiting? || s.worker.Deciding?) && Spent(p, s))
  }

  /** On its way to a connect, and nothing but a stop or a connection can keep it. */
  predicate Hears(p: Policy, s: Session) {
    || s.worker.Asleep?
    || (((s.worker.Waiting? && s.requested) || s.worker.Deciding?) && !Spent(p, s) && s.state != Connected)
  }

  predicate WorkerCanMove(s: Session) {
    !s.terminated
    && ((s.worker.Waiting? && s.requested) || s.worker.Deciding? || s.worker.Asleep? || s.worker.Leaving?)
  }

  /** A receive thread that will have a reconnect scheduled. */
  predicate WillSchedule(p: Policy, s: Session) { p.enabled && (s.reader.Losing? || s.reader.Scheduling?) }

  /** A connect is coming, from the worker as it is or as the receive thread will leave it. */
  predicate Expects(p: Policy, s: Session) { Hears(p, s) || (WillSchedule(p, s) && !Deaf(p, s)) }

  /** Steps after which what is coming may not come. */
  predicate Interferes(step: Step) { step.Stop? || step.OtherConnects? }

  lemma DeafStays(p: Policy, s: Session, step: Step)
    requires p.Valid() && Enabled(s, step) && Deaf(p, s)
    ensures !step.TryConnect? && Deaf(p, Apply(p, s, step))
    ensures (s.worker.Finished? || s.worker.Leaving?) && s.requested ==>
      (Apply(p, s, step).worker.Finished? || Apply(p, s, step).worker.Leaving?) && Apply(p, s, step).requested
  {
  }

  lemma ExpectsStays(p: Policy, s: Session, step: Step)
    requires p.Valid() && Enabled(s, step) && Expects(p, s) && (s.worker.Asleep? || s.state != Connected)
    requires !step.TryConnect? && !Interferes(step)
    ensures var s' := Apply(p, s, step); Expects(p, s') && (s'.worker.Asleep? || s'.state != Connected)
  {
  }

  /** Once deaf the worker never connects again; and if it has left its loop a request made stays as
      it is. */
  lemma {:induction false} DeafForGood(p: Policy, states: seq<Session>, steps: seq<Step>, i: nat)
    requires IsRun(p, states, steps) && i <= |steps| && Deaf(p, states[i])
    ensures Deaf(p, states[|steps|]) && forall k :: i <= k < |steps| ==> !steps[k].TryConnect?
    ensures (states[i].worker.Finished? || states[i].worker.Leaving?) && states[i].requested ==>
      (states[|steps|].worker.Finished? || states[|steps|].worker.Leaving?) && states[|steps|].requested
    decreases |steps|
  {
    hide Apply;
    hide Enabled;
    hide Deaf;
    if i < |steps| {
      var n := |steps| - 1;
      assert IsRun(p, states[..n + 1], steps[..n]);
      DeafForGood(p, states[..n + 1], steps[..n], i);
      assert forall k :: i <= k < n ==> steps[..n][k] == steps[k];
      DeafStays(p, states[n], steps[n]);
    }
  }

  lemma {:induction false} ExpectsUntilTried(p: Policy, states: seq<Session>, steps: seq<Step>, i: nat)
    requires IsRun(p, states, steps) && i <= |steps| && Expects(p, states[i])
    requires states[i].worker.Asleep? || states[i].state != Connected
    requires forall k :: i <= k < |steps| ==> !steps[k].TryConnect? && !Interferes(steps[k])
    ensures var s := states[|steps|]; Expects(p, s) && (s.worker.Asleep? || s.state != Connected)
    ensures states[|steps|].terminated ==> states[i].terminated
    decreases |steps|
  {
    hide Expects;
    if i < |steps| {
      var n := |steps| - 1;
      assert IsRun(p, states[..n + 1], steps[..n]);
      ExpectsUntilTried(p, states[..n + 1], steps[..n], i);
      ExpectsStays(p, states[n], steps[n]);
    }
  }

  /** Neither worker nor receive thread can do more that matters. */
  predicate Settled(s: Session) { !WorkerCanMove(s) && !s.reader.Losing? && !s.reader.Scheduling? }

  lemma ExpectedComes(p: Policy, states: seq<Session>, steps: seq<Step>, i: nat)
    requires IsRun(p, states, steps) && i < |steps| && Expects(p, states[i + 1]) && !states[i + 1].terminated
    requires states[i + 1].worker.Asleep? || states[i + 1].state != Connected
    requires Settled(states[|steps|]) && forall k :: i < k < |steps| ==> !Interferes(steps[k])
    ensures TriesAfter(steps, i)
  {
    hide Apply;
    hide Enabled;
    if !TriesAfter(steps, i) {
      assert forall k: nat :: i < k < |steps| ==> !steps[k].TryConnect?;
      ExpectsUntilTried(p, states, steps, i + 1);
      assert false;
    }
  }

  // ---- Which losses are answered ----

  /** Over every run, followed until worker and receive thread can do no more, with no stop and no
      caller's connect after it, but any disconnects: a loss that is scheduled is answered by a connect
      if and only if at that moment the worker has neither ended nor left its loop nor, unless it is
      asleep before its last one, used up its retries. */
  lemma LossServedIff(p: Policy, states: seq<Session>, steps: seq<Step>, i: nat)
    requires IsRun(p, states, steps) && i < |steps| && steps[i] == Schedule
    requires Settled(states[|steps|]) && forall k :: i < k < |steps| ==> !Interferes(steps[k])
    ensures TriesAfter(steps, i) <==> !Deaf(p, states[i])
  {
    hide Deaf;
    InvAt(p, states, steps, i);
    if Deaf(p, states[i]) {
      DeafForGood(p, states, steps, i);
    } else {
      ScheduledIsExpected(p, states[i]);
      ExpectedComes(p, states, steps, i);
    }
  }

  lemma ScheduledIsExpected(p: Policy, s: Session)
    requires p.Valid() && Inv(p, s) && Enabled(s, Schedule) && !Deaf(p, s)
    ensures var s' := Apply(p, s, Schedule);
      Expects(p, s') && !s'.terminated && (s'.worker.Asleep? || s'.state != Connected)
  {
  }

  /** So a worker that has reconnected once answers no loss after that, in no continuation. */
  lemma OneReconnectOnly(p: Policy, states: seq<Session>, steps: seq<Step>, i: nat)
    requires IsRun(p, states, steps) && i < |steps|
    requires steps[i].TryConnect? && ConnectGives(states[i].state, steps[i].met) == Success
    ensures !TriesAfter(steps, i)
  {
    hide IsRun;
    assert Deaf(p, states[i + 1]) by { StepAt(p, states, steps, i); }
    DeafForGood(p, states, steps, i + 1);
  }

  /** Over every run: a worker that looks at the state while Connected leaves its loop, with no attempt
      counted and no sleep, and never connects again. */
  lemma ConnectedLookLeaves(p: Policy, states: seq<Session>, steps: seq<Step>, j: nat)
    requires IsRun(p, states, steps) && j < |steps| && steps[j] == Decide && states[j].state == Connected
    ensures states[j + 1] == states[j].(worker := Leaving) && !TriesAfter(steps, j)
  {
    StepAt(p, states, steps, j);
    assert Deaf(p, states[j + 1]);
    DeafForGood(p, states, steps, j + 1);
  }

  /** No step of the worker takes a live connection away. */
  lemma WorkerSparesConnection(p: Policy, states: seq<Session>, steps: seq<Step>, j: nat)
    requires IsRun(p, states, steps) && j < |steps| && states[j].state == Connected
    requires steps[j].Take? || steps[j].Decide? || steps[j].TryConnect? || steps[j].Leave? || steps[j].Stop?
    ensures states[j + 1].state == Connected
  {
    StepAt(p, states, steps, j);
  }

  // ---- When disconnect is final ----

  /** A call of disconnect returns: at its guard, or at its end. */
  predicate Returns(s: Session, step: Step) { step.Return? || (step.Disconnect? && s.state != Connected) }

  /** No connect is coming, and none will unless a caller connects. */
  predicate Quiet(p: Policy, s: Session) {
    !Expects(p, s) && (Deaf(p, s) || (s.state != Connected && s.leaver.NoLeaver?))
  }

  lemma QuietStays(p: Policy, s: Session, step: Step)
    requires p.Valid() && Enabled(s, step) && Inv(p, s) && Quiet(p, s) && !step.OtherConnects?
    ensures !step.TryConnect? && Quiet(p, Apply(p, s, step))
  {
  }

  lemma {:induction false} QuietForGood(p: Policy, states: seq<Session>, steps: seq<Step>, i: nat)
    requires IsRun(p, states, steps) && i <= |steps| && Quiet(p, states[i])
    requires forall k :: i <= k < |steps| ==> !steps[k].OtherConnects?
    ensures Quiet(p, states[|steps|]) && forall k :: i <= k < |steps| ==> !steps[k].TryConnect?
    decreases |steps|
  {
    hide Apply;
    hide Enabled;
    hide Quiet;
    if i < |steps| {
      var n := |steps| - 1;
      assert IsRun(p, states[..n + 1], steps[..n]);
      QuietForGood(p, states[..n + 1], steps[..n], i);
      assert forall k :: i <= k < n ==> steps[..n][k] == steps[k];
      RunKeepsInv(p, states[..n + 1], steps[..n]);
      QuietStays(p, states[n], steps[n]);
    }
  }

  /** Over every run, followed until worker and receive thread can do no more, with no caller's connect
      and no stop after a disconnect has returned: the client tries to connect after that if and only
      if at the return the worker is on its way to a connect, or the receive thread is past its check
      of the stop request with reconnecting enabled and a worker that is not deaf. */
  lemma DisconnectUndoneIff(p: Policy, states: seq<Session>, steps: seq<Step>, i: nat)
    requires IsRun(p, states, steps) && i < |steps| && Returns(states[i], steps[i])
    requires Settled(states[|steps|]) && forall k :: i < k < |steps| ==> !Interferes(steps[k])
    ensures TriesAfter(steps, i) <==> Expects(p, states[i + 1])
  {
    hide Expects;
    InvAt(p, states, steps, i);
    ReturnSettles(p, states[i], steps[i]);
    if Expects(p, states[i + 1]) {
      ExpectedComes(p, states, steps, i);
    } else {
      assert Quiet(p, states[i + 1]);
      QuietForGood(p, states, steps, i + 1);
    }
  }

  lemma ReturnSettles(p: Policy, s: Session, step: Step)
    requires p.Valid() && Enabled(s, step) && Returns(s, step)
    ensures var s' := Apply(p, s, step); s'.state != Connected && s'.leaver.NoLeaver? && !s'.terminated
  {
  }

  // ---- Runs by their steps ----

  ghost predicate AllEnabled(p: Policy, s: Session, steps: seq<Step>)
    requires p.Valid()
    decreases |steps|
  {
    steps == [] || (Enabled(s, steps[0]) && AllEnabled(p, Apply(p, s, steps[0]), steps[1..]))
  }

  ghost function Trace(p: Policy, s: Session, steps: seq<Step>): (r: seq<Session>)
    requires p.Valid() && AllEnabled(p, s, steps)
    ensures |r| == |steps| + 1 && r[0] == s
    decreases |steps|
  {
    if steps == [] then [s] else [s] + Trace(p, Apply(p, s, steps[0]), steps[1..])
  }

  ghost function End(p: Policy, s: Session, steps: seq<Step>): Session
    requires p.Valid() && AllEnabled(p, s, steps)
  {
    Trace(p, s, steps)[|steps|]
  }

  lemma {:induction false} TraceIsRun(p: Policy, s: Session, steps: seq<Step>)
    requires p.Valid() && AllEnabled(p, s, steps)
    ensures var r := Trace(p, s, steps);
      forall i :: 0 <= i < |steps| ==> Enabled(r[i], steps[i]) && r[i + 1] == Apply(p, r[i], steps[i])
    ensures s == Fresh ==> IsRun(p, Trace(p, s, steps), steps)
    decreases |steps|
  {
    hide Apply;
    hide Enabled;
    if steps != [] {
      TraceIsRun(p, Apply(p, s, steps[0]), steps[1..]);
    }
  }

  /** Steps that are all enabled from the start make a run. */
  lemma TraceFromFresh(p: Policy, steps: seq<Step>)
    requires p.Valid() && AllEnabled(p, Fresh, steps)
    ensures IsRun(p, Trace(p, Fresh, steps), steps)
  {
    TraceIsRun(p, Fresh, steps);
  }

  lemma {:induction false} TraceAppend(p: Policy, s: Session, first: seq<Step>, next: seq<Step>)
    requires p.Valid() && AllEnabled(p, s, first) && AllEnabled(p, End(p, s, first), next)
    ensures AllEnabled(p, s, first + next) && End(p, s, first + next) == End(p, End(p, s, first), next)
    decreases |first|
  {
    hide Apply;
    hide Enabled;
    if first == [] {
      assert first + next == next;
    } else {
      assert (first + next)[1..] == first[1..] + next;
      TraceAppend(p, Apply(p, s, first[0]), first[1..], next);
    }
  }

  /** One more step of a trace from the start. */
  lemma Then(p: Policy, steps: seq<Step>, step: Step)
    requires p.Valid() && AllEnabled(p, Fresh, steps) && Enabled(End(p, Fresh, steps), step)
    ensures AllEnabled(p, Fresh, steps + [step])
    ensures End(p, Fresh, steps + [step]) == Apply(p, End(p, Fresh, steps), step)
  {
    hide Apply;
    hide Enabled;
    var s := End(p, Fresh, steps);
    assert [step][1..] == [];
    assert AllEnabled(p, s, [step]);
    assert Trace(p, s, [step]) == [s] + Trace(p, Apply(p, s, step), []);
    TraceAppend(p, Fresh, steps, [step]);
  }

  // ---- The inputs on which the promises fail ----

  const Lost: seq<Step> := [ReadFails, SetLost, Schedule]

  /** A receive thread's loss, from start to end. */
  lemma LostTrace(p: Policy, s: Session)
    requires p.Valid() && p.enabled && !s.terminated && s.reader.Reading? && !s.token
    ensures AllEnabled(p, s, Lost)
    ensures End(p, s, Lost) == Apply(p, s.(reader := Scheduling, state := Reconnecting, reconnects := s.reconnects + 1), Schedule)
  {
    var s1 := Apply(p, s, ReadFails);
    var s2 := Apply(p, s1, SetLost);
    var s3 := Apply(p, s2, Schedule);
    assert Lost[1..] == [SetLost, Schedule] && [SetLost, Schedule][1..] == [Schedule] && [Schedule][1..] == [];
    assert AllEnabled(p, s2, [Schedule]) && Trace(p, s2, [Schedule]) == [s2, s3];
    assert AllEnabled(p, s1, [SetLost, Schedule]) && Trace(p, s1, [SetLost, Schedule]) == [s1, s2, s3];
    assert Trace(p, s, Lost) == [s, s1, s2, s3];
  }

  /** The client connected for the first time, then after its first loss. */
  function ConnectedFirst(): Session { Fresh.(state := Connected, reader := Reading) }

  function LostFirst(p: Policy): Session {
    Fresh.(state := Reconnecting, requested := true, worker := Waiting, delay := p.initialDelay, launches := 1,
           reconnects := 1)
  }

  const FirstLoss: seq<Step> := [OtherConnects] + Lost

  lemma FirstLossTrace(p: Policy)
    requires p.Valid() && p.enabled
    ensures AllEnabled(p, Fresh, [OtherConnects]) && End(p, Fresh, [OtherConnects]) == ConnectedFirst()
    ensures AllEnabled(p, Fresh, FirstLoss) && End(p, Fresh, FirstLoss) == LostFirst(p)
  {
    NothingYet(p);
    Then(p, [], OtherConnects);
    assert [] + [OtherConnects] == [OtherConnects];
    LostTrace(p, ConnectedFirst());
    TraceAppend(p, Fresh, [OtherConnects], Lost);
  }

  lemma NothingYet(p: Policy)
    requires p.Valid()
    ensures AllEnabled(p, Fresh, []) && End(p, Fresh, []) == Fresh
  {
  }

  /** A worker's answer to the first loss, up to its sleep. */
  lemma AsleepTrace(p: Policy, steps: seq<Step>)
    requires p.Valid() && AllEnabled(p, Fresh, steps)
    requires var s := End(p, Fresh, steps);
      !s.terminated && s.worker.Waiting? && s.requested && s.state != Connected && !Spent(p, s)
    ensures var s := End(p, Fresh, steps);
      && AllEnabled(p, Fresh, steps + [Take] + [Decide])
      && End(p, Fresh, steps + [Take] + [Decide])
         == s.(requested := false, worker := Asleep, attempt := NextAttempt(s.attempt), sleeps := s.sleeps + [s.delay])
  {
    Then(p, steps, Take);
    Then(p, steps + [Take], Decide);
  }

  /** The first loss, answered: the state in full. */
  lemma AnsweredTrace(p: Policy, connack: Attempt)
    requires p.Valid() && p.enabled && ResultOf(connack) == Success
    ensures var steps := FirstLoss + [Take] + [Decide] + [TryConnect(connack, 0)];
      && AllEnabled(p, Fresh, steps) && IsRun(p, Trace(p, Fresh, steps), steps)
      && End(p, Fresh, steps)
         == Session(Connected, Reading, false, NoLeaver, false, Leaving, p.initialDelay, 1, [p.initialDelay], 1, 1, false)
  {
    hide AllEnabled;
    hide End;
    FirstLossTrace(p);
    AsleepTrace(p, FirstLoss);
    var asleep := FirstLoss + [Take] + [Decide];
    Then(p, asleep, TryConnect(connack, 0));
    TraceFromFresh(p, asleep + [TryConnect(connack, 0)]);
  }

  /** Connect, loss, reconnect, loss. */
  function SecondLoss(connack: Attempt): seq<Step> {
    FirstLoss + [Take] + [Decide] + [TryConnect(connack, 0)] + [Leave] + Lost
  }

  /** The input on which the automatic reconnect fails: with reconnecting enabled, whatever the other
      settings, the second loss leaves the client Reconnecting with its request pending. */
  lemma SecondLossTrace(p: Policy, connack: Attempt)
    requires p.Valid() && p.enabled && ResultOf(connack) == Success
    ensures AllEnabled(p, Fresh, SecondLoss(connack))
    ensures var s := End(p, Fresh, SecondLoss(connack));
      s.state == Reconnecting && s.requested && s.worker.Finished? && s.reader.NoReader? && !s.terminated
    ensures IsRun(p, Trace(p, Fresh, SecondLoss(connack)), SecondLoss(connack))
  {
    hide AllEnabled;
    hide End;
    FirstLossTrace(p);
    AsleepTrace(p, FirstLoss);
    var asleep := FirstLoss + [Take] + [Decide];
    Then(p, asleep, TryConnect(connack, 0));
    Then(p, asleep + [TryConnect(connack, 0)], Leave);
    var finished := asleep + [TryConnect(connack, 0)] + [Leave];
    LostTrace(p, End(p, Fresh, finished));
    TraceAppend(p, Fresh, finished, Lost);
    TraceFromFresh(p, SecondLoss(connack));
  }

  /** Nothing that can happen after such a state has the worker take the request or connect. */
  lemma {:induction false} UnservedForGood(p: Policy, s: Session, later: seq<Step>)
    requires p.Valid() && AllEnabled(p, s, later) && s.requested && (s.worker.Leaving? || s.worker.Finished?)
    ensures End(p, s, later).requested && forall step :: step in later ==> !step.TryConnect? && !step.Take?
    decreases |later|
  {
    if later != [] {
      DeafStays(p, s, later[0]);
      UnservedForGood(p, Apply(p, s, later[0]), later[1..]);
      assert later == [later[0]] + later[1..];
    }
  }

  /** So in no continuation of that run is the second loss answered. */
  lemma SecondLossUnserved(p: Policy, connack: Attempt, later: seq<Step>)
    requires p.Valid() && p.enabled && ResultOf(connack) == Success
    requires AllEnabled(p, Fresh, SecondLoss(connack)) && AllEnabled(p, End(p, Fresh, SecondLoss(connack)), later)
    ensures AllEnabled(p, Fresh, SecondLoss(connack) + later)
    ensures End(p, Fresh, SecondLoss(connack) + later).requested
    ensures forall step :: step in later ==> !step.TryConnect? && !step.Take?
  {
    SecondLossTrace(p, connack);
    UnservedForGood(p, End(p, Fresh, SecondLoss(connack)), later);
    TraceAppend(p, Fresh, SecondLoss(connack), later);
  }

  /** Another one: the last retry has failed, a caller connects, and the connection is lost again. The
      request is taken, and answered by giving up. */
  function LossAfterRetries(refused: Attempt): seq<Step> {
    FirstLoss + [Take] + [Decide] + [TryConnect(refused, 0)] + [OtherConnects] + Lost + [Take] + [Decide]
  }

  lemma LossAfterRetriesTrace(p: Policy, refused: Attempt)
    requires p.Valid() && p.enabled && p.maxRetries == 1 && ResultOf(refused) == Failure
    ensures AllEnabled(p, Fresh, LossAfterRetries(refused))
    ensures var s := End(p, Fresh, LossAfterRetries(refused));
      s.state == Failed && s.worker.Leaving? && s.reader.NoReader? && !s.terminated
    ensures IsRun(p, Trace(p, Fresh, LossAfterRetries(refused)), LossAfterRetries(refused))
  {
    hide AllEnabled;
    hide End;
    FirstLossTrace(p);
    AsleepTrace(p, FirstLoss);
    var asleep := FirstLoss + [Take] + [Decide];
    Then(p, asleep, TryConnect(refused, 0));
    Then(p, asleep + [TryConnect(refused, 0)], OtherConnects);
    var connected := asleep + [TryConnect(refused, 0)] + [OtherConnects];
    LostTrace(p, End(p, Fresh, connected));
    TraceAppend(p, Fresh, connected, Lost);
    Then(p, connected + Lost, Take);
    Then(p, connected + Lost + [Take], Decide);
    TraceFromFresh(p, LossAfterRetries(refused));
  }

  // ---- The inputs on which disconnect is undone ----

  /** Called while Reconnecting, it returns at its guard and the worker goes on. */
  function UndoneAtGuard(connack: Attempt): seq<Step> {
    FirstLoss + [Disconnect] + [Take] + [Decide] + [TryConnect(connack, 0)]
  }

  lemma UndoneAtGuardTrace(p: Policy, connack: Attempt)
    requires p.Valid() && p.enabled && ResultOf(connack) == Success
    ensures AllEnabled(p, Fresh, UndoneAtGuard(connack)) && End(p, Fresh, UndoneAtGuard(connack)).state == Connected
    ensures IsRun(p, Trace(p, Fresh, UndoneAtGuard(connack)), UndoneAtGuard(connack))
  {
    hide AllEnabled;
    hide End;
    FirstLossTrace(p);
    Then(p, FirstLoss, Disconnect);
    AsleepTrace(p, FirstLoss + [Disconnect]);
    Then(p, FirstLoss + [Disconnect] + [Take] + [Decide], TryConnect(connack, 0));
    TraceFromFresh(p, UndoneAtGuard(connack));
  }

  /** The worker is asleep since an earlier loss, and disconnect does not stop it. */
  function UndoneBySleeper(connack: Attempt): seq<Step> {
    FirstLoss + [Take] + [Decide] + [OtherConnects] + [Disconnect] + [StopReader] + [Return] + [ReadFails]
      + [TryConnect(connack, 0)]
  }

  lemma UndoneBySleeperTrace(p: Policy, connack: Attempt)
    requires p.Valid() && p.enabled && ResultOf(connack) == Success
    ensures AllEnabled(p, Fresh, UndoneBySleeper(connack)) && End(p, Fresh, UndoneBySleeper(connack)).state == Connected
    ensures IsRun(p, Trace(p, Fresh, UndoneBySleeper(connack)), UndoneBySleeper(connack))
  {
    hide AllEnabled;
    hide End;
    FirstLossTrace(p);
    AsleepTrace(p, FirstLoss);
    var asleep := FirstLoss + [Take] + [Decide];
    Then(p, asleep, OtherConnects);
    Then(p, asleep + [OtherConnects], Disconnect);
    Then(p, asleep + [OtherConnects] + [Disconnect], StopReader);
    Then(p, asleep + [OtherConnects] + [Disconnect] + [StopReader], Return);
    Then(p, asleep + [OtherConnects] + [Disconnect] + [StopReader] + [Return], ReadFails);
    Then(p, asleep + [OtherConnects] + [Disconnect] + [StopReader] + [Return] + [ReadFails], TryConnect(connack, 0));
    TraceFromFresh(p, UndoneBySleeper(connack));
  }

  /** A read that fails before the stop request, the broker having closed on DISCONNECT for instance. */
  function UndoneByLoss(connack: Attempt): seq<Step> {
    [OtherConnects] + [Disconnect] + [ReadFails] + [StopReader] + [Return] + [SetLost] + [Schedule] + [Take] + [Decide]
      + [TryConnect(connack, 0)]
  }

  lemma UndoneByLossTrace(p: Policy, connack: Attempt)
    requires p.Valid() && p.enabled && ResultOf(connack) == Success
    ensures AllEnabled(p, Fresh, UndoneByLoss(connack)) && End(p, Fresh, UndoneByLoss(connack)).state == Connected
    ensures IsRun(p, Trace(p, Fresh, UndoneByLoss(connack)), UndoneByLoss(connack))
  {
    hide AllEnabled;
    hide End;
    FirstLossTrace(p);
    var steps := [OtherConnects];
    Then(p, steps, Disconnect);
    Then(p, steps + [Disconnect], ReadFails);
    Then(p, steps + [Disconnect] + [ReadFails], StopReader);
    Then(p, steps + [Disconnect] + [ReadFails] + [StopReader], Return);
    Then(p, steps + [Disconnect] + [ReadFails] + [StopReader] + [Return], SetLost);
    var lost := steps + [Disconnect] + [ReadFails] + [StopReader] + [Return] + [SetLost];
    Then(p, lost, Schedule);
    AsleepTrace(p, lost + [Schedule]);
    Then(p, lost + [Schedule] + [Take] + [Decide], TryConnect(connack, 0));
    TraceFromFresh(p, UndoneByLoss(connack));
  }

  // ---- Retries and sleeps over every run ----

  /** A limit that the 32-bit counter can pass. */
  predicate Limits(p: Policy) { 0 < p.maxRetries < 0xFFFF_FFFF }

  ghost predicate WorkerInv(p: Policy, s: Session)
    requires p.Valid()
  {
    && s.launches == (if s.worker.NotLaunched? then 0 else 1)
    && (s.worker.NotLaunched? ==> s.sleeps == [])
    && IsBackoff(p, s.sleeps)
    && (!s.worker.NotLaunched? && s.sleeps == [] ==> s.delay == p.initialDelay)
    && ((s.worker.Waiting? || s.worker.Deciding?) && s.sleeps != [] ==> CanFollow(p, s.sleeps[|s.sleeps| - 1], s.delay))
    && (s.worker.Asleep? ==> s.sleeps != [] && s.sleeps[|s.sleeps| - 1] == s.delay)
    && (Limits(p) && (s.worker.Waiting? || s.worker.Deciding? || s.worker.Asleep?) ==> s.attempt == |s.sleeps|)
    && (Limits(p) ==> |s.sleeps| <= p.maxRetries)
  }

  lemma BackoffExtends(p: Policy, sleeps: seq<nat>, delay: nat)
    requires p.Valid() && IsBackoff(p, sleeps)
    requires if sleeps == [] then delay == p.initialDelay else CanFollow(p, sleeps[|sleeps| - 1], delay)
    ensures IsBackoff(p, sleeps + [delay])
  {
  }

  lemma StepKeepsWorkerInv(p: Policy, s: Session, step: Step)
    requires p.Valid() && Enabled(s, step) && WorkerInv(p, s)
    ensures WorkerInv(p, Apply(p, s, step))
  {
    hide IsBackoff;
    hide NextDelay;
    if step.Decide? {
      BackoffExtends(p, s.sleeps, s.delay);
    }
  }

  lemma EmptyBackoff(p: Policy)
    requires p.Valid()
    ensures IsBackoff(p, [])
  {
  }

  function Attempts(steps: seq<Step>): nat {
    if steps == [] then 0
    else Attempts(steps[..|steps| - 1]) + (if steps[|steps| - 1].TryConnect? then 1 else 0)
  }

  /** The sleeps that a connect has followed. */
  function Tried(s: Session): int { |s.sleeps| - (if s.worker.Asleep? && !s.terminated then 1 else 0) }

  lemma StepTries(p: Policy, s: Session, step: Step)
    requires p.Valid() && Enabled(s, step) && WorkerInv(p, s)
    ensures Tried(Apply(p, s, step)) == Tried(s) + (if step.TryConnect? then 1 else 0)
    ensures Apply(p, s, step).launches == if step.Schedule? then 1 else s.launches
    ensures Limits(p) ==> Tried(s) <= p.maxRetries
  {
    hide IsBackoff;
    hide CanFollow;
    hide NextDelay;
  }

  /** Over every run: each connect call of the worker follows one sleep, and the sleeps are one
      back-off sequence; with a limit from 1 to 2^32 - 2 there are no more of them, in the life of the
      object, than that; and the worker is launched once if a loss has been scheduled, and never
      otherwise. */
  lemma {:induction false} RetriesBounded(p: Policy, states: seq<Session>, steps: seq<Step>)
    requires IsRun(p, states, steps)
    ensures var s := states[|steps|];
      && WorkerInv(p, s) && IsBackoff(p, s.sleeps)
      && Attempts(steps) == Tried(s)
      && (Limits(p) ==> Attempts(steps) <= p.maxRetries)
      && s.launches == (if Schedule in steps then 1 else 0)
    decreases |steps|
  {
    var s := states[|steps|];
    if |steps| == 0 {
      EmptyBackoff(p);
    } else {
      hide IsBackoff;
      hide Apply;
      hide Enabled;
      hide Tried;
      var n := |steps| - 1;
      assert IsRun(p, states[..n + 1], steps[..n]);
      RetriesBounded(p, states[..n + 1], steps[..n]);
      hide WorkerInv;
      StepKeepsWorkerInv(p, states[n], steps[n]);
      StepTries(p, states[n], steps[n]);
      assert steps == steps[..n] + [steps[n]];
    }
    SessionBounds(p, s);
  }

  lemma SessionBounds(p: Policy, s: Session)
    requires p.Valid() && WorkerInv(p, s)
    ensures IsBackoff(p, s.sleeps) && (Limits(p) ==> Tried(s) <= p.maxRetries && |s.sleeps| <= p.maxRetries)
  {
  }

  /** Without such a limit there is none: for 0, as documented, and for 2^32 - 1, which the counter
      wraps past, the worker can fail any number of times and go on. */
  lemma {:induction false} RetriesUnbounded(p: Policy, refused: Attempt, n: nat) returns (steps: seq<Step>)
    requires p.Valid() && p.enabled && !Limits(p) && ResultOf(refused) == Failure
    ensures AllEnabled(p, Fresh, steps) && Attempts(steps) == n
    ensures IsRun(p, Trace(p, Fresh, steps), steps)
    ensures var s := End(p, Fresh, steps);
      !s.terminated && s.worker.Waiting? && s.requested && s.state != Connected
  {
    hide AllEnabled;
    hide End;
    if n == 0 {
      FirstLossTrace(p);
      steps := FirstLoss;
      AttemptsAppend([], OtherConnects);
      AttemptsAppend([] + [OtherConnects], ReadFails);
      AttemptsAppend([] + [OtherConnects] + [ReadFails], SetLost);
      AttemptsAppend([] + [OtherConnects] + [ReadFails] + [SetLost], Schedule);
      assert FirstLoss == [] + [OtherConnects] + [ReadFails] + [SetLost] + [Schedule];
    } else {
      var before := RetriesUnbounded(p, refused, n - 1);
      AsleepTrace(p, before);
      Then(p, before + [Take] + [Decide], TryConnect(refused, 0));
      steps := before + [Take] + [Decide] + [TryConnect(refused, 0)];
      AttemptsAppend(before, Take);
      AttemptsAppend(before + [Take], Decide);
      AttemptsAppend(before + [Take] + [Decide], TryConnect(refused, 0));
    }
    TraceFromFresh(p, steps);
  }

  lemma AttemptsAppend(steps: seq<Step>, step: Step)
    ensures Attempts(steps + [step]) == Attempts(steps) + (if step.TryConnect? then 1 else 0)
  {
    assert (steps + [step])[..|steps|] == steps;
  }
}
