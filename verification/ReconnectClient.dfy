/** The client object: its connection state and its reconnect worker, and the code that takes the
    steps of the machine. */
module ReconnectClient {
  import opened Prelude
  import opened WireEncoding
  import opened ConnectPacket
  import opened Transport
  import opened Backoff
  import opened Handshake
  import opened Reconnect

  /** One turn of the worker as it finds the world: stop requests at the loop head or in the wait,
      what other threads do before its check and during its sleep, the attempt and the random draw. */
  datatype Turn = Turn(stopped: bool, before: seq<Step>, asleep: seq<Step>, met: Attempt, draw: nat)

  predicate Outside(step: Step) {
    || step.ReadFails? || step.SetLost? || step.Schedule?
    || step.OtherConnects? || step.OtherFails? || step.Disconnect? || step.StopReader? || step.Return?
  }

  datatype Exit = Stopped | FoundConnected | Exhausted | Reconnected | Died | StillRunning

  class Client {
    const policy: Policy
    var state: ConnectionState
    var reader: Reader
    var stopRequested: bool         // of the receive thread
    var leaver: Leaver
    var reconnectRequested: bool
    var worker: Worker
    var delay: nat
    var attempt: u32
    var reconnectCount: nat

    ghost var states: seq<Session>
    ghost var steps: seq<Step>

    ghost function Model(): Session
      reads this
      requires |states| == |steps| + 1
    {
      states[|steps|]
    }

    /** The fields are the machine's state, with this connection state. */
    ghost predicate Shows(of: ConnectionState)
      reads this
    {
      && |states| == |steps| + 1 && IsRun(policy, states, steps)
      && of == Model().state && reader == Model().reader && stopRequested == Model().token
      && leaver == Model().leaver && reconnectRequested == Model().requested
      && worker == Model().worker && delay == Model().delay && attempt == Model().attempt
      && reconnectCount == Model().reconnects
    }

    ghost predicate Valid(): (v: bool)
      reads this
      ensures v ==> policy.Valid() && |states| == |steps| + 1 && IsRun(policy, states, steps)
    {
      Shows(state)
    }

    ghost predicate Stepped(before: Session, step: Step)
      reads this
    {
      Valid() && Enabled(before, step) && Model() == Apply(policy, before, step)
    }

    constructor (policy: Policy)
      requires policy.Valid()
      ensures Valid() && this.policy == policy && Model() == Fresh
    {
      this.policy := policy;
      state, reader, stopRequested, leaver := Disconnected, NoReader, false, NoLeaver;
      reconnectRequested, worker := false, NotLaunched;
      delay, attempt, reconnectCount := 0, 0, 0;
      states, steps := [Fresh], [];
    }

    ghost method Advance(step: Step)
      requires |states| == |steps| + 1 && IsRun(policy, states, steps) && Enabled(Model(), step)
      modifies `states, `steps
      ensures |states| == |steps| + 1 && IsRun(policy, states, steps)
      ensures Model() == Apply(policy, old(Model()), step)
    {
      hide Enabled;
      hide Apply;
      ghost var next := Apply(policy, Model(), step);
      ghost var was, done := states, steps;
      states, steps := states + [next], steps + [step];
      forall i | 0 <= i < |steps|
        ensures Enabled(states[i], steps[i]) && states[i + 1] == Apply(policy, states[i], steps[i])
      {
        if i < |done| {
          assert states[i] == was[i] && states[i + 1] == was[i + 1] && steps[i] == done[i];
        }
      }
    }

    // ---- Connecting ----

    /** connect after the state has been set to Connecting: what the attempt meets decides, and a
        CONNACK too short to parse throws with the state left as it is. */
    method Conclude(met: Attempt) returns (r: ConnectResult)
      requires state == Connecting
      modifies `state
      ensures r == ResultOf(met)
      ensures r == Success <==> met.Answered? && |met.connack| >= 2 && met.connack[1] == 0
      ensures r == Thrown <==> met.Answered? && |met.connack| < 2
      ensures state == match r case Success => Connected case Failure => Failed case Thrown => Connecting
    {
      match met {
        case TransportFails => state := Failed; return Failure;
        case ConnectNotSent => state := Failed; return Failure;
        case NoAnswer => state := Failed; return Failure;
        case NotConnack => state := Failed; return Failure;
        case Answered(body) =>
          var code := ConnackCode(body);
          if code.None? { return Thrown; }
          if code.value != 0 { state := Failed; return Failure; }
      }
      state := Connected;
      return Success;
    }

    /** Already connected is an error that changes nothing. */
    method Connect(met: Attempt) returns (r: ConnectResult)
      modifies `state
      ensures r == ConnectGives(old(state), met) && state == StateAfter(old(state), met)
    {
      if state == Connected { return Failure; }
      state := Connecting;
      r := Conclude(met);
    }

    /** A caller's connect over a transport that has opened or not: the packets themselves. Already
        connected touches nothing; else the CONNECT goes out whole unless the send fails, and with a
        transport that neither fails nor starves the peer's bytes alone decide. The previous receive
        thread has ended before the next one starts. */
    method ConnectOver(isOpen: bool, t: SocketTransport, params: ConnectParams) returns (r: ConnectResult)
      requires Valid() && !Model().terminated && leaver == NoLeaver && t.Valid()
      modifies this, t`sendAt, t`wire, t`recvAt, t`inPos
      ensures t.Valid() && Valid()
      ensures old(state) == Connected || !isOpen ==> r == Failure && t.wire == old(t.wire) && t.inPos == old(t.inPos)
      ensures old(state) == Connected ==> state == Connected && Model() == old(Model())
      ensures old(state) != Connected ==>
        && state == (match r case Success => Connected case Failure => Failed case Thrown => Connecting)
        && (r == Success ==> reader == Reading && !stopRequested)
        && (r == Success && old(reader) == NoReader ==>
              Model() == old(Model()).(state := Connected, reader := Reading, token := false))
        && (r != Failure ==> t.wire == old(t.wire) + Frame(0x10, ConnectBody(params)))
        && (isOpen && old(t.SendsSucceed()) && t.Delivers() ==> r == ResultOf(AttemptOf(t.inbound[old(t.inPos)..])))
    {
      hide IsRun;
      hide Frame;
      hide ConnectBody;
      hide AttemptOf;
      if state == Connected { return Failure; }
      EndReader();
      r := Reach(isOpen, t, params);
      StartThreads(r);
    }

    /** The end of a caller's connect. */
    method StartThreads(r: ConnectResult)
      requires |states| == |steps| + 1 && Shows(Model().state) && Enabled(Model(), OtherConnects)
      requires state == match r case Success => Connected case Failure => Failed case Thrown => Connecting
      modifies `reader, `stopRequested, `states, `steps
      ensures Valid()
      ensures r == Success ==>
        reader == Reading && !stopRequested
        && Model() == old(Model()).(state := Connected, reader := Reading, token := false)
    {
      hide IsRun;
      if r == Success {
        reader, stopRequested := Reading, false;
        Advance(OtherConnects);
      } else {
        Advance(OtherFails(r == Thrown));
      }
    }

    /** Its part between the guard and the threads it starts. */
    method Reach(isOpen: bool, t: SocketTransport, params: ConnectParams) returns (r: ConnectResult)
      requires t.Valid()
      modifies `state, t`sendAt, t`wire, t`recvAt, t`inPos
      ensures t.Valid()
      ensures !isOpen ==> r == Failure && t.wire == old(t.wire) && t.inPos == old(t.inPos)
      ensures state == match r case Success => Connected case Failure => Failed case Thrown => Connecting
      ensures r != Failure ==> t.wire == old(t.wire) + Frame(0x10, ConnectBody(params))
      ensures isOpen && old(t.SendsSucceed()) && t.Delivers() ==> r == ResultOf(AttemptOf(t.inbound[old(t.inPos)..]))
    {
      hide Frame;
      hide ConnectBody;
      hide AttemptOf;
      state := Connecting;
      var met := TransportFails;
      if isOpen { met := Shake(t, params); }
      r := Conclude(met);
    }

    // ---- Losing the connection ----

    /** A failed read, and the look at the stop request. */
    method OnReadFailure()
      requires Valid() && Enabled(Model(), ReadFails)
      modifies this
      ensures Stepped(old(Model()), ReadFails)
    {
      hide IsRun;
      reader := if stopRequested then NoReader else Losing;
      Advance(ReadFails);
    }

    method NoteLoss()
      requires Valid() && Enabled(Model(), SetLost)
      modifies this
      ensures Stepped(old(Model()), SetLost)
    {
      hide IsRun;
      reconnectCount := reconnectCount + 1;
      state := Reconnecting;
      reader := if policy.enabled then Scheduling else NoReader;
      Advance(SetLost);
    }

    /** Every call requests a reconnect; only the first launches the worker, which stays joinable
        whether it runs or has ended. */
    method ScheduleReconnect()
      requires Valid() && Enabled(Model(), Schedule)
      modifies this
      ensures Stepped(old(Model()), Schedule) && reconnectRequested
      ensures old(worker) != NotLaunched ==> worker == old(worker) && delay == old(delay) && attempt == old(attempt)
      ensures old(worker) == NotLaunched ==> worker == Waiting && delay == policy.initialDelay && attempt == 0
    {
      hide IsRun;
      reader := NoReader;
      reconnectRequested := true;
      if worker == NotLaunched {
        worker, delay, attempt := Waiting, policy.initialDelay, 0;
      }
      Advance(Schedule);
    }

    /** What is left of the receive thread's life once its transport fails it. */
    method EndReader()
      requires Valid() && !Model().terminated
      modifies this
      ensures Valid() && !Model().terminated && reader == NoReader && leaver == old(leaver)
      ensures old(reader) == NoReader ==> Model() == old(Model())
      ensures old(state) != Connected ==> state != Connected
      ensures old(worker) != NotLaunched ==> worker == old(worker) && Model().sleeps == old(Model()).sleeps
      ensures old(reconnectRequested) ==> reconnectRequested
    {
      hide IsRun;
      if reader == Reading { OnReadFailure(); }
      if reader == Losing { NoteLoss(); }
      if reader == Scheduling { ScheduleReconnect(); }
    }

    /** The receive loop's end after a failed read with no stop requested, undisturbed. */
    method OnLoss()
      requires Valid() && !Model().terminated && reader == Reading && !stopRequested
      modifies this
      ensures Valid() && state == Reconnecting && reader == NoReader && reconnectCount == old(reconnectCount) + 1
      ensures policy.enabled ==> reconnectRequested && worker == if old(worker) == NotLaunched then Waiting else old(worker)
      ensures !policy.enabled ==> worker == old(worker) && reconnectRequested == old(reconnectRequested)
    {
      hide IsRun;
      OnReadFailure();
      NoteLoss();
      if policy.enabled { ScheduleReconnect(); }
    }

    // ---- Disconnecting ----

    method BeginDisconnect() returns (past: bool)
      requires Valid() && Enabled(Model(), Step.Disconnect)
      modifies this
      ensures Stepped(old(Model()), Step.Disconnect) && past == (old(state) == Connected)
    {
      hide IsRun;
      past := state == Connected;
      if past { state, leaver := Disconnecting, Stopping; }
      Advance(Step.Disconnect);
    }

    method RequestStop()
      requires Valid() && Enabled(Model(), StopReader)
      modifies this
      ensures Stepped(old(Model()), StopReader)
    {
      hide IsRun;
      stopRequested := true;
      leaver := Closing;
      Advance(StopReader);
    }

    method EndDisconnect()
      requires Valid() && Enabled(Model(), Return)
      modifies this
      ensures Stepped(old(Model()), Return)
    {
      hide IsRun;
      state := Disconnected;
      leaver := NoLeaver;
      Advance(Return);
    }

    /** disconnect, undisturbed: nothing at all unless Connected; else the receive thread is asked to
        stop, and the worker is left as it is. */
    method Disconnect()
      requires Valid() && !Model().terminated && leaver == NoLeaver
      modifies this
      ensures Valid() && worker == old(worker) && reader == old(reader) && leaver == NoLeaver
      ensures old(state) != Connected ==> Model() == old(Model())
      ensures old(state) == Connected ==> state == Disconnected && stopRequested
    {
      hide IsRun;
      var past := BeginDisconnect();
      if !past { return; }
      RequestStop();
      EndDisconnect();
    }

    // ---- What happens meanwhile ----

    /** The worker's own state is not for other threads to change. */
    method Act(step: Step)
      requires Valid() && Outside(step) && Enabled(Model(), step)
      modifies this
      ensures Stepped(old(Model()), step)
    {
      hide IsRun;
      match step {
        case ReadFails => OnReadFailure();
        case SetLost => NoteLoss();
        case Schedule => ScheduleReconnect();
        case Disconnect => var past := BeginDisconnect();
        case StopReader => RequestStop();
        case Return => EndDisconnect();
        case OtherConnects =>
          state, reader, stopRequested := Connected, Reading, false;
          Advance(step);
        case OtherFails(thrown) =>
          state := if thrown then Connecting else Failed;
          Advance(step);
      }
    }

    predicate Possible(step: Step)
      reads this
    {
      match step
      case ReadFails => reader == Reading
      case SetLost => reader == Losing
      case Schedule => reader == Scheduling
      case OtherConnects => leaver == NoLeaver && state != Connected && reader == NoReader
      case OtherFails(_) => leaver == NoLeaver && state != Connected
      case Disconnect => leaver == NoLeaver
      case StopReader => leaver == Stopping
      case Return => leaver == Closing
      case _ => false
    }

    method Disturb(outside: seq<Step>)
      requires Valid() && !Model().terminated && worker != NotLaunched
      modifies this
      ensures Valid() && !Model().terminated && worker == old(worker) && Model().sleeps == old(Model()).sleeps
      ensures old(reconnectRequested) ==> reconnectRequested
      ensures outside == [] ==> state == old(state)
    {
      hide IsRun;
      var i := 0;
      while i < |outside|
        invariant i <= |outside|
        invariant Valid() && !Model().terminated && worker == old(worker) && Model().sleeps == old(Model()).sleeps
        invariant old(reconnectRequested) ==> reconnectRequested
        invariant outside == [] ==> state == old(state)
      {
        if Possible(outside[i]) { Act(outside[i]); }
        i := i + 1;
      }
    }

    // ---- The worker ----

    method TakeRequest()
      requires Valid() && Enabled(Model(), Step.Take)
      modifies this
      ensures Stepped(old(Model()), Step.Take)
    {
      hide IsRun;
      reconnectRequested := false;
      worker := Deciding;
      Advance(Step.Take);
    }

    /** The look at the state: Connected ends the worker's loop and changes nothing else; otherwise one
        more attempt is counted, and made unless it is one too many. */
    method Decide()
      requires Valid() && Enabled(Model(), Step.Decide)
      modifies this
      ensures Stepped(old(Model()), Step.Decide)
      ensures old(state) == Connected ==>
        && worker == Leaving && state == Connected && attempt == old(attempt)
        && Model().sleeps == old(Model()).sleeps
      ensures old(state) != Connected && worker == Leaving ==> state == Failed && 0 < policy.maxRetries < attempt
      ensures old(state) != Connected && worker != Leaving ==> worker == Asleep && state == old(state)
      ensures old(state) != Connected ==> attempt == if old(attempt) == 0xFFFF_FFFF then 0 else old(attempt) + 1
    {
      hide IsRun;
      if state == Connected {
        worker := Leaving;
      } else {
        attempt := NextAttempt(attempt);
        if policy.maxRetries > 0 && attempt > policy.maxRetries {
          state := Failed;
          worker := Leaving;
        } else {
          worker := Asleep;
        }
      }
      Advance(Step.Decide);
    }

    method TryConnect(met: Attempt, draw: nat) returns (r: ConnectResult)
      requires Valid() && Enabled(Model(), Step.TryConnect(met, draw))
      modifies this
      ensures Stepped(old(Model()), Step.TryConnect(met, draw)) && r == ConnectGives(old(state), met)
    {
      hide IsRun;
      hide NextDelay;
      r := Connect(met);
      if r == Success {
        reader, stopRequested := Reading, false;
        worker := Leaving;
      } else if r == Failure {
        delay := NextDelay(policy, delay, draw);
        reconnectRequested := true;
        worker := Waiting;
      }
      Advance(Step.TryConnect(met, draw));
    }

    method Finish()
      requires Valid() && Enabled(Model(), Leave)
      modifies this
      ensures Stepped(old(Model()), Leave)
    {
      hide IsRun;
      worker := Finished;
      Advance(Leave);
    }

    method ObeyStop()
      requires Valid() && Enabled(Model(), Stop)
      modifies this
      ensures Valid() && worker == Finished && !Model().terminated
    {
      hide IsRun;
      worker := Leaving;
      Advance(Stop);
      Finish();
    }

    /** What the worker's place and its retries are between turns. */
    ghost predicate BetweenTurns()
      reads this
    {
      && Valid() && !Model().terminated && worker == Waiting && reconnectRequested
      && (Limits(policy) ==> attempt == |Model().sleeps| && attempt <= policy.maxRetries)
    }

    /** A request taken and the decision what to do about it; StillRunning means asleep. */
    method WakeUp(before: seq<Step>) returns (exit: Exit)
      requires BetweenTurns()
      modifies this
      ensures Valid() && !Model().terminated && exit in {StillRunning, FoundConnected, Exhausted}
      ensures exit == StillRunning ==>
        && worker == Asleep && |Model().sleeps| == |old(Model()).sleeps| + 1
        && (Limits(policy) ==> |Model().sleeps| <= policy.maxRetries)
      ensures exit != StillRunning ==> worker == Finished
      ensures exit == Exhausted ==> state == Failed && 0 < policy.maxRetries == |Model().sleeps|
      ensures before == [] && old(state) != Connected ==> state != Connected && exit in {StillRunning, Exhausted}
      ensures exit == FoundConnected <==> state == Connected
      ensures exit == FoundConnected ==> |Model().sleeps| == |old(Model()).sleeps|
      ensures before == [] && old(state) == Connected ==> exit == FoundConnected
    {
      hide IsRun;
      hide WorkerInv;
      TakeRequest();
      Disturb(before);
      DecidingCounts();
      var found := state == Connected;
      Decide();
      if worker == Asleep { return StillRunning; }
      Finish();
      return if found then FoundConnected else Exhausted;
    }

    lemma DecidingCounts()
      requires Valid()
      ensures worker.Waiting? || worker.Deciding? || worker.Asleep? ==>
        (Limits(policy) ==> attempt == |Model().sleeps| && attempt <= policy.maxRetries)
    {
      RetriesBounded(policy, states, steps);
    }

    method RunTurn(turn: Turn) returns (exit: Exit)
      requires BetweenTurns()
      modifies this
      ensures Valid() && (exit == Died <==> Model().terminated)
      ensures exit == StillRunning ==> BetweenTurns() && |Model().sleeps| == |old(Model()).sleeps| + 1
      ensures exit != StillRunning && exit != Died ==> worker == Finished
      ensures exit == Reconnected ==> state == Connected
      ensures exit == Exhausted ==> state == Failed && 0 < policy.maxRetries == |Model().sleeps|
      ensures Fruitless([turn]) && old(state) != Connected ==> state != Connected && exit in {StillRunning, Exhausted}
      ensures exit == Stopped <==> turn.stopped
      ensures exit == FoundConnected ==> state == Connected && |Model().sleeps| == |old(Model()).sleeps|
      ensures !turn.stopped && turn.before == [] && old(state) == Connected ==> exit == FoundConnected
      ensures exit == Reconnected ==> ResultOf(turn.met) == Success && reader == Reading && !stopRequested
      ensures exit == Died ==> ResultOf(turn.met) == Thrown
    {
      hide IsRun;
      hide NextDelay;
      hide WorkerInv;
      assert Fruitless([turn]) ==> turn in [turn];
      if turn.stopped {
        ObeyStop();
        return Stopped;
      }
      exit := WakeUp(turn.before);
      if exit != StillRunning { return exit; }
      Disturb(turn.asleep);
      if state != Connected && ResultOf(turn.met) == Success { EndReader(); }
      var r := TryConnect(turn.met, turn.draw);
      if r == Success {
        Finish();
        return Reconnected;
      }
      DecidingCounts();
      return if r == Thrown then Died else StillRunning;
    }

    /** The worker's loop over the given turns, from its launch: one connect call per sleep, and under
        a limit from 1 to 2^32 - 2 no more of them than that, and out of the loop after one more turn; if
        nothing else happens and all of them fail it gives up with the state Failed. */
    method RunWorker(turns: seq<Turn>) returns (exit: Exit)
      requires BetweenTurns() && Model().sleeps == []
      modifies this
      ensures Valid() && IsBackoff(policy, Model().sleeps)
      ensures exit != StillRunning && exit != Died ==> worker == Finished
      ensures Limits(policy) ==> |Model().sleeps| <= policy.maxRetries
      ensures Limits(policy) && |turns| > policy.maxRetries ==> exit != StillRunning
      ensures exit == StillRunning ==> |Model().sleeps| == |turns| && BetweenTurns()
      ensures exit == Reconnected ==> state == Connected
      ensures exit == Exhausted ==> state == Failed && |Model().sleeps| == policy.maxRetries
      ensures Limits(policy) && |turns| > policy.maxRetries && old(state) != Connected && Fruitless(turns)
          ==> exit == Exhausted
    {
      hide IsRun;
      hide IsBackoff;
      exit := StillRunning;
      var i := 0;
      while i < |turns| && exit == StillRunning
        invariant i <= |turns| && Valid()
        invariant exit == StillRunning ==> BetweenTurns() && |Model().sleeps| == i
        invariant exit != StillRunning && exit != Died ==> worker == Finished
        invariant exit == Reconnected ==> state == Connected
        invariant exit == Exhausted ==> state == Failed && |Model().sleeps| == policy.maxRetries
        invariant Fruitless(turns) && old(state) != Connected ==> state != Connected && exit in {StillRunning, Exhausted}
      {
        var turn := turns[i];
        assert Fruitless(turns) ==> Fruitless([turn]);
        exit := RunTurn(turn);
        i := i + 1;
      }
      RetriesBounded(policy, states, steps);
      SessionBounds(policy, Model());
    }
  }

  /** No stop, no other actor, and every attempt fails. */
  predicate Fruitless(turns: seq<Turn>) {
    forall t :: t in turns ==> !t.stopped && t.before == [] && t.asleep == [] && ResultOf(t.met) == Failure
  }
}
