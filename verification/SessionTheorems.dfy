/** What the session core promises, over every interleaving of its goroutines. */
module SessionTheorems {
  import opened Wrappers
  import opened Transport
  import opened SessionState
  import opened SessionSystem
  import opened SessionInvariant
  import opened SessionLanes
  import opened SessionInstalls
  import opened SessionControl
  import opened SessionReconnects
  import opened SessionDisconnects
  import opened SessionConnects

  // ---- every step keeps the invariant

  lemma WorkerStepKeeps(s: State, a: Action)
    requires Inv(s) && IsWorkerStep(a) && Enabled(s, a)
    ensures Inv(Next(s, a))
  {
    var s' := Next(s, a);
    match a
    case WorkerDropsSocket(i) => DropsSocketKeeps(s, s', i);
    case WorkerEndsHub(i) => EndsHubKeeps(s, s', i);
    case WorkerEndsControl(i) =>
      OnlyScreensLeaveSlowly(s, i);
      EndsControlKeeps(s, s', i);
    case WorkerEndsSlot(i) =>
      OnlyScreensLeaveSlowly(s, i);
      EndsSlotKeeps(s, s', i);
    case WorkerExits(i) => ExitsKeeps(s, s', i);
    case WorkerFinishes(i) => FinishesKeeps(s, s', i);
    case WorkerReports(i, m) => ReportsKeeps(s, s', i, m);
  }

  lemma DisconnectStepKeeps(s: State, a: Action)
    requires Inv(s) && (a.DisconnectCall? || a.DisconnectCloses? || a.DisconnectReturns? || a.ConnectDisconnects?) && Enabled(s, a)
    ensures Inv(Next(s, a))
  {
    var s' := Next(s, a);
    match a
    case DisconnectCall => DisconnectCallKeeps(s, s');
    case ConnectDisconnects => ConnectDisconnectsKeeps(s, s');
    case DisconnectCloses(d) => DisconnectClosesKeeps(s, s', d);
    case DisconnectReturns(d) => DisconnectReturnsKeeps(s, s', d);
  }

  lemma ConnectStepKeeps(s: State, a: Action)
    requires Inv(s) && Enabled(s, a)
    requires a.ConnectCall? || a.ConnectDials? || a.ConnectDialOk? || a.ConnectDialFails? || a.ConnectPublishes?
    ensures Inv(Next(s, a))
  {
    var s' := Next(s, a);
    match a
    case ConnectCall => ConnectCallKeeps(s, s');
    case ConnectDials => ConnectDialsKeeps(s, s');
    case ConnectDialOk => ConnectDialOkKeeps(s, s');
    case ConnectDialFails => ConnectDialFailsKeeps(s, s');
    case ConnectPublishes => PublishKeeps(s, s');
  }

  lemma StartStepKeeps(s: State, a: Action)
    requires Inv(s) && (a.StartCall? || a.StartResumes? || a.Installs?) && Enabled(s, a)
    ensures Inv(Next(s, a))
  {
    var s' := Next(s, a);
    match a
    case StartCall(n) => StartKeeps(s, s', n);
    case StartResumes(t) => ResumeKeeps(s, s', t);
    case Installs(t) => InstallKeeps(s, s', t);
  }

  lemma StreamStepKeeps(s: State, a: Action)
    requires Inv(s) && (a.DialOk? || a.DialFails? || a.StopCall? || a.StopReturns?) && Enabled(s, a)
    ensures Inv(Next(s, a))
  {
    var s' := Next(s, a);
    match a
    case DialOk(t) => DialOkKeeps(s, s', t);
    case DialFails(t) => DialFailsKeeps(s, s', t);
    case StopCall(n) => StopKeeps(s, s', n);
    case StopReturns(t) => StopReturnKeeps(s, s', t);
  }

  lemma StepKeeps(s: State, a: Action)
    requires Inv(s) && Enabled(s, a)
    ensures Inv(Next(s, a))
  {
    if a.StartCall? || a.StartResumes? || a.Installs? {
      StartStepKeeps(s, a);
    } else if IsStreamStep(a) {
      StreamStepKeeps(s, a);
    } else if IsWorkerStep(a) {
      WorkerStepKeeps(s, a);
    } else if a.DisconnectCall? || a.DisconnectCloses? || a.DisconnectReturns? || a.ConnectDisconnects? {
      DisconnectStepKeeps(s, a);
    } else if IsConnectStep(a) {
      ConnectStepKeeps(s, a);
    } else {
      ReconnectKeeps(s, Next(s, a), a);
    }
  }

  lemma {:induction false} RunKeeps(s: State, acts: seq<Action>)
    requires Inv(s) && IsRun(s, acts)
    ensures Inv(After(s, acts))
    decreases |acts|
  {
    if acts != [] {
      StepKeeps(s, acts[0]);
      RunKeeps(Next(s, acts[0]), acts[1..]);
    }
  }

  lemma ReachableInv(s: State)
    requires Reachable(s)
    ensures Inv(s)
  {
    var acts :| IsRun(Initial, acts) && After(Initial, acts) == s;
    InitialInv();
    RunKeeps(Initial, acts);
  }

  // ---- one worker at a time

  /** On the current connection a stream has at most one worker whose done channel is open, and
      the stream's `done` is that channel. */
  lemma OneOpenWorker(s: State, n: StreamId, i: nat, j: nat)
    requires Reachable(s)
    requires i < |s.workers| && s.workers[i].n == n && s.workers[i].Open() && s.sh.conn == Some(s.workers[i].conn)
    requires j < |s.workers| && s.workers[j].n == n && s.workers[j].Open() && s.sh.conn == Some(s.workers[j].conn)
    ensures i == j && At(s.sh, n).done == Some(i)
  {
    ReachableInv(s);
    LaneOf(s, n);
    assert WorkerOk(s, n, i, s.workers[i]) && WorkerOk(s, n, j, s.workers[j]);
  }

  /** The worker holds the stream's current generation and connection and has not run its exit
      section. */
  predicate InService(s: State, n: StreamId, i: nat) {
    i < |s.workers| && s.workers[i].n == n && s.workers[i].gen == At(s.sh, n).gen && s.sh.conn == Some(s.workers[i].conn)
    && Rank(s.workers[i].phase) < Rank(Exited)
  }

  /** The reported status is the truth: a stream is active exactly when such a worker exists, and
      then the session is connected, the stream is running and `done` is that worker's. */
  lemma StatusIsTruthful(s: State, n: StreamId)
    requires Reachable(s) && n != Control
    ensures At(s.sh, n).active <==> exists i :: InService(s, n, i)
    ensures At(s.sh, n).active ==> s.sh.connected && At(s.sh, n).running
                                   && At(s.sh, n).done.Some? && InService(s, n, At(s.sh, n).done.value)
  {
    ReachableInv(s);
    LaneOf(s, n);
    LaneStatus(s, n);
  }

  lemma LaneStatus(s: State, n: StreamId)
    requires LaneOk(s, n) && (s.sh.connected <==> s.sh.conn.Some?)
    ensures At(s.sh, n).active <==> exists i :: InService(s, n, i)
    ensures At(s.sh, n).active ==> s.sh.connected && At(s.sh, n).running
                                   && At(s.sh, n).done.Some? && InService(s, n, At(s.sh, n).done.value)
  {
    if At(s.sh, n).active {
      assert InService(s, n, At(s.sh, n).done.value);
    }
    forall i: nat | InService(s, n, i)
      ensures At(s.sh, n).active
    {
      assert WorkerOk(s, n, i, s.workers[i]);
    }
  }
}
