/** What the calls of the controller bring about, in every reachable state: the invariants say what
    may not happen, this module what must. */
module SessionEffects {
  import opened Wrappers
  import opened Transport
  import opened SessionState
  import opened SessionEdits
  import opened SessionSystem
  import opened SessionInvariant
  import opened SessionLanes
  import opened SessionInstalls
  import opened SessionReconnects
  import opened SessionDisconnects
  import opened SessionTheorems
  import opened SessionContexts
  import opened SessionCancels

  // ---- the hub's session of a screen in service

  /** While the screen's worker of the current generation works, the hub's session is its own. */
  ghost predicate HubServes(s: State) {
    forall i :: 0 <= i < |s.workers| && s.workers[i].n == Screen && s.workers[i].phase == Working
                && s.workers[i].gen == At(s.sh, Screen).gen ==>
      s.sh.hub.active && s.sh.hub.gen == s.workers[i].hubGen
  }

  /** The hub's session stays, or no worker serves the screen's generation any more. */
  ghost predicate HubQuiet(s: State, s': State) {
    && (forall i :: 0 <= i < |s'.workers| && s'.workers[i].n == Screen && s'.workers[i].phase == Working ==>
          i < |s.workers| && s.workers[i] == s'.workers[i])
    && (|| (At(s'.sh, Screen).gen == At(s.sh, Screen).gen && s'.sh.hub.active == s.sh.hub.active && s'.sh.hub.gen == s.sh.hub.gen)
        || At(s'.sh, Screen).gen > At(s.sh, Screen).gen)
  }

  lemma QuietServes(s: State, s': State)
    requires HubServes(s) && HubQuiet(s, s')
    requires forall i :: 0 <= i < |s.workers| ==> s.workers[i].gen <= At(s.sh, s.workers[i].n).gen
    ensures HubServes(s')
  {
  }

  lemma StreamStepQuiet(s: State, s': State, a: Action)
    requires a.StartCall? || a.StartResumes? || a.StopCall? || a.DialOk? || a.DialFails? || a.StopReturns?
    requires Enabled(s, a) && s' == Next(s, a)
    ensures HubQuiet(s, s')
  {
    match a
    case StartCall(n) => HubOfStart(s.sh, n);
    case StartResumes(t) => HubOfResume(s.sh, s.starts[t].n, s.starts[t].phase.session, s.starts[t].phase.gen);
    case StopCall(n) => HubOfStop(s.sh, n);
    case DialOk(t) =>
    case DialFails(t) =>
    case StopReturns(t) =>
  }

  ghost predicate ScreenQuiet(sh: Shared, sh': Shared) {
    || (At(sh', Screen).gen == At(sh, Screen).gen && sh'.hub == sh.hub)
    || At(sh', Screen).gen > At(sh, Screen).gen
  }

  lemma HubOfStart(sh: Shared, n: StreamId)
    ensures ScreenQuiet(sh, StartEnter(sh, n).0)
  {
    StartRenews(sh, n);
  }

  lemma HubOfResume(sh: Shared, n: StreamId, conn: Option<nat>, gen: nat)
    ensures ScreenQuiet(sh, StartResume(sh, n, conn, gen).0)
  {
    ResumeRenews(sh, n, conn, gen);
  }

  lemma HubOfStop(sh: Shared, n: StreamId)
    ensures ScreenQuiet(sh, StopEnter(sh, n).0)
  {
    StopRenews(sh, n);
  }

  lemma WorkerStepQuiet(s: State, s': State, a: Action)
    requires IsWorkerStep(a) && !a.WorkerEndsHub? && Enabled(s, a) && s' == Next(s, a)
    requires a.WorkerFinishes? || a.WorkerDropsSocket? || a.WorkerReports? || a.WorkerExits? || s.workers[a.i].phase != Working
    ensures HubQuiet(s, s')
  {
  }

  lemma EndsHubServes(s: State, s': State, i: nat)
    requires HubServes(s) && Enabled(s, WorkerEndsHub(i)) && s' == Next(s, WorkerEndsHub(i))
    requires forall j :: 0 <= j < |s.workers| && s.workers[j].n == Screen ==> ScreenWorkerOk(s, j, s.workers[j])
    ensures HubServes(s')
  {
    assert ScreenWorkerOk(s, i, s.workers[i]);
    forall j | 0 <= j < |s'.workers| && s'.workers[j].n == Screen && s'.workers[j].phase == Working
               && s'.workers[j].gen == At(s'.sh, Screen).gen
      ensures s'.sh.hub.active && s'.sh.hub.gen == s'.workers[j].hubGen
    {
      assert ScreenWorkerOk(s, j, s.workers[j]);
    }
  }

  lemma DisconnectQuiet(s: State, s': State)
    requires s' == DoDisconnect(s).(connect := s'.connect)
    ensures HubQuiet(s, s')
  {
    DisconnectCancels(s, s');
  }

  lemma ReconnectQuiet(s: State, s': State, a: Action)
    requires IsReconnectStep(a) && Enabled(s, a) && s' == Next(s, a)
    ensures HubQuiet(s, s')
  {
  }

  lemma InstallServes(s: State, s': State, t: nat)
    requires Inv(s) && HubServes(s) && Enabled(s, Installs(t)) && s' == Next(s, Installs(t))
    ensures HubServes(s')
  {
    var n := s.starts[t].n;
    LaneOf(s, n);
    WorkerCtxs(s);
    if InstallOut(s, t).Aborted? {
      AbortWithin(s, s', n, t);
      QuietServes(s, s');
    } else {
      OwnsAlone(s, n, t);
      LaunchHires(s, s', n, t);
      LaunchOpens(s, s', n, t);
      LaunchServes(s, s', n, t, s'.workers[|s.workers|]);
    }
  }

  lemma LaunchServes(s: State, s': State, n: StreamId, t: nat, w: Worker)
    requires HubServes(s) && Hired(s, s', n, t, w)
    requires if n == Screen then OpensSession(s, s', w) else s'.sh.hub == s.sh.hub
    requires forall i :: 0 <= i < |s.workers| && s.workers[i].n == n && s.workers[i].gen == w.gen ==> s.workers[i].gen != At(s.sh, n).gen
    ensures HubServes(s')
  {
  }

  lemma ConnectStepQuiet(s: State, s': State, a: Action)
    requires IsConnectStep(a) && !a.DisconnectCall? && !a.ConnectDisconnects? && Enabled(s, a) && s' == Next(s, a)
    ensures HubQuiet(s, s')
  {
  }

  lemma OtherQuiet(s: State, s': State, a: Action)
    requires Enabled(s, a) && s' == Next(s, a) && !a.Installs? && !a.WorkerEndsHub?
    requires a.WorkerEndsControl? || a.WorkerEndsSlot? ==> s.workers[a.i].phase != Working
    ensures HubQuiet(s, s')
  {
    if IsStreamStep(a) {
      StreamStepQuiet(s, s', a);
    } else if IsWorkerStep(a) {
      WorkerStepQuiet(s, s', a);
    } else if IsReconnectStep(a) {
      ReconnectQuiet(s, s', a);
    } else if a.DisconnectCall? || a.ConnectDisconnects? {
      DisconnectQuiet(s, s');
    } else {
      ConnectStepQuiet(s, s', a);
    }
  }

  lemma StepServes(s: State, s': State, a: Action)
    requires Inv(s) && HubServes(s) && Enabled(s, a) && s' == Next(s, a)
    ensures HubServes(s')
  {
    if a.Installs? {
      InstallServes(s, s', a.t);
    } else if a.WorkerEndsHub? {
      EndsHubServes(s, s', a.i);
    } else {
      WorkerCtxs(s);
      OtherQuiet(s, s', a);
      QuietServes(s, s');
    }
  }

  lemma {:induction false} RunServes(s: State, acts: seq<Action>)
    requires Inv(s) && HubServes(s) && IsRun(s, acts)
    ensures HubServes(After(s, acts))
    decreases |acts|
  {
    if acts != [] {
      StepKeeps(s, acts[0]);
      StepServes(s, Next(s, acts[0]), acts[0]);
      RunServes(Next(s, acts[0]), acts[1..]);
    }
  }

  lemma ReachableServes(s: State)
    requires Reachable(s)
    ensures HubServes(s)
  {
    var acts :| IsRun(Initial, acts) && After(Initial, acts) == s;
    InitialInv();
    RunServes(Initial, acts);
  }

  /** The hub's screen session is that of the worker in service, and it is active for as long as
      that worker works. */
  lemma WorkingScreenHasSession(s: State, i: nat)
    requires Reachable(s) && InService(s, Screen, i) && s.workers[i].phase == Working
    ensures s.sh.hub.active && s.sh.hub.gen == s.workers[i].hubGen && At(s.sh, Screen).hubGen == s.sh.hub.gen
  {
    ReachableServes(s);
    ReachableInv(s);
  }

  // ---- stopStream and Disconnect

  /** A stopStream of `n`: on a connected session the stream is out of service at once, with a new
      generation, not active, its slot empty and the socket that was in it closed. */
  ghost predicate Stopped(s: State, s': State, n: StreamId) {
    && (if s.sh.connected then
          && At(s'.sh, n).gen > At(s.sh, n).gen && !At(s'.sh, n).active && CurSlot(s'.sh, n) == None
          && (CurSlot(s.sh, n).Some? ==> CurSlot(s.sh, n).value in s'.sh.closed)
        else s' == s)
    && s'.sh.connected == s.sh.connected && s'.sh.conn == s.sh.conn
    && (forall m :: m != n ==> At(s'.sh, m) == At(s.sh, m) && CurSlot(s'.sh, m) == CurSlot(s.sh, m))
  }

  lemma StopStops(s: State, s': State, n: StreamId)
    requires Reachable(s) && n != Control && s' == Next(s, StopCall(n))
    ensures Stopped(s, s', n)
  {
    SessionFacts(s);
    StreamFacts(s, n);
    StopLeavesOthers(s, s', n);
    StopEmpties(s, s', n);
  }

  lemma SessionFacts(s: State)
    requires Reachable(s)
    ensures s.sh.connected <==> s.sh.conn.Some?
    ensures s.sh.conn.Some? ==> s.sh.conn.value < |s.sh.conns|
    ensures |s.ctxs| == s.sh.contexts && forall x :: x in s.sh.cancelled ==> x < |s.ctxs|
  {
    ReachableInv(s);
  }

  lemma StreamFacts(s: State, n: StreamId)
    requires Reachable(s) && n != Control
    ensures StreamOk(s, n)
  {
    ReachableInv(s);
    LaneOf(s, n);
  }

  lemma StopLeavesOthers(s: State, s': State, n: StreamId)
    requires s' == DoStop(s, n) && (s.sh.conn.Some? ==> s.sh.conn.value < |s.sh.conns|)
    ensures s'.sh.connected == s.sh.connected && s'.sh.conn == s.sh.conn
    ensures forall m :: m != n ==> At(s'.sh, m) == At(s.sh, m) && CurSlot(s'.sh, m) == CurSlot(s.sh, m)
    ensures CurSlot(s'.sh, n) == CurSlot(s.sh, n) || CurSlot(s'.sh, n) == None
  {
    StopEdits(s.sh, n);
    forall m | m != n
      ensures CurSlot(s'.sh, m) == CurSlot(s.sh, m)
    {
      EditsSlots(s.sh, s'.sh, n, s.sh.conn, {}, CtxOf(At(s.sh, n)), m);
    }
  }

  /** The slot is empty already, or stopStream closes it. */
  lemma StopEmpties(s: State, s': State, n: StreamId)
    requires StreamOk(s, n) && s' == DoStop(s, n) && (s.sh.connected <==> s.sh.conn.Some?)
    requires s.sh.conn.Some? ==> s.sh.conn.value < |s.sh.conns|
    ensures if s.sh.connected then
              && At(s'.sh, n).gen > At(s.sh, n).gen && !At(s'.sh, n).active && CurSlot(s'.sh, n) == None
              && (CurSlot(s.sh, n).Some? ==> CurSlot(s.sh, n).value in s'.sh.closed)
            else s' == s
  {
    StopRenews(s.sh, n);
  }

  /** stopStream of the screen leaves no screen session in the hub. */
  lemma StopEndsSession(s: State, s': State)
    requires Reachable(s) && s' == Next(s, StopCall(Screen))
    ensures !s'.sh.hub.active
  {
    ReachableInv(s);
    LaneOf(s, Screen);
    if s.sh.hub.active {
      HubHasWorker(s);
      SessionEnds(s, s');
    } else {
      HubStaysEnded(s, s');
    }
  }

  lemma HubHasWorker(s: State)
    requires HubOk(s) && ReconnectsOk(s) && LaneOk(s, Screen) && s.sh.hub.active
    ensures At(s.sh, Screen).done.Some? && s.sh.conn.Some?
  {
    var k := s.sh.hub.gen - 1;
    assert ReconnectOk(s, k, s.reconnects[k]);
    var i := s.reconnects[k].worker;
    assert WorkerOk(s, Screen, i, s.workers[i]);
  }

  lemma HubStaysEnded(s: State, s': State)
    requires !s.sh.hub.active && s' == DoStop(s, Screen)
    ensures !s'.sh.hub.active
  {
  }

  lemma SessionEnds(s: State, s': State)
    requires s.sh.connected && s.sh.hub.active && At(s.sh, Screen).hubGen == s.sh.hub.gen && s.sh.hub.gen >= 1
    requires At(s.sh, Screen).done.Some? && s' == DoStop(s, Screen)
    ensures !s'.sh.hub.active
  {
  }

  /** Nothing is in service: no session, no connection, no token, no screen session and no stream
      active. A connection that was there is left to one Disconnect to close and to wait for its
      workers, every stream is no longer running, and every generation has moved on. */
  ghost predicate Cleared(s: State, s': State) {
    && !s'.sh.connected && s'.sh.conn == None && s'.sh.token == None && !s'.sh.hub.active
    && (forall n :: n != Control ==> !At(s'.sh, n).active)
    && (if s.sh.connected then
          && (forall n :: At(s'.sh, n).gen > At(s.sh, n).gen && !At(s'.sh, n).running)
          && |s'.discs| == |s.discs| + 1 && s'.discs[|s.discs|].conn == s.sh.conn && s'.discs[|s.discs|].phase == Closing
        else
          s'.discs == s.discs && s'.sh.streams == s.sh.streams)
  }

  lemma DisconnectClears(s: State, s': State)
    requires Reachable(s) && s' == Next(s, DisconnectCall)
    ensures Cleared(s, s')
  {
    if s.sh.connected {
      DisconnectDetaches(s, s');
      DetachedIsClear(s, s');
    } else {
      NothingAttached(s);
      NothingToDetach(s, s');
      forall n | n != Control
        ensures !At(s'.sh, n).active
      {
        StatusIsTruthful(s, n);
        assert At(s'.sh, n) == At(s.sh, n);
      }
    }
  }

  lemma DisconnectDetaches(s: State, s': State)
    requires Reachable(s) && s.sh.connected && s' == DoDisconnect(s)
    ensures Detaches(s, s')
  {
    ReachableInv(s);
    CancelsKnown(s);
    EnterDetaches(s, s');
  }

  lemma DetachedIsClear(s: State, s': State)
    requires Detaches(s, s') && s.sh.connected
    ensures Cleared(s, s')
  {
  }

  lemma NothingAttached(s: State)
    requires Reachable(s) && !s.sh.connected
    ensures s.sh.conn == None && s.sh.token == None && !s.sh.hub.active
  {
    ReachableInv(s);
  }

  lemma NothingToDetach(s: State, s': State)
    requires !s.sh.connected && s' == DoDisconnect(s)
    ensures s'.sh.connected == s.sh.connected && s'.sh.conn == s.sh.conn && s'.sh.token == s.sh.token && s'.sh.hub == s.sh.hub
    ensures s'.discs == s.discs && s'.sh.streams == s.sh.streams
  {
  }

  // ---- startStream

  /** A startStream of `n`: on an active stream, or without a session, it does nothing; otherwise it
      takes a new generation and goes on: it waits for the stream's last worker, or dials. */
  ghost predicate Started(s: State, s': State, n: StreamId) {
    && (At(s.sh, n).active || !s.sh.connected ==> s' == s)
    && (s.sh.connected && !At(s.sh, n).active ==>
          && At(s'.sh, n).gen > At(s.sh, n).gen
          && |s'.starts| == |s.starts| + 1 && s'.starts[..|s.starts|] == s.starts
          && s'.starts[|s.starts|].n == n
          && (if At(s.sh, n).running || At(s.sh, n).done.Some?
              then s'.starts[|s.starts|].phase == Waiting(s.sh.conn, At(s'.sh, n).gen, At(s.sh, n).done)
              else DialsFor(s'.starts[|s.starts|].phase, s, s', n)))
  }

  predicate DialsFor(p: StartPhase, s: State, s': State, n: StreamId) {
    p.Dialing? && s.sh.conn == Some(p.conn) && p.gen == At(s'.sh, n).gen && p.ctx !in s'.sh.cancelled && p.ctx == |s.ctxs|
  }

  lemma StartProceeds(s: State, s': State, n: StreamId)
    requires Reachable(s) && n != Control && s' == Next(s, StartCall(n))
    ensures Started(s, s', n)
  {
    SessionFacts(s);
    StreamFacts(s, n);
    StartGoesOn(s, s', n);
  }

  lemma StartGoesOn(s: State, s': State, n: StreamId)
    requires StreamOk(s, n) && s' == DoStart(s, n) && (s.sh.connected <==> s.sh.conn.Some?)
    requires s.sh.conn.Some? ==> s.sh.conn.value < |s.sh.conns|
    requires |s.ctxs| == s.sh.contexts && forall x :: x in s.sh.cancelled ==> x < |s.ctxs|
    ensures Started(s, s', n)
  {
  }

  /** With OneOpenWorker: a start waits exactly if a worker of the stream is still open on this
      connection, and then for that one. */
  lemma StartWaitsForOpenWorker(s: State, s': State, n: StreamId, i: nat)
    requires Reachable(s) && n != Control && s' == Next(s, StartCall(n)) && s.sh.connected && !At(s.sh, n).active
    requires i < |s.workers| && s.workers[i].n == n && s.workers[i].Open() && s.sh.conn == Some(s.workers[i].conn)
    ensures |s'.starts| == |s.starts| + 1 && s'.starts[|s.starts|].phase.Waiting? && s'.starts[|s.starts|].phase.prev == Some(i)
  {
    StartProceeds(s, s', n);
    OneOpenWorker(s, n, i, i);
  }
}
