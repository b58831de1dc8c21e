/** What Disconnect, stopStream and a new start cancel, over every interleaving: a pending Connect is
    published exactly if no Disconnect came, and the context of a worker or of a dial is cancelled
    exactly when its generation is no longer the stream's. */
module SessionCancels {
  import opened Wrappers
  import opened Transport
  import opened SessionState
  import opened SessionSystem
  import opened SessionInvariant
  import opened SessionLanes
  import opened SessionInstalls
  import opened SessionReconnects
  import opened SessionConnects
  import opened SessionTheorems
  import opened SessionSafety
  import opened SessionContexts

  lemma {:induction false} RunKeepsContexts(s: State, acts: seq<Action>)
    requires Inv(s) && ContextsOk(s) && IsRun(s, acts)
    ensures ContextsOk(After(s, acts))
    decreases |acts|
  {
    if acts != [] {
      StepKeeps(s, acts[0]);
      StepKeepsContexts(s, Next(s, acts[0]), acts[0]);
      RunKeepsContexts(Next(s, acts[0]), acts[1..]);
    }
  }

  lemma ReachableContexts(s: State)
    requires Reachable(s)
    ensures ContextsOk(s)
  {
    var acts :| IsRun(Initial, acts) && After(Initial, acts) == s;
    InitialInv();
    InitialContexts();
    RunKeepsContexts(Initial, acts);
  }

  // ---- workers and dials

  /** The context of a worker is cancelled exactly when the worker has finished or its generation or
      its connection is no longer the current one. */
  lemma StaleWorkersAreCancelled(s: State, i: nat)
    requires Reachable(s) && i < |s.workers|
    ensures s.workers[i].ctx in s.sh.cancelled
            <==> s.workers[i].phase == Finished || s.workers[i].gen != At(s.sh, s.workers[i].n).gen
                 || s.sh.conn != Some(s.workers[i].conn)
  {
    ReachableInv(s);
    ReachableContexts(s);
    LaneOf(s, s.workers[i].n);
    WorkerCancelled(s, s.workers[i].n, i);
  }

  lemma WorkerCancelled(s: State, n: StreamId, i: nat)
    requires LaneOk(s, n) && LiveOk(s) && ServesOk(s) && i < |s.workers| && s.workers[i].n == n
    ensures s.workers[i].gen == At(s.sh, n).gen ==> s.sh.conn == Some(s.workers[i].conn)
    ensures s.workers[i].gen != At(s.sh, n).gen ==> s.workers[i].ctx in s.sh.cancelled
    ensures s.workers[i].phase == Finished ==> s.workers[i].ctx in s.sh.cancelled
    ensures s.workers[i].gen == At(s.sh, n).gen && s.workers[i].phase != Finished ==> s.workers[i].ctx !in s.sh.cancelled
  {
    assert WorkerOk(s, n, i, s.workers[i]);
  }

  /** So is that of a start that is dialling or has dialled: stopping, restarting or disconnecting
      cancels it, and nothing else does. */
  lemma StaleDialsAreCancelled(s: State, t: nat)
    requires Reachable(s) && t < |s.starts| && (s.starts[t].phase.Dialing? || s.starts[t].phase.Dialed?)
    ensures s.starts[t].phase.ctx in s.sh.cancelled
            <==> s.starts[t].phase.gen != At(s.sh, s.starts[t].n).gen || s.sh.conn != Some(s.starts[t].phase.conn)
  {
    ReachableInv(s);
    ReachableContexts(s);
    LaneOf(s, s.starts[t].n);
    DialCancelled(s, s.starts[t].n, t);
  }

  lemma DialCancelled(s: State, n: StreamId, t: nat)
    requires LaneOk(s, n) && LiveOk(s) && t < |s.starts| && s.starts[t].n == n
    requires s.starts[t].phase.Dialing? || s.starts[t].phase.Dialed?
    ensures s.starts[t].phase.gen == At(s.sh, n).gen ==> s.sh.conn == Some(s.starts[t].phase.conn) && s.starts[t].phase.ctx !in s.sh.cancelled
    ensures s.starts[t].phase.gen != At(s.sh, n).gen ==> s.starts[t].phase.ctx in s.sh.cancelled
  {
    assert StartOk(s, n, t, s.starts[t].phase);
  }

  // ---- Connect against Disconnect

  /** A Disconnect supersedes a Connect in flight: a later generation, and its context cancelled. */
  lemma DisconnectSupersedes(s: State, s': State)
    requires Reachable(s) && InFlight(s.connect) && s' == Next(s, DisconnectCall)
    ensures s'.connect == s.connect
    ensures s'.sh.connectGen != s.connect.gen && s.connect.ctx in s'.sh.cancelled
  {
    ReachableInv(s);
    ReachableContexts(s);
    DisconnectCancels(s, s');
  }

  lemma IdleFlight(s: State, s': State)
    requires CtxIdle(s, s') && InFlight(s.connect)
    ensures InFlight(s'.connect) && s'.sh.connectCancel == s.sh.connectCancel
  {
  }

  /** One step of a Connect in flight that does not end it. */
  lemma FlightStep(s: State, s': State, a: Action)
    requires InFlight(s.connect) && Enabled(s, a) && s' == Next(s, a) && !a.ConnectDialFails? && !a.ConnectPublishes?
    ensures InFlight(s'.connect)
    ensures s'.sh.connectCancel == if a.DisconnectCall? then None else s.sh.connectCancel
  {
    if IsIdle(a) {
      IdleStep(s, s', a);
      IdleFlight(s, s');
    } else {
      BusyFlight(s, s', a);
    }
  }

  lemma BusyFlight(s: State, s': State, a: Action)
    requires InFlight(s.connect) && Enabled(s, a) && s' == Next(s, a) && !IsIdle(a) && !a.ConnectDialFails? && !a.ConnectPublishes?
    ensures s'.connect == s.connect
    ensures s'.sh.connectCancel == if a.DisconnectCall? then None else s.sh.connectCancel
  {
    match a
    case StartCall(n) => StartRenews(s.sh, n);
    case StartResumes(t) => ResumeRenews(s.sh, s.starts[t].n, s.starts[t].phase.session, s.starts[t].phase.gen);
    case StopCall(n) => StopRenews(s.sh, n);
    case DisconnectCall => DisconnectCancels(s, s');
    case DialFails(t) =>
    case Installs(t) => InstallFlight(s, s', t);
    case WorkerFinishes(i) =>
  }

  lemma InstallFlight(s: State, s': State, t: nat)
    requires Enabled(s, Installs(t)) && s' == Next(s, Installs(t))
    ensures s'.connect == s.connect && s'.sh.connectCancel == s.sh.connectCancel
  {
  }

  lemma {:induction false} FlightRun(s: State, acts: seq<Action>)
    requires Inv(s) && ContextsOk(s) && InFlight(s.connect) && IsRun(s, acts)
    requires forall a :: a in acts ==> !a.ConnectDialFails? && !a.ConnectPublishes?
    ensures InFlight(After(s, acts).connect)
    ensures After(s, acts).sh.connectCancel == if DisconnectCall in acts then None else s.sh.connectCancel
    decreases |acts|
  {
    if acts != [] {
      var a, s' := acts[0], Next(s, acts[0]);
      assert acts == [a] + acts[1..];
      FlightKeeps(s, s', a);
      FlightRun(s', acts[1..]);
    }
  }

  lemma FlightKeeps(s: State, s': State, a: Action)
    requires Inv(s) && ContextsOk(s) && InFlight(s.connect)
    requires Enabled(s, a) && s' == Next(s, a) && !a.ConnectDialFails? && !a.ConnectPublishes?
    ensures Inv(s') && ContextsOk(s') && InFlight(s'.connect)
    ensures s'.sh.connectCancel == if a.DisconnectCall? then None else s.sh.connectCancel
  {
    StepKeeps(s, a);
    StepKeepsContexts(s, s', a);
    FlightStep(s, s', a);
  }

  // ---- the socket that Connect dialled

  /** What Connect dialled is open until Connect itself publishes or gives up. */
  ghost predicate PendingOpen(s: State) {
    s.connect.Connected? ==> SlotOn(s.sh, s.connect.conn, Speaker).Some? && SlotOn(s.sh, s.connect.conn, Speaker).value !in s.sh.closed
  }

  /** The step closes no socket of a Connect, and leaves the slot of a pending one alone. */
  ghost predicate SparesConnect(s: State, s': State) {
    && (s.connect.Connected? ==> s'.connect == s.connect && SlotOn(s'.sh, s.connect.conn, Speaker) == SlotOn(s.sh, s.connect.conn, Speaker))
    && forall v :: v in s'.sh.closed && v !in s.sh.closed ==> v < |s.users| && s.users[v] != UConnect
  }

  lemma StreamStepSpares(s: State, s': State, a: Action)
    requires !s.sh.connected && (a.StartCall? || a.StartResumes? || a.StopCall? || a.StopReturns? || a.DialOk? || a.DialFails?)
    requires Enabled(s, a) && s' == Next(s, a)
    ensures SparesConnect(s, s')
  {
  }

  lemma InstallSpares(s: State, s': State, t: nat)
    requires !s.sh.connected && Enabled(s, Installs(t)) && s' == Next(s, Installs(t))
    requires StartOk(s, s.starts[t].n, t, s.starts[t].phase)
    ensures SparesConnect(s, s')
  {
  }

  lemma MoveSpares(s: State, s': State, k: nat)
    requires ReconnectMoves(s, s', k)
    ensures SparesConnect(s, s')
  {
  }

  lemma ReconnectSpares(s: State, s': State, a: Action)
    requires Inv(s) && IsReconnectStep(a) && Enabled(s, a) && s' == Next(s, a)
    ensures SparesConnect(s, s')
  {
    TurnOf(s, a.k);
    StepMoves(s, s', a, a.k);
    MoveSpares(s, s', a.k);
  }

  /** Emptying a slot of one's own is not emptying a pending connection's. */
  lemma OwnSpares(s: State, s': State, i: nat)
    requires i < |s.workers| && OwnOnly(s, s'.sh, i) && s'.connect == s.connect
    requires s.workers[i].sock.Some? && s.workers[i].sock.value < |s.users| && s.users[s.workers[i].sock.value].UWorker?
    requires s.connect.Connected? ==> PendingOk(s, s.connect.conn)
    ensures SparesConnect(s, s')
  {
  }

  lemma WorkerSpares(s: State, s': State, a: Action)
    requires Inv(s) && IsWorkerStep(a) && Enabled(s, a) && s' == Next(s, a)
    ensures SparesConnect(s, s')
  {
    var i := WorkerStepOf(a);
    WorkerStepClosesOwn(s, s', a, i);
    SocketOfWorker(s, i);
    SameConnect(s, s', a);
    OwnSpares(s, s', i);
  }

  lemma SocketOfWorker(s: State, i: nat)
    requires Inv(s) && i < |s.workers|
    ensures s.workers[i].sock.Some? && s.workers[i].sock.value < |s.users| && s.users[s.workers[i].sock.value].UWorker?
  {
    LaneOf(s, s.workers[i].n);
    assert WorkerOk(s, s.workers[i].n, i, s.workers[i]);
  }

  lemma SameConnect(s: State, s': State, a: Action)
    requires IsWorkerStep(a) && Enabled(s, a) && s' == Next(s, a)
    ensures s'.connect == s.connect
  {
  }

  lemma DrainSpares(s: State, s': State, c: nat)
    requires Drains(s, s', c) && LanesOk(s) && s.connect.Connected? && PendingOk(s, s.connect.conn)
    requires SlotOn(s.sh, c, Control).Some? ==> ControlOccupantOk(s, c, SlotOn(s.sh, c, Control).value)
    ensures SparesConnect(s, s')
  {
    forall v | v in s'.sh.closed && v !in s.sh.closed
      ensures v < |s.users| && s.users[v] != UConnect
    {
      var m :| SlotOn(s.sh, c, m) == Some(v);
      if m == Control {
        assert ControlOccupantOk(s, c, v);
      } else {
        LaneOf(s, m);
        assert OccupantOk(s, m, c, v);
      }
    }
  }

  lemma CloseSpares(s: State, s': State, d: nat)
    requires Inv(s) && s.connect.Connected? && Enabled(s, DisconnectCloses(d)) && s' == Next(s, DisconnectCloses(d))
    ensures SparesConnect(s, s')
  {
    assert s.discs[d].conn.Some?;
    CloseDrains(s, s', s.discs[d].conn.value);
    DrainSpares(s, s', s.discs[d].conn.value);
  }

  lemma StepSpares(s: State, s': State, a: Action)
    requires Inv(s) && s.connect.Connected? && Enabled(s, a) && s' == Next(s, a) && !a.ConnectPublishes?
    ensures SparesConnect(s, s')
  {
    if IsWorkerStep(a) {
      WorkerSpares(s, s', a);
    } else if IsReconnectStep(a) {
      ReconnectSpares(s, s', a);
    } else if a.Installs? {
      LaneOf(s, s.starts[a.t].n);
      InstallSpares(s, s', a.t);
    } else if a.DisconnectCloses? {
      CloseSpares(s, s', a.d);
    } else if IsStreamStep(a) {
      StreamStepSpares(s, s', a);
    } else {
      assert s'.sh.closed == s.sh.closed;
    }
  }

  lemma DialledPending(s: State, s': State)
    requires s.connect.Connecting? && s' == DoConnectDialOk(s) && forall v :: v in s.sh.closed ==> v < |s.users|
    ensures PendingOpen(s')
  {
  }

  lemma StepKeepsPending(s: State, s': State, a: Action)
    requires Inv(s) && PendingOpen(s) && Enabled(s, a) && s' == Next(s, a)
    ensures PendingOpen(s')
  {
    if a.ConnectDialOk? {
      DialledPending(s, s');
    } else if s.connect.Connected? && !a.ConnectPublishes? {
      StepSpares(s, s', a);
    } else {
      NoneDialled(s, s', a);
    }
  }

  lemma NoneDialled(s: State, s': State, a: Action)
    requires Enabled(s, a) && s' == Next(s, a) && !a.ConnectDialOk? && (s.connect.Connected? ==> a.ConnectPublishes?)
    ensures !s'.connect.Connected?
  {
  }

  lemma {:induction false} RunKeepsPending(s: State, acts: seq<Action>)
    requires Inv(s) && PendingOpen(s) && IsRun(s, acts)
    ensures PendingOpen(After(s, acts))
    decreases |acts|
  {
    if acts != [] {
      StepKeeps(s, acts[0]);
      StepKeepsPending(s, Next(s, acts[0]), acts[0]);
      RunKeepsPending(Next(s, acts[0]), acts[1..]);
    }
  }

  lemma PendingStaysOpen(s: State)
    requires Reachable(s)
    ensures PendingOpen(s)
  {
    var acts :| IsRun(Initial, acts) && After(Initial, acts) == s;
    InitialInv();
    RunKeepsPending(Initial, acts);
  }

  /** The Connect went up: its connection is current and open, and the speaker's worker has been
      launched on it with the socket that Connect dialled. */
  predicate WentUp(t: State, u: State, c: nat) {
    && u.sh.connected && u.sh.conn == Some(c) && c < |u.sh.conns| && !u.sh.conns[c].closed
    && |u.workers| == |t.workers| + 1
    && var w := u.workers[|t.workers|];
    && w.n == Speaker && w.conn == c && w.phase == Working && w.sock.Some? && SlotOn(u.sh, c, Speaker) == w.sock
    && w.sock.value !in u.sh.closed && w.ctx !in u.sh.cancelled
    && At(u.sh, Speaker).active && At(u.sh, Speaker).gen == w.gen && At(u.sh, Speaker).cancel == Some(w.ctx)
    && At(u.sh, Speaker).done == Some(|t.workers|)
  }

  /** The Connect was given up: still no session, its connection closed with its sockets, no worker. */
  ghost predicate GaveUp(t: State, u: State, c: nat) {
    && !u.sh.connected && u.sh.conn == None && c < |u.sh.conns| && u.sh.conns[c].closed && u.workers == t.workers
    && (forall n :: SlotOn(u.sh, c, n) == None)
    && (forall n :: SlotOn(t.sh, c, n).Some? ==> SlotOn(t.sh, c, n).value in u.sh.closed)
    && (forall n :: At(u.sh, n) == At(t.sh, n))
  }

  lemma PublishesOrNot(t: State, u: State)
    requires SessionOk(t) && PendingConnectOk(t) && PendingOpen(t) && t.connect.Connected? && u == DoPublish(t)
    ensures if t.sh.connectCancel.Some? then WentUp(t, u, t.connect.conn) else GaveUp(t, u, t.connect.conn)
  {
    if t.sh.connectCancel.Some? {
      PublishShape(t, u);
    } else {
      AbortDiscards(t, u);
    }
  }

  lemma BeginsFlight(s: State, s1: State)
    requires Inv(s) && ContextsOk(s) && PendingOpen(s) && Enabled(s, ConnectDials) && s1 == Next(s, ConnectDials)
    ensures Inv(s1) && ContextsOk(s1) && PendingOpen(s1) && InFlight(s1.connect) && s1.sh.connectCancel.Some?
  {
    StepKeeps(s, ConnectDials);
    StepKeepsContexts(s, s1, ConnectDials);
  }

  lemma FlightOpen(s1: State, acts: seq<Action>)
    requires Inv(s1) && ContextsOk(s1) && PendingOpen(s1) && IsRun(s1, acts)
    ensures var t := After(s1, acts); SessionOk(t) && PendingConnectOk(t) && PendingOpen(t)
  {
    RunKeeps(s1, acts);
    RunKeepsContexts(s1, acts);
    RunKeepsPending(s1, acts);
  }

  /** A Connect goes up if and only if no Disconnect came between its claim of a generation and its
      publication, whatever else ran in between. */
  lemma ConnectUnlessDisconnected(s: State, acts: seq<Action>, t: State, u: State)
    requires Reachable(s) && Enabled(s, ConnectDials) && IsRun(Next(s, ConnectDials), acts)
    requires forall a :: a in acts ==> !a.ConnectDialFails? && !a.ConnectPublishes?
    requires t == After(Next(s, ConnectDials), acts) && Enabled(t, ConnectPublishes) && u == Next(t, ConnectPublishes)
    ensures if DisconnectCall in acts then GaveUp(t, u, t.connect.conn) else WentUp(t, u, t.connect.conn)
  {
    var s1 := Next(s, ConnectDials);
    ReachableInv(s);
    ReachableContexts(s);
    PendingStaysOpen(s);
    BeginsFlight(s, s1);
    FlightRun(s1, acts);
    FlightOpen(s1, acts);
    PublishesOrNot(t, u);
  }
}
