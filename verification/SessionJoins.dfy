/** How the goroutines of the session core come to their ends: a dial that is still wanted launches
    its worker and any other closes its socket, a reconnect of a screen in service goes on to its
    route, and a stop or a Disconnect returns only after the workers it found. */
module SessionJoins {
  import opened Wrappers
  import opened Transport
  import opened SessionState
  import opened SessionEdits
  import opened SessionSystem
  import opened SessionInvariant
  import opened SessionLanes
  import opened SessionInstalls
  import opened SessionReconnects
  import opened SessionDisconnects
  import opened SessionConnects
  import opened SessionTheorems
  import opened SessionSafety
  import opened SessionContexts
  import opened SessionCancels
  import opened SessionEffects

  // ---- the end of a dial

  /** The dialled socket is in its slot, open, and the stream's new worker has it. */
  ghost predicate LaunchedBy(s: State, s': State, n: StreamId, p: StartPhase)
    requires p.Dialed?
  {
    && |s'.workers| == |s.workers| + 1 && s'.workers[..|s.workers|] == s.workers
    && var w := s'.workers[|s.workers|];
    && w.n == n && w.conn == p.conn && w.gen == p.gen && w.ctx == p.ctx && w.sock == p.sock && w.phase == Working
    && p.sock.Some? && p.sock.value !in s'.sh.closed && CurSlot(s'.sh, n) == p.sock && w.ctx !in s'.sh.cancelled
    && At(s'.sh, n).active && At(s'.sh, n).running && At(s'.sh, n).gen == w.gen && At(s'.sh, n).done == Some(|s.workers|)
  }

  /** The dialled socket is closed, its context cancelled, and the streams are as they were. */
  ghost predicate DiscardedBy(s: State, s': State, p: StartPhase)
    requires p.Dialed?
  {
    && s'.workers == s.workers && p.ctx in s'.sh.cancelled
    && (p.sock.Some? ==> p.sock.value in s'.sh.closed)
    && (forall m :: At(s'.sh, m) == At(s.sh, m)) && s'.sh.conns == s.sh.conns && s'.sh.hub == s.sh.hub
  }

  /** A dial launches its worker if and only if its generation is still the stream's. */
  lemma DialEnds(s: State, s': State, t: nat)
    requires Reachable(s) && Enabled(s, Installs(t)) && s' == Next(s, Installs(t))
    ensures if s.starts[t].phase.gen == At(s.sh, s.starts[t].n).gen
            then LaunchedBy(s, s', s.starts[t].n, s.starts[t].phase)
            else DiscardedBy(s, s', s.starts[t].phase)
  {
    var n, p := s.starts[t].n, s.starts[t].phase;
    if p.gen == At(s.sh, n).gen {
      CurrentLaunches(s, s', n, t);
    } else {
      ReachableInv(s);
      LaneOf(s, n);
      StaleDiscards(s, s', t);
      AbortWithin(s, s', n, t);
    }
  }

  lemma StaleDiscards(s: State, s': State, t: nat)
    requires Enabled(s, Installs(t)) && s' == DoInstall(s, t) && s.starts[t].phase.gen != At(s.sh, s.starts[t].n).gen
    ensures InstallOut(s, t).Aborted? && DiscardedBy(s, s', s.starts[t].phase)
  {
  }

  lemma CurrentLaunches(s: State, s': State, n: StreamId, t: nat)
    requires Reachable(s) && Enabled(s, Installs(t)) && s' == Next(s, Installs(t)) && n == s.starts[t].n
    requires s.starts[t].phase.gen == At(s.sh, n).gen
    ensures LaunchedBy(s, s', n, s.starts[t].phase)
  {
    ReachableInv(s);
    LaneOf(s, n);
    CurrentIsInstalled(s, n, t);
    LaunchHires(s, s', n, t);
    HiredLaunches(s, s', n, t);
  }

  lemma CurrentIsInstalled(s: State, n: StreamId, t: nat)
    requires SessionOk(s) && LaneOk(s, n) && t < |s.starts| && s.starts[t].n == n && s.starts[t].phase.Dialed?
    requires s.starts[t].phase.gen == At(s.sh, n).gen
    ensures !InstallOut(s, t).Aborted?
    ensures s.starts[t].phase.sock.Some? && s.starts[t].phase.sock.value !in s.sh.closed && s.starts[t].phase.ctx !in s.sh.cancelled
  {
    assert StartOk(s, n, t, s.starts[t].phase);
  }

  lemma HiredLaunches(s: State, s': State, n: StreamId, t: nat)
    requires Enabled(s, Installs(t)) && s' == DoInstall(s, t) && n == s.starts[t].n
    requires |s'.workers| == |s.workers| + 1 && Hired(s, s', n, t, s'.workers[|s.workers|])
    requires s.starts[t].phase.sock.Some? && s.starts[t].phase.sock.value !in s.sh.closed && s.starts[t].phase.ctx !in s.sh.cancelled
    requires InstallOut(s, t).Launched?
    ensures LaunchedBy(s, s', n, s.starts[t].phase)
  {
    LaunchSocketIsOwn(s, n, t);
  }

  /** A failed dial is over: its context is cancelled, and if its generation is still the stream's, the
      stream is neither active nor running and has let go of the context. */
  lemma DialFailureEnds(s: State, s': State, t: nat)
    requires Reachable(s) && Enabled(s, DialFails(t)) && s' == Next(s, DialFails(t))
    ensures s'.starts == s.starts[t := Start(s.starts[t].n, Over)] && s.starts[t].phase.ctx in s'.sh.cancelled
    ensures var st := At(s'.sh, s.starts[t].n);
            if s.starts[t].phase.gen == st.gen then !st.active && !st.running && st.cancel == None
            else st == At(s.sh, s.starts[t].n)
  {
    ReachableStart(s, t);
    StreamFacts(s, s.starts[t].n);
    FailureEnds(s, s', s.starts[t].n, t);
  }

  lemma FailureEnds(s: State, s': State, n: StreamId, t: nat)
    requires Enabled(s, DialFails(t)) && s.starts[t].n == n && StreamOk(s, n) && StartOk(s, n, t, s.starts[t].phase)
    requires s' == DoDialFails(s, t)
    ensures s'.starts == s.starts[t := Start(n, Over)] && s.starts[t].phase.ctx in s'.sh.cancelled
    ensures if s.starts[t].phase.gen == At(s'.sh, n).gen
            then !At(s'.sh, n).active && !At(s'.sh, n).running && At(s'.sh, n).cancel == None
            else At(s'.sh, n) == At(s.sh, n)
  {
  }

  /** A start that waited dials if and only if its generation is still the stream's; otherwise it
      leaves everything alone. */
  lemma WaitEnds(s: State, s': State, t: nat)
    requires Reachable(s) && Enabled(s, StartResumes(t)) && s' == Next(s, StartResumes(t))
    ensures if s.starts[t].phase.gen == At(s.sh, s.starts[t].n).gen
            then DialsFor(s'.starts[t].phase, s, s', s.starts[t].n) && At(s'.sh, s.starts[t].n).gen > At(s.sh, s.starts[t].n).gen
            else s' == s.(starts := s.starts[t := Start(s.starts[t].n, Over)])
  {
    ReachableStart(s, t);
    SessionFacts(s);
    StreamFacts(s, s.starts[t].n);
    WaitGoesOn(s, s', s.starts[t].n, t);
  }

  lemma ReachableStart(s: State, t: nat)
    requires Reachable(s) && t < |s.starts|
    ensures s.starts[t].n != Control && StartOk(s, s.starts[t].n, t, s.starts[t].phase)
  {
    ReachableInv(s);
    LaneOf(s, s.starts[t].n);
  }

  lemma WaitGoesOn(s: State, s': State, n: StreamId, t: nat)
    requires StreamOk(s, n) && Enabled(s, StartResumes(t)) && s' == DoResume(s, t) && s.starts[t].n == n
    requires StartOk(s, n, t, s.starts[t].phase)
    requires (s.sh.connected <==> s.sh.conn.Some?) && (s.sh.conn.Some? ==> s.sh.conn.value < |s.sh.conns|)
    requires |s.ctxs| == s.sh.contexts && forall x :: x in s.sh.cancelled ==> x < |s.ctxs|
    ensures if s.starts[t].phase.gen == At(s.sh, n).gen
            then DialsFor(s'.starts[t].phase, s, s', n) && At(s'.sh, n).gen > At(s.sh, n).gen
            else s' == s.(starts := s.starts[t := Start(n, Over)])
  {
  }

  // ---- a worker's reports

  /** A worker's report is the stream's metrics exactly if the worker is in service. */
  lemma ReportLands(s: State, s': State, i: nat, m: Metrics)
    requires Reachable(s) && Enabled(s, WorkerReports(i, m)) && s' == Next(s, WorkerReports(i, m))
    ensures if InService(s, s.workers[i].n, i)
            then s' == s.(sh := s.sh.(streams := s'.sh.streams))
                 && At(s'.sh, s.workers[i].n).metrics == m
                 && forall n :: At(s'.sh, n) == At(s.sh, n).(metrics := At(s'.sh, n).metrics)
                               && (n != s.workers[i].n ==> At(s'.sh, n).metrics == At(s.sh, n).metrics)
            else s' == s
  {
    ReachableWorker(s, i);
    ReportIn(s, s', s.workers[i].n, i, m);
  }

  lemma ReachableWorker(s: State, i: nat)
    requires Reachable(s) && i < |s.workers|
    ensures s.workers[i].n != Control && StreamOk(s, s.workers[i].n) && WorkerOk(s, s.workers[i].n, i, s.workers[i])
  {
    ReachableInv(s);
    LaneOf(s, s.workers[i].n);
  }

  lemma ReportIn(s: State, s': State, n: StreamId, i: nat, m: Metrics)
    requires StreamOk(s, n) && i < |s.workers| && s.workers[i].n == n && WorkerOk(s, n, i, s.workers[i])
    requires s' == s.(sh := UpdateMetrics(s.sh, n, s.workers[i].gen, s.workers[i].conn, m))
    ensures if InService(s, n, i)
            then s' == s.(sh := s.sh.(streams := s'.sh.streams))
                 && At(s'.sh, n).metrics == m
                 && forall k :: At(s'.sh, k) == At(s.sh, k).(metrics := At(s'.sh, k).metrics)
                               && (k != n ==> At(s'.sh, k).metrics == At(s.sh, k).metrics)
            else s' == s
  {
  }

  /** A worker's exit section takes the stream out of service, with its slot empty and for the screen
      without a hub session to its name, exactly if the worker is in service; any other's leaves the
      stream alone. */
  lemma ExitEnds(s: State, s': State, i: nat)
    requires Reachable(s) && Enabled(s, WorkerExits(i)) && s' == Next(s, WorkerExits(i))
    ensures s'.workers == s.workers[i := s.workers[i].(phase := Exited)]
    ensures var n := s.workers[i].n;
            if InService(s, n, i)
            then !At(s'.sh, n).active && !At(s'.sh, n).running && CurSlot(s'.sh, n) == None && (n == Screen ==> At(s'.sh, n).hubGen == 0)
            else s'.sh == s.sh
  {
    ReachableWorker(s, i);
    SessionFacts(s);
    ExitIn(s, s', s.workers[i].n, i);
  }

  lemma ExitIn(s: State, s': State, n: StreamId, i: nat)
    requires StreamOk(s, n) && Enabled(s, WorkerExits(i)) && s.workers[i].n == n && WorkerOk(s, n, i, s.workers[i])
    requires s' == DoExit(s, i) && (s.sh.conn.Some? ==> s.sh.conn.value < |s.sh.conns|)
    ensures if InService(s, n, i)
            then !At(s'.sh, n).active && !At(s'.sh, n).running && CurSlot(s'.sh, n) == None && (n == Screen ==> At(s'.sh, n).hubGen == 0)
            else s'.sh == s.sh
  {
  }

  // ---- the control reconnect

  /** The screen's worker that the reconnect belongs to is in service and working. */
  predicate ScreenUp(s: State, k: nat) {
    k < |s.reconnects| && InService(s, Screen, s.reconnects[k].worker) && s.workers[s.reconnects[k].worker].phase == Working
  }

  /** What the sections of a reconnect find while its screen is up. */
  lemma UpFacts(s: State, k: nat)
    requires Reachable(s) && ScreenUp(s, k)
    ensures s.sh.token == Some(s.reconnects[k].tok) && s.reconnects[k].ctx !in s.sh.cancelled
    ensures s.sh.conn == Some(s.reconnects[k].tok.conn) && s.reconnects[k].tok.conn < |s.sh.conns|
    ensures !s.sh.conns[s.reconnects[k].tok.conn].closed
    ensures StillCurrent(s.sh, s.reconnects[k].tok)
    ensures s.sh.hub.active && s.sh.hub.gen == s.reconnects[k].tok.hubGen
  {
    var i := s.reconnects[k].worker;
    ReconnectWorker(s, k);
    StaleWorkersAreCancelled(s, i);
    WorkingScreenHasSession(s, i);
    ReachableWorker(s, i);
    SessionFacts(s);
    UpIsCurrent(s, i);
    UpHasToken(s, k);
  }

  lemma UpHasToken(s: State, k: nat)
    requires Reachable(s) && ScreenUp(s, k)
    ensures s.sh.token == Some(s.reconnects[k].tok) && s.reconnects[k].tok == s.workers[s.reconnects[k].worker].Tok()
    ensures s.reconnects[k].tok.conn < |s.sh.conns| && !s.sh.conns[s.reconnects[k].tok.conn].closed
  {
    ReachableInv(s);
    assert ReconnectOk(s, k, s.reconnects[k]);
    assert ScreenWorkerOk(s, s.reconnects[k].worker, s.workers[s.reconnects[k].worker]);
  }

  lemma UpIsCurrent(s: State, i: nat)
    requires i < |s.workers| && StreamOk(s, Screen) && WorkerOk(s, Screen, i, s.workers[i]) && InService(s, Screen, i)
    requires s.sh.connected <==> s.sh.conn.Some?
    ensures StillCurrent(s.sh, s.workers[i].Tok())
  {
  }

  /** With its screen up, every step of a reconnect leads on: the check to the dial, the dialled
      socket into the control slot, and the installed one to the hub, as its route. */
  lemma ReconnectGoesOn(s: State, s': State, a: Action)
    requires Reachable(s) && IsReconnectStep(a) && Enabled(s, a) && ScreenUp(s, a.k) && s' == Next(s, a)
    ensures a.ReconnectChecks? ==> s'.reconnects[a.k].phase == RDialing
    ensures a.ReconnectInstalls? ==>
              var v := s.reconnects[a.k].phase.sock;
              s'.reconnects[a.k].phase == RInstalled(v) && CurSlot(s'.sh, Control) == Some(v) && v !in s'.sh.closed
    ensures a.ReconnectAsks? ==> s'.reconnects[a.k].phase == RCurrent(s.reconnects[a.k].phase.sock)
    ensures a.ReconnectRegisters? ==>
              var v := s.reconnects[a.k].phase.sock;
              s'.reconnects[a.k].phase == ROver(Some(v)) && s'.sh.hub.active && s'.sh.hub.route == Some(v)
  {
    UpFacts(s, a.k);
    if s.reconnects[a.k].phase.RDialed? {
      DialledControlIsOpen(s, a.k);
    }
    GoesOn(s, s', a);
  }

  lemma DialledControlIsOpen(s: State, k: nat)
    requires Reachable(s) && k < |s.reconnects| && s.reconnects[k].phase.RDialed?
    ensures s.reconnects[k].phase.sock !in s.sh.closed && SlotOn(s.sh, s.reconnects[k].tok.conn, Control) != Some(s.reconnects[k].phase.sock)
  {
    ReachableControl(s);
    DialledIsOutside(s, k, s.reconnects[k].tok.conn);
  }

  lemma DialledIsOutside(s: State, k: nat, c: nat)
    requires ReconnectsOk(s) && TokenOk(s) && k < |s.reconnects| && s.reconnects[k].phase.RDialed?
    ensures s.reconnects[k].phase.sock !in s.sh.closed && SlotOn(s.sh, c, Control) != Some(s.reconnects[k].phase.sock)
  {
    assert ReconnectOk(s, k, s.reconnects[k]);
    if SlotOn(s.sh, c, Control).Some? {
      assert ControlOccupantOk(s, c, SlotOn(s.sh, c, Control).value);
    }
  }

  lemma GoesOn(s: State, s': State, a: Action)
    requires IsReconnectStep(a) && Enabled(s, a) && s' == Next(s, a)
    requires s.sh.token == Some(s.reconnects[a.k].tok) && s.reconnects[a.k].ctx !in s.sh.cancelled
    requires s.sh.conn == Some(s.reconnects[a.k].tok.conn) && s.reconnects[a.k].tok.conn < |s.sh.conns|
    requires !s.sh.conns[s.reconnects[a.k].tok.conn].closed
    requires StillCurrent(s.sh, s.reconnects[a.k].tok)
    requires s.sh.hub.active && s.sh.hub.gen == s.reconnects[a.k].tok.hubGen
    requires s.reconnects[a.k].phase.RDialed? ==>
               s.reconnects[a.k].phase.sock !in s.sh.closed
               && SlotOn(s.sh, s.reconnects[a.k].tok.conn, Control) != Some(s.reconnects[a.k].phase.sock)
    ensures a.ReconnectChecks? ==> s'.reconnects[a.k].phase == RDialing
    ensures a.ReconnectInstalls? ==>
              var v := s.reconnects[a.k].phase.sock;
              s'.reconnects[a.k].phase == RInstalled(v) && CurSlot(s'.sh, Control) == Some(v) && v !in s'.sh.closed
    ensures a.ReconnectAsks? ==> s'.reconnects[a.k].phase == RCurrent(s.reconnects[a.k].phase.sock)
    ensures a.ReconnectRegisters? ==>
              var v := s.reconnects[a.k].phase.sock;
              s'.reconnects[a.k].phase == ROver(Some(v)) && s'.sh.hub.active && s'.sh.hub.route == Some(v)
  {
  }

  /** A reconnect that comes back from its dial after its screen was stopped, restarted or
      disconnected closes its socket and touches no slot. */
  lemma LateDialIsClosed(s: State, s': State, k: nat)
    requires Reachable(s) && Enabled(s, ReconnectInstalls(k)) && s' == Next(s, ReconnectInstalls(k))
    requires s.reconnects[k].tok.gen != At(s.sh, Screen).gen || s.sh.conn != Some(s.reconnects[k].tok.conn)
    ensures s.reconnects[k].phase.sock in s'.sh.closed && s'.sh.conns == s.sh.conns && s'.reconnects[k].phase == ROver(None)
    ensures s'.sh.hub == s.sh.hub
  {
    ReconnectWorker(s, k);
    StaleWorkersAreCancelled(s, s.reconnects[k].worker);
    LateCloses(s, s', k);
  }

  /** A reconnect that has installed its socket goes on to the hub if and only if its screen is still in
      service; otherwise it is about to close the socket. */
  lemma AsksExactly(s: State, s': State, k: nat)
    requires Reachable(s) && Enabled(s, ReconnectAsks(k)) && s' == Next(s, ReconnectAsks(k))
    ensures s'.sh == s.sh
    ensures var v := s.reconnects[k].phase.sock;
            s'.reconnects[k].phase == if InService(s, Screen, s.reconnects[k].worker) then RCurrent(v) else RClosing(v)
  {
    var i := s.reconnects[k].worker;
    ReconnectToken(s, k);
    ReachableWorker(s, i);
    SessionFacts(s);
    CurrentExactly(s, i);
  }

  lemma ReconnectToken(s: State, k: nat)
    requires Reachable(s) && k < |s.reconnects|
    ensures var i := s.reconnects[k].worker; i < |s.workers| && s.workers[i].n == Screen && s.workers[i].Tok() == s.reconnects[k].tok
  {
    ReachableInv(s);
    assert ReconnectOk(s, k, s.reconnects[k]);
  }

  lemma CurrentExactly(s: State, i: nat)
    requires i < |s.workers| && s.workers[i].n == Screen && StreamOk(s, Screen) && WorkerOk(s, Screen, i, s.workers[i])
    requires s.sh.connected <==> s.sh.conn.Some?
    ensures StillCurrent(s.sh, s.workers[i].Tok()) <==> InService(s, Screen, i)
  {
  }

  lemma ReconnectWorker(s: State, k: nat)
    requires Reachable(s) && k < |s.reconnects|
    ensures var i := s.reconnects[k].worker;
            i < |s.workers| && s.workers[i].n == Screen && s.workers[i].gen == s.reconnects[k].tok.gen
            && s.workers[i].conn == s.reconnects[k].tok.conn && s.workers[i].ctx == s.reconnects[k].ctx
  {
    ReachableContexts(s);
    ReachableInv(s);
    assert ReconnectOk(s, k, s.reconnects[k]);
  }

  lemma LateCloses(s: State, s': State, k: nat)
    requires Enabled(s, ReconnectInstalls(k)) && s' == DoReconnectInstall(s, k) && s.reconnects[k].ctx in s.sh.cancelled
    ensures s.reconnects[k].phase.sock in s'.sh.closed && s'.sh.conns == s.sh.conns && s'.reconnects[k].phase == ROver(None)
    ensures s'.sh.hub == s.sh.hub
  {
  }

  // ---- stop and Disconnect wait for the workers they found

  ghost predicate StopsOk(s: State) {
    forall t :: 0 <= t < |s.stops| && s.stops[t].over ==> DoneClosed(s, s.stops[t].prev)
  }

  ghost predicate DiscsOk(s: State) {
    forall d, i :: 0 <= d < |s.discs| && 0 <= i < |s.workers| && s.discs[d].conn == Some(s.workers[i].conn) && s.workers[i].Open() ==>
      i in s.discs[d].dones && s.discs[d].phase != Left
  }

  /** Workers only close their done channels; a new one is on the current connection. */
  ghost predicate WorkersMove(s: State, s': State) {
    && |s.workers| <= |s'.workers|
    && (forall i :: 0 <= i < |s.workers| ==> s'.workers[i].conn == s.workers[i].conn && (s'.workers[i].Open() ==> s.workers[i].Open()))
    && (forall i :: |s.workers| <= i < |s'.workers| ==> s'.sh.conn == Some(s'.workers[i].conn))
  }

  /** A stop that is over in `s'` was over before, or found its worker finished. */
  ghost predicate StopsMove(s: State, s': State) {
    forall t :: 0 <= t < |s'.stops| && s'.stops[t].over ==>
      t < |s.stops| && s'.stops[t].prev == s.stops[t].prev && (s.stops[t].over || DoneClosed(s, s.stops[t].prev))
  }

  /** The Disconnects keep what they hold; one that has left was through before, or found its
      workers finished. */
  ghost predicate DiscsMove(s: State, s': State) {
    && |s'.discs| == |s.discs|
    && (forall d :: 0 <= d < |s.discs| ==>
          s'.discs[d].conn == s.discs[d].conn && s'.discs[d].dones == s.discs[d].dones
          && (s'.discs[d].phase == Left ==> s.discs[d].phase == Left || forall w :: w in s.discs[d].dones ==> DoneClosed(s, Some(w))))
  }

  lemma StopsCarry(s: State, s': State)
    requires StopsOk(s) && WorkersMove(s, s') && StopsMove(s, s')
    ensures StopsOk(s')
  {
  }

  lemma DiscsCarry(s: State, s': State)
    requires DiscsOk(s) && WorkersMove(s, s') && DiscsMove(s, s')
    requires forall d :: 0 <= d < |s'.discs| ==> s'.discs[d].conn != s'.sh.conn
    ensures DiscsOk(s')
  {
  }

  lemma StreamStepMoves(s: State, s': State, a: Action)
    requires IsStreamStep(a) && !a.Installs? && Enabled(s, a) && s' == Next(s, a)
    ensures WorkersMove(s, s') && StopsMove(s, s') && DiscsMove(s, s')
  {
  }

  lemma WorkerStepMoves(s: State, s': State, a: Action)
    requires IsWorkerStep(a) && Enabled(s, a) && s' == Next(s, a)
    ensures WorkersMove(s, s') && StopsMove(s, s') && DiscsMove(s, s')
  {
  }

  lemma ReconnectStepMoves(s: State, s': State, a: Action)
    requires IsReconnectStep(a) && Enabled(s, a) && s' == Next(s, a)
    ensures WorkersMove(s, s') && StopsMove(s, s') && DiscsMove(s, s')
  {
  }

  lemma ConnectStepMoves(s: State, s': State, a: Action)
    requires IsConnectStep(a) && !a.DisconnectCall? && !a.ConnectDisconnects? && !a.ConnectPublishes? && Enabled(s, a) && s' == Next(s, a)
    ensures WorkersMove(s, s') && StopsMove(s, s') && DiscsMove(s, s')
  {
  }

  lemma InstallMoves(s: State, s': State, t: nat)
    requires Inv(s) && Enabled(s, Installs(t)) && s' == DoInstall(s, t)
    ensures WorkersMove(s, s') && StopsMove(s, s') && DiscsMove(s, s')
  {
    var n := s.starts[t].n;
    LaneOf(s, n);
    if InstallOut(s, t).Aborted? {
      AbortWithin(s, s', n, t);
      AbortMoves(s, s', t);
    } else {
      LaunchHires(s, s', n, t);
      HireMoves(s, s', n, t, s'.workers[|s.workers|]);
    }
  }

  lemma AbortMoves(s: State, s': State, t: nat)
    requires Enabled(s, Installs(t)) && s' == DoInstall(s, t) && InstallOut(s, t).Aborted?
    ensures WorkersMove(s, s') && StopsMove(s, s') && DiscsMove(s, s')
  {
  }

  lemma HireMoves(s: State, s': State, n: StreamId, t: nat, w: Worker)
    requires Hired(s, s', n, t, w)
    ensures WorkersMove(s, s') && StopsMove(s, s') && DiscsMove(s, s')
  {
  }

  lemma PublishMoves(s: State, s': State)
    requires SessionOk(s) && s.connect.Connected? && s' == DoPublish(s)
    ensures WorkersMove(s, s') && StopsMove(s, s') && DiscsMove(s, s')
  {
    if s.sh.connectGen == s.connect.gen && s.connect.ctx !in s.sh.cancelled {
      PublishShape(s, s');
    } else {
      AbortDiscards(s, s');
    }
  }

  lemma OtherStepMoves(s: State, s': State, a: Action)
    requires Inv(s) && Enabled(s, a) && s' == Next(s, a) && !a.DisconnectCall? && !a.ConnectDisconnects?
    ensures WorkersMove(s, s') && StopsMove(s, s') && DiscsMove(s, s')
  {
    if a.Installs? {
      InstallMoves(s, s', a.t);
    } else if a.ConnectPublishes? {
      PublishMoves(s, s');
    } else if IsStreamStep(a) {
      StreamStepMoves(s, s', a);
    } else if IsWorkerStep(a) {
      WorkerStepMoves(s, s', a);
    } else if IsReconnectStep(a) {
      ReconnectStepMoves(s, s', a);
    } else {
      ConnectStepMoves(s, s', a);
    }
  }

  /** Disconnect takes note of every worker that is still open on the connection it detaches. */
  lemma DetachCollects(s: State, s': State)
    requires Detaches(s, s') && DiscsOk(s) && StopsOk(s) && LanesOk(s)
    requires forall i :: 0 <= i < |s.workers| ==> s.workers[i].n != Control
    requires forall d :: 0 <= d < |s.discs| ==> s.discs[d].conn != s.sh.conn
    ensures DiscsOk(s') && StopsOk(s')
  {
    forall i | 0 <= i < |s.workers| && s.sh.conn == Some(s.workers[i].conn) && s.workers[i].Open()
      ensures i in DonesOf(s.sh.streams, AllIds)
    {
      var n := s.workers[i].n;
      LaneOf(s, n);
      EveryId(n);
      assert WorkerOk(s, n, i, s.workers[i]);
      assert Of(s.sh.streams, n).done == Some(i);
    }
  }

  lemma DisconnectJoinsAll(s: State, s': State)
    requires Inv(s) && StopsOk(s) && DiscsOk(s) && s' == DoDisconnect(s).(connect := s'.connect)
    requires s'.connect == s.connect || (s.connect.MustDisconnect? && s'.connect.AfterDisconnect?)
    ensures StopsOk(s') && DiscsOk(s')
  {
    if s.sh.connected {
      CancelsKnown(s);
      EnterDetaches(s, s');
      DetachCollects(s, s');
    }
  }

  lemma StepJoins(s: State, s': State, a: Action)
    requires Inv(s) && StopsOk(s) && DiscsOk(s) && Enabled(s, a) && s' == Next(s, a) && RetiredOk(s')
    ensures StopsOk(s') && DiscsOk(s')
  {
    if a.DisconnectCall? || a.ConnectDisconnects? {
      DisconnectJoinsAll(s, s');
    } else {
      OtherStepMoves(s, s', a);
      StopsCarry(s, s');
      DiscsCarry(s, s');
    }
  }

  lemma {:induction false} RunJoins(s: State, acts: seq<Action>)
    requires Inv(s) && StopsOk(s) && DiscsOk(s) && IsRun(s, acts)
    ensures StopsOk(After(s, acts)) && DiscsOk(After(s, acts))
    decreases |acts|
  {
    if acts != [] {
      StepKeeps(s, acts[0]);
      StepJoins(s, Next(s, acts[0]), acts[0]);
      RunJoins(Next(s, acts[0]), acts[1..]);
    }
  }

  lemma ReachableJoins(s: State)
    requires Reachable(s)
    ensures StopsOk(s) && DiscsOk(s)
  {
    var acts :| IsRun(Initial, acts) && After(Initial, acts) == s;
    InitialInv();
    RunJoins(Initial, acts);
  }

  /** A Disconnect that has returned has outlived every worker of the connection it detached. */
  lemma DisconnectJoins(s: State, d: nat, i: nat)
    requires Reachable(s) && d < |s.discs| && s.discs[d].phase == Left
    requires i < |s.workers| && s.discs[d].conn == Some(s.workers[i].conn)
    ensures s.workers[i].phase == Finished
  {
    ReachableJoins(s);
  }

  /** A stopStream takes note of the worker that is still open, and has outlived it when it returns. */
  lemma StopNotesWorker(s: State, s': State, n: StreamId, i: nat)
    requires Reachable(s) && n != Control && s' == Next(s, StopCall(n))
    requires i < |s.workers| && s.workers[i].n == n && s.workers[i].Open() && s.sh.conn == Some(s.workers[i].conn)
    ensures |s'.stops| == |s.stops| + 1 && s'.stops[..|s.stops|] == s.stops
    ensures s'.stops[|s.stops|] == Stop(n, At(s'.sh, n).gen, Some(i), false)
  {
    SessionFacts(s);
    OneOpenWorker(s, n, i, i);
    NotesDone(s, s', n);
  }

  lemma NotesDone(s: State, s': State, n: StreamId)
    requires s.sh.connected && At(s.sh, n).done.Some? && s' == DoStop(s, n)
    ensures |s'.stops| == |s.stops| + 1 && s'.stops[..|s.stops|] == s.stops
    ensures s'.stops[|s.stops|] == Stop(n, At(s'.sh, n).gen, At(s.sh, n).done, false)
  {
  }

  lemma StopJoins(s: State, t: nat)
    requires Reachable(s) && t < |s.stops| && s.stops[t].over && s.stops[t].prev.Some?
    ensures s.stops[t].prev.value < |s.workers| && s.workers[s.stops[t].prev.value].phase == Finished
  {
    ReachableJoins(s);
  }
}
