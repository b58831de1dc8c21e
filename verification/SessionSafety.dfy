/** Whose sockets a step may close, and what a stale goroutine may touch. */
module SessionSafety {
  import opened Wrappers
  import opened Transport
  import opened SessionState
  import opened SessionSystem
  import opened SessionInvariant
  import opened SessionLanes
  import opened SessionInstalls
  import opened SessionControl
  import opened SessionReconnects
  import opened SessionTheorems

  // ---- a worker on its way out

  /** A worker's section closed no socket but its own, in its own slot, or the control socket that
      its own session's reconnect dialled. */
  ghost predicate OwnOnly(s: State, sh': Shared, i: nat)
    requires i < |s.workers|
  {
    var w := s.workers[i];
    && (forall v :: v in sh'.closed && v !in s.sh.closed ==>
          (v < |s.users| && (s.users[v] == UWorker(w.n, i) || (w.n == Screen && w.hubGen >= 1 && s.users[v] == UReconnect(w.hubGen - 1)))))
    && |sh'.conns| == |s.sh.conns|
    && (forall c, m :: 0 <= c < |s.sh.conns| && m != Control && SlotOn(sh', c, m) != SlotOn(s.sh, c, m) ==>
          m == w.n && c == w.conn && SlotOn(s.sh, c, m) == w.sock && SlotOn(sh', c, m) == None)
  }

  lemma ExitClosesOwn(s: State, i: nat)
    requires i < |s.workers| && LaneOk(s, s.workers[i].n) && s.workers[i].n != Control
    requires s.workers[i].phase == (if s.workers[i].n == Screen then SlotClosed else Working)
    ensures OwnOnly(s, WorkerExit(s.sh, s.workers[i].n, s.workers[i].conn, s.workers[i].gen, s.workers[i].hubGen), i)
  {
    assert WorkerOk(s, s.workers[i].n, i, s.workers[i]);
  }

  lemma SlotEndClosesOwn(s: State, i: nat)
    requires i < |s.workers| && LaneOk(s, Screen) && s.workers[i].n == Screen && s.workers[i].phase == ControlClosed
    ensures OwnOnly(s, CloseOn(s.sh, Some(s.workers[i].conn), Screen), i)
  {
    assert WorkerOk(s, Screen, i, s.workers[i]);
  }

  lemma DropClosesOwn(s: State, i: nat)
    requires i < |s.workers| && LaneOk(s, s.workers[i].n)
    ensures OwnOnly(s, s.sh.(closed := CancelIf(s.sh.closed, s.workers[i].sock)), i)
  {
    assert WorkerOk(s, s.workers[i].n, i, s.workers[i]);
  }

  lemma ControlEndClosesOwn(s: State, s': State, i: nat)
    requires i < |s.workers| && GivesUp(s, s', i)
    ensures OwnOnly(s, s'.sh, i)
  {
  }

  lemma GivesUpOf(s: State, s': State, i: nat)
    requires Inv(s) && i < |s.workers| && s.workers[i].n == Screen && s' == EndsControl(s, i)
    ensures GivesUp(s, s', i)
  {
    if s.sh.token.Some? {
      var k := s.sh.token.value.hubGen - 1;
      assert ReconnectOk(s, k, s.reconnects[k]);
    }
    GivesUpIf(s, s', i);
  }

  function WorkerStepOf(a: Action): nat
    requires IsWorkerStep(a)
  {
    a.i
  }

  lemma LaneStepClosesOwn(s: State, s': State, a: Action, i: nat)
    requires IsWorkerStep(a) && !a.WorkerEndsControl? && Enabled(s, a) && s' == Next(s, a) && i == WorkerStepOf(a)
    requires LaneOk(s, s.workers[i].n) && s.workers[i].n != Control
    requires a.WorkerEndsSlot? ==> s.workers[i].n == Screen
    ensures OwnOnly(s, s'.sh, i)
  {
    match a
    case WorkerDropsSocket(_) => DropClosesOwn(s, i);
    case WorkerEndsSlot(_) => SlotEndClosesOwn(s, i);
    case WorkerExits(_) => ExitClosesOwn(s, i);
    case _ => QuietClosesNone(s, s'.sh, i);
  }

  lemma QuietClosesNone(s: State, sh': Shared, i: nat)
    requires i < |s.workers| && sh'.conns == s.sh.conns && sh'.closed == s.sh.closed
    ensures OwnOnly(s, sh', i)
  {
  }

  lemma WorkerStepClosesOwn(s: State, s': State, a: Action, i: nat)
    requires Inv(s) && IsWorkerStep(a) && Enabled(s, a) && s' == Next(s, a) && i == WorkerStepOf(a)
    ensures OwnOnly(s, s'.sh, i)
  {
    LaneOf(s, s.workers[i].n);
    if a.WorkerEndsControl? || a.WorkerEndsSlot? {
      OnlyScreensLeaveSlowly(s, i);
    }
    if a.WorkerEndsControl? {
      GivesUpOf(s, s', i);
      ControlEndClosesOwn(s, s', i);
    } else {
      LaneStepClosesOwn(s, s', a, i);
    }
  }

  /** No exiting worker, the screen's unguarded close of its slot included, ever closes a socket
      installed for another worker. */
  lemma NoForeignClose(s: State, a: Action, v: nat, n: StreamId, j: nat)
    requires Reachable(s) && IsWorkerStep(a) && Enabled(s, a)
    requires v < |s.users| && s.users[v] == UWorker(n, j) && v !in s.sh.closed && v in Next(s, a).sh.closed
    ensures j == WorkerStepOf(a) && n == s.workers[j].n
  {
    ReachableInv(s);
    WorkerStepClosesOwn(s, Next(s, a), a, WorkerStepOf(a));
  }

  // ---- the dial decision

  function DecisionOf(s: State, a: Action): StartOutcome
    requires Enabled(s, a) && (a.StartCall? || a.StartResumes?)
  {
    match a
    case StartCall(n) => StartEnter(s.sh, n).1
    case StartResumes(t) => StartResume(s.sh, s.starts[t].n, s.starts[t].phase.session, s.starts[t].phase.gen).1
  }

  function StreamOfStart(s: State, a: Action): StreamId
    requires Enabled(s, a) && (a.StartCall? || a.StartResumes?)
  {
    match a
    case StartCall(n) => n
    case StartResumes(t) => s.starts[t].n
  }

  lemma LaneDecides(s: State, a: Action, n: StreamId)
    requires Enabled(s, a) && (a.StartCall? || a.StartResumes?) && n == StreamOfStart(s, a) && LaneOk(s, n)
    ensures DecisionOf(s, a).StartDial? ==>
              DecisionOf(s, a).needsDial && s.sh.conn == Some(DecisionOf(s, a).conn) && CurSlot(s.sh, n) == None
  {
    if a.StartResumes? {
      assert StartOk(s, n, a.t, s.starts[a.t].phase);
    }
  }

  /** Whenever startStream comes to its dial decision the slot is already empty, so that it always
      dials: no path leads it to reuse the socket of an earlier worker. */
  lemma AlwaysDials(s: State, a: Action)
    requires Reachable(s) && Enabled(s, a) && (a.StartCall? || a.StartResumes?)
    ensures DecisionOf(s, a).StartDial? ==>
              DecisionOf(s, a).needsDial && s.sh.conn == Some(DecisionOf(s, a).conn)
              && CurSlot(s.sh, StreamOfStart(s, a)) == None
  {
    ReachableInv(s);
    LaneOf(s, StreamOfStart(s, a));
    LaneDecides(s, a, StreamOfStart(s, a));
  }

  /** The install never meets a closed connection, and a launched worker gets exactly the socket
      that its own start dialled: still open, and in no earlier worker's hands. */
  lemma LaunchGetsFreshSocket(s: State, t: nat)
    requires Reachable(s) && Enabled(s, Installs(t))
    ensures !InstallOut(s, t).InstallFailed?
    ensures InstallOut(s, t).Launched? ==>
              var sock := InstallOut(s, t).sock;
              && sock.Some? && sock == s.starts[t].phase.sock && sock.value !in Next(s, Installs(t)).sh.closed
              && sock.value < |s.users| && s.users[sock.value] == UStart(s.starts[t].n, t)
              && forall i :: 0 <= i < |s.workers| ==> s.workers[i].sock != sock
  {
    ReachableInv(s);
    var n := s.starts[t].n;
    LaneOf(s, n);
    if !InstallOut(s, t).Aborted? {
      var s' := DoInstall(s, t);
      LaunchHires(s, s', n, t);
      LaunchFresh(s, s', n, t);
    }
  }

  lemma LaunchFresh(s: State, s': State, n: StreamId, t: nat)
    requires LanesOk(s) && SessionOk(s) && Enabled(s, Installs(t)) && s' == DoInstall(s, t) && n == s.starts[t].n
    requires InstallOut(s, t).Launched? && |s'.workers| == |s.workers| + 1 && Hired(s, s', n, t, s'.workers[|s.workers|])
    ensures var sock := InstallOut(s, t).sock;
            && sock.Some? && sock == s.starts[t].phase.sock && sock.value !in s'.sh.closed
            && sock.value < |s.users| && s.users[sock.value] == UStart(n, t)
            && forall i :: 0 <= i < |s.workers| ==> s.workers[i].sock != sock
  {
    LaneOf(s, n);
    assert StartOk(s, n, t, s.starts[t].phase);
    LaunchSocketIsOwn(s, n, t);
    WorkersHoldOthers(s, n, t, s.starts[t].phase.sock.value);
  }

  lemma LaunchSocketIsOwn(s: State, n: StreamId, t: nat)
    requires t < |s.starts| && s.starts[t].phase.Dialed? && n == s.starts[t].n && InstallOut(s, t).Launched?
    ensures s.starts[t].phase.sock.Some? ==> InstallOut(s, t).sock == s.starts[t].phase.sock
  {
  }

  lemma WorkersHoldOthers(s: State, n: StreamId, t: nat, v: nat)
    requires LanesOk(s) && (forall i :: 0 <= i < |s.workers| ==> s.workers[i].n != Control)
    requires v < |s.users| && s.users[v] == UStart(n, t)
    ensures forall i :: 0 <= i < |s.workers| ==> s.workers[i].sock != Some(v)
  {
    forall i | 0 <= i < |s.workers|
      ensures s.workers[i].sock != Some(v)
    {
      LaneOf(s, s.workers[i].n);
      assert WorkerOk(s, s.workers[i].n, i, s.workers[i]);
    }
  }

  // ---- stale goroutines

  /** A goroutine of stream `n` acts on a generation that is no longer the stream's. */
  predicate StaleStep(s: State, a: Action, n: StreamId)
    requires Enabled(s, a)
  {
    match a
    case StartResumes(t) => s.starts[t].n == n && s.starts[t].phase.gen != At(s.sh, n).gen
    case DialFails(t) => s.starts[t].n == n && s.starts[t].phase.gen != At(s.sh, n).gen
    case Installs(t) => s.starts[t].n == n && s.starts[t].phase.gen != At(s.sh, n).gen
    case StopReturns(t) => s.stops[t].n == n && s.stops[t].gen != At(s.sh, n).gen
    case WorkerDropsSocket(i) => s.workers[i].n == n && s.workers[i].gen != At(s.sh, n).gen
    case WorkerEndsSlot(i) => s.workers[i].n == n && s.workers[i].gen != At(s.sh, n).gen
    case WorkerExits(i) => s.workers[i].n == n && s.workers[i].gen != At(s.sh, n).gen
    case WorkerFinishes(i) => s.workers[i].n == n && s.workers[i].gen != At(s.sh, n).gen
    case WorkerReports(i, _) => s.workers[i].n == n && s.workers[i].gen != At(s.sh, n).gen
    case _ => false
  }

  ghost predicate Unnoticed(sh: Shared, sh': Shared, n: StreamId) {
    && At(sh', n) == At(sh, n) && CurSlot(sh', n) == CurSlot(sh, n)
    && (forall v :: CurSlot(sh, n) == Some(v) && v in sh'.closed ==> v in sh.closed)
  }

  lemma StaleSlot(s: State, s': State, i: nat)
    requires Enabled(s, WorkerEndsSlot(i)) && s.workers[i].n == Screen && s.workers[i].gen != At(s.sh, Screen).gen && LaneOk(s, Screen)
    requires s' == Next(s, WorkerEndsSlot(i)) && (s.sh.conn.Some? ==> s.sh.conn.value < |s.sh.conns|)
    ensures Unnoticed(s.sh, s'.sh, Screen)
  {
    assert WorkerOk(s, Screen, i, s.workers[i]);
  }

  lemma StaleWorker(s: State, s': State, a: Action, n: StreamId, i: nat)
    requires IsWorkerStep(a) && i == WorkerStepOf(a) && Enabled(s, a) && StaleStep(s, a, n) && s' == Next(s, a) && LaneOk(s, n)
    requires a.WorkerEndsSlot? ==> n == Screen
    requires s.sh.conn.Some? ==> s.sh.conn.value < |s.sh.conns|
    ensures Unnoticed(s.sh, s'.sh, n)
  {
    match a
    case WorkerEndsSlot(_) => StaleSlot(s, s', i);
    case WorkerDropsSocket(_) => StaleDrop(s, n, i);
    case WorkerExits(_) => StaleExit(s.sh, s.workers[i]);
    case WorkerReports(_, m) => StaleReport(s.sh, s.workers[i], m);
    case WorkerFinishes(_) => SameStream(s.sh, s'.sh, n);
  }

  lemma SameStream(sh: Shared, sh': Shared, n: StreamId)
    requires sh'.streams == sh.streams && sh'.conn == sh.conn && sh'.conns == sh.conns && sh'.closed == sh.closed
    ensures Unnoticed(sh, sh', n)
  {
  }

  lemma StaleDrop(s: State, n: StreamId, i: nat)
    requires LaneOk(s, n) && i < |s.workers| && s.workers[i].n == n && s.workers[i].gen != At(s.sh, n).gen
    requires s.sh.conn.Some? ==> s.sh.conn.value < |s.sh.conns|
    ensures Unnoticed(s.sh, s.sh.(closed := CancelIf(s.sh.closed, s.workers[i].sock)), n)
  {
    assert WorkerOk(s, n, i, s.workers[i]);
  }

  lemma StaleExit(sh: Shared, w: Worker)
    requires w.gen != At(sh, w.n).gen
    ensures Unnoticed(sh, WorkerExit(sh, w.n, w.conn, w.gen, w.hubGen), w.n)
  {
  }

  lemma StaleReport(sh: Shared, w: Worker, m: Metrics)
    requires w.gen != At(sh, w.n).gen
    ensures Unnoticed(sh, UpdateMetrics(sh, w.n, w.gen, w.conn, m), w.n)
  {
  }

  lemma StaleCaller(s: State, s': State, a: Action, n: StreamId)
    requires !IsWorkerStep(a) && Enabled(s, a) && StaleStep(s, a, n) && s' == Next(s, a) && LaneOk(s, n)
    requires s.sh.conn.Some? ==> s.sh.conn.value < |s.sh.conns|
    ensures Unnoticed(s.sh, s'.sh, n)
  {
    match a
    case StartResumes(t) => SameStream(s.sh, s'.sh, n);
    case DialFails(t) => StaleDialFails(s.sh, s'.sh, n, s.starts[t].phase);
    case Installs(t) => StaleInstall(s, s', n, t);
    case StopReturns(t) => SameStream(s.sh, s'.sh, n);
  }

  lemma StaleDialFails(sh: Shared, sh': Shared, n: StreamId, p: StartPhase)
    requires p.Dialing? && p.gen != At(sh, n).gen && sh' == StartDialFailed(sh, n, p.conn, p.gen, p.ctx)
    ensures Unnoticed(sh, sh', n)
  {
  }

  lemma StaleInstall(s: State, s': State, n: StreamId, t: nat)
    requires LaneOk(s, n) && t < |s.starts| && s.starts[t].n == n && s.starts[t].phase.Dialed? && s' == DoInstall(s, t)
    requires s.starts[t].phase.gen != At(s.sh, n).gen
    requires s.sh.conn.Some? ==> s.sh.conn.value < |s.sh.conns|
    ensures Unnoticed(s.sh, s'.sh, n)
  {
    assert StartOk(s, n, t, s.starts[t].phase);
  }

  /** A stale start, stop, worker or metrics report leaves the newer generation alone: the stream's
      whole record, what is in its slot, and that socket open. */
  lemma StaleStepsAreSilent(s: State, a: Action, n: StreamId)
    requires Reachable(s) && Enabled(s, a) && StaleStep(s, a, n)
    ensures Unnoticed(s.sh, Next(s, a).sh, n)
  {
    ReachableInv(s);
    LaneOf(s, n);
    if a.WorkerEndsSlot? { OnlyScreensLeaveSlowly(s, a.i); }
    if IsWorkerStep(a) {
      StaleWorker(s, Next(s, a), a, n, WorkerStepOf(a));
    } else {
      StaleCaller(s, Next(s, a), a, n);
    }
  }

  // ---- the control slot

  /** A reconnect closes only sockets it dialled itself, and never takes another's out of a slot. */
  lemma ReconnectClosesOwn(s: State, a: Action, c: nat)
    requires Reachable(s) && IsReconnectStep(a) && Enabled(s, a) && c < |s.sh.conns|
    ensures forall v :: v in Next(s, a).sh.closed && v !in s.sh.closed ==> v < |s.users| && s.users[v] == UReconnect(a.k)
    ensures SlotOn(s.sh, c, Control).Some? && SlotOn(Next(s, a).sh, c, Control) != SlotOn(s.sh, c, Control) ==>
              SlotOn(s.sh, c, Control).value < |s.users| && s.users[SlotOn(s.sh, c, Control).value] == UReconnect(a.k)
  {
    ReachableInv(s);
    TurnOf(s, a.k);
    StepMoves(s, Next(s, a), a, a.k);
    assert SlotMove(s, Next(s, a), a.k, c);
  }

  /** A control socket is either closed, or in the hands of a reconnect that has yet to install or
      to hand it over, or in the control slot of the connection it was dialled for. */
  lemma ControlSocketsAreKept(s: State, k: nat, v: nat)
    requires ReconnectsOk(s) && k < |s.reconnects| && v < |s.users| && s.users[v] == UReconnect(k) && v !in s.sh.closed
    requires s.reconnects[k].phase.ROver?
    ensures SlotOn(s.sh, s.reconnects[k].tok.conn, Control) == Some(v)
  {
    assert ReconnectOk(s, k, s.reconnects[k]);
  }

  /** What the control slot of the current connection holds belongs to a worker still in control. */
  lemma SlotBelongsToTurn(s: State, k: nat, v: nat)
    requires TokenHeld(s) && s.sh.token.Some? && ReconnectOk(s, s.sh.token.value.hubGen - 1, s.reconnects[s.sh.token.value.hubGen - 1])
    requires k < |s.reconnects| && v < |s.users| && s.users[v] == UReconnect(k) && CurSlot(s.sh, Control) == Some(v)
    ensures s.reconnects[k].worker < |s.workers| && Rank(s.workers[s.reconnects[k].worker].phase) < Rank(ControlClosed)
  {
    TurnSlot(s, s.sh.token.value);
  }

  /** While the slot of its connection holds a finished reconnect's socket, that connection is not
      the current one, unless the screen's worker still has control. */
  lemma HeldSlotIsDetached(s: State, k: nat, v: nat)
    requires k < |s.reconnects| && v < |s.users| && s.users[v] == UReconnect(k)
    requires SlotOn(s.sh, s.reconnects[k].tok.conn, Control) == Some(v)
    requires s.reconnects[k].worker < |s.workers| && Rank(s.workers[s.reconnects[k].worker].phase) >= Rank(ControlClosed)
    requires TokenHeld(s) && (CurSlot(s.sh, Control).Some? ==> s.sh.token.Some?)
    requires s.sh.token.Some? ==> ReconnectOk(s, s.sh.token.value.hubGen - 1, s.reconnects[s.sh.token.value.hubGen - 1])
    ensures s.sh.conn != Some(s.reconnects[k].tok.conn)
  {
    if s.sh.conn == Some(s.reconnects[k].tok.conn) {
      SlotBelongsToTurn(s, k, v);
      assert false;
    }
  }

  lemma DetachedIsOwedAClose(s: State, c: nat)
    requires SessionOk(s) && RetiredOk(s) && c < Published(s) && s.sh.conn != Some(c) && SlotOn(s.sh, c, Control).Some?
    ensures Closer(s, c)
  {
    assert s.sh.conns[c].closed || Closer(s, c);
  }

  /** Once a screen's worker has given up control and its reconnect has finished, a control socket
      that the reconnect dialled is closed exactly when the slot of its connection does not hold it;
      and the slot holds it only for as long as a Disconnect owes the close of that connection. */
  lemma FinishedControlIsClosed(s: State, k: nat, v: nat)
    requires Reachable(s) && k < |s.reconnects| && v < |s.users| && s.users[v] == UReconnect(k)
    requires s.reconnects[k].phase.ROver?
    requires s.reconnects[k].worker < |s.workers| && Rank(s.workers[s.reconnects[k].worker].phase) >= Rank(ControlClosed)
    ensures var c := s.reconnects[k].tok.conn;
            && (v !in s.sh.closed <==> SlotOn(s.sh, c, Control) == Some(v))
            && (SlotOn(s.sh, c, Control) == Some(v) ==> s.sh.conn != Some(c) && Closer(s, c))
  {
    ReachableInv(s);
    var c := s.reconnects[k].tok.conn;
    assert ReconnectOk(s, k, s.reconnects[k]);
    if v !in s.sh.closed {
      ControlSocketsAreKept(s, k, v);
    }
    if SlotOn(s.sh, c, Control) == Some(v) {
      assert ControlOccupantOk(s, c, v);
      if s.sh.token.Some? {
        var j := s.sh.token.value.hubGen - 1;
        assert ReconnectOk(s, j, s.reconnects[j]);
      }
      HeldSlotIsDetached(s, k, v);
      DetachedIsOwedAClose(s, c);
    }
  }

  /** closeScreenControl with another token, or none: nothing happens. */
  lemma NotInTurn(sh: Shared, t: Token)
    requires sh.token != Some(t)
    ensures CloseScreenControl(sh, t) == sh
  {
  }

  /** closeScreenControl in its turn closes what its control slot holds. */
  lemma InTurn(sh: Shared, t: Token, v: nat)
    requires sh.token == Some(t) && SlotOn(sh, t.conn, Control) == Some(v)
    ensures v in CloseScreenControl(sh, t).closed
  {
  }

  lemma TokenOfWorker(s: State, k: nat)
    requires TokenOk(s) && k < |s.reconnects| && ReconnectOk(s, k, s.reconnects[k])
    requires Rank(s.workers[s.reconnects[k].worker].phase) < Rank(ControlClosed)
    ensures s.sh.token == Some(s.reconnects[k].tok) <==> s.sh.conn == Some(s.reconnects[k].tok.conn)
  {
    assert ScreenWorkerOk(s, s.reconnects[k].worker, s.workers[s.reconnects[k].worker]);
  }

  /** When the screen's worker gives up control after its reconnect has finished, a control socket
      that the reconnect dialled survives exactly if it is open and Disconnect, or a later Connect,
      has already taken the connection away: then the guard of closeScreenControl fails. */
  lemma ControlOutlivesExactly(s: State, s': State, k: nat, v: nat)
    requires Reachable(s) && k < |s.reconnects| && v < |s.users| && s.users[v] == UReconnect(k) && s.reconnects[k].phase.ROver?
    requires Enabled(s, WorkerEndsControl(s.reconnects[k].worker)) && s' == Next(s, WorkerEndsControl(s.reconnects[k].worker))
    ensures v !in s'.sh.closed <==> v !in s.sh.closed && s.sh.conn != Some(s.reconnects[k].tok.conn)
  {
    ReachableControl(s);
    EndsControlShared(s, s', s.reconnects[k].worker);
    GivingUpKeepsOpen(s, k, v);
  }

  lemma ReachableControl(s: State)
    requires Reachable(s)
    ensures ReconnectsOk(s) && TokenOk(s)
  {
    ReachableInv(s);
  }

  lemma EndsControlShared(s: State, s': State, i: nat)
    requires Enabled(s, WorkerEndsControl(i)) && s' == Next(s, WorkerEndsControl(i))
    ensures s'.sh == CloseScreenControl(s.sh, s.workers[i].Tok()) && Rank(s.workers[i].phase) < Rank(ControlClosed)
  {
  }

  lemma GivingUpKeepsOpen(s: State, k: nat, v: nat)
    requires ReconnectsOk(s) && TokenOk(s) && k < |s.reconnects| && v < |s.users| && s.users[v] == UReconnect(k)
    requires s.reconnects[k].phase.ROver? && s.reconnects[k].worker < |s.workers|
    requires Rank(s.workers[s.reconnects[k].worker].phase) < Rank(ControlClosed)
    ensures s.workers[s.reconnects[k].worker].Tok() == s.reconnects[k].tok
    ensures v !in CloseScreenControl(s.sh, s.reconnects[k].tok).closed
            <==> v !in s.sh.closed && s.sh.conn != Some(s.reconnects[k].tok.conn)
  {
    assert ReconnectOk(s, k, s.reconnects[k]);
    TokenOfWorker(s, k);
    GuardDecides(s, k, v);
  }

  lemma GuardDecides(s: State, k: nat, v: nat)
    requires ReconnectsOk(s) && k < |s.reconnects| && v < |s.users| && s.users[v] == UReconnect(k) && s.reconnects[k].phase.ROver?
    ensures v !in CloseScreenControl(s.sh, s.reconnects[k].tok).closed <==> v !in s.sh.closed && s.sh.token != Some(s.reconnects[k].tok)
  {
    var tok := s.reconnects[k].tok;
    if v in s.sh.closed {
      ClosedStaysClosed(s.sh, tok, v);
    } else if s.sh.token == Some(tok) {
      ControlSocketsAreKept(s, k, v);
      InTurn(s.sh, tok, v);
    } else {
      NotInTurn(s.sh, tok);
    }
  }

  lemma ClosedStaysClosed(sh: Shared, t: Token, v: nat)
    requires v in sh.closed
    ensures v in CloseScreenControl(sh, t).closed
  {
  }

  /** The route registered with the hub is an open socket of the session in charge, in the control
      slot: display power can be restored through it. */
  lemma RouteIsLive(s: State)
    requires Reachable(s) && s.sh.hub.route.Some?
    ensures s.sh.hub.active && s.sh.hub.route.value !in s.sh.closed && CurSlot(s.sh, Control) == s.sh.hub.route
  {
    ReachableInv(s);
    var k := s.sh.hub.gen - 1;
    assert ReconnectOk(s, k, s.reconnects[k]);
    var i := s.reconnects[k].worker;
    assert ScreenWorkerOk(s, i, s.workers[i]);
    RouteHeld(s, k, i);
  }

  lemma RouteHeld(s: State, k: nat, i: nat)
    requires HubOk(s) && s.sh.hub.route.Some? && k == s.sh.hub.gen - 1
    requires k < |s.reconnects| && ReconnectOk(s, k, s.reconnects[k]) && i == s.reconnects[k].worker
    requires i < |s.workers| && ScreenWorkerOk(s, i, s.workers[i])
    ensures s.sh.hub.active && s.sh.hub.route.value !in s.sh.closed && CurSlot(s.sh, Control) == s.sh.hub.route
  {
  }
}
