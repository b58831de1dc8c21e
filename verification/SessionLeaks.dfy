/** No socket is ever dropped open: whatever was dialled is closed, in its slot, or in the hands of
    the goroutine that is about to install it. */
module SessionLeaks {
  import opened Wrappers
  import opened Transport
  import opened SessionState
  import opened SessionSystem
  import opened SessionInvariant
  import opened SessionLanes
  import opened SessionInstalls
  import opened SessionConnects
  import opened SessionReconnects
  import opened SessionTheorems

  /** Where an open socket is, by who answers for it. */
  ghost predicate Home(s: State, v: nat)
    requires v < |s.users|
  {
    match s.users[v]
    case UConnect => s.connect.Connected? && SlotOn(s.sh, s.connect.conn, Speaker) == Some(v)
    case UStart(n, t) => t < |s.starts| && s.starts[t].phase.Dialed? && s.starts[t].phase.sock == Some(v)
    case UWorker(n, i) => i < |s.workers| && SlotOn(s.sh, s.workers[i].conn, n) == Some(v)
    case UReconnect(k) => k < |s.reconnects|
                          && (s.reconnects[k].phase == RDialed(v) || SlotOn(s.sh, s.reconnects[k].tok.conn, Control) == Some(v))
  }

  ghost predicate NoLeak(s: State) {
    forall v :: 0 <= v < |s.users| ==> v in s.sh.closed || Home(s, v)
  }

  /** A slot only loses a socket by closing it. */
  ghost predicate Careful(sh: Shared, sh': Shared) {
    && sh.closed <= sh'.closed
    && (forall c, m :: 0 <= c < |sh.conns| && SlotOn(sh, c, m).Some? ==>
          SlotOn(sh', c, m) == SlotOn(sh, c, m) || SlotOn(sh, c, m).value in sh'.closed)
  }

  /** Whatever else it does, the section left slots and sockets alone. */
  lemma SameSlotsCareful(sh: Shared, sh': Shared)
    requires sh'.conns == sh.conns && sh'.closed == sh.closed
    ensures Careful(sh, sh')
  {
  }

  lemma CloseOnCareful(sh: Shared, c: Option<nat>, n: StreamId)
    ensures Careful(sh, CloseOn(sh, c, n))
  {
  }

  lemma CloseConnectionCareful(sh: Shared, c: Option<nat>)
    ensures Careful(sh, CloseConnection(sh, c))
  {
  }

  lemma DialCareful(sh: Shared, n: StreamId)
    ensures Careful(sh, DialDecision(sh, n).0)
  {
    if sh.conn.Some? {
      var sh1 := Put(sh, n, At(sh, n).(gen := At(sh, n).gen + 1, cancel := Some(sh.contexts)))
                 .(cancelled := CancelIf(sh.cancelled, At(sh, n).cancel), contexts := sh.contexts + 1);
      CloseOnCareful(sh1, sh1.conn, n);
    }
  }

  lemma StartCareful(sh: Shared, n: StreamId)
    ensures Careful(sh, StartEnter(sh, n).0)
  {
    DialCareful(sh, n);
    var sh1 := Put(sh, n, At(sh, n).(cancel := None, gen := At(sh, n).gen + 1)).(cancelled := CancelIf(sh.cancelled, At(sh, n).cancel));
    CloseOnCareful(sh1, sh1.conn, n);
  }

  lemma ResumeCareful(sh: Shared, n: StreamId, conn: Option<nat>, gen: nat)
    ensures Careful(sh, StartResume(sh, n, conn, gen).0)
  {
    DialCareful(Put(sh, n, At(sh, n).(done := None, running := false)), n);
  }

  lemma StopCareful(sh: Shared, n: StreamId)
    ensures Careful(sh, StopEnter(sh, n).0)
  {
    var sh1 := StopClaim(sh, n);
    CloseOnCareful(EndHub(sh1, n), sh1.conn, n);
  }

  lemma SocketInCareful(sh: Shared, c: nat, n: StreamId, sock: nat)
    requires c < |sh.conns|
    ensures Careful(sh, Rewire(sh, c, InstallStream(WiresOf(sh, c), n, sock)))
  {
  }

  lemma InstallCareful(sh: Shared, sh': Shared, n: StreamId, conn: nat, gen: nat, ctx: nat, sock: Option<nat>)
    requires sh' == StartInstall(sh, n, conn, gen, ctx, sock).0
    ensures Careful(sh, sh')
    ensures StartInstall(sh, n, conn, gen, ctx, sock).1.Aborted? && sock.Some? ==> sock.value in sh'.closed
  {
    if !StartInstall(sh, n, conn, gen, ctx, sock).1.Aborted? {
      if sock.Some? {
        var sh1 := Rewire(sh, conn, InstallStream(WiresOf(sh, conn), n, sock.value));
        SocketInCareful(sh, conn, n, sock.value);
        SameSlotsCareful(sh1, sh');
      } else {
        SameSlotsCareful(sh, sh');
      }
    }
  }

  lemma ControlCareful(sh: Shared, t: Token, sock: nat)
    ensures Careful(sh, CloseScreenControl(sh, t)) && Careful(sh, CloseControl(sh, t.conn, sock))
  {
  }

  lemma ReconnectCareful(sh: Shared, t: Token, ctx: nat, sock: nat)
    ensures Careful(sh, ReconnectCheck(sh, t).0) && Careful(sh, ReconnectInstall(sh, t, ctx, sock).0)
  {
    CloseOnCareful(sh, Some(t.conn), Control);
    if t.conn < |sh.conns| { SocketInCareful(sh, t.conn, Control, sock); }
  }

  lemma WorkerStepCareful(s: State, a: Action)
    requires IsWorkerStep(a) && Enabled(s, a)
    ensures Careful(s.sh, Next(s, a).sh)
  {
    match a
    case WorkerEndsControl(i) => ControlCareful(s.sh, s.workers[i].Tok(), 0);
    case WorkerEndsSlot(i) => CloseOnCareful(s.sh, Some(s.workers[i].conn), Screen);
    case WorkerExits(i) => ExitCareful(s.sh, s.workers[i]);
    case _ =>
  }

  lemma ExitCareful(sh: Shared, w: Worker)
    ensures Careful(sh, WorkerExit(sh, w.n, w.conn, w.gen, w.hubGen))
  {
    CloseOnCareful(sh, Some(w.conn), w.n);
  }

  lemma ReconnectStepCareful(s: State, a: Action)
    requires IsReconnectStep(a) && Enabled(s, a)
    ensures Careful(s.sh, Next(s, a).sh)
  {
    var r := s.reconnects[a.k];
    match a
    case ReconnectChecks(_) => ReconnectCareful(s.sh, r.tok, r.ctx, 0);
    case ReconnectInstalls(_) => ReconnectCareful(s.sh, r.tok, r.ctx, r.phase.sock);
    case ReconnectCloses(_) => ControlCareful(s.sh, r.tok, r.phase.sock);
    case _ =>
  }

  lemma DisconnectCareful(sh: Shared)
    ensures Careful(sh, DisconnectEnter(sh).0)
  {
    SameSlotsCareful(sh, DisconnectEnter(sh).0);
  }

  lemma PublishCareful(sh: Shared, gen: nat, ctx: nat, c: nat)
    ensures Careful(sh, ConnectPublish(sh, gen, ctx, c).0)
  {
    if sh.connectGen != gen || ctx in sh.cancelled {
      CloseConnectionCareful(sh, Some(c));
    } else {
      SameSlotsCareful(sh, ConnectPublish(sh, gen, ctx, c).0);
    }
  }

  lemma AppendCareful(sh: Shared, c: Conn)
    ensures Careful(sh, sh.(conns := sh.conns + [c]))
  {
  }

  lemma ConnectStepCareful(s: State, s': State, a: Action)
    requires IsConnectStep(a) && Enabled(s, a) && s' == Next(s, a)
    ensures Careful(s.sh, s'.sh)
  {
    match a
    case DisconnectCall => DisconnectCareful(s.sh);
    case ConnectDisconnects => DisconnectCareful(s.sh);
    case DisconnectCloses(d) => CloseConnectionCareful(s.sh, s.discs[d].conn);
    case ConnectDialOk => AppendCareful(s.sh, Conn(false, map[Speaker := |s.users|]));
    case ConnectPublishes => PublishCareful(s.sh, s.connect.gen, s.connect.ctx, s.connect.conn);
    case _ => SameSlotsCareful(s.sh, s'.sh);
  }

  lemma StreamStepCareful(s: State, a: Action)
    requires IsStreamStep(a) && Enabled(s, a)
    ensures Careful(s.sh, Next(s, a).sh)
  {
    match a
    case StartCall(n) => StartCareful(s.sh, n);
    case StartResumes(t) => ResumeCareful(s.sh, s.starts[t].n, s.starts[t].phase.session, s.starts[t].phase.gen);
    case Installs(t) =>
      var p := s.starts[t].phase;
      InstallCareful(s.sh, Next(s, a).sh, s.starts[t].n, p.conn, p.gen, p.ctx, p.sock);
    case StopCall(n) => StopCareful(s.sh, n);
    case _ =>
  }

  lemma StepCareful(s: State, a: Action)
    requires Enabled(s, a)
    ensures Careful(s.sh, Next(s, a).sh)
  {
    if IsStreamStep(a) {
      StreamStepCareful(s, a);
    } else if IsWorkerStep(a) {
      WorkerStepCareful(s, a);
    } else if IsConnectStep(a) {
      ConnectStepCareful(s, Next(s, a), a);
    } else {
      ReconnectStepCareful(s, a);
    }
  }

  // ---- the sockets of reconnects come with the invariant

  lemma ReconnectHome(s: State, v: nat)
    requires ReconnectsOk(s) && v < |s.users| && s.users[v].UReconnect? && v !in s.sh.closed
    ensures Home(s, v)
  {
    var k := s.users[v].k;
    assert ReconnectOk(s, k, s.reconnects[k]);
  }

  // ---- the others, step by step

  /** Nobody but the holder of an open socket moved. */
  ghost predicate HoldersStay(s: State, s': State) {
    && |s.users| <= |s'.users| && s'.users[..|s.users|] == s.users
    && |s.starts| <= |s'.starts| && |s.workers| <= |s'.workers|
    && (forall t :: 0 <= t < |s.starts| && s.starts[t].phase.Dialed? ==> s'.starts[t] == s.starts[t])
    && (forall i :: 0 <= i < |s.workers| ==> s'.workers[i].conn == s.workers[i].conn)
    && (s.connect.Connected? ==> s'.connect == s.connect)
  }

  lemma HomeStays(s: State, s': State, v: nat)
    requires HoldersStay(s, s') && Careful(s.sh, s'.sh) && v < |s.users| && !s.users[v].UReconnect?
    requires v in s.sh.closed || Home(s, v)
    ensures v in s'.sh.closed || Home(s', v)
  {
    if v !in s.sh.closed && s.users[v].UWorker? {
      assert SlotOn(s.sh, s.workers[s.users[v].i].conn, s.users[v].n).Some?;
    }
  }

  lemma StartHolders(s: State, s': State, n: StreamId)
    requires s' == DoStart(s, n)
    ensures HoldersStay(s, s')
  {
  }

  lemma ResumeHolders(s: State, s': State, t: nat)
    requires t < |s.starts| && s.starts[t].phase.Waiting? && s' == DoResume(s, t)
    ensures HoldersStay(s, s')
  {
  }

  lemma DialHolders(s: State, s': State, t: nat)
    requires t < |s.starts| && s.starts[t].phase.Dialing? && (s' == DoDialOk(s, t) || s' == DoDialFails(s, t))
    ensures HoldersStay(s, s')
  {
  }

  lemma StopHolders(s: State, s': State, n: StreamId)
    requires s' == DoStop(s, n)
    ensures HoldersStay(s, s')
  {
  }

  lemma StreamHolders(s: State, s': State, a: Action)
    requires IsStreamStep(a) && Enabled(s, a) && s' == Next(s, a) && !a.Installs?
    ensures HoldersStay(s, s')
  {
    match a
    case StartCall(n) => StartHolders(s, s', n);
    case StartResumes(t) => ResumeHolders(s, s', t);
    case DialOk(t) => DialHolders(s, s', t);
    case DialFails(t) => DialHolders(s, s', t);
    case StopCall(n) => StopHolders(s, s', n);
    case StopReturns(_) => QuietHolders(s, s');
  }

  /** Nobody who may hold a socket moved at all. */
  lemma QuietHolders(s: State, s': State)
    requires s'.users == s.users && s'.starts == s.starts && s'.workers == s.workers
    requires s.connect.Connected? ==> s'.connect == s.connect
    ensures HoldersStay(s, s')
  {
  }

  lemma WorkerHolders(s: State, s': State, a: Action)
    requires IsWorkerStep(a) && Enabled(s, a) && s' == Next(s, a)
    ensures HoldersStay(s, s')
  {
    assert s'.users == s.users && s'.starts == s.starts && s'.connect == s.connect;
  }

  lemma DisconnectHolders(s: State, s': State)
    requires s' == DoDisconnect(s).(connect := s'.connect) && (s.connect.Connected? ==> s'.connect == s.connect)
    ensures HoldersStay(s, s')
  {
    QuietHolders(s, s');
  }

  lemma ConnectHolders(s: State, s': State, a: Action)
    requires IsConnectStep(a) && Enabled(s, a) && s' == Next(s, a) && !a.ConnectPublishes?
    ensures HoldersStay(s, s')
  {
    match a
    case DisconnectCall => DisconnectHolders(s, s');
    case ConnectDisconnects => DisconnectHolders(s, s');
    case ConnectDialOk =>
    case _ => QuietHolders(s, s');
  }

  lemma ReconnectHolders(s: State, s': State, a: Action)
    requires IsReconnectStep(a) && Enabled(s, a) && s' == Next(s, a)
    ensures HoldersStay(s, s')
  {
    if !a.ReconnectDialOk? { QuietHolders(s, s'); }
  }

  lemma StepHolders(s: State, s': State, a: Action)
    requires Enabled(s, a) && s' == Next(s, a) && !a.Installs? && !a.ConnectPublishes?
    ensures HoldersStay(s, s')
  {
    if IsStreamStep(a) {
      StreamHolders(s, s', a);
    } else if IsWorkerStep(a) {
      WorkerHolders(s, s', a);
    } else if IsConnectStep(a) {
      ConnectHolders(s, s', a);
    } else {
      ReconnectHolders(s, s', a);
    }
  }

  lemma StepDials(s: State, s': State, a: Action)
    requires Enabled(s, a) && s' == Next(s, a) && !a.Installs? && !a.ConnectPublishes?
    ensures forall v :: |s.users| <= v < |s'.users| ==> Home(s', v)
  {
  }

  lemma QuietStepNoLeak(s: State, s': State, a: Action)
    requires NoLeak(s) && Inv(s') && Enabled(s, a) && s' == Next(s, a) && !a.Installs? && !a.ConnectPublishes?
    ensures NoLeak(s')
  {
    StepHolders(s, s', a);
    StepDials(s, s', a);
    StepCareful(s, a);
    forall v | 0 <= v < |s'.users|
      ensures v in s'.sh.closed || Home(s', v)
    {
      if v < |s.users| {
        if s'.users[v].UReconnect? {
          if v !in s'.sh.closed { ReconnectHome(s', v); }
        } else {
          assert s'.users[v] == s.users[v];
          HomeStays(s, s', v);
        }
      }
    }
  }

  lemma AbortNoLeak(s: State, s': State, t: nat)
    requires NoLeak(s) && Enabled(s, Installs(t)) && s' == DoInstall(s, t) && InstallOut(s, t).Aborted?
    ensures NoLeak(s')
  {
    var p := s.starts[t].phase;
    InstallCareful(s.sh, s'.sh, s.starts[t].n, p.conn, p.gen, p.ctx, p.sock);
    forall v | 0 <= v < |s'.users|
      ensures v in s'.sh.closed || Home(s', v)
    {
      if v !in s.sh.closed && s.users[v].UWorker? {
        assert SlotOn(s.sh, s.workers[s.users[v].i].conn, s.users[v].n).Some?;
      }
    }
  }

  /** Every socket but the one that changed hands is where it was. */
  lemma HireHome(s: State, s': State, v: nat)
    requires Careful(s.sh, s'.sh) && v < |s.users| && v < |s'.users| && s'.users[v] == s.users[v] && !s.users[v].UReconnect?
    requires v in s.sh.closed || Home(s, v)
    requires |s.workers| <= |s'.workers| && (forall i :: 0 <= i < |s.workers| ==> s'.workers[i] == s.workers[i])
    requires s.users[v].UStart? && Home(s, v) ==> s.users[v].t < |s'.starts| && s'.starts[s.users[v].t] == s.starts[s.users[v].t]
    requires s.users[v].UConnect? && Home(s, v) ==> s'.connect == s.connect
    ensures v in s'.sh.closed || Home(s', v)
  {
    if v !in s.sh.closed && s.users[v].UWorker? {
      assert SlotOn(s.sh, s.workers[s.users[v].i].conn, s.users[v].n).Some?;
    }
  }

  lemma LaunchNoLeak(s: State, s': State, n: StreamId, t: nat, w: Worker)
    requires NoLeak(s) && ReconnectsOk(s') && Hired(s, s', n, t, w) && Careful(s.sh, s'.sh)
    requires s.starts[t].phase.Dialed? && s.starts[t].phase.sock == w.sock
    ensures NoLeak(s')
  {
    forall v | 0 <= v < |s'.users|
      ensures v in s'.sh.closed || Home(s', v)
    {
      if v == w.sock.value {
        assert SlotOn(s'.sh, w.conn, n) == Some(v);
      } else if s'.users[v].UReconnect? {
        if v !in s'.sh.closed { ReconnectHome(s', v); }
      } else {
        HireHome(s, s', v);
      }
    }
  }

  lemma InstallNoLeak(s: State, s': State, t: nat)
    requires NoLeak(s) && Inv(s) && Inv(s') && Enabled(s, Installs(t)) && s' == DoInstall(s, t)
    ensures NoLeak(s')
  {
    var n := s.starts[t].n;
    var p := s.starts[t].phase;
    LaneOf(s, n);
    InstallCareful(s.sh, s'.sh, n, p.conn, p.gen, p.ctx, p.sock);
    if InstallOut(s, t).Aborted? {
      AbortNoLeak(s, s', t);
    } else {
      LaunchHires(s, s', n, t);
      assert StarterOk(s.sh, n, p);
      LaunchSocket(s, s', n, t);
      LaunchNoLeak(s, s', n, t, s'.workers[|s.workers|]);
    }
  }

  lemma LaunchSocket(s: State, s': State, n: StreamId, t: nat)
    requires Enabled(s, Installs(t)) && s' == DoInstall(s, t) && n == s.starts[t].n && |s'.workers| == |s.workers| + 1
    requires InstallOut(s, t).Launched? && s.starts[t].phase.sock.Some?
    ensures s'.workers[|s.workers|].sock == s.starts[t].phase.sock
  {
  }

  lemma PublishNoLeak(s: State, s': State)
    requires NoLeak(s) && Inv(s) && Inv(s') && s.connect.Connected? && s' == DoPublish(s)
    ensures NoLeak(s')
  {
    StepCareful(s, ConnectPublishes);
    if s.sh.connectGen != s.connect.gen || s.connect.ctx in s.sh.cancelled {
      AbortDiscards(s, s');
      DiscardNoLeak(s, s');
    } else {
      PublishShape(s, s');
      LaunchedNoLeak(s, s', s'.workers[|s.workers|]);
    }
  }

  lemma DiscardNoLeak(s: State, s': State)
    requires NoLeak(s) && ReconnectsOk(s') && Discards(s, s') && Careful(s.sh, s'.sh)
    ensures NoLeak(s')
  {
    forall v | 0 <= v < |s'.users|
      ensures v in s'.sh.closed || Home(s', v)
    {
      if s'.users[v].UReconnect? {
        if v !in s'.sh.closed { ReconnectHome(s', v); }
      } else if !s.users[v].UConnect? {
        HireHome(s, s', v);
      }
    }
  }

  lemma LaunchedNoLeak(s: State, s': State, w: Worker)
    requires NoLeak(s) && ReconnectsOk(s') && Publishes(s, s', w) && Careful(s.sh, s'.sh)
    ensures NoLeak(s')
  {
    forall v | 0 <= v < |s'.users|
      ensures v in s'.sh.closed || Home(s', v)
    {
      if v == w.sock.value {
        assert SlotOn(s'.sh, w.conn, Speaker) == Some(v);
      } else if s'.users[v].UReconnect? {
        if v !in s'.sh.closed { ReconnectHome(s', v); }
      } else {
        HireHome(s, s', v);
      }
    }
  }

  lemma StepNoLeak(s: State, s': State, a: Action)
    requires NoLeak(s) && Inv(s) && Inv(s') && Enabled(s, a) && s' == Next(s, a)
    ensures NoLeak(s')
  {
    if a.Installs? {
      InstallNoLeak(s, s', a.t);
    } else if a.ConnectPublishes? {
      PublishNoLeak(s, s');
    } else {
      QuietStepNoLeak(s, s', a);
    }
  }

  lemma {:induction false} RunNoLeak(s: State, acts: seq<Action>)
    requires Inv(s) && NoLeak(s) && IsRun(s, acts)
    ensures NoLeak(After(s, acts))
    decreases |acts|
  {
    if acts != [] {
      StepKeeps(s, acts[0]);
      StepNoLeak(s, Next(s, acts[0]), acts[0]);
      RunNoLeak(Next(s, acts[0]), acts[1..]);
    }
  }

  /** In every reachable state every socket ever dialled is closed or has its one home. */
  lemma NoSocketLeaks(s: State)
    requires Reachable(s)
    ensures NoLeak(s)
  {
    var acts :| IsRun(Initial, acts) && After(Initial, acts) == s;
    InitialInv();
    RunNoLeak(Initial, acts);
  }

  /** With all slots empty and nobody holding it, a socket is closed. */
  lemma RestClosed(s: State, v: nat)
    requires v < |s.users| && (v in s.sh.closed || Home(s, v)) && !s.connect.Connected?
    requires forall t :: 0 <= t < |s.starts| ==> !s.starts[t].phase.Dialed?
    requires forall k :: 0 <= k < |s.reconnects| ==> !s.reconnects[k].phase.RDialed?
    requires forall c: nat, n :: SlotOn(s.sh, c, n) == None
    ensures v in s.sh.closed
  {
  }

  lemma ClosedSlots(s: State)
    requires SessionOk(s) && forall c :: 0 <= c < |s.sh.conns| ==> s.sh.conns[c].closed
    ensures forall c: nat, n :: SlotOn(s.sh, c, n) == None
    ensures forall v :: v in s.sh.closed ==> 0 <= v < |s.users|
  {
  }

  /** Once nobody holds a dialled socket and every connection has been closed, all sockets are. */
  lemma AllSocketsClosedAtRest(s: State)
    requires Reachable(s)
    requires !s.connect.Connected?
    requires forall t :: 0 <= t < |s.starts| ==> !s.starts[t].phase.Dialed?
    requires forall k :: 0 <= k < |s.reconnects| ==> !s.reconnects[k].phase.RDialed?
    requires forall c :: 0 <= c < |s.sh.conns| ==> s.sh.conns[c].closed
    ensures forall v :: v in s.sh.closed <==> 0 <= v < |s.users|
  {
    ReachableInv(s);
    NoSocketLeaks(s);
    ClosedSlots(s);
    forall v | 0 <= v < |s.users|
      ensures v in s.sh.closed
    {
      RestClosed(s, v);
    }
  }
}
