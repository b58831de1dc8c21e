/** Who cancels which context, and when. Beside the ownership invariant every reachable state keeps
    this one: a stream's context that is not cancelled is that of its current generation; the
    context of a Connect in flight is not cancelled exactly until a Disconnect supersedes it; and an
    open worker of the current generation has a context that is not cancelled. */
module SessionContexts {
  import opened Wrappers
  import opened Transport
  import opened SessionState
  import opened SessionEdits
  import opened SessionSystem
  import opened SessionInvariant
  import opened SessionLanes
  import opened SessionInstalls
  import opened SessionDisconnects
  import opened SessionConnects

  /** A Connect is dialling, or has dialled and not yet published. */
  predicate InFlight(c: Connect) {
    c.Connecting? || c.Connected?
  }

  ghost predicate PendingConnectOk(s: State) {
    if InFlight(s.connect) then
      && s.connect.ctx < |s.ctxs| && s.ctxs[s.connect.ctx] == CtxConnect
      && (if s.sh.connectCancel.Some?
          then s.sh.connectCancel == Some(s.connect.ctx) && s.sh.connectGen == s.connect.gen && s.connect.ctx !in s.sh.cancelled
          else s.sh.connectGen > s.connect.gen && s.connect.ctx in s.sh.cancelled)
    else
      s.sh.connectCancel == None
  }

  ghost predicate LiveOk(s: State) {
    forall x :: 0 <= x < |s.ctxs| && s.ctxs[x].CtxStream? && x !in s.sh.cancelled ==>
      && s.sh.connected
      && At(s.sh, s.ctxs[x].n).cancel == Some(x)
      && At(s.sh, s.ctxs[x].n).gen == s.ctxs[x].gen
  }

  ghost predicate ServesOk(s: State) {
    && (forall i :: 0 <= i < |s.workers| && s.workers[i].Open() && s.workers[i].gen == At(s.sh, s.workers[i].n).gen ==>
          s.workers[i].ctx !in s.sh.cancelled)
    && (forall i :: 0 <= i < |s.workers| && !s.workers[i].Open() ==> s.workers[i].ctx in s.sh.cancelled)
  }

  ghost predicate ReconnectCtxs(s: State) {
    forall k :: 0 <= k < |s.reconnects| ==>
      s.reconnects[k].worker < |s.workers| && s.reconnects[k].ctx == s.workers[s.reconnects[k].worker].ctx
  }

  ghost predicate ContextsOk(s: State) {
    PendingConnectOk(s) && LiveOk(s) && ServesOk(s) && ReconnectCtxs(s)
  }

  lemma InitialContexts()
    ensures ContextsOk(Initial)
  {
  }

  // ---- what a section does to a stream's lifetime

  /** The stream's generation, its context and the set of cancelled ones stay, or the generation
      grows, the old context is cancelled and the stream has none or a new one. */
  ghost predicate Renews(sh: Shared, sh': Shared, n: StreamId) {
    && sh'.connected == sh.connected && sh'.connectGen == sh.connectGen && sh'.connectCancel == sh.connectCancel
    && (forall m :: m != n ==> At(sh', m) == At(sh, m))
    && (|| (At(sh', n).gen == At(sh, n).gen && At(sh', n).cancel == At(sh, n).cancel
            && sh'.cancelled == sh.cancelled && sh'.contexts == sh.contexts)
        || (At(sh', n).gen > At(sh, n).gen && sh'.cancelled == sh.cancelled + CtxOf(At(sh, n))
            && (if At(sh', n).cancel.Some?
                then At(sh', n).cancel == Some(sh.contexts) && sh'.contexts == sh.contexts + 1 && sh.connected
                else sh'.contexts == sh.contexts)))
  }

  lemma CloseOnRenews(sh: Shared, c: Option<nat>, n: StreamId)
    ensures CloseOn(sh, c, n) == sh.(conns := CloseOn(sh, c, n).conns, closed := CloseOn(sh, c, n).closed)
  {
  }

  lemma DialRenews(sh: Shared, n: StreamId)
    requires sh.connected
    ensures var (sh', out) := DialDecision(sh, n);
            Renews(sh, sh', n) && (out.StartDial? <==> sh'.contexts > sh.contexts) && (out.StartDial? ==> out.gen == At(sh', n).gen)
  {
    if sh.conn.Some? {
      var st := At(sh, n);
      var sh1 := Put(sh, n, st.(gen := st.gen + 1, cancel := Some(sh.contexts)))
                 .(cancelled := CancelIf(sh.cancelled, st.cancel), contexts := sh.contexts + 1);
      CloseOnRenews(sh1, sh1.conn, n);
    }
  }

  lemma StartRenews(sh: Shared, n: StreamId)
    ensures var (sh', out) := StartEnter(sh, n);
            Renews(sh, sh', n) && (out.StartDial? <==> sh'.contexts > sh.contexts) && (out.StartDial? ==> out.gen == At(sh', n).gen)
  {
    if sh.connected {
      DialRenews(sh, n);
      var st := At(sh, n);
      var sh1 := Put(sh, n, st.(cancel := None, gen := st.gen + 1)).(cancelled := CancelIf(sh.cancelled, st.cancel));
      CloseOnRenews(sh1, sh1.conn, n);
    }
  }

  lemma ResumeRenews(sh: Shared, n: StreamId, conn: Option<nat>, gen: nat)
    ensures var (sh', out) := StartResume(sh, n, conn, gen);
            Renews(sh, sh', n) && (out.StartDial? <==> sh'.contexts > sh.contexts) && (out.StartDial? ==> out.gen == At(sh', n).gen)
  {
    if sh.connected {
      DialRenews(Put(sh, n, At(sh, n).(done := None, running := false)), n);
    }
  }

  lemma StopRenews(sh: Shared, n: StreamId)
    ensures Renews(sh, StopEnter(sh, n).0, n)
    ensures StopEnter(sh, n).0.contexts == sh.contexts
  {
    var sh1 := StopClaim(sh, n);
    EndHubEdits(sh1, n);
    CloseOnRenews(EndHub(sh1, n), sh1.conn, n);
  }

  // ---- a step that renews at most one stream

  lemma RenewedLive(s: State, s': State, n: StreamId)
    requires LiveOk(s) && Renews(s.sh, s'.sh, n) && |s.ctxs| == s.sh.contexts
    requires s'.ctxs == s.ctxs || s'.ctxs == s.ctxs + [CtxStream(n, At(s'.sh, n).gen)]
    requires |s'.ctxs| == s'.sh.contexts
    ensures LiveOk(s')
  {
  }

  lemma RenewedServes(s: State, s': State, n: StreamId)
    requires ServesOk(s) && Renews(s.sh, s'.sh, n)
    requires At(s.sh, n).cancel.Some? ==> CtxFor(s, At(s.sh, n).cancel.value, n)
    requires s'.workers == s.workers
    requires forall i :: 0 <= i < |s.workers| ==>
               s.workers[i].gen <= At(s.sh, s.workers[i].n).gen
               && s.workers[i].ctx < |s.ctxs| && s.ctxs[s.workers[i].ctx] == CtxStream(s.workers[i].n, s.workers[i].gen)
    ensures ServesOk(s')
  {
  }

  lemma RenewedConnect(s: State, s': State, n: StreamId)
    requires PendingConnectOk(s) && Renews(s.sh, s'.sh, n) && s'.connect == s.connect
    requires At(s.sh, n).cancel.Some? ==> CtxFor(s, At(s.sh, n).cancel.value, n)
    requires |s.ctxs| <= |s'.ctxs| && s'.ctxs[..|s.ctxs|] == s.ctxs
    ensures PendingConnectOk(s')
  {
    if InFlight(s.connect) {
      assert s'.ctxs[..|s.ctxs|][s.connect.ctx] == s'.ctxs[s.connect.ctx];
    }
  }

  /** What every worker's context is. */
  lemma WorkerCtxs(s: State)
    requires LanesOk(s) && forall i :: 0 <= i < |s.workers| ==> s.workers[i].n != Control
    ensures forall i :: 0 <= i < |s.workers| ==>
              s.workers[i].gen <= At(s.sh, s.workers[i].n).gen
              && s.workers[i].ctx < |s.ctxs| && s.ctxs[s.workers[i].ctx] == CtxStream(s.workers[i].n, s.workers[i].gen)
  {
    forall i | 0 <= i < |s.workers|
      ensures s.workers[i].gen <= At(s.sh, s.workers[i].n).gen
      ensures s.workers[i].ctx < |s.ctxs| && s.ctxs[s.workers[i].ctx] == CtxStream(s.workers[i].n, s.workers[i].gen)
    {
      LaneOf(s, s.workers[i].n);
      assert WorkerOk(s, s.workers[i].n, i, s.workers[i]);
    }
  }

  lemma RenewKeeps(s: State, s': State, n: StreamId)
    requires Inv(s) && ContextsOk(s) && n != Control && Renews(s.sh, s'.sh, n)
    requires s'.workers == s.workers && s'.connect == s.connect && s'.reconnects == s.reconnects
    requires s'.ctxs == (if s'.sh.contexts > s.sh.contexts then s.ctxs + [CtxStream(n, At(s'.sh, n).gen)] else s.ctxs)
    ensures ContextsOk(s')
  {
    LaneOf(s, n);
    WorkerCtxs(s);
    RenewedLive(s, s', n);
    RenewedServes(s, s', n);
    RenewedConnect(s, s', n);
  }

  // ---- a step that leaves contexts, generations and the pending Connect alone

  ghost predicate CtxIdle(s: State, s': State) {
    && s'.sh.connected == s.sh.connected && s'.sh.connectGen == s.sh.connectGen && s'.sh.connectCancel == s.sh.connectCancel
    && s'.sh.cancelled == s.sh.cancelled && s'.ctxs == s.ctxs
    && (forall n :: At(s'.sh, n).gen == At(s.sh, n).gen && At(s'.sh, n).cancel == At(s.sh, n).cancel)
    && InFlight(s'.connect) == InFlight(s.connect)
    && (InFlight(s.connect) ==> s'.connect.gen == s.connect.gen && s'.connect.ctx == s.connect.ctx)
    && |s'.workers| == |s.workers|
    && (forall i :: 0 <= i < |s.workers| ==>
          s'.workers[i].n == s.workers[i].n && s'.workers[i].gen == s.workers[i].gen && s'.workers[i].ctx == s.workers[i].ctx
          && s'.workers[i].Open() == s.workers[i].Open())
    && |s'.reconnects| == |s.reconnects|
    && (forall k :: 0 <= k < |s.reconnects| ==>
          s'.reconnects[k].worker == s.reconnects[k].worker && s'.reconnects[k].ctx == s.reconnects[k].ctx)
  }

  lemma IdleKeeps(s: State, s': State)
    requires ContextsOk(s) && CtxIdle(s, s')
    ensures ContextsOk(s')
  {
  }

  // ---- a step that cancels one context of its own

  /** One more context is cancelled, that of generation `gen` of stream `n`; the stream may forget
      it. No open worker serves that generation any more. */
  ghost predicate Drops(s: State, s': State, n: StreamId, gen: nat, x: nat) {
    && x < |s.ctxs| && s.ctxs[x] == CtxStream(n, gen)
    && s'.sh.connected == s.sh.connected && s'.sh.connectGen == s.sh.connectGen && s'.sh.connectCancel == s.sh.connectCancel
    && s'.sh.cancelled == s.sh.cancelled + {x} && s'.ctxs == s.ctxs && s'.connect == s.connect
    && (forall m :: At(s'.sh, m).gen == At(s.sh, m).gen)
    && (forall m :: m != n ==> At(s'.sh, m).cancel == At(s.sh, m).cancel)
    && (At(s'.sh, n).cancel == At(s.sh, n).cancel || At(s.sh, n).cancel == Some(x))
    && |s'.workers| == |s.workers|
    && (forall i :: 0 <= i < |s.workers| ==>
          s'.workers[i].n == s.workers[i].n && s'.workers[i].gen == s.workers[i].gen && s'.workers[i].ctx == s.workers[i].ctx
          && (s'.workers[i].Open() == s.workers[i].Open() || (s.workers[i].Open() && s.workers[i].ctx == x)))
    && (forall i :: 0 <= i < |s'.workers| && s'.workers[i].n == n && s'.workers[i].gen == gen && gen == At(s.sh, n).gen
          ==> !s'.workers[i].Open())
    && s'.reconnects == s.reconnects
  }

  lemma DropKeeps(s: State, s': State, n: StreamId, gen: nat, x: nat)
    requires Drops(s, s', n, gen, x) && ContextsOk(s)
    requires forall i :: 0 <= i < |s.workers| ==>
               s.workers[i].ctx < |s.ctxs| && s.ctxs[s.workers[i].ctx] == CtxStream(s.workers[i].n, s.workers[i].gen)
    ensures ContextsOk(s')
  {
  }

  lemma DialFailDrops(s: State, s': State, t: nat)
    requires Enabled(s, DialFails(t)) && LaneOk(s, s.starts[t].n) && LiveOk(s) && s' == DoDialFails(s, t)
    ensures var p := s.starts[t].phase; Drops(s, s', s.starts[t].n, p.gen, p.ctx)
  {
    var n, p := s.starts[t].n, s.starts[t].phase;
    assert StartOk(s, n, t, p);
    OwnsAlone(s, n, t);
  }

  /** No worker serves a generation that a start still owns. */
  lemma OwnsAlone(s: State, n: StreamId, t: nat)
    requires LaneOk(s, n) && t < |s.starts| && s.starts[t].n == n && (s.starts[t].phase.Dialing? || s.starts[t].phase.Dialed?)
    ensures forall i :: 0 <= i < |s.workers| && s.workers[i].n == n && s.workers[i].gen == s.starts[t].phase.gen
              ==> s.workers[i].gen != At(s.sh, n).gen
  {
    forall i | 0 <= i < |s.workers| && s.workers[i].n == n && s.workers[i].gen == s.starts[t].phase.gen
      ensures s.workers[i].gen != At(s.sh, n).gen
    {
      assert WorkerOk(s, n, i, s.workers[i]);
      assert StartOk(s, n, t, s.starts[t].phase);
    }
  }

  lemma AbortDrops(s: State, s': State, t: nat)
    requires Inv(s) && Enabled(s, Installs(t)) && s' == DoInstall(s, t) && InstallOut(s, t).Aborted?
    ensures var p := s.starts[t].phase; Drops(s, s', s.starts[t].n, p.gen, p.ctx)
  {
    var n, p := s.starts[t].n, s.starts[t].phase;
    LaneOf(s, n);
    AbortWithin(s, s', n, t);
    OwnsAlone(s, n, t);
    assert StartOk(s, n, t, p);
  }

  lemma FinishDrops(s: State, s': State, i: nat)
    requires Enabled(s, WorkerFinishes(i)) && LaneOk(s, s.workers[i].n)
    requires s' == AtPhase(s, i, Finished).(sh := s.sh.(cancelled := s.sh.cancelled + {s.workers[i].ctx}))
    ensures Drops(s, s', s.workers[i].n, s.workers[i].gen, s.workers[i].ctx)
  {
    var n := s.workers[i].n;
    assert WorkerOk(s, n, i, s.workers[i]);
    forall j | 0 <= j < |s'.workers| && s'.workers[j].n == n && s'.workers[j].gen == s.workers[i].gen
               && s.workers[i].gen == At(s.sh, n).gen
      ensures !s'.workers[j].Open()
    {
      assert WorkerOk(s, n, j, s.workers[j]);
    }
  }

  // ---- launches

  lemma LaunchedContexts(s: State, s': State, n: StreamId, t: nat, w: Worker)
    requires ContextsOk(s) && Hired(s, s', n, t, w) && w.ctx !in s.sh.cancelled && s'.sh.connectGen == s.sh.connectGen
    requires if n == Screen then OpensSession(s, s', w) else s'.reconnects == s.reconnects
    ensures ContextsOk(s')
  {
  }

  lemma LaunchCtx(s: State, s': State, t: nat)
    requires Enabled(s, Installs(t)) && s' == DoInstall(s, t) && !InstallOut(s, t).Aborted? && InstallOut(s, t).Launched?
    ensures |s'.workers| == |s.workers| + 1
    ensures s'.workers[|s.workers|].ctx !in s.sh.cancelled && s'.sh.connectGen == s.sh.connectGen
  {
  }

  lemma InstallKeepsContexts(s: State, s': State, t: nat)
    requires Inv(s) && ContextsOk(s) && Enabled(s, Installs(t)) && s' == DoInstall(s, t)
    ensures ContextsOk(s')
  {
    var n := s.starts[t].n;
    LaneOf(s, n);
    WorkerCtxs(s);
    if InstallOut(s, t).Aborted? {
      AbortDrops(s, s', t);
      DropKeeps(s, s', n, s.starts[t].phase.gen, s.starts[t].phase.ctx);
    } else {
      LaunchHires(s, s', n, t);
      LaunchOpens(s, s', n, t);
      LaunchCtx(s, s', t);
      LaunchedContexts(s, s', n, t, s'.workers[|s.workers|]);
    }
  }

  // ---- Disconnect and Connect

  lemma AllCancelled(s: State, x: nat)
    requires LiveOk(s) && x < |s.ctxs| && s.ctxs[x].CtxStream?
    ensures x in s.sh.cancelled + CancelsOf(s.sh.streams, AllIds)
  {
    if x !in s.sh.cancelled {
      EveryId(s.ctxs[x].n);
      assert Of(s.sh.streams, s.ctxs[x].n).cancel == Some(x);
    }
  }

  /** What Disconnect cancels: the pending Connect, and on a connected session every stream. */
  lemma DisconnectCancels(s: State, s': State)
    requires s' == DoDisconnect(s).(connect := s'.connect)
    ensures s'.ctxs == s.ctxs && s'.workers == s.workers && s'.reconnects == s.reconnects
    ensures s'.sh.connectCancel == None
    ensures if s.sh.connectCancel.Some? then s'.sh.connectGen > s.sh.connectGen && s.sh.connectCancel.value in s'.sh.cancelled
            else s'.sh.connectGen == s.sh.connectGen
    ensures s'.sh.cancelled == CancelIf(s.sh.cancelled, s.sh.connectCancel)
                               + (if s.sh.connected then CancelsOf(s.sh.streams, AllIds) else {})
    ensures if s.sh.connected then !s'.sh.connected && forall n :: At(s'.sh, n).gen > At(s.sh, n).gen
            else !s'.sh.connected && forall n :: At(s'.sh, n) == At(s.sh, n)
  {
    EndHubSameWorkers(DropPendingConnect(s.sh));
    forall n: StreamId
      ensures n in AllIds
    {
      EveryId(n);
    }
  }

  /** Every stream's context is cancelled and every generation has moved on. */
  lemma AllStale(s: State, s': State)
    requires ServesOk(s) && s'.workers == s.workers && s'.ctxs == s.ctxs && s.sh.cancelled <= s'.sh.cancelled
    requires forall n :: At(s'.sh, n).gen > At(s.sh, n).gen
    requires forall i :: 0 <= i < |s.workers| ==> s.workers[i].gen <= At(s.sh, s.workers[i].n).gen
    requires forall x :: 0 <= x < |s'.ctxs| && s'.ctxs[x].CtxStream? ==> x in s'.sh.cancelled
    ensures LiveOk(s') && ServesOk(s')
  {
  }

  /** Only the context of a Connect is cancelled. */
  lemma NoneStale(s: State, s': State)
    requires LiveOk(s) && ServesOk(s) && s'.workers == s.workers && s'.ctxs == s.ctxs
    requires s'.sh.connected == s.sh.connected && forall n :: At(s'.sh, n) == At(s.sh, n)
    requires s'.sh.cancelled == CancelIf(s.sh.cancelled, s.sh.connectCancel)
    requires s.sh.connectCancel.Some? ==> s.sh.connectCancel.value < |s.ctxs| && s.ctxs[s.sh.connectCancel.value] == CtxConnect
    requires forall i :: 0 <= i < |s.workers| ==> s.workers[i].ctx < |s.ctxs| && s.ctxs[s.workers[i].ctx].CtxStream?
    ensures LiveOk(s') && ServesOk(s')
  {
  }

  lemma DisconnectKeepsContexts(s: State, s': State)
    requires Inv(s) && ContextsOk(s) && s' == DoDisconnect(s).(connect := s'.connect)
    requires s'.connect == s.connect || (s.connect.MustDisconnect? && s'.connect.AfterDisconnect?)
    ensures ContextsOk(s')
  {
    DisconnectCancels(s, s');
    WorkerCtxs(s);
    if s.sh.connected {
      forall x | 0 <= x < |s'.ctxs| && s'.ctxs[x].CtxStream?
        ensures x in s'.sh.cancelled
      {
        AllCancelled(s, x);
      }
      AllStale(s, s');
    } else {
      NoneStale(s, s');
    }
  }

  lemma ConnectBookkeeping(s: State, s': State, a: Action)
    requires SessionOk(s) && ContextsOk(s) && Enabled(s, a) && s' == Next(s, a)
    requires a.ConnectCall? || a.ConnectDials? || a.ConnectDialFails?
    requires forall i :: 0 <= i < |s.workers| ==> s.workers[i].ctx < |s.ctxs| && s.ctxs[s.workers[i].ctx].CtxStream?
    ensures ContextsOk(s')
  {
  }

  lemma AbortedPublish(s: State, s': State)
    requires SessionOk(s) && ContextsOk(s) && s.connect.Connected? && s' == DoPublish(s)
    requires s.sh.connectGen != s.connect.gen || s.connect.ctx in s.sh.cancelled
    ensures ContextsOk(s')
  {
  }

  lemma PublishedContexts(s: State, s': State, w: Worker)
    requires ContextsOk(s) && Publishes(s, s', w) && !s.sh.connected
    requires forall x :: x in s.sh.cancelled ==> x < |s.ctxs|
    requires forall i :: 0 <= i < |s.workers| ==> s.workers[i].gen <= At(s.sh, s.workers[i].n).gen
    ensures ContextsOk(s')
  {
  }

  lemma PublishKeepsContexts(s: State, s': State)
    requires Inv(s) && ContextsOk(s) && s.connect.Connected? && s' == DoPublish(s)
    ensures ContextsOk(s')
  {
    WorkerCtxs(s);
    if s.sh.connectGen != s.connect.gen || s.connect.ctx in s.sh.cancelled {
      AbortedPublish(s, s');
    } else {
      PublishShape(s, s');
      PublishedContexts(s, s', s'.workers[|s.workers|]);
    }
  }

  // ---- the steps, one by one

  predicate IsIdle(a: Action) {
    a.DialOk? || a.StopReturns? || a.DisconnectCloses? || a.DisconnectReturns? || a.ConnectDialOk? || IsReconnectStep(a)
    || (IsWorkerStep(a) && !a.WorkerFinishes?)
  }

  lemma PhaseIdle(s: State, s': State, i: nat, p: Phase)
    requires i < |s.workers| && s.workers[i].Open() && p != Finished && s' == AtPhase(s, i, p).(sh := s'.sh)
    requires s'.sh == s.sh.(hub := s'.sh.hub, token := s'.sh.token, conns := s'.sh.conns, closed := s'.sh.closed)
    ensures CtxIdle(s, s')
  {
  }

  lemma ExitIdle(s: State, s': State, i: nat)
    requires Enabled(s, WorkerExits(i)) && s' == DoExit(s, i)
    ensures CtxIdle(s, s')
  {
    var w := s.workers[i];
    ExitLife(s.sh, w.n, w.conn, w.gen, w.hubGen);
  }

  lemma ExitLife(sh: Shared, n: StreamId, conn: nat, gen: nat, hubGen: nat)
    ensures var sh' := WorkerExit(sh, n, conn, gen, hubGen);
            && sh' == sh.(streams := sh'.streams, conns := sh'.conns, closed := sh'.closed)
            && forall m :: At(sh', m).gen == At(sh, m).gen && At(sh', m).cancel == At(sh, m).cancel
  {
    CloseOnRenews(sh, Some(conn), n);
  }

  lemma GivesUpLife(sh: Shared, t: Token)
    ensures var sh' := CloseScreenControl(sh, t); sh' == sh.(token := sh'.token, conns := sh'.conns, closed := sh'.closed)
  {
  }

  lemma DropIdle(s: State, s': State, i: nat)
    requires i < |s.workers| && s' == s.(sh := s.sh.(closed := s'.sh.closed))
    ensures CtxIdle(s, s')
  {
  }

  lemma ReportIdle(s: State, s': State, i: nat, m: Metrics)
    requires i < |s.workers| && s' == s.(sh := UpdateMetrics(s.sh, s.workers[i].n, s.workers[i].gen, s.workers[i].conn, m))
    ensures CtxIdle(s, s')
  {
  }

  lemma WorkerIdle(s: State, s': State, a: Action)
    requires IsWorkerStep(a) && !a.WorkerFinishes? && Enabled(s, a) && s' == Next(s, a)
    ensures CtxIdle(s, s')
  {
    match a
    case WorkerEndsHub(i) => PhaseIdle(s, s', i, HubEnded);
    case WorkerEndsControl(i) =>
      GivesUpLife(s.sh, s.workers[i].Tok());
      PhaseIdle(s, s', i, ControlClosed);
    case WorkerEndsSlot(i) =>
      CloseOnRenews(s.sh, Some(s.workers[i].conn), Screen);
      PhaseIdle(s, s', i, SlotClosed);
    case WorkerExits(i) => ExitIdle(s, s', i);
    case WorkerDropsSocket(i) => DropIdle(s, s', i);
    case WorkerReports(i, m) => ReportIdle(s, s', i, m);
  }

  lemma MoveIdle(s: State, s': State, k: nat, p: ReconnectPhase)
    requires k < |s.reconnects| && s' == Reach(s, k, p).(sh := s'.sh, users := s'.users)
    requires s'.sh == s.sh.(hub := s'.sh.hub, conns := s'.sh.conns, closed := s'.sh.closed)
    ensures CtxIdle(s, s')
  {
  }

  lemma ReconnectIdle(s: State, s': State, a: Action)
    requires IsReconnectStep(a) && Enabled(s, a) && s' == Next(s, a)
    ensures CtxIdle(s, s')
  {
    MoveIdle(s, s', a.k, s'.reconnects[a.k].phase);
  }

  lemma OtherIdle(s: State, s': State, a: Action)
    requires a.DialOk? || a.StopReturns? || a.DisconnectCloses? || a.DisconnectReturns? || a.ConnectDialOk?
    requires Enabled(s, a) && s' == Next(s, a)
    ensures CtxIdle(s, s')
  {
  }

  lemma IdleStep(s: State, s': State, a: Action)
    requires IsIdle(a) && Enabled(s, a) && s' == Next(s, a)
    ensures CtxIdle(s, s')
  {
    if IsWorkerStep(a) {
      WorkerIdle(s, s', a);
    } else if IsReconnectStep(a) {
      ReconnectIdle(s, s', a);
    } else {
      OtherIdle(s, s', a);
    }
  }

  lemma StartKeepsContexts(s: State, s': State, n: StreamId)
    requires Inv(s) && ContextsOk(s) && Enabled(s, StartCall(n)) && s' == DoStart(s, n)
    ensures ContextsOk(s')
  {
    StartRenews(s.sh, n);
    RenewKeeps(s, s', n);
  }

  lemma ResumeKeepsContexts(s: State, s': State, t: nat)
    requires Inv(s) && ContextsOk(s) && Enabled(s, StartResumes(t)) && s' == DoResume(s, t)
    ensures ContextsOk(s')
  {
    ResumeRenews(s.sh, s.starts[t].n, s.starts[t].phase.session, s.starts[t].phase.gen);
    RenewKeeps(s, s', s.starts[t].n);
  }

  lemma StopKeepsContexts(s: State, s': State, n: StreamId)
    requires Inv(s) && ContextsOk(s) && Enabled(s, StopCall(n)) && s' == DoStop(s, n)
    ensures ContextsOk(s')
  {
    StopRenews(s.sh, n);
    RenewKeeps(s, s', n);
  }

  lemma StreamStepKeepsContexts(s: State, s': State, a: Action)
    requires Inv(s) && ContextsOk(s) && (a.StartCall? || a.StartResumes? || a.StopCall?) && Enabled(s, a) && s' == Next(s, a)
    ensures ContextsOk(s')
  {
    match a
    case StartCall(n) => StartKeepsContexts(s, s', n);
    case StartResumes(t) => ResumeKeepsContexts(s, s', t);
    case StopCall(n) => StopKeepsContexts(s, s', n);
  }

  lemma DropStepKeepsContexts(s: State, s': State, a: Action)
    requires Inv(s) && ContextsOk(s) && (a.DialFails? || a.WorkerFinishes?) && Enabled(s, a) && s' == Next(s, a)
    ensures ContextsOk(s')
  {
    WorkerCtxs(s);
    match a
    case DialFails(t) =>
      LaneOf(s, s.starts[t].n);
      DialFailDrops(s, s', t);
      DropKeeps(s, s', s.starts[t].n, s.starts[t].phase.gen, s.starts[t].phase.ctx);
    case WorkerFinishes(i) =>
      LaneOf(s, s.workers[i].n);
      FinishDrops(s, s', i);
      DropKeeps(s, s', s.workers[i].n, s.workers[i].gen, s.workers[i].ctx);
  }

  lemma BookkeepingKeeps(s: State, s': State, a: Action)
    requires Inv(s) && ContextsOk(s) && Enabled(s, a) && s' == Next(s, a)
    requires a.ConnectCall? || a.ConnectDials? || a.ConnectDialFails?
    ensures ContextsOk(s')
  {
    WorkerCtxs(s);
    ConnectBookkeeping(s, s', a);
  }

  lemma ConnectStepKeepsContexts(s: State, s': State, a: Action)
    requires Inv(s) && ContextsOk(s) && IsConnectStep(a) && !IsIdle(a) && Enabled(s, a) && s' == Next(s, a)
    ensures ContextsOk(s')
  {
    if a.DisconnectCall? || a.ConnectDisconnects? {
      DisconnectKeepsContexts(s, s');
    } else if a.ConnectPublishes? {
      PublishKeepsContexts(s, s');
    } else {
      BookkeepingKeeps(s, s', a);
    }
  }

  lemma StepKeepsContexts(s: State, s': State, a: Action)
    requires Inv(s) && ContextsOk(s) && Enabled(s, a) && s' == Next(s, a)
    ensures ContextsOk(s')
  {
    if IsIdle(a) {
      IdleStep(s, s', a);
      IdleKeeps(s, s');
    } else if a.StartCall? || a.StartResumes? || a.StopCall? {
      StreamStepKeepsContexts(s, s', a);
    } else if a.DialFails? || a.WorkerFinishes? {
      DropStepKeepsContexts(s, s', a);
    } else if a.Installs? {
      InstallKeepsContexts(s, s', a.t);
    } else {
      ConnectStepKeepsContexts(s, s', a);
    }
  }
}
