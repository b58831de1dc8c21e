/** The steps of one stream keep the invariant. */
module SessionLanes {
  import opened Wrappers
  import opened Transport
  import opened SessionState
  import opened SessionEdits
  import opened SessionSystem
  import opened SessionInvariant
  import opened SessionFrames

  lemma LaneOf(s: State, n: StreamId)
    requires LanesOk(s) && n != Control
    ensures n in Media && LaneOk(s, n)
  {
  }

  // ---- dialling

  lemma DialOkShows(s: State, s': State, n: StreamId, t: nat)
    requires LaneOk(s, n) && Enabled(s, DialOk(t)) && s' == DoDialOk(s, t) && n == s.starts[t].n
    requires forall v :: v in s.sh.closed ==> v < |s.users|
    ensures Within(s, s', n, None, {}, {}, t, -1, -1)
    ensures Shows(s, s', n, t, -1, -1)
  {
    assert StartOk(s, n, t, s.starts[t].phase);
  }

  lemma DialOkHub(s: State, s': State, t: nat)
    requires HubOk(s) && t < |s.starts| && s.starts[t].phase.Dialing? && s' == DoDialOk(s, t)
    ensures |s'.workers| == |s.workers| && RankStays(s, s') && s'.sh.hub == s.sh.hub && HubStays(s, s')
  {
  }

  lemma DialOkKeeps(s: State, s': State, t: nat)
    requires Inv(s) && Enabled(s, DialOk(t)) && s' == DoDialOk(s, t)
    ensures Inv(s')
  {
    var n := s.starts[t].n;
    LaneOf(s, n);
    DialOkShows(s, s', n, t);
    DialOkHub(s, s', t);
    StreamStep(s, s', n, None, {}, {}, t, -1, -1);
  }

  lemma DialFailsWithin(s: State, s': State, n: StreamId, t: nat)
    requires LaneOk(s, n) && Enabled(s, DialFails(t)) && s' == DoDialFails(s, t) && n == s.starts[t].n
    ensures Within(s, s', n, None, {}, {s.starts[t].phase.ctx}, t, -1, -1)
  {
    var p := s.starts[t].phase;
    assert StartOk(s, n, t, p);
    DialFailedEdits(s.sh, n, p.conn, p.gen, p.ctx);
  }

  lemma DialFailsStream(s: State, s': State, n: StreamId, t: nat)
    requires StreamOk(s, n) && t < |s.starts| && s.starts[t].phase.Dialing? && n == s.starts[t].n && s' == DoDialFails(s, t)
    requires StartOk(s, n, t, s.starts[t].phase)
    requires s.owners[n].ByStart? ==> StartOk(s, n, s.owners[n].t, s.starts[s.owners[n].t].phase)
    ensures StreamOk(s', n)
  {
  }

  lemma DialFailsShows(s: State, s': State, n: StreamId, t: nat)
    requires StreamOk(s, n) && t < |s.starts| && s.starts[t].phase.Dialing? && n == s.starts[t].n && s' == DoDialFails(s, t)
    requires StartOk(s, n, t, s.starts[t].phase)
    requires s.owners[n].ByStart? ==> StartOk(s, n, s.owners[n].t, s.starts[s.owners[n].t].phase)
    ensures Shows(s, s', n, t, -1, -1)
    ensures HubStays(s, s') <== HubOk(s)
  {
    DialFailsStream(s, s', n, t);
  }

  lemma DialFailsKeeps(s: State, s': State, t: nat)
    requires Inv(s) && Enabled(s, DialFails(t)) && s' == DoDialFails(s, t)
    ensures Inv(s')
  {
    var n := s.starts[t].n;
    LaneOf(s, n);
    DialFailsWithin(s, s', n, t);
    assert StartOk(s, n, t, s.starts[t].phase);
    DialFailsShows(s, s', n, t);
    StreamStep(s, s', n, None, {}, {s.starts[t].phase.ctx}, t, -1, -1);
  }

  // ---- worker steps

  lemma ReportsShows(s: State, s': State, n: StreamId, i: nat, m: Metrics)
    requires LaneOk(s, n) && i < |s.workers| && n == s.workers[i].n
    requires s' == s.(sh := UpdateMetrics(s.sh, n, s.workers[i].gen, s.workers[i].conn, m))
    ensures Within(s, s', n, None, {}, {}, -1, -1, -1)
    ensures Shows(s, s', n, -1, -1, -1)
    ensures HubStays(s, s') <== HubOk(s)
  {
    MetricsEdits(s.sh, n, s.workers[i].gen, s.workers[i].conn, m);
  }

  lemma ReportsKeeps(s: State, s': State, i: nat, m: Metrics)
    requires Inv(s) && i < |s.workers|
    requires s' == s.(sh := UpdateMetrics(s.sh, s.workers[i].n, s.workers[i].gen, s.workers[i].conn, m))
    ensures Inv(s')
  {
    var w := s.workers[i];
    LaneOf(s, w.n);
    ReportsShows(s, s', w.n, i, m);
    StreamStep(s, s', w.n, None, {}, {}, -1, -1, -1);
  }

  lemma ExitsWithin(s: State, s': State, n: StreamId, i: nat)
    requires LaneOk(s, n) && Enabled(s, WorkerExits(i)) && s' == DoExit(s, i) && n == s.workers[i].n
    ensures Within(s, s', n, Some(s.workers[i].conn), {}, {}, -1, -1, i)
  {
    var w := s.workers[i];
    assert WorkerOk(s, n, i, w);
    ExitEdits(s.sh, n, w.conn, w.gen, w.hubGen);
  }

  lemma ExitsShows(s: State, s': State, n: StreamId, i: nat)
    requires LaneOk(s, n) && Enabled(s, WorkerExits(i)) && s' == DoExit(s, i) && n == s.workers[i].n
    ensures Shows(s, s', n, -1, -1, i)
  {
    assert WorkerOk(s, n, i, s.workers[i]);
  }

  lemma ExitsScreen(s: State, s': State, i: nat)
    requires HubOk(s) && Enabled(s, WorkerExits(i)) && s' == DoExit(s, i)
    requires s.workers[i].n == Screen ==> ScreenWorkerOk(s, i, s.workers[i])
    ensures RankStays(s, s') && HubStays(s, s')
  {
  }

  lemma ExitsKeeps(s: State, s': State, i: nat)
    requires Inv(s) && Enabled(s, WorkerExits(i)) && s' == DoExit(s, i)
    ensures Inv(s')
  {
    var w := s.workers[i];
    LaneOf(s, w.n);
    ExitsWithin(s, s', w.n, i);
    ExitsShows(s, s', w.n, i);
    ExitsScreen(s, s', i);
    StreamStep(s, s', w.n, Some(w.conn), {}, {}, -1, -1, i);
  }

  /** A worker whose context was cancelled closes its own socket. */
  lemma DropsSocketKeeps(s: State, s': State, i: nat)
    requires Inv(s) && Enabled(s, WorkerDropsSocket(i))
    requires s' == s.(sh := s.sh.(closed := CancelIf(s.sh.closed, s.workers[i].sock)))
    ensures Inv(s')
  {
    var w := s.workers[i];
    LaneOf(s, w.n);
    DropsSocketWithin(s, s', w.n, i);
    DropsSocketShows(s, s', w.n, i);
    StreamStep(s, s', w.n, None, {w.sock.value}, {}, -1, -1, -1);
  }

  lemma DropsSocketShows(s: State, s': State, n: StreamId, i: nat)
    requires LaneOk(s, n) && Enabled(s, WorkerDropsSocket(i)) && n == s.workers[i].n
    requires s' == s.(sh := s.sh.(closed := CancelIf(s.sh.closed, s.workers[i].sock)))
    ensures Shows(s, s', n, -1, -1, -1)
  {
    assert WorkerOk(s, n, i, s.workers[i]);
  }

  lemma DropsSocketWithin(s: State, s': State, n: StreamId, i: nat)
    requires LaneOk(s, n) && Enabled(s, WorkerDropsSocket(i)) && n == s.workers[i].n
    requires s' == s.(sh := s.sh.(closed := CancelIf(s.sh.closed, s.workers[i].sock)))
    ensures s.workers[i].sock.Some?
    ensures Within(s, s', n, None, {s.workers[i].sock.value}, {}, -1, -1, -1)
  {
    assert WorkerOk(s, n, i, s.workers[i]);
  }

  /** A worker that is no longer working moves on; the hub does not notice. */
  lemma MovesOn(s: State, s': State, i: nat)
    requires HubOk(s) && i < |s.workers| && s.workers[i].phase != Working
    requires |s'.workers| == |s.workers| && s'.workers == s.workers[i := s.workers[i].(phase := s'.workers[i].phase)]
    requires s'.sh.hub == s.sh.hub && s'.sh.conn == s.sh.conn && s'.reconnects == s.reconnects
    requires At(s'.sh, Screen) == At(s.sh, Screen)
    ensures HubStays(s, s')
  {
  }

  lemma FinishesWithin(s: State, s': State, n: StreamId, i: nat)
    requires LaneOk(s, n) && Enabled(s, WorkerFinishes(i)) && n == s.workers[i].n
    requires s' == AtPhase(s, i, Finished).(sh := s.sh.(cancelled := s.sh.cancelled + {s.workers[i].ctx}))
    ensures Within(s, s', n, None, {}, {s.workers[i].ctx}, -1, -1, i)
  {
    assert WorkerOk(s, n, i, s.workers[i]);
  }

  lemma FinishesShows(s: State, s': State, n: StreamId, i: nat)
    requires StreamOk(s, n) && i < |s.workers| && s.workers[i].phase == Exited && n == s.workers[i].n && WorkerOk(s, n, i, s.workers[i])
    requires s.owners[n].ByStart? ==> StartOk(s, n, s.owners[n].t, s.starts[s.owners[n].t].phase)
    requires s' == AtPhase(s, i, Finished).(sh := s.sh.(cancelled := s.sh.cancelled + {s.workers[i].ctx}))
    ensures Shows(s, s', n, -1, -1, i)
  {
  }

  lemma FinishesHub(s: State, s': State, i: nat)
    requires HubOk(s) && Enabled(s, WorkerFinishes(i))
    requires s' == AtPhase(s, i, Finished).(sh := s.sh.(cancelled := s.sh.cancelled + {s.workers[i].ctx}))
    ensures RankStays(s, s') && HubStays(s, s')
  {
    MovesOn(s, s', i);
  }

  lemma FinishesKeeps(s: State, s': State, i: nat)
    requires Inv(s) && Enabled(s, WorkerFinishes(i))
    requires s' == AtPhase(s, i, Finished).(sh := s.sh.(cancelled := s.sh.cancelled + {s.workers[i].ctx}))
    ensures Inv(s')
  {
    var w := s.workers[i];
    LaneOf(s, w.n);
    FinishesWithin(s, s', w.n, i);
    assert WorkerOk(s, w.n, i, s.workers[i]);
    FinishesShows(s, s', w.n, i);
    FinishesHub(s, s', i);
    StreamStep(s, s', w.n, None, {}, {w.ctx}, -1, -1, i);
  }

  /** The screen's worker closes the screen slot of its connection without taking the lock. */
  lemma EndsSlotWithin(s: State, s': State, i: nat)
    requires LaneOk(s, Screen) && Enabled(s, WorkerEndsSlot(i)) && s.workers[i].n == Screen
    requires s' == AtPhase(s, i, SlotClosed).(sh := CloseOn(s.sh, Some(s.workers[i].conn), Screen))
    ensures Within(s, s', Screen, Some(s.workers[i].conn), {}, {}, -1, -1, i)
    ensures At(s'.sh, Screen) == At(s.sh, Screen) && s'.sh.hub == s.sh.hub
  {
    assert WorkerOk(s, Screen, i, s.workers[i]);
    CloseOnEdits(s.sh, Some(s.workers[i].conn), Screen);
  }

  lemma EndsSlotStream(s: State, s': State, i: nat)
    requires StreamOk(s, Screen) && i < |s.workers| && WorkerOk(s, Screen, i, s.workers[i])
    requires s.workers[i].phase == ControlClosed && s.workers[i].n == Screen
    requires s' == AtPhase(s, i, SlotClosed).(sh := CloseOn(s.sh, Some(s.workers[i].conn), Screen))
    ensures StreamOk(s', Screen)
  {
  }

  lemma EndsSlotShows(s: State, s': State, i: nat)
    requires StreamOk(s, Screen) && i < |s.workers| && WorkerOk(s, Screen, i, s.workers[i])
    requires s.workers[i].phase == ControlClosed && s.workers[i].n == Screen
    requires s' == AtPhase(s, i, SlotClosed).(sh := CloseOn(s.sh, Some(s.workers[i].conn), Screen))
    ensures Shows(s, s', Screen, -1, -1, i)
  {
    EndsSlotStream(s, s', i);
  }

  lemma EndsSlotHub(s: State, s': State, i: nat)
    requires HubOk(s) && Enabled(s, WorkerEndsSlot(i))
    requires s' == AtPhase(s, i, SlotClosed).(sh := CloseOn(s.sh, Some(s.workers[i].conn), Screen))
    ensures RankStays(s, s') && HubStays(s, s')
  {
    MovesOn(s, s', i);
  }

  lemma EndsSlotKeeps(s: State, s': State, i: nat)
    requires Inv(s) && Enabled(s, WorkerEndsSlot(i)) && s.workers[i].n == Screen
    requires s' == AtPhase(s, i, SlotClosed).(sh := CloseOn(s.sh, Some(s.workers[i].conn), Screen))
    ensures Inv(s')
  {
    LaneOf(s, Screen);
    assert WorkerOk(s, Screen, i, s.workers[i]);
    EndsSlotWithin(s, s', i);
    EndsSlotShows(s, s', i);
    EndsSlotHub(s, s', i);
    StreamStep(s, s', Screen, Some(s.workers[i].conn), {}, {}, -1, -1, i);
  }

  // ---- stopStream's return

  lemma StopReturnShows(s: State, s': State, n: StreamId, t: nat)
    requires LaneOk(s, n) && Enabled(s, StopReturns(t)) && s' == DoStopReturn(s, t) && n == s.stops[t].n
    ensures Within(s, s', n, None, {}, {}, -1, t, -1)
    ensures Shows(s, s', n, -1, t, -1)
    ensures HubStays(s, s') <== HubOk(s)
  {
    StopFinishEdits(s.sh, n, s.stops[t].gen);
    assert HoldsGen(s, n, s.stops[t].gen, ByStop(t));
  }

  lemma StopReturnKeeps(s: State, s': State, t: nat)
    requires Inv(s) && Enabled(s, StopReturns(t)) && s' == DoStopReturn(s, t)
    ensures Inv(s')
  {
    var n := s.stops[t].n;
    LaneOf(s, n);
    StopReturnShows(s, s', n, t);
    StreamStep(s, s', n, None, {}, {}, -1, t, -1);
  }

  // ---- startStream's entry and re-entry

  /** What a section needs to know of the session. */
  ghost predicate Ground(s: State) {
    && |s.ctxs| == s.sh.contexts
    && (s.sh.connected <==> s.sh.conn.Some?)
    && (s.sh.conn.Some? ==> s.sh.conn.value < Published(s))
    && (forall x :: x in s.sh.cancelled ==> x < |s.ctxs|)
  }

  lemma StartWithin(s: State, s': State, n: StreamId)
    requires LaneOk(s, n) && Ground(s) && s' == DoStart(s, n) && !StartEnter(s.sh, n).1.StartReturned?
    ensures Within(s, s', n, s.sh.conn, {}, CtxOf(At(s.sh, n)), |s.starts|, -1, -1)
  {
    StartEdits(s.sh, n);
  }

  lemma StartHub(s: State, s': State, n: StreamId)
    requires s' == DoStart(s, n) && HubOk(s)
    ensures HubStays(s, s')
  {
  }

  /** What a dial decision makes of the stream. */
  lemma DialFacts(sh: Shared, n: StreamId)
    requires sh.conn.Some? ==> sh.conn.value < |sh.conns|
    ensures var (sh', out) := DialDecision(sh, n);
            && sh'.conn == sh.conn
            && (out.StartDial? ==>
                  && At(sh', n) == At(sh, n).(gen := At(sh, n).gen + 1, cancel := Some(sh.contexts))
                  && out.gen == At(sh', n).gen && out.ctx == sh.contexts && sh.conn == Some(out.conn)
                  && (CurSlot(sh', n) == CurSlot(sh, n) || CurSlot(sh', n) == None))
  {
  }

  /** What startStream's entry makes of the stream. */
  lemma StartFacts(sh: Shared, n: StreamId)
    requires sh.conn.Some? ==> sh.conn.value < |sh.conns|
    ensures var (sh', out) := StartEnter(sh, n);
            && sh'.conn == sh.conn
            && (out.StartWait? ==>
                  && At(sh', n) == At(sh, n).(gen := At(sh, n).gen + 1, cancel := None)
                  && (!At(sh, n).active || !At(sh, n).running) && (At(sh, n).running || At(sh, n).done.Some?)
                  && out.gen == At(sh', n).gen && out.done == At(sh', n).done && out.session == sh.conn && CurSlot(sh', n) == None)
            && (out.StartDial? ==> !At(sh, n).running && At(sh, n).done == None && (sh', out) == DialDecision(sh, n))
  {
  }

  lemma StartOwns(s: State, s': State, n: StreamId)
    requires StreamOk(s, n) && Ground(s) && s' == DoStart(s, n) && !StartEnter(s.sh, n).1.StartReturned?
    ensures StreamOk(s', n)
  {
    StartFacts(s.sh, n);
    DialFacts(s.sh, n);
  }

  lemma StartShows(s: State, s': State, n: StreamId)
    requires LaneOk(s, n) && Ground(s) && s' == DoStart(s, n) && !StartEnter(s.sh, n).1.StartReturned?
    ensures Shows(s, s', n, |s.starts|, -1, -1)
  {
    StartOwns(s, s', n);
  }

  lemma StartKeeps(s: State, s': State, n: StreamId)
    requires Inv(s) && n != Control && s' == DoStart(s, n)
    ensures Inv(s')
  {
    LaneOf(s, n);
    if StartEnter(s.sh, n).1.StartReturned? {
      StartReturnedSame(s.sh, n);
    } else {
      StartWithin(s, s', n);
      StartHub(s, s', n);
      StartShows(s, s', n);
      StreamStep(s, s', n, s.sh.conn, {}, CtxOf(At(s.sh, n)), |s.starts|, -1, -1);
    }
  }

  lemma StartReturnedSame(sh: Shared, n: StreamId)
    requires StartEnter(sh, n).1.StartReturned?
    ensures StartEnter(sh, n).0 == sh
  {
  }

  lemma ResumeWithin(s: State, s': State, n: StreamId, t: nat)
    requires LaneOk(s, n) && Ground(s) && Enabled(s, StartResumes(t)) && n == s.starts[t].n && s' == DoResume(s, t)
    ensures Within(s, s', n, s.sh.conn, {}, CtxOf(At(s.sh, n)), t, -1, -1)
  {
    ResumeEdits(s.sh, n, s.starts[t].phase.session, s.starts[t].phase.gen);
  }

  lemma ResumeHub(s: State, s': State, t: nat)
    requires t < |s.starts| && s.starts[t].phase.Waiting? && s' == DoResume(s, t) && HubOk(s)
    ensures HubStays(s, s')
  {
  }

  lemma ResumeShows(s: State, s': State, n: StreamId, t: nat)
    requires LaneOk(s, n) && Ground(s) && Enabled(s, StartResumes(t)) && n == s.starts[t].n && s' == DoResume(s, t)
    ensures Shows(s, s', n, t, -1, -1)
  {
    assert StartOk(s, n, t, s.starts[t].phase);
  }

  lemma ResumeKeeps(s: State, s': State, t: nat)
    requires Inv(s) && Enabled(s, StartResumes(t)) && s' == DoResume(s, t)
    ensures Inv(s')
  {
    var n := s.starts[t].n;
    LaneOf(s, n);
    ResumeWithin(s, s', n, t);
    ResumeHub(s, s', t);
    ResumeShows(s, s', n, t);
    StreamStep(s, s', n, s.sh.conn, {}, CtxOf(At(s.sh, n)), t, -1, -1);
  }

  // ---- stopStream's entry

  lemma StopWithin(s: State, s': State, n: StreamId)
    requires LaneOk(s, n) && Ground(s) && s.sh.connected && s' == DoStop(s, n)
    ensures Within(s, s', n, s.sh.conn, {}, CtxOf(At(s.sh, n)), -1, |s.stops|, -1)
  {
    StopEdits(s.sh, n);
  }

  /** What stopStream's entry makes of the stream. */
  lemma StopFacts(sh: Shared, n: StreamId)
    requires sh.connected && (sh.conn.Some? ==> sh.conn.value < |sh.conns|)
    ensures var (sh', out) := StopEnter(sh, n); var st, st' := At(sh, n), At(sh', n);
            && sh'.conn == sh.conn
            && st' == st.(cancel := None, gen := st.gen + 1, active := false, hubGen := st'.hubGen)
            && (out.StopReturned? ==> !st.running && st.done == None && CurSlot(sh', n) == CurSlot(sh, n))
            && (out.StopWait? ==> out.gen == st'.gen && out.done == st'.done && CurSlot(sh', n) == None)
  {
  }

  lemma StopOwns(s: State, s': State, n: StreamId)
    requires StreamOk(s, n) && Ground(s) && s.sh.connected && s' == DoStop(s, n)
    ensures StreamOk(s', n)
  {
    StopFacts(s.sh, n);
  }

  lemma StopShows(s: State, s': State, n: StreamId)
    requires LaneOk(s, n) && Ground(s) && s.sh.connected && s' == DoStop(s, n)
    ensures Shows(s, s', n, -1, |s.stops|, -1)
  {
    StopOwns(s, s', n);
  }

  /** Stopping a screen ends the hub's session, or there is none of this connection. */
  lemma StopHub(s: State, s': State, n: StreamId)
    requires HubOk(s) && LaneOk(s, Screen) && s.sh.connected && s' == DoStop(s, n)
    ensures HubStays(s, s')
  {
    if s.sh.hub.active {
      var i := WorkerOf(s, s.sh.hub.gen);
      assert WorkerOk(s, Screen, i, s.workers[i]);
    }
  }

  lemma StopKeeps(s: State, s': State, n: StreamId)
    requires Inv(s) && n != Control && s' == DoStop(s, n)
    ensures Inv(s')
  {
    LaneOf(s, n);
    LaneOf(s, Screen);
    if s.sh.connected {
      StopWithin(s, s', n);
      StopShows(s, s', n);
      StopHub(s, s', n);
      StreamStep(s, s', n, s.sh.conn, {}, CtxOf(At(s.sh, n)), -1, |s.stops|, -1);
    }
  }
}
