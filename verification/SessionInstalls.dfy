/** The section of startStream that installs the dialled socket and launches the worker. */
module SessionInstalls {
  import opened Wrappers
  import opened Transport
  import opened SessionState
  import opened SessionEdits
  import opened SessionSystem
  import opened SessionInvariant
  import opened SessionFrames
  import opened SessionLanes

  function InstallOut(s: State, t: nat): InstallOutcome
    requires t < |s.starts| && s.starts[t].phase.Dialed?
  {
    var p := s.starts[t].phase;
    StartInstall(s.sh, s.starts[t].n, p.conn, p.gen, p.ctx, p.sock).1
  }

  // ---- a generation that was taken away: the socket is closed and nothing else

  lemma AbortWithin(s: State, s': State, n: StreamId, t: nat)
    requires LaneOk(s, n) && Ground(s) && Enabled(s, Installs(t)) && s' == DoInstall(s, t) && n == s.starts[t].n
    requires InstallOut(s, t).Aborted?
    ensures At(s'.sh, n) == At(s.sh, n) && s'.sh.hub == s.sh.hub && s'.owners == s.owners
    ensures var p := s.starts[t].phase;
            Within(s, s', n, None, if p.sock.Some? then {p.sock.value} else {}, {p.ctx}, t, -1, -1)
  {
    assert StartOk(s, n, t, s.starts[t].phase);
  }

  lemma AbortShows(s: State, s': State, n: StreamId, t: nat)
    requires LaneOk(s, n) && Ground(s) && Enabled(s, Installs(t)) && s' == DoInstall(s, t) && n == s.starts[t].n
    requires InstallOut(s, t).Aborted?
    ensures Shows(s, s', n, t, -1, -1)
  {
    assert StartOk(s, n, t, s.starts[t].phase);
  }

  // ---- a launch

  /** A worker of stream `n` took over from the start `t`. */
  ghost predicate Hired(s: State, s': State, n: StreamId, t: nat, w: Worker) {
    && t < |s.starts| && s.starts[t].n == n && s'.starts == s.starts[t := Start(n, Over)]
    && s'.stops == s.stops && s'.connect == s.connect && s'.discs == s.discs && s'.ctxs == s.ctxs
    && s'.workers == s.workers + [w]
    && w.n == n && w.phase == Working
    && n in s.owners && s.owners[n] == ByStart(t) && s'.owners == s.owners[n := ByWorker(|s.workers|)]
    && w.sock.Some? && w.sock.value < |s.users| && s.users[w.sock.value] == UStart(n, t)
    && s'.users == s.users[w.sock.value := UWorker(n, |s.workers|)]
    && s.sh.conn == Some(w.conn) && w.conn < |s.sh.conns| && !s.sh.conns[w.conn].closed
    && SlotOn(s.sh, w.conn, n) == None
    && s'.sh.conns == s.sh.conns[w.conn := Conn(false, s.sh.conns[w.conn].slots[n := w.sock.value])]
    && s'.sh.closed == s.sh.closed && s'.sh.cancelled == s.sh.cancelled && s'.sh.contexts == s.sh.contexts
    && s'.sh.launched == s.sh.launched + 1
    && s'.sh.conn == s.sh.conn && s'.sh.connected == s.sh.connected && s'.sh.connectCancel == s.sh.connectCancel
    && (forall m :: m != n ==> At(s'.sh, m) == At(s.sh, m))
    && At(s'.sh, n) == At(s.sh, n).(running := true, active := true, done := Some(|s.workers|),
                                    hubGen := if n == Screen then w.hubGen else At(s.sh, n).hubGen)
    && At(s.sh, n).done == None && At(s.sh, n).gen == w.gen
    && w.ctx < |s.ctxs| && s.ctxs[w.ctx] == CtxStream(n, w.gen)
  }

  lemma LaunchHires(s: State, s': State, n: StreamId, t: nat)
    requires SessionOk(s) && LaneOk(s, n) && Enabled(s, Installs(t)) && s' == DoInstall(s, t) && n == s.starts[t].n
    requires !InstallOut(s, t).Aborted?
    ensures InstallOut(s, t).Launched?
    ensures |s'.workers| == |s.workers| + 1
    ensures Hired(s, s', n, t, s'.workers[|s.workers|])
    ensures s'.workers[|s.workers|].hubGen == (if n == Screen then s.sh.hub.gen + 1 else 0)
  {
    assert StartOk(s, n, t, s.starts[t].phase);
    assert n in Media;
  }

  lemma HiredSlots(s: State, s': State, n: StreamId, t: nat, w: Worker, m: StreamId)
    requires Hired(s, s', n, t, w) && m != n
    ensures forall c :: 0 <= c < |s.sh.conns| ==> SlotOn(s'.sh, c, m) == SlotOn(s.sh, c, m)
  {
  }

  lemma HiredWho(s: State, s': State, n: StreamId, t: nat, w: Worker, m: StreamId)
    requires Hired(s, s', n, t, w) && m != n
    ensures forall j :: 0 <= j < |s'.starts| && s'.starts[j].n == m ==> j < |s.starts| && s.starts[j] == s'.starts[j]
    ensures forall j :: 0 <= j < |s.starts| && s.starts[j].n == m ==> s'.starts[j] == s.starts[j]
    ensures forall i :: 0 <= i < |s'.workers| && s'.workers[i].n == m ==> i < |s.workers| && s.workers[i].n == m
    ensures forall i :: 0 <= i < |s.workers| ==> s'.workers[i] == s.workers[i]
    ensures forall v :: 0 <= v < |s.users| && ForLane(s.users[v], m) ==> s'.users[v] == s.users[v]
  {
  }

  lemma HiredOther(s: State, s': State, n: StreamId, t: nat, w: Worker, m: StreamId)
    requires Hired(s, s', n, t, w) && m in s.owners && m != n
    ensures SameLane(s, s', m)
  {
    HiredSlots(s, s', n, t, w, m);
    HiredWho(s, s', n, t, w, m);
  }

  lemma HiredSession(s: State, s': State, n: StreamId, t: nat, w: Worker)
    requires Hired(s, s', n, t, w) && SessionOk(s) && n != Control
    ensures KeepsSession(s, s')
  {
  }

  lemma HiredStream(s: State, s': State, n: StreamId, t: nat, w: Worker)
    requires Hired(s, s', n, t, w) && LaneOk(s, n) && w.conn < Published(s)
    ensures StreamOk(s', n) && WorkerOk(s', n, |s.workers|, w)
  {
  }

  lemma HiredStarts(s: State, s': State, n: StreamId, t: nat, w: Worker, j: nat)
    requires Hired(s, s', n, t, w) && j < |s.starts| && s.starts[j].n == n && StartOk(s, n, j, s.starts[j].phase)
    ensures StartOk(s', n, j, s'.starts[j].phase)
  {
  }

  lemma HiredWorkers(s: State, s': State, n: StreamId, t: nat, w: Worker, i: nat)
    requires Hired(s, s', n, t, w) && i < |s.workers| && s.workers[i].n == n && WorkerOk(s, n, i, s.workers[i])
    ensures WorkerOk(s', n, i, s'.workers[i])
  {
  }

  lemma HiredOccupants(s: State, s': State, n: StreamId, t: nat, w: Worker, c: nat)
    requires Hired(s, s', n, t, w) && c < |s'.sh.conns| && SlotOn(s'.sh, c, n).Some?
    requires c != w.conn ==> OccupantOk(s, n, c, SlotOn(s.sh, c, n).value)
    ensures OccupantOk(s', n, c, SlotOn(s'.sh, c, n).value)
  {
  }

  lemma HiredLane(s: State, s': State, n: StreamId, t: nat, w: Worker)
    requires Hired(s, s', n, t, w) && LaneOk(s, n) && w.conn < Published(s)
    ensures LaneOk(s', n)
  {
    HiredStream(s, s', n, t, w);
    forall j | 0 <= j < |s'.starts| && s'.starts[j].n == n
      ensures StartOk(s', n, j, s'.starts[j].phase)
    {
      HiredStarts(s, s', n, t, w, j);
    }
    forall i | 0 <= i < |s'.workers| && s'.workers[i].n == n
      ensures WorkerOk(s', n, i, s'.workers[i])
    {
      if i < |s.workers| { HiredWorkers(s, s', n, t, w, i); }
    }
    forall c | 0 <= c < |s'.sh.conns| && SlotOn(s'.sh, c, n).Some?
      ensures OccupantOk(s', n, c, SlotOn(s'.sh, c, n).value)
    {
      if c != w.conn { assert OccupantOk(s, n, c, SlotOn(s.sh, c, n).value); }
      HiredOccupants(s, s', n, t, w, c);
    }
  }

  // ---- the control part of a launch

  lemma MediaControl(s: State, s': State, n: StreamId, t: nat, w: Worker)
    requires Hired(s, s', n, t, w) && HubOk(s) && n != Screen && n != Control
    requires s'.sh.hub == s.sh.hub && s'.sh.token == s.sh.token && s'.reconnects == s.reconnects
    ensures SameControl(s, s') && HubStays(s, s')
  {
  }

  /** A screen's launch opens a hub session, a token and a reconnect. */
  ghost predicate OpensSession(s: State, s': State, w: Worker) {
    && w.hubGen == s.sh.hub.gen + 1
    && s'.sh.hub == HubLife(true, w.hubGen, None)
    && s'.sh.token == Some(w.Tok())
    && s'.reconnects == s.reconnects + [Reconnect(|s.workers|, w.Tok(), w.ctx, Checking)]
  }

  /** No screen worker of this connection still has control when the next one is launched. */
  lemma ControlIsFree(s: State, s': State, t: nat, w: Worker)
    requires Hired(s, s', Screen, t, w) && LaneOk(s, Screen) && TokenHeld(s) && (CurSlot(s.sh, Control).Some? ==> s.sh.token.Some?)
    requires s.sh.token.Some? ==> ReconnectOk(s, s.sh.token.value.hubGen - 1, s.reconnects[s.sh.token.value.hubGen - 1])
    ensures s.sh.token == None && SlotOn(s.sh, w.conn, Control) == None
    ensures forall i :: 0 <= i < |s.workers| && s.workers[i].n == Screen && s.workers[i].conn == w.conn
                        ==> s.workers[i].phase == Finished
  {
    forall i | 0 <= i < |s.workers| && s.workers[i].n == Screen && s.workers[i].conn == w.conn
      ensures s.workers[i].phase == Finished
    {
      assert WorkerOk(s, Screen, i, s.workers[i]);
    }
  }

  lemma OpensReconnects(s: State, s': State, t: nat, w: Worker)
    requires Hired(s, s', Screen, t, w) && OpensSession(s, s', w) && ReconnectsOk(s) && w.conn < Published(s)
    requires SlotOn(s.sh, w.conn, Control) == None
    ensures ReconnectsOk(s')
  {
    forall k | 0 <= k < |s'.reconnects|
      ensures ReconnectOk(s', k, s'.reconnects[k])
    {
      if k < |s.reconnects| { OldReconnect(s, s', t, w, k); }
    }
  }

  lemma OldReconnect(s: State, s': State, t: nat, w: Worker, k: nat)
    requires Hired(s, s', Screen, t, w) && OpensSession(s, s', w)
    requires |s.reconnects| == s.sh.hub.gen && k < |s.reconnects| && ReconnectOk(s, k, s.reconnects[k])
    ensures ReconnectOk(s', k, s'.reconnects[k])
  {
  }

  lemma OpensToken(s: State, s': State, t: nat, w: Worker)
    requires Hired(s, s', Screen, t, w) && OpensSession(s, s', w) && TokenOk(s) && |s.reconnects| == s.sh.hub.gen
    requires forall i :: 0 <= i < |s.workers| && s.workers[i].n == Screen && s.workers[i].conn == w.conn
                         ==> s.workers[i].phase == Finished
    ensures TokenOk(s') && HubOk(s')
  {
    assert CurSlot(s'.sh, Control) == CurSlot(s.sh, Control);
    forall i | 0 <= i < |s'.workers| && s'.workers[i].n == Screen
      ensures ScreenWorkerOk(s', i, s'.workers[i])
    {
      if i < |s.workers| { assert ScreenWorkerOk(s, i, s.workers[i]); }
    }
    forall c | 0 <= c < |s'.sh.conns| && SlotOn(s'.sh, c, Control).Some?
      ensures ControlOccupantOk(s', c, SlotOn(s'.sh, c, Control).value)
    {
      assert ControlOccupantOk(s, c, SlotOn(s.sh, c, Control).value);
    }
  }

  lemma LaunchControl(s: State, s': State, n: StreamId, t: nat, w: Worker)
    requires Hired(s, s', n, t, w) && LaneOk(s, n) && ControlOk(s) && w.conn < Published(s) && n != Control
    requires if n == Screen then OpensSession(s, s', w)
             else s'.sh.hub == s.sh.hub && s'.sh.token == s.sh.token && s'.reconnects == s.reconnects
    ensures ControlOk(s')
  {
    if n == Screen {
      if s.sh.token.Some? {
        var k := s.sh.token.value.hubGen - 1;
        assert ReconnectOk(s, k, s.reconnects[k]);
      }
      ControlIsFree(s, s', t, w);
      OpensReconnects(s, s', t, w);
      OpensToken(s, s', t, w);
    } else {
      MediaControl(s, s', n, t, w);
      ControlCarries(s, s');
    }
  }

  lemma LaunchOpens(s: State, s': State, n: StreamId, t: nat)
    requires Enabled(s, Installs(t)) && s' == DoInstall(s, t) && n == s.starts[t].n && InstallOut(s, t).Launched?
    requires |s'.workers| == |s.workers| + 1
    requires |s.workers| == s.sh.launched
    ensures if n == Screen then OpensSession(s, s', s'.workers[|s.workers|])
            else s'.sh.hub == s.sh.hub && s'.sh.token == s.sh.token && s'.reconnects == s.reconnects
  {
  }

  lemma LaunchKeeps(s: State, s': State, t: nat)
    requires Inv(s) && Enabled(s, Installs(t)) && s' == DoInstall(s, t) && !InstallOut(s, t).Aborted?
    ensures Inv(s')
  {
    var n := s.starts[t].n;
    LaneOf(s, n);
    LaunchHires(s, s', n, t);
    var w := s'.workers[|s.workers|];
    LaunchOpens(s, s', n, t);
    LaunchControl(s, s', n, t, w);
    HiredLane(s, s', n, t, w);
    HiredSession(s, s', n, t, w);
    OwnersCover(s);
    forall m | m in Media && m != n
      ensures SameLane(s, s', m)
    {
      HiredOther(s, s', n, t, w, m);
    }
    LaneStep(s, s', n);
  }

  lemma AbortHub(s: State, s': State, t: nat)
    requires HubOk(s) && Enabled(s, Installs(t)) && s' == DoInstall(s, t) && InstallOut(s, t).Aborted?
    requires s'.sh.hub == s.sh.hub && At(s'.sh, s.starts[t].n) == At(s.sh, s.starts[t].n)
    ensures |s'.workers| == |s.workers| && RankStays(s, s') && HubStays(s, s')
  {
  }

  lemma InstallKeeps(s: State, s': State, t: nat)
    requires Inv(s) && Enabled(s, Installs(t)) && s' == DoInstall(s, t)
    ensures Inv(s')
  {
    var n := s.starts[t].n;
    LaneOf(s, n);
    if InstallOut(s, t).Aborted? {
      var p := s.starts[t].phase;
      AbortWithin(s, s', n, t);
      AbortShows(s, s', n, t);
      AbortHub(s, s', t);
      StreamStep(s, s', n, None, if p.sock.Some? then {p.sock.value} else {}, {p.ctx}, t, -1, -1);
    } else {
      LaunchKeeps(s, s', t);
    }
  }
}
