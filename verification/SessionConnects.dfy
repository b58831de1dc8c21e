/** The close and the return of Disconnect, and Connect, keep the invariant. */
module SessionConnects {
  import opened Wrappers
  import opened Transport
  import opened SessionState
  import opened SessionSystem
  import opened SessionInvariant
  import opened SessionFrames
  import opened SessionDisconnects

  // ---- the close of a detached connection

  /** A connection that is neither current nor waiting to be published lost all its sockets. */
  ghost predicate Drains(s: State, s': State, c: nat) {
    && c < Published(s) && s.sh.conn != Some(c)
    && s' == s.(sh := s.sh.(conns := s'.sh.conns, closed := s'.sh.closed), discs := s'.discs)
    && |s'.sh.conns| == |s.sh.conns|
    && s'.sh.conns == s.sh.conns[c := Conn(true, map[])]
    && (forall v :: v in s'.sh.closed <==> v in s.sh.closed || exists m :: SlotOn(s.sh, c, m) == Some(v))
  }

  /** Nobody's dialled but uninstalled socket is in a slot. */
  lemma DrainedSocket(s: State, s': State, c: nat, v: nat)
    requires Drains(s, s', c) && LanesOk(s)
    requires forall k :: 0 <= k < |s.sh.conns| && SlotOn(s.sh, k, Control).Some? ==> ControlOccupantOk(s, k, SlotOn(s.sh, k, Control).value)
    requires v in s'.sh.closed && v !in s.sh.closed
    ensures v < |s.users| && !s.users[v].UStart?
    ensures s.users[v].UReconnect? ==> SlotOn(s.sh, c, Control) == Some(v)
  {
    var m :| SlotOn(s.sh, c, m) == Some(v);
    if m != Control {
      assert LaneOk(s, m);
      assert OccupantOk(s, m, c, v);
    }
  }

  lemma DrainsSockets(s: State, s': State, c: nat)
    requires Drains(s, s', c) && LanesOk(s)
    requires forall k :: 0 <= k < |s.sh.conns| && SlotOn(s.sh, k, Control).Some? ==> ControlOccupantOk(s, k, SlotOn(s.sh, k, Control).value)
    ensures forall v :: v in s'.sh.closed && v !in s.sh.closed ==> v < |s.users| && !s.users[v].UStart?
    ensures forall v :: v in s'.sh.closed && v !in s.sh.closed && s.users[v].UReconnect? ==> SlotOn(s.sh, c, Control) == Some(v)
  {
    forall v | v in s'.sh.closed && v !in s.sh.closed
      ensures v < |s.users| && !s.users[v].UStart?
      ensures s.users[v].UReconnect? ==> SlotOn(s.sh, c, Control) == Some(v)
    {
      DrainedSocket(s, s', c, v);
    }
  }

  ghost predicate NoStartsClosed(s: State, s': State) {
    forall v :: v in s'.sh.closed && v !in s.sh.closed ==> v < |s.users| && !s.users[v].UStart?
  }

  lemma DrainsStream(s: State, s': State, c: nat, n: StreamId)
    requires Drains(s, s', c) && StreamOk(s, n)
    ensures StreamOk(s', n)
  {
    assert CurSlot(s'.sh, n) == CurSlot(s.sh, n);
  }

  lemma DrainsLane(s: State, s': State, c: nat, n: StreamId)
    requires Drains(s, s', c) && LaneOk(s, n) && NoStartsClosed(s, s')
    ensures LaneOk(s', n)
  {
    DrainsStream(s, s', c, n);
    DrainsTouches(s, s', c, n);
    LaneRebuilt(s, s', n, -1, -1, -1);
  }

  lemma DrainsTouches(s: State, s': State, c: nat, n: StreamId)
    requires Drains(s, s', c) && n in s.owners && NoStartsClosed(s, s')
    ensures Touches(s, s', n, -1, -1, -1)
  {
  }

  lemma DrainsReconnect(s: State, s': State, c: nat, k: nat)
    requires Drains(s, s', c) && k < |s.reconnects| && ReconnectOk(s, k, s.reconnects[k])
    requires s.sh.token == Some(s.reconnects[k].tok) ==> s.sh.conn == Some(s.reconnects[k].tok.conn)
    requires forall v :: v in s'.sh.closed && v !in s.sh.closed ==> v < |s.users|
    requires forall v :: v in s'.sh.closed && v !in s.sh.closed && s.users[v].UReconnect? ==> SlotOn(s.sh, c, Control) == Some(v)
    requires forall b :: 0 <= b < |s.sh.conns| && SlotOn(s.sh, b, Control).Some? ==> ControlOccupantOk(s, b, SlotOn(s.sh, b, Control).value)
    ensures ReconnectOk(s', k, s'.reconnects[k])
  {
  }

  lemma DrainsReconnects(s: State, s': State, c: nat)
    requires Drains(s, s', c) && ReconnectsOk(s) && TokenOk(s)
    requires forall v :: v in s'.sh.closed && v !in s.sh.closed ==> v < |s.users|
    requires forall v :: v in s'.sh.closed && v !in s.sh.closed && s.users[v].UReconnect? ==> SlotOn(s.sh, c, Control) == Some(v)
    ensures ReconnectsOk(s')
  {
    forall k | 0 <= k < |s'.reconnects|
      ensures ReconnectOk(s', k, s'.reconnects[k])
    {
      assert ReconnectOk(s, k, s.reconnects[k]);
      DrainsReconnect(s, s', c, k);
    }
  }

  lemma DrainsToken(s: State, s': State, c: nat)
    requires Drains(s, s', c) && TokenOk(s)
    requires forall v :: v in s'.sh.closed && v !in s.sh.closed ==> v < |s.users|
    requires forall v :: v in s'.sh.closed && v !in s.sh.closed && s.users[v].UReconnect? ==> SlotOn(s.sh, c, Control) == Some(v)
    ensures TokenOk(s')
  {
    assert CurSlot(s'.sh, Control) == CurSlot(s.sh, Control);
    forall j | 0 <= j < |s'.workers| && s'.workers[j].n == Screen
      ensures ScreenWorkerOk(s', j, s'.workers[j])
    {
      assert ScreenWorkerOk(s, j, s.workers[j]);
    }
    forall b | 0 <= b < |s'.sh.conns| && SlotOn(s'.sh, b, Control).Some?
      ensures ControlOccupantOk(s', b, SlotOn(s'.sh, b, Control).value)
    {
      assert ControlOccupantOk(s, b, SlotOn(s.sh, b, Control).value);
    }
  }

  lemma DrainsSession(s: State, s': State, d: nat)
    requires SessionOk(s) && RetiredOk(s) && d < |s.discs| && s.discs[d].conn.Some?
    requires Drains(s, s', s.discs[d].conn.value)
    requires s'.discs == s.discs[d := s.discs[d].(phase := Joining)]
    requires forall v :: v in s'.sh.closed && v !in s.sh.closed ==> v < |s.users|
    ensures SessionOk(s') && RetiredOk(s')
  {
    forall b | 0 <= b < Published(s') && s'.sh.conn != Some(b)
      ensures s'.sh.conns[b].closed || Closer(s', b)
    {
      if s.discs[d].conn != Some(b) {
        assert s.sh.conns[b].closed || Closer(s, b);
        if Closer(s, b) {
          var e :| 0 <= e < |s.discs| && s.discs[e].conn == Some(b) && s.discs[e].phase == Closing;
          assert s'.discs[e] == s.discs[e];
        }
      }
    }
  }

  lemma CloseDrains(s: State, s': State, c: nat)
    requires c < Published(s) && s.sh.conn != Some(c)
    requires s.sh.conns[c].closed ==> s.sh.conns[c].slots == map[]
    requires s' == s.(sh := CloseConnection(s.sh, Some(c)), discs := s'.discs)
    ensures Drains(s, s', c)
  {
    var slots := s.sh.conns[c].slots;
    if s.sh.conns[c].closed {
      assert s.sh.conns[c] == Conn(true, map[]);
    }
    forall v | v in slots.Values
      ensures exists m :: SlotOn(s.sh, c, m) == Some(v)
    {
      var m :| m in slots && slots[m] == v;
      assert SlotOn(s.sh, c, m) == Some(v);
    }
  }

  lemma DrainsKeeps(s: State, s': State, d: nat)
    requires Inv(s) && d < |s.discs| && s.discs[d].conn.Some?
    requires Drains(s, s', s.discs[d].conn.value) && s'.discs == s.discs[d := s.discs[d].(phase := Joining)]
    ensures Inv(s')
  {
    var c := s.discs[d].conn.value;
    DrainsSockets(s, s', c);
    DrainsSession(s, s', d);
    DrainsReconnects(s, s', c);
    DrainsToken(s, s', c);
    forall m | m in Media
      ensures LaneOk(s', m)
    {
      assert LaneOk(s, m);
      DrainsLane(s, s', c, m);
    }
  }

  lemma DisconnectClosesKeeps(s: State, s': State, d: nat)
    requires Inv(s) && d < |s.discs| && s.discs[d].phase == Closing && s' == DoDisconnectClose(s, d)
    ensures Inv(s')
  {
    assert s.discs[d].conn.Some?;
    CloseDrains(s, s', s.discs[d].conn.value);
    DrainsKeeps(s, s', d);
  }

  lemma DisconnectReturnsKeeps(s: State, s': State, d: nat)
    requires Inv(s) && d < |s.discs| && s.discs[d].phase == Joining
    requires s' == s.(discs := s.discs[d := s.discs[d].(phase := Left)])
    ensures Inv(s')
  {
    OwnersCover(s);
    assert SameControl(s, s') && HubStays(s, s');
    ControlCarries(s, s');
    forall m | m in Media
      ensures LaneOk(s', m)
    {
      assert LaneOk(s, m);
      assert SameLane(s, s', m);
      LaneCarries(s, s', m);
    }
    ReturnsSession(s, s', d);
  }

  lemma ReturnsSession(s: State, s': State, d: nat)
    requires SessionOk(s) && RetiredOk(s) && d < |s.discs| && s.discs[d].phase == Joining
    requires s' == s.(discs := s.discs[d := s.discs[d].(phase := Left)])
    ensures SessionOk(s') && RetiredOk(s')
  {
    forall b | 0 <= b < Published(s') && s'.sh.conn != Some(b)
      ensures s'.sh.conns[b].closed || Closer(s', b)
    {
      assert s.sh.conns[b].closed || Closer(s, b);
      if Closer(s, b) {
        var e :| 0 <= e < |s.discs| && s.discs[e].conn == Some(b) && s.discs[e].phase == Closing;
        assert s'.discs[e] == s.discs[e];
      }
    }
  }

  // ---- Connect

  lemma ConnectCallKeeps(s: State, s': State)
    requires Inv(s) && s.connect == Idle && s' == DoConnect(s)
    ensures Inv(s')
  {
    ConnectOnlyKeeps(s, s');
  }

  lemma ConnectDialsKeeps(s: State, s': State)
    requires Inv(s) && s.connect.AfterDisconnect? && s' == DoConnectBegin(s)
    ensures Inv(s')
  {
    ConnectOnlyKeeps(s, s');
  }

  lemma ConnectDialFailsKeeps(s: State, s': State)
    requires Inv(s) && s.connect.Connecting? && s' == s.(sh := ConnectFailed(s.sh, s.connect.gen), connect := Idle)
    ensures Inv(s')
  {
    ConnectOnlyKeeps(s, s');
  }

  /** A new connection with the speaker's socket stands at the end of the table. */
  ghost predicate Dials(s: State, s': State) {
    && s.connect.Connecting?
    && s' == s.(sh := s.sh.(conns := s.sh.conns + [Conn(false, map[Speaker := |s.users|])]), users := s.users + [UConnect],
                connect := Connected(s.connect.gen, s.connect.ctx, |s.sh.conns|))
  }

  lemma DialsStream(s: State, s': State, n: StreamId)
    requires Dials(s, s') && StreamOk(s, n) && (s.sh.conn.Some? ==> s.sh.conn.value < |s.sh.conns|)
    ensures StreamOk(s', n)
  {
    assert CurSlot(s'.sh, n) == CurSlot(s.sh, n);
  }

  lemma DialsWorker(s: State, s': State, n: StreamId, i: nat)
    requires Dials(s, s') && i < |s.workers| && WorkerOk(s, n, i, s.workers[i])
    ensures WorkerOk(s', n, i, s'.workers[i])
  {
  }

  lemma DialsStart(s: State, s': State, n: StreamId, t: nat)
    requires Dials(s, s') && t < |s.starts| && StartOk(s, n, t, s.starts[t].phase)
    ensures StartOk(s', n, t, s'.starts[t].phase)
  {
  }

  lemma DialsOccupant(s: State, s': State, n: StreamId, b: nat)
    requires Dials(s, s') && b < |s'.sh.conns| && SlotOn(s'.sh, b, n).Some?
    requires b < |s.sh.conns| ==> OccupantOk(s, n, b, SlotOn(s.sh, b, n).value)
    ensures OccupantOk(s', n, b, SlotOn(s'.sh, b, n).value)
  {
  }

  lemma DialsLane(s: State, s': State, n: StreamId)
    requires Dials(s, s') && LaneOk(s, n) && (s.sh.conn.Some? ==> s.sh.conn.value < |s.sh.conns|)
    ensures LaneOk(s', n)
  {
    DialsStream(s, s', n);
    forall t | 0 <= t < |s'.starts| && s'.starts[t].n == n
      ensures StartOk(s', n, t, s'.starts[t].phase)
    {
      DialsStart(s, s', n, t);
    }
    forall i | 0 <= i < |s'.workers| && s'.workers[i].n == n
      ensures WorkerOk(s', n, i, s'.workers[i])
    {
      DialsWorker(s, s', n, i);
    }
    forall b | 0 <= b < |s'.sh.conns| && SlotOn(s'.sh, b, n).Some?
      ensures OccupantOk(s', n, b, SlotOn(s'.sh, b, n).value)
    {
      if b < |s.sh.conns| { assert OccupantOk(s, n, b, SlotOn(s.sh, b, n).value); }
      DialsOccupant(s, s', n, b);
    }
  }

  lemma DialsReconnects(s: State, s': State)
    requires Dials(s, s') && ReconnectsOk(s)
    requires forall v :: v in s.sh.closed ==> v < |s.users|
    ensures ReconnectsOk(s')
  {
    forall k | 0 <= k < |s'.reconnects|
      ensures ReconnectOk(s', k, s'.reconnects[k])
    {
      assert ReconnectOk(s, k, s.reconnects[k]);
    }
  }

  lemma DialsToken(s: State, s': State)
    requires Dials(s, s') && TokenOk(s) && (s.sh.conn.Some? ==> s.sh.conn.value < |s.sh.conns|)
    ensures TokenOk(s')
  {
    assert CurSlot(s'.sh, Control) == CurSlot(s.sh, Control);
    forall j | 0 <= j < |s'.workers| && s'.workers[j].n == Screen
      ensures ScreenWorkerOk(s', j, s'.workers[j])
    {
      assert ScreenWorkerOk(s, j, s.workers[j]);
    }
    forall b | 0 <= b < |s'.sh.conns| && SlotOn(s'.sh, b, Control).Some?
      ensures ControlOccupantOk(s', b, SlotOn(s'.sh, b, Control).value)
    {
      assert ControlOccupantOk(s, b, SlotOn(s.sh, b, Control).value);
    }
  }

  lemma DialsSession(s: State, s': State)
    requires Dials(s, s') && SessionOk(s) && RetiredOk(s)
    ensures SessionOk(s') && RetiredOk(s')
  {
    forall c | 0 <= c < Published(s') && s'.sh.conn != Some(c)
      ensures s'.sh.conns[c].closed || Closer(s', c)
    {
      assert s.sh.conns[c].closed || Closer(s, c);
    }
  }

  lemma ConnectDialOkKeeps(s: State, s': State)
    requires Inv(s) && s.connect.Connecting? && s' == DoConnectDialOk(s)
    ensures Inv(s')
  {
    assert Dials(s, s');
    DialsSession(s, s');
    DialsReconnects(s, s');
    DialsToken(s, s');
    forall m | m in Media
      ensures LaneOk(s', m)
    {
      assert LaneOk(s, m);
      DialsLane(s, s', m);
    }
  }

  // ---- Connect gives up its connection

  /** The pending connection, the last of the table, was closed: it is now a retired one. */
  ghost predicate Discards(s: State, s': State) {
    && s.connect.Connected? && PendingOk(s, s.connect.conn)
    && s' == s.(sh := s.sh.(conns := s'.sh.conns, closed := s'.sh.closed), connect := Idle)
    && |s'.sh.conns| == |s.sh.conns|
    && s'.sh.conns == s.sh.conns[s.connect.conn := Conn(true, map[])]
    && s'.sh.closed == s.sh.closed + {s.sh.conns[s.connect.conn].slots[Speaker]}
  }

  lemma DiscardsStream(s: State, s': State, n: StreamId)
    requires Discards(s, s') && StreamOk(s, n)
    requires s.sh.conn == None
    ensures StreamOk(s', n)
  {
    assert CurSlot(s'.sh, n) == CurSlot(s.sh, n);
  }

  lemma DiscardsStart(s: State, s': State, n: StreamId, t: nat)
    requires Discards(s, s')
    requires t < |s.starts| && StartOk(s, n, t, s.starts[t].phase)
    ensures StartOk(s', n, t, s'.starts[t].phase)
  {
  }

  lemma DiscardsWorker(s: State, s': State, n: StreamId, i: nat)
    requires Discards(s, s')
    requires i < |s.workers| && WorkerOk(s, n, i, s.workers[i])
    ensures WorkerOk(s', n, i, s'.workers[i])
  {
  }

  lemma DiscardsOccupant(s: State, s': State, n: StreamId, b: nat)
    requires Discards(s, s')
    requires b < |s'.sh.conns| && SlotOn(s'.sh, b, n).Some? && SlotOn(s.sh, b, n).Some? && OccupantOk(s, n, b, SlotOn(s.sh, b, n).value)
    ensures OccupantOk(s', n, b, SlotOn(s'.sh, b, n).value)
  {
  }

  lemma DiscardsLane(s: State, s': State, n: StreamId)
    requires Discards(s, s') && LaneOk(s, n) && s.sh.conn == None
    ensures LaneOk(s', n)
  {
    DiscardsStream(s, s', n);
    forall t | 0 <= t < |s'.starts| && s'.starts[t].n == n
      ensures StartOk(s', n, t, s'.starts[t].phase)
    {
      DiscardsStart(s, s', n, t);
    }
    forall i | 0 <= i < |s'.workers| && s'.workers[i].n == n
      ensures WorkerOk(s', n, i, s'.workers[i])
    {
      DiscardsWorker(s, s', n, i);
    }
    forall b | 0 <= b < |s'.sh.conns| && SlotOn(s'.sh, b, n).Some?
      ensures OccupantOk(s', n, b, SlotOn(s'.sh, b, n).value)
    {
      assert SlotOn(s.sh, b, n) == SlotOn(s'.sh, b, n);
      assert OccupantOk(s, n, b, SlotOn(s.sh, b, n).value);
      DiscardsOccupant(s, s', n, b);
    }
  }

  lemma DiscardsControl(s: State, s': State)
    requires Discards(s, s') && s.sh.conn == None
    requires ReconnectsOk(s) && TokenOk(s) && HubOk(s)
    ensures ControlOk(s')
  {
    DiscardsReconnects(s, s');
    DiscardsToken(s, s');
    HubCarries(s, s');
  }

  lemma DiscardsReconnects(s: State, s': State)
    requires Discards(s, s') && s.sh.conn == None && ReconnectsOk(s) && TokenHeld(s)
    ensures ReconnectsOk(s')
  {
    forall k | 0 <= k < |s'.reconnects|
      ensures ReconnectOk(s', k, s'.reconnects[k])
    {
      assert ReconnectOk(s, k, s.reconnects[k]);
    }
  }

  lemma DiscardsToken(s: State, s': State)
    requires Discards(s, s') && s.sh.conn == None && TokenOk(s)
    ensures TokenOk(s')
  {
    forall j | 0 <= j < |s'.workers| && s'.workers[j].n == Screen
      ensures ScreenWorkerOk(s', j, s'.workers[j])
    {
      assert ScreenWorkerOk(s, j, s.workers[j]);
    }
    forall b | 0 <= b < |s'.sh.conns| && SlotOn(s'.sh, b, Control).Some?
      ensures ControlOccupantOk(s', b, SlotOn(s'.sh, b, Control).value)
    {
      assert SlotOn(s.sh, b, Control) == SlotOn(s'.sh, b, Control);
      assert ControlOccupantOk(s, b, SlotOn(s.sh, b, Control).value);
    }
  }

  lemma DiscardsSession(s: State, s': State)
    requires Discards(s, s') && s.sh.conn == None
    requires SessionOk(s) && RetiredOk(s)
    ensures SessionOk(s') && RetiredOk(s')
  {
    forall c | 0 <= c < Published(s') && s'.sh.conn != Some(c)
      ensures s'.sh.conns[c].closed || Closer(s', c)
    {
      if c != s.connect.conn { assert s.sh.conns[c].closed || Closer(s, c); }
    }
  }

  lemma DiscardKeeps(s: State, s': State)
    requires Inv(s) && Discards(s, s')
    ensures Inv(s')
  {
    DiscardsSession(s, s');
    DiscardsControl(s, s');
    forall m | m in Media
      ensures LaneOk(s', m)
    {
      assert LaneOk(s, m);
      DiscardsLane(s, s', m);
    }
  }

  // ---- Connect publishes its connection and launches the speaker's worker

  /** The pending connection is current; the worker `w` of the speaker owns its socket. */
  ghost predicate Publishes(s: State, s': State, w: Worker) {
    && s.connect.Connected? && PendingOk(s, s.connect.conn) && s.sh.conn == None && s'.connect == Idle
    && s'.starts == s.starts && s'.stops == s.stops && s'.discs == s.discs && s'.reconnects == s.reconnects
    && s'.workers == s.workers + [w]
    && s'.ctxs == s.ctxs + [CtxStream(Speaker, w.gen)]
    && s'.owners == s.owners[Speaker := ByWorker(|s.workers|)]
    && w.n == Speaker && w.conn == s.connect.conn && w.gen == At(s.sh, Speaker).gen + 1 && w.ctx == |s.ctxs| && w.phase == Working
    && w.sock == Some(s.sh.conns[w.conn].slots[Speaker])
    && w.sock.value < |s.users| && s'.users == s.users[w.sock.value := UWorker(Speaker, |s.workers|)]
    && s'.sh.conn == Some(w.conn) && s'.sh.connected && s'.sh.connectCancel == None
    && s'.sh.conns == s.sh.conns && s'.sh.closed == s.sh.closed && s'.sh.cancelled == s.sh.cancelled
    && s'.sh.contexts == s.sh.contexts + 1 && s'.sh.launched == s.sh.launched + 1
    && s'.sh.token == s.sh.token && s'.sh.hub == s.sh.hub
    && (forall m :: m != Speaker ==> At(s'.sh, m) == At(s.sh, m))
    && At(s'.sh, Speaker) == At(s.sh, Speaker).(running := true, active := true, gen := w.gen, cancel := Some(|s.ctxs|),
                                                done := Some(|s.workers|))
  }

  lemma PublishShape(s: State, s': State)
    requires SessionOk(s) && s.connect.Connected? && s' == DoPublish(s)
    requires s.sh.connectGen == s.connect.gen && s.connect.ctx !in s.sh.cancelled
    ensures |s'.workers| == |s.workers| + 1 && Publishes(s, s', s'.workers[|s.workers|])
  {
  }

  lemma PublishedStream(s: State, s': State, w: Worker, n: StreamId)
    requires Publishes(s, s', w) && StreamOk(s, n)
    ensures StreamOk(s', n)
  {
  }

  lemma PublishedWorker(s: State, s': State, w: Worker, n: StreamId, i: nat)
    requires Publishes(s, s', w)
    requires i < |s.workers| && s.workers[i].n == n && WorkerOk(s, n, i, s.workers[i])
    ensures WorkerOk(s', n, i, s'.workers[i])
  {
  }

  lemma PublishedNew(s: State, s': State, w: Worker)
    requires Publishes(s, s', w)
    ensures WorkerOk(s', Speaker, |s.workers|, w)
  {
  }

  lemma PublishedStart(s: State, s': State, w: Worker, n: StreamId, t: nat)
    requires Publishes(s, s', w)
    requires t < |s.starts| && StartOk(s, n, t, s.starts[t].phase)
    ensures StartOk(s', n, t, s'.starts[t].phase)
  {
  }

  lemma PublishedOccupant(s: State, s': State, w: Worker, n: StreamId, b: nat)
    requires Publishes(s, s', w)
    requires b < |s.sh.conns| && SlotOn(s.sh, b, n).Some? && OccupantOk(s, n, b, SlotOn(s.sh, b, n).value)
    ensures OccupantOk(s', n, b, SlotOn(s'.sh, b, n).value)
  {
  }

  lemma PublishedWorkers(s: State, s': State, w: Worker, n: StreamId)
    requires Publishes(s, s', w)
    requires forall i :: 0 <= i < |s.workers| && s.workers[i].n == n ==> WorkerOk(s, n, i, s.workers[i])
    ensures forall i :: 0 <= i < |s'.workers| && s'.workers[i].n == n ==> WorkerOk(s', n, i, s'.workers[i])
  {
    forall i | 0 <= i < |s'.workers| && s'.workers[i].n == n
      ensures WorkerOk(s', n, i, s'.workers[i])
    {
      if i < |s.workers| { PublishedWorker(s, s', w, n, i); } else { PublishedNew(s, s', w); }
    }
  }

  lemma PublishedOccupants(s: State, s': State, w: Worker, n: StreamId)
    requires Publishes(s, s', w)
    requires forall b :: 0 <= b < |s.sh.conns| && SlotOn(s.sh, b, n).Some? ==> OccupantOk(s, n, b, SlotOn(s.sh, b, n).value)
    ensures forall b :: 0 <= b < |s'.sh.conns| && SlotOn(s'.sh, b, n).Some? ==> OccupantOk(s', n, b, SlotOn(s'.sh, b, n).value)
  {
    forall b | 0 <= b < |s'.sh.conns| && SlotOn(s'.sh, b, n).Some?
      ensures OccupantOk(s', n, b, SlotOn(s'.sh, b, n).value)
    {
      assert OccupantOk(s, n, b, SlotOn(s.sh, b, n).value);
      PublishedOccupant(s, s', w, n, b);
    }
  }

  lemma PublishedLane(s: State, s': State, w: Worker, n: StreamId)
    requires Publishes(s, s', w) && LaneOk(s, n)
    ensures LaneOk(s', n)
  {
    PublishedStream(s, s', w, n);
    PublishedWorkers(s, s', w, n);
    PublishedOccupants(s, s', w, n);
    forall t | 0 <= t < |s'.starts| && s'.starts[t].n == n
      ensures StartOk(s', n, t, s'.starts[t].phase)
    {
      PublishedStart(s, s', w, n, t);
    }
  }

  lemma PublishedReconnects(s: State, s': State, w: Worker)
    requires Publishes(s, s', w) && ReconnectsOk(s)
    ensures ReconnectsOk(s')
  {
    forall k | 0 <= k < |s'.reconnects|
      ensures ReconnectOk(s', k, s'.reconnects[k])
    {
      assert ReconnectOk(s, k, s.reconnects[k]);
    }
  }

  lemma PublishedToken(s: State, s': State, w: Worker)
    requires Publishes(s, s', w) && TokenOk(s) && HubOk(s)
    requires forall i :: 0 <= i < |s.workers| && s.workers[i].n == Screen ==> s.workers[i].conn < Published(s)
    ensures TokenOk(s') && HubOk(s')
  {
    forall j | 0 <= j < |s'.workers| && s'.workers[j].n == Screen
      ensures ScreenWorkerOk(s', j, s'.workers[j])
    {
      assert ScreenWorkerOk(s, j, s.workers[j]);
    }
    forall b | 0 <= b < |s'.sh.conns| && SlotOn(s'.sh, b, Control).Some?
      ensures ControlOccupantOk(s', b, SlotOn(s'.sh, b, Control).value)
    {
      assert ControlOccupantOk(s, b, SlotOn(s.sh, b, Control).value);
    }
  }

  lemma PublishedSession(s: State, s': State, w: Worker)
    requires Publishes(s, s', w) && SessionOk(s) && RetiredOk(s)
    ensures SessionOk(s') && RetiredOk(s')
  {
    forall c | 0 <= c < Published(s') && s'.sh.conn != Some(c)
      ensures s'.sh.conns[c].closed || Closer(s', c)
    {
      assert s.sh.conns[c].closed || Closer(s, c);
    }
  }

  lemma ScreenConns(s: State)
    requires LaneOk(s, Screen)
    ensures forall i :: 0 <= i < |s.workers| && s.workers[i].n == Screen ==> s.workers[i].conn < Published(s)
  {
    forall i | 0 <= i < |s.workers| && s.workers[i].n == Screen
      ensures s.workers[i].conn < Published(s)
    {
      assert WorkerOk(s, Screen, i, s.workers[i]);
    }
  }

  lemma PublishedKeeps(s: State, s': State, w: Worker)
    requires Inv(s) && Publishes(s, s', w)
    ensures Inv(s')
  {
    assert LaneOk(s, Screen);
    ScreenConns(s);
    PublishedSession(s, s', w);
    PublishedReconnects(s, s', w);
    PublishedToken(s, s', w);
    forall m | m in Media
      ensures LaneOk(s', m)
    {
      assert LaneOk(s, m);
      PublishedLane(s, s', w, m);
    }
  }

  lemma AbortDiscards(s: State, s': State)
    requires SessionOk(s) && s.connect.Connected? && s' == DoPublish(s)
    requires s.sh.connectGen != s.connect.gen || s.connect.ctx in s.sh.cancelled
    ensures Discards(s, s')
  {
    var slots := s.sh.conns[s.connect.conn].slots;
    assert forall v :: v in slots.Values <==> v == slots[Speaker];
  }

  lemma PublishKeeps(s: State, s': State)
    requires Inv(s) && s.connect.Connected? && s' == DoPublish(s)
    ensures Inv(s')
  {
    if s.sh.connectGen != s.connect.gen || s.connect.ctx in s.sh.cancelled {
      AbortDiscards(s, s');
      DiscardKeeps(s, s');
    } else {
      PublishShape(s, s');
      PublishedKeeps(s, s', s'.workers[|s.workers|]);
    }
  }
}
