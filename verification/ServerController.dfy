/** ServerController as the object it is: one method per critical section of
    allrelay-server/internal/web/controller.go, each changing the fields in the source's order and
    proved to do what the section's function in SessionState says. */
module Controller {
  import opened Wrappers
  import opened Transport
  import opened SessionState

  class ServerController {
    var connected: bool
    var conn: Option<nat>
    var connectGen: nat
    var connectCancel: Option<nat>
    var streams: Streams
    var token: Option<Token>
    var hub: HubLife
    var cancelled: set<nat>
    var contexts: nat
    var launched: nat
    // every Connection made so far, by its value (class Transport.Connection is the object);
    // `conn` is an index into it
    var conns: seq<Conn>
    var closed: set<nat>

    function View(): Shared
      reads this
    {
      Shared(connected, conn, connectGen, connectCancel, streams, token, hub, conns, closed,
             cancelled, contexts, launched)
    }

    constructor ()
      ensures View() == Shared(false, None, 0, None, map n | n in AllIds :: FreshStream, None,
                               HubLife(false, 0, None), [], {}, {}, 0, 0)
    {
      connected, conn, connectGen, connectCancel := false, None, 0, None;
      streams := map n | n in AllIds :: FreshStream;
      token, hub := None, HubLife(false, 0, None);
      cancelled, contexts, launched, conns, closed := {}, 0, 0, [], {};
    }

    method Cancel(c: Option<nat>)
      modifies this`cancelled
      ensures cancelled == CancelIf(old(cancelled), c)
    {
      if c.Some? {
        cancelled := cancelled + {c.value};
      }
    }

    // ---- calls on a Connection

    method CloseSocket(s: nat)
      modifies this`closed
      ensures closed == old(closed) + {s}
    {
      closed := closed + {s};
    }

    method Rewired(c: nat, w: Wires)
      requires c < |conns|
      modifies this`conns, this`closed
      ensures View() == Rewire(old(View()), c, w)
    {
      conns := conns[c := w.conn];
      closed := w.closed;
    }

    method CloseStreamOn(c: Option<nat>, n: StreamId)
      modifies this`conns, this`closed
      ensures View() == CloseOn(old(View()), c, n)
    {
      if c.Some? && c.value < |conns| {
        Rewired(c.value, CloseStream(Wires(conns[c.value], closed), n));
      }
    }

    method CloseConn(c: Option<nat>)
      modifies this`conns, this`closed
      ensures View() == CloseConnection(old(View()), c)
    {
      if c.Some? && c.value < |conns| {
        Rewired(c.value, CloseAll(Wires(conns[c.value], closed)));
      }
    }

    method CloseControlOn(c: nat, sock: nat)
      modifies this`conns, this`closed
      ensures View() == CloseControl(old(View()), c, sock)
    {
      if c < |conns| {
        Rewired(c, CloseControlConn(Wires(conns[c], closed), sock));
      }
    }

    method InstallOn(c: nat, n: StreamId, sock: nat) returns (ok: bool)
      requires c < |conns|
      modifies this`conns, this`closed
      ensures ok == !old(conns)[c].closed
      ensures View() == Rewire(old(View()), c, InstallStream(WiresOf(old(View()), c), n, sock))
    {
      ok := !conns[c].closed;
      Rewired(c, InstallStream(Wires(conns[c], closed), n, sock));
    }

    method SlotOf(c: nat, n: StreamId) returns (sock: Option<nat>)
      ensures sock == SlotOn(View(), c, n)
    {
      if c < |conns| && HasStream(conns[c], n) {
        sock := Some(conns[c].slots[n]);
      } else {
        sock := None;
      }
    }

    // ---- Disconnect (lines 161-238)

    /** Takes the worker away from one stream. */
    method RetireOne(n: StreamId) returns (done: Option<nat>)
      modifies this`streams, this`cancelled
      ensures done == Of(old(streams), n).done
      ensures streams == old(streams)[n := Retired(Of(old(streams), n))]
      ensures cancelled == CancelIf(old(cancelled), Of(old(streams), n).cancel)
    {
      var st := Of(streams, n);
      Cancel(st.cancel);
      done := st.done;
      streams := streams[n := Retired(st)];
    }

    /** Takes the worker away from every stream, returning the done channels to wait for. */
    method RetireAll() returns (dones: set<nat>)
      modifies this`streams, this`cancelled
      ensures dones == DonesOf(old(streams), AllIds)
      ensures streams == AllRetired(old(streams))
      ensures cancelled == old(cancelled) + CancelsOf(old(streams), AllIds)
    {
      dones := {};
      ghost var before := streams;
      var todo := AllIds;
      while todo != {}
        invariant todo <= AllIds
        invariant forall n :: n in todo ==> Of(streams, n) == Of(before, n)
        invariant forall n :: n in AllIds && n !in todo ==> n in streams && streams[n] == Retired(Of(before, n))
        invariant dones == DonesOf(before, AllIds - todo)
        invariant cancelled == old(cancelled) + CancelsOf(before, AllIds - todo)
      {
        var n :| n in todo;
        OneMore(before, AllIds - todo, n);
        assert AllIds - (todo - {n}) == (AllIds - todo) + {n};
        todo := todo - {n};
        var done := RetireOne(n);
        if done.Some? {
          dones := dones + {done.value};
        }
      }
      assert AllIds - todo == AllIds;
      IsAllRetired(before, streams);
    }

    method CancelPendingConnect()
      modifies this`cancelled, this`connectCancel, this`connectGen
      ensures View() == DropPendingConnect(old(View()))
    {
      if connectCancel.Some? {
        Cancel(connectCancel);
        connectCancel := None;
        connectGen := connectGen + 1;
      }
    }

    method DisconnectSection() returns (out: DisconnectOutcome)
      modifies this
      ensures (View(), out) == DisconnectEnter(old(View()))
    {
      CancelPendingConnect();
      if !connected {
        return NotConnected;
      }
      EndScreenOf(Screen);
      var detached := conn;
      var dones := RetireAll();
      token := None;
      conn := None;
      connected := false;
      out := Detached(detached, dones);
    }

    // ---- stopStream (lines 286-348)

    /** Ends the hub's session while the control route it must use is still live. */
    method EndScreenOf(n: StreamId)
      modifies this`hub, this`streams
      ensures View() == EndHub(old(View()), n)
    {
      var st := Of(streams, n);
      if n == Screen && st.hubGen != 0 {
        EndHubSession(st.hubGen);
        streams := streams[n := st.(hubGen := 0)];
      }
    }

    /** EndScreenSession, as far as the controller sees the hub. */
    method EndHubSession(gen: nat)
      modifies this`hub
      ensures View() == old(View()).(hub := EndScreen(old(hub), gen))
    {
      hub := EndScreen(hub, gen);
    }

    method StopSection(n: StreamId) returns (out: StopOutcome)
      modifies this
      ensures (View(), out) == StopEnter(old(View()), n)
    {
      if !connected {
        return StopReturned;
      }
      var st := Of(streams, n);
      var cancel := st.cancel;
      st := st.(cancel := None, gen := st.gen + 1, active := false);
      streams := streams[n := st];
      Cancel(cancel);
      if !st.running && st.done.None? {
        return StopReturned;
      }
      EndScreenOf(n);
      CloseStreamOn(conn, n);
      out := StopWait(st.gen, st.done);
    }

    method StopFinishSection(n: StreamId, gen: nat)
      modifies this
      ensures View() == StopFinish(old(View()), n, gen)
    {
      var st := Of(streams, n);
      if st.gen == gen {
        streams := streams[n := st.(running := false, active := false, done := None)];
      }
    }

    // ---- startStream (lines 350-505)

    method StartSection(n: StreamId) returns (out: StartOutcome)
      modifies this
      ensures (View(), out) == StartEnter(old(View()), n)
    {
      if !connected {
        return StartReturned;
      }
      var st := Of(streams, n);
      if st.running && st.active {
        return StartReturned;
      }
      if st.running || st.done.Some? {
        var cancel := st.cancel;
        st := st.(cancel := None, gen := st.gen + 1);
        streams := streams[n := st];
        Cancel(cancel);
        CloseStreamOn(conn, n);
        return StartWait(conn, st.gen, st.done);
      }
      out := DecideDial(n);
    }

    method ResumeSection(n: StreamId, session: Option<nat>, waitGen: nat) returns (out: StartOutcome)
      modifies this
      ensures (View(), out) == StartResume(old(View()), n, session, waitGen)
    {
      if !connected {
        return StartReturned;
      }
      var st := Of(streams, n);
      if conn != session || st.gen != waitGen {
        return StartReturned;
      }
      streams := streams[n := st.(done := None, running := false)];
      out := DecideDial(n);
    }

    /** Takes the next generation and a fresh context for it. */
    method ClaimDial(n: StreamId) returns (gen: nat, ctx: nat)
      modifies this`streams, this`cancelled, this`contexts
      ensures ctx == old(contexts) && gen == Of(old(streams), n).gen + 1
      ensures View() == Put(old(View()), n, Of(old(streams), n).(gen := gen, cancel := Some(ctx)))
                        .(cancelled := CancelIf(old(cancelled), Of(old(streams), n).cancel), contexts := ctx + 1)
    {
      var st := Of(streams, n);
      Cancel(st.cancel);
      gen, ctx := st.gen + 1, contexts;
      contexts := contexts + 1;
      streams := streams[n := st.(gen := gen, cancel := Some(ctx))];
    }

    method DecideDial(n: StreamId) returns (out: StartOutcome)
      modifies this
      ensures (View(), out) == DialDecision(old(View()), n)
    {
      if conn.None? {
        return StartReturned;
      }
      var gen, ctx := ClaimDial(n);
      var slot := SlotOf(conn.value, n);
      if n == Screen {
        CloseStreamOn(conn, n);
      }
      out := StartDial(conn.value, gen, ctx, n == Screen || slot.None?);
    }

    method DialFailedSection(n: StreamId, c: nat, gen: nat, ctx: nat)
      modifies this
      ensures View() == StartDialFailed(old(View()), n, c, gen, ctx)
    {
      Cancel(Some(ctx));
      var st := Of(streams, n);
      if conn == Some(c) && st.gen == gen {
        streams := streams[n := st.(active := false, running := false, cancel := None)];
      }
    }

    /** The dial came back to a changed session. */
    method AbortStart(n: StreamId, gen: nat, ctx: nat, sock: Option<nat>)
      modifies this`cancelled, this`streams, this`closed
      ensures View() == (var was := old(View());
                         var sh := was.(cancelled := was.cancelled + {ctx}, closed := CancelIf(was.closed, sock));
                         if At(was, n).gen == gen
                         then Put(sh, n, At(was, n).(active := false, running := false, cancel := None)) else sh)
    {
      Cancel(Some(ctx));
      if sock.Some? {
        CloseSocket(sock.value);
      }
      var st := Of(streams, n);
      if st.gen == gen {
        streams := streams[n := st.(active := false, running := false, cancel := None)];
      }
    }

    /** Marks the stream running and makes its done channel; a screen also opens a hub session. */
    method Launch(n: StreamId, c: nat, gen: nat) returns (out: InstallOutcome)
      modifies this`streams, this`launched, this`hub, this`token
      ensures (View(), out) == LaunchOn(old(View()), n, c, gen)
    {
      var sock := SlotOf(c, n);
      var done := launched;
      launched := launched + 1;
      var st := Of(streams, n).(running := true, active := true, done := Some(done));
      if n == Screen {
        hub := BeginScreen(hub);
        streams := streams[n := st.(hubGen := hub.gen)];
        token := Some(Token(c, gen, hub.gen));
        out := Launched(done, sock, hub.gen);
      } else {
        streams := streams[n := st];
        out := Launched(done, sock, 0);
      }
    }

    method InstallSection(n: StreamId, c: nat, gen: nat, ctx: nat, sock: Option<nat>) returns (out: InstallOutcome)
      modifies this
      ensures (View(), out) == StartInstall(old(View()), n, c, gen, ctx, sock)
    {
      if !connected || conn != Some(c) || Of(streams, n).gen != gen || ctx in cancelled || c >= |conns| {
        AbortStart(n, gen, ctx, sock);
        return Aborted;
      }
      if sock.Some? {
        var ok := InstallOn(c, n, sock.value);
        if !ok {
          AbortStart(n, gen, ctx, None);
          return InstallFailed;
        }
      }
      out := Launch(n, c, gen);
    }

    // ---- worker exits (lines 544-551, 578-585, 609-616, 655-662) and metrics (769-781)

    method ExitSection(n: StreamId, c: nat, gen: nat, hubGen: nat)
      modifies this
      ensures View() == WorkerExit(old(View()), n, c, gen, hubGen)
    {
      var st := Of(streams, n);
      var wasRunning := st.running && st.gen == gen && conn == Some(c) && (n == Screen ==> st.hubGen == hubGen);
      if wasRunning {
        if n == Screen {
          st := st.(hubGen := 0);
        } else {
          CloseStreamOn(Some(c), n);
        }
        streams := streams[n := st.(running := false, active := false)];
      }
    }

    method MetricsSection(n: StreamId, gen: nat, c: nat, m: Metrics)
      modifies this`streams
      ensures View() == UpdateMetrics(old(View()), n, gen, c, m)
    {
      var st := Of(streams, n);
      if conn == Some(c) && st.gen == gen && st.running {
        streams := streams[n := st.(metrics := m)];
      }
    }

    // ---- the control reconnect (lines 678-751)

    method ReconnectCheckSection(t: Token) returns (go: bool)
      modifies this
      ensures (View(), go) == ReconnectCheck(old(View()), t)
    {
      if token != Some(t) {
        return false;
      }
      CloseStreamOn(Some(t.conn), Control);
      go := true;
    }

    method ReconnectInstallSection(t: Token, ctx: nat, sock: nat) returns (ok: bool)
      modifies this
      ensures (View(), ok) == ReconnectInstall(old(View()), t, ctx, sock)
    {
      if token != Some(t) || ctx in cancelled || t.conn >= |conns| {
        CloseSocket(sock);
        return false;
      }
      ok := InstallOn(t.conn, Control, sock);
    }

    method CheckStillCurrent(t: Token) returns (ok: bool)
      ensures ok == StillCurrent(View(), t)
    {
      var st := Of(streams, Screen);
      ok := connected && conn == Some(t.conn) && st.gen == t.gen && st.hubGen == t.hubGen && st.running;
    }

    /** The hub takes the route only for its active generation. */
    method RegisterRoute(t: Token, sock: nat) returns (ok: bool)
      modifies this`hub
      ensures (View(), ok) == ReconnectRegister(old(View()), t, sock)
    {
      ok := hub.active && hub.gen == t.hubGen;
      if ok {
        hub := hub.(route := Some(sock));
      }
    }

    method CloseScreenControlSection(t: Token)
      modifies this
      ensures View() == CloseScreenControl(old(View()), t)
    {
      if token == Some(t) {
        token := None;
        var sock := SlotOf(t.conn, Control);
        if sock.Some? {
          CloseControlOn(t.conn, sock.value);
        }
      }
    }

    // ---- Connect (lines 90-158, 507-526)

    method ConnectEnterSection() returns (mustDisconnect: bool)
      modifies this
      ensures (View(), mustDisconnect) == ConnectEnter(old(View()))
    {
      if connectCancel.Some? {
        Cancel(connectCancel);
        connectCancel := None;
      }
      mustDisconnect := connected;
    }

    method ConnectBeginSection() returns (gen: nat, ctx: nat)
      modifies this
      ensures (View(), gen, ctx) == ConnectBegin(old(View()))
    {
      connectGen := connectGen + 1;
      gen := connectGen;
      ctx := contexts;
      contexts := contexts + 1;
      connectCancel := Some(ctx);
    }

    method ConnectFailedSection(gen: nat)
      modifies this`connectCancel
      ensures View() == ConnectFailed(old(View()), gen)
    {
      if connectGen == gen {
        connectCancel := None;
      }
    }

    /** The dial of Connect made a connection with the speaker's socket. */
    method AddConnection(sock: nat)
      modifies this`conns
      ensures View() == old(View()).(conns := old(conns) + [Conn(false, map[Speaker := sock])])
    {
      conns := conns + [Conn(false, map[Speaker := sock])];
    }

    method ConnectPublishSection(gen: nat, ctx: nat, c: nat) returns (out: PublishOutcome)
      modifies this
      ensures (View(), out) == ConnectPublish(old(View()), gen, ctx, c)
    {
      if connectGen != gen || ctx in cancelled {
        CloseConn(Some(c));
        return ConnectAborted;
      }
      connectCancel := None;
      conn := Some(c);
      connected := true;
      var st := Of(streams, Speaker);
      var sock := SlotOf(c, Speaker);
      if sock.None? {
        streams := streams[Speaker := st.(active := false, running := false)];
        return ConnectedIdle;
      }
      st := st.(running := true, active := true, gen := st.gen + 1);
      var wctx := contexts;
      contexts := contexts + 1;
      var done := launched;
      launched := launched + 1;
      streams := streams[Speaker := st.(cancel := Some(wctx), done := Some(done))];
      out := SpeakerLaunched(done, st.gen, wctx, sock.value);
    }
  }
}
