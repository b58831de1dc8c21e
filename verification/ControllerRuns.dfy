/** ServerController carries out the session core's machine: whatever order its critical sections run
    in, called with what their goroutines hold, its fields are those of the machine. */
module ControllerRuns {
  import opened Wrappers
  import opened Transport
  import opened SessionState
  import opened SessionSystem
  import opened Controller

  method PerformStream(c: ServerController, s: State, a: Action)
    requires c.View() == s.sh && Enabled(s, a) && IsStreamStep(a)
    modifies c
    ensures c.View() == Next(s, a).sh
  {
    match a
    case StartCall(n) => var _ := c.StartSection(n);
    case StartResumes(t) => var _ := c.ResumeSection(s.starts[t].n, s.starts[t].phase.session, s.starts[t].phase.gen);
    case DialOk(_) =>
    case DialFails(t) =>
      var p := s.starts[t].phase;
      c.DialFailedSection(s.starts[t].n, p.conn, p.gen, p.ctx);
    case Installs(t) =>
      var p := s.starts[t].phase;
      var _ := c.InstallSection(s.starts[t].n, p.conn, p.gen, p.ctx, p.sock);
    case StopCall(n) => var _ := c.StopSection(n);
    case StopReturns(t) => c.StopFinishSection(s.stops[t].n, s.stops[t].gen);
  }

  method PerformWorker(c: ServerController, s: State, a: Action)
    requires c.View() == s.sh && Enabled(s, a) && IsWorkerStep(a)
    modifies c
    ensures c.View() == Next(s, a).sh
  {
    var w := s.workers[a.i];
    match a
    case WorkerDropsSocket(_) => if w.sock.Some? { c.CloseSocket(w.sock.value); }
    case WorkerEndsHub(_) => c.EndHubSession(w.hubGen);
    case WorkerEndsControl(_) => c.CloseScreenControlSection(w.Tok());
    case WorkerEndsSlot(_) => c.CloseStreamOn(Some(w.conn), Screen);
    case WorkerExits(_) => c.ExitSection(w.n, w.conn, w.gen, w.hubGen);
    case WorkerFinishes(_) => c.Cancel(Some(w.ctx));
    case WorkerReports(_, m) => c.MetricsSection(w.n, w.gen, w.conn, m);
  }

  method PerformConnect(c: ServerController, s: State, a: Action)
    requires c.View() == s.sh && Enabled(s, a) && IsConnectStep(a)
    modifies c
    ensures c.View() == Next(s, a).sh
  {
    match a
    case DisconnectCall => var _ := c.DisconnectSection();
    case DisconnectCloses(d) => c.CloseConn(s.discs[d].conn);
    case DisconnectReturns(_) =>
    case ConnectCall => var _ := c.ConnectEnterSection();
    case ConnectDisconnects => var _ := c.DisconnectSection();
    case ConnectDials => var _, _ := c.ConnectBeginSection();
    case ConnectDialOk => c.AddConnection(|s.users|);
    case ConnectDialFails => c.ConnectFailedSection(s.connect.gen);
    case ConnectPublishes => var _ := c.ConnectPublishSection(s.connect.gen, s.connect.ctx, s.connect.conn);
  }

  method PerformReconnect(c: ServerController, s: State, a: Action)
    requires c.View() == s.sh && Enabled(s, a) && IsReconnectStep(a)
    modifies c
    ensures c.View() == Next(s, a).sh
  {
    var r := s.reconnects[a.k];
    match a
    case ReconnectChecks(_) => var _ := c.ReconnectCheckSection(r.tok);
    case ReconnectInstalls(_) => var _ := c.ReconnectInstallSection(r.tok, r.ctx, r.phase.sock);
    case ReconnectAsks(_) => var _ := c.CheckStillCurrent(r.tok);
    case ReconnectRegisters(_) => var _ := c.RegisterRoute(r.tok, r.phase.sock);
    case ReconnectCloses(_) => c.CloseControlOn(r.tok.conn, r.phase.sock);
    case ReconnectDialOk(_) =>
    case ReconnectDialFails(_) =>
  }

  /** One critical section, with the locals of the goroutine that runs it. */
  method Perform(c: ServerController, s: State, a: Action)
    requires c.View() == s.sh && Enabled(s, a)
    modifies c
    ensures c.View() == Next(s, a).sh
  {
    if IsStreamStep(a) {
      PerformStream(c, s, a);
    } else if IsWorkerStep(a) {
      PerformWorker(c, s, a);
    } else if IsConnectStep(a) {
      PerformConnect(c, s, a);
    } else {
      PerformReconnect(c, s, a);
    }
  }

  lemma {:induction false} RunsOn(s: State, acts: seq<Action>, i: nat)
    requires IsRun(s, acts) && i < |acts|
    ensures IsRun(s, acts[..i]) && Enabled(After(s, acts[..i]), acts[i])
    ensures IsRun(s, acts[..i + 1]) && After(s, acts[..i + 1]) == Next(After(s, acts[..i]), acts[i])
    decreases i
  {
    if i == 0 {
      assert acts[..1] == [acts[0]] && IsRun(Next(s, acts[0]), []);
    } else {
      RunsOn(Next(s, acts[0]), acts[1..], i - 1);
      assert acts[1..][..i - 1] == acts[..i][1..] && acts[1..][..i] == acts[..i + 1][1..];
    }
  }

  /** Over any run the object is in the state of the machine, so that what is proved of every reachable
      state is proved of the object. */
  method Run(acts: seq<Action>) returns (c: ServerController, s: State)
    requires IsRun(Initial, acts)
    ensures s == After(Initial, acts) && c.View() == s.sh
    ensures Reachable(s)
  {
    c := new ServerController();
    s := Initial;
    assert acts[..|acts|] == acts;
    for i := 0 to |acts|
      invariant fresh(c) && c.View() == s.sh
      invariant IsRun(Initial, acts[..i]) && s == After(Initial, acts[..i])
    {
      RunsOn(Initial, acts, i);
      Perform(c, s, acts[i]);
      s := Next(s, acts[i]);
    }
  }
}
