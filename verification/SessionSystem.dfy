/** Every goroutine of the session core, as a machine whose steps are the critical sections of
    SessionState: startStream, stopStream, Disconnect, Connect, the stream workers and the control
    reconnect of a screen session, in any interleaving.

    `owners`, `users` and `ctxs` are history: who took the current generation of a stream, who
    answers for a socket, and which lifecycle a context was made for. No step looks at them. */
module SessionSystem {
  import opened Wrappers
  import opened Transport
  import opened SessionState

  /** Where a worker is on its way out; only the screen's worker passes through the middle ones. */
  datatype Phase = Working | HubEnded | ControlClosed | SlotClosed | Exited | Finished

  function Rank(p: Phase): nat {
    match p
    case Working => 0
    case HubEnded => 1
    case ControlClosed => 2
    case SlotClosed => 3
    case Exited => 4
    case Finished => 5
  }

  datatype Worker = Worker(n: StreamId, conn: nat, gen: nat, ctx: nat, sock: Option<nat>, hubGen: nat, phase: Phase)
  {
    function Tok(): Token { Token(conn, gen, hubGen) }
    /** The done channel is still open. */
    predicate Open() { phase != Finished }
  }

  datatype StartPhase =
    | Waiting(session: Option<nat>, gen: nat, prev: Option<nat>)
    | Dialing(conn: nat, gen: nat, ctx: nat)
    | Dialed(conn: nat, gen: nat, ctx: nat, sock: Option<nat>)
    | Over

  datatype Start = Start(n: StreamId, phase: StartPhase)
  datatype Stop = Stop(n: StreamId, gen: nat, prev: Option<nat>, over: bool)

  datatype DiscPhase = Closing | Joining | Left
  datatype Disc = Disc(conn: Option<nat>, dones: set<nat>, phase: DiscPhase)

  datatype Connect =
    | Idle
    | MustDisconnect
    | AfterDisconnect(d: Option<nat>)
    | Connecting(gen: nat, ctx: nat)
    | Connected(gen: nat, ctx: nat, conn: nat)

  datatype ReconnectPhase =
    | Checking
    | RDialing
    | RDialed(sock: nat)
    | RInstalled(sock: nat)
    | RCurrent(sock: nat)
    | RClosing(sock: nat)
    | ROver(route: Option<nat>)

  /** The socket a reconnect still answers for. */
  function Held(p: ReconnectPhase): Option<nat> {
    match p
    case Checking => None
    case RDialing => None
    case RDialed(s) => Some(s)
    case RInstalled(s) => Some(s)
    case RCurrent(s) => Some(s)
    case RClosing(s) => Some(s)
    case ROver(route) => route
  }

  datatype Reconnect = Reconnect(worker: nat, tok: Token, ctx: nat, phase: ReconnectPhase)

  datatype Owner = Nobody | ByStart(t: nat) | ByStop(t: nat) | ByWorker(i: nat)
  datatype User = UConnect | UStart(n: StreamId, t: nat) | UWorker(n: StreamId, i: nat) | UReconnect(k: nat)
  datatype CtxUser = CtxConnect | CtxStream(n: StreamId, gen: nat)

  datatype State = State(
    sh: Shared,
    workers: seq<Worker>,
    starts: seq<Start>,
    stops: seq<Stop>,
    discs: seq<Disc>,
    connect: Connect,
    reconnects: seq<Reconnect>,
    owners: map<StreamId, Owner>,
    users: seq<User>,
    ctxs: seq<CtxUser>)

  const NoOwners := map n | n in AllIds :: Nobody

  const Initial := State(
    Shared(false, None, 0, None, map n | n in AllIds :: FreshStream, None, HubLife(false, 0, None), [], {}, {}, 0, 0),
    [], [], [], [], Idle, [], NoOwners, [], [])

  predicate DoneClosed(s: State, d: Option<nat>) {
    d.None? || (d.value < |s.workers| && !s.workers[d.value].Open())
  }

  datatype Action =
    | StartCall(n: StreamId)
    | StartResumes(t: nat)
    | DialOk(t: nat)
    | DialFails(t: nat)
    | Installs(t: nat)
    | StopCall(n: StreamId)
    | StopReturns(t: nat)
    | DisconnectCall
    | DisconnectCloses(d: nat)
    | DisconnectReturns(d: nat)
    | ConnectCall
    | ConnectDisconnects
    | ConnectDials
    | ConnectDialOk
    | ConnectDialFails
    | ConnectPublishes
    | WorkerDropsSocket(i: nat)
    | WorkerEndsHub(i: nat)
    | WorkerEndsControl(i: nat)
    | WorkerEndsSlot(i: nat)
    | WorkerExits(i: nat)
    | WorkerFinishes(i: nat)
    | WorkerReports(i: nat, m: Metrics)
    | ReconnectChecks(k: nat)
    | ReconnectDialOk(k: nat)
    | ReconnectDialFails(k: nat)
    | ReconnectInstalls(k: nat)
    | ReconnectAsks(k: nat)
    | ReconnectRegisters(k: nat)
    | ReconnectCloses(k: nat)

  predicate IsStreamStep(a: Action) {
    a.StartCall? || a.StartResumes? || a.DialOk? || a.DialFails? || a.Installs? || a.StopCall? || a.StopReturns?
  }

  predicate IsConnectStep(a: Action) {
    a.DisconnectCall? || a.DisconnectCloses? || a.DisconnectReturns? || a.ConnectCall? || a.ConnectDisconnects? || a.ConnectDials?
    || a.ConnectDialOk? || a.ConnectDialFails? || a.ConnectPublishes?
  }

  predicate IsWorkerStep(a: Action) {
    a.WorkerDropsSocket? || a.WorkerEndsHub? || a.WorkerEndsControl? || a.WorkerEndsSlot? || a.WorkerExits? || a.WorkerFinishes?
    || a.WorkerReports?
  }

  predicate IsReconnectStep(a: Action) {
    a.ReconnectChecks? || a.ReconnectDialOk? || a.ReconnectDialFails? || a.ReconnectInstalls? || a.ReconnectAsks?
    || a.ReconnectRegisters? || a.ReconnectCloses?
  }

  predicate Enabled(s: State, a: Action) {
    match a
    case StartCall(n) => n != Control
    case StartResumes(t) => t < |s.starts| && s.starts[t].phase.Waiting? && DoneClosed(s, s.starts[t].phase.prev)
    case DialOk(t) => t < |s.starts| && s.starts[t].phase.Dialing?
    case DialFails(t) => t < |s.starts| && s.starts[t].phase.Dialing?
    case Installs(t) => t < |s.starts| && s.starts[t].phase.Dialed?
    case StopCall(n) => n != Control
    case StopReturns(t) => t < |s.stops| && !s.stops[t].over && DoneClosed(s, s.stops[t].prev)
    case DisconnectCall => true
    case DisconnectCloses(d) => d < |s.discs| && s.discs[d].phase == Closing
    case DisconnectReturns(d) => d < |s.discs| && s.discs[d].phase == Joining
                                 && forall w :: w in s.discs[d].dones ==> DoneClosed(s, Some(w))
    case ConnectCall => s.connect == Idle
    case ConnectDisconnects => s.connect == MustDisconnect
    case ConnectDials => s.connect.AfterDisconnect?
                         && (s.connect.d.Some? ==> s.connect.d.value < |s.discs| && s.discs[s.connect.d.value].phase == Left)
    case ConnectDialOk => s.connect.Connecting?
    case ConnectDialFails => s.connect.Connecting?
    case ConnectPublishes => s.connect.Connected?
    case WorkerDropsSocket(i) => i < |s.workers| && s.workers[i].phase == Working && s.workers[i].ctx in s.sh.cancelled
    case WorkerEndsHub(i) => i < |s.workers| && s.workers[i].n == Screen && s.workers[i].phase == Working
    case WorkerEndsControl(i) => i < |s.workers| && s.workers[i].phase == HubEnded
    case WorkerEndsSlot(i) => i < |s.workers| && s.workers[i].phase == ControlClosed
    case WorkerExits(i) => i < |s.workers| && s.workers[i].phase == (if s.workers[i].n == Screen then SlotClosed else Working)
    case WorkerFinishes(i) => i < |s.workers| && s.workers[i].phase == Exited
    case WorkerReports(i, _) => i < |s.workers|
    case ReconnectChecks(k) => k < |s.reconnects| && s.reconnects[k].phase == Checking
    case ReconnectDialOk(k) => k < |s.reconnects| && s.reconnects[k].phase == RDialing
    case ReconnectDialFails(k) => k < |s.reconnects| && s.reconnects[k].phase == RDialing
    case ReconnectInstalls(k) => k < |s.reconnects| && s.reconnects[k].phase.RDialed?
    case ReconnectAsks(k) => k < |s.reconnects| && s.reconnects[k].phase.RInstalled?
    case ReconnectRegisters(k) => k < |s.reconnects| && s.reconnects[k].phase.RCurrent?
    case ReconnectCloses(k) => k < |s.reconnects| && s.reconnects[k].phase.RClosing?
  }

  function Next(s: State, a: Action): State
    requires Enabled(s, a)
  {
    match a
    case StartCall(n) => DoStart(s, n)
    case StartResumes(t) => DoResume(s, t)
    case DialOk(t) => DoDialOk(s, t)
    case DialFails(t) => DoDialFails(s, t)
    case Installs(t) => DoInstall(s, t)
    case StopCall(n) => DoStop(s, n)
    case StopReturns(t) => DoStopReturn(s, t)
    case DisconnectCall => DoDisconnect(s)
    case DisconnectCloses(d) => DoDisconnectClose(s, d)
    case DisconnectReturns(d) => s.(discs := s.discs[d := s.discs[d].(phase := Left)])
    case ConnectCall => DoConnect(s)
    case ConnectDisconnects => DoConnectDisconnect(s)
    case ConnectDials => DoConnectBegin(s)
    case ConnectDialOk => DoConnectDialOk(s)
    case ConnectDialFails => s.(sh := ConnectFailed(s.sh, s.connect.gen), connect := Idle)
    case ConnectPublishes => DoPublish(s)
    case WorkerDropsSocket(i) => s.(sh := s.sh.(closed := CancelIf(s.sh.closed, s.workers[i].sock)))
    case WorkerEndsHub(i) => AtPhase(s, i, HubEnded).(sh := s.sh.(hub := EndScreen(s.sh.hub, s.workers[i].hubGen)))
    case WorkerEndsControl(i) => AtPhase(s, i, ControlClosed).(sh := CloseScreenControl(s.sh, s.workers[i].Tok()))
    case WorkerEndsSlot(i) => AtPhase(s, i, SlotClosed).(sh := CloseOn(s.sh, Some(s.workers[i].conn), Screen))
    case WorkerExits(i) => DoExit(s, i)
    case WorkerFinishes(i) => AtPhase(s, i, Finished).(sh := s.sh.(cancelled := s.sh.cancelled + {s.workers[i].ctx}))
    case WorkerReports(i, m) => s.(sh := UpdateMetrics(s.sh, s.workers[i].n, s.workers[i].gen, s.workers[i].conn, m))
    case ReconnectChecks(k) => DoCheck(s, k)
    case ReconnectDialOk(k) => Reach(s, k, RDialed(|s.users|)).(users := s.users + [UReconnect(k)])
    case ReconnectDialFails(k) => Reach(s, k, ROver(None))
    case ReconnectInstalls(k) => DoReconnectInstall(s, k)
    case ReconnectAsks(k) =>
      var sock := s.reconnects[k].phase.sock;
      Reach(s, k, if StillCurrent(s.sh, s.reconnects[k].tok) then RCurrent(sock) else RClosing(sock))
    case ReconnectRegisters(k) => DoRegister(s, k)
    case ReconnectCloses(k) =>
      Reach(s, k, ROver(None)).(sh := CloseControl(s.sh, s.reconnects[k].tok.conn, s.reconnects[k].phase.sock))
  }

  // ---- startStream

  /** What a goroutine in startStream holds after a section that did not return. */
  function Carry(out: StartOutcome): StartPhase
    requires !out.StartReturned?
  {
    match out
    case StartWait(session, gen, done) => Waiting(session, gen, done)
    case StartDial(conn, gen, ctx, needsDial) => if needsDial then Dialing(conn, gen, ctx) else Dialed(conn, gen, ctx, None)
  }

  function NoteCtx(ctxs: seq<CtxUser>, n: StreamId, out: StartOutcome): seq<CtxUser> {
    if out.StartDial? then ctxs + [CtxStream(n, out.gen)] else ctxs
  }

  function DoStart(s: State, n: StreamId): State {
    var (sh, out) := StartEnter(s.sh, n);
    if out.StartReturned? then s.(sh := sh)
    else s.(sh := sh, starts := s.starts + [Start(n, Carry(out))], owners := s.owners[n := ByStart(|s.starts|)],
            ctxs := NoteCtx(s.ctxs, n, out))
  }

  function DoResume(s: State, t: nat): State
    requires t < |s.starts| && s.starts[t].phase.Waiting?
  {
    var n := s.starts[t].n;
    var (sh, out) := StartResume(s.sh, n, s.starts[t].phase.session, s.starts[t].phase.gen);
    if out.StartReturned? then s.(sh := sh, starts := s.starts[t := Start(n, Over)])
    else s.(sh := sh, starts := s.starts[t := Start(n, Carry(out))], owners := s.owners[n := ByStart(t)],
            ctxs := NoteCtx(s.ctxs, n, out))
  }

  function DoDialOk(s: State, t: nat): State
    requires t < |s.starts| && s.starts[t].phase.Dialing?
  {
    var p := s.starts[t].phase;
    s.(starts := s.starts[t := Start(s.starts[t].n, Dialed(p.conn, p.gen, p.ctx, Some(|s.users|)))],
       users := s.users + [UStart(s.starts[t].n, t)])
  }

  function DoDialFails(s: State, t: nat): State
    requires t < |s.starts| && s.starts[t].phase.Dialing?
  {
    var n := s.starts[t].n;
    var p := s.starts[t].phase;
    s.(sh := StartDialFailed(s.sh, n, p.conn, p.gen, p.ctx), starts := s.starts[t := Start(n, Over)])
  }

  /** A launched worker takes over the socket and the generation. */
  function Hire(s: State, w: Worker): State {
    var i := |s.workers|;
    s.(workers := s.workers + [w], owners := s.owners[w.n := ByWorker(i)],
       users := if w.sock.Some? && w.sock.value < |s.users| then s.users[w.sock.value := UWorker(w.n, i)] else s.users)
  }

  function DoInstall(s: State, t: nat): State
    requires t < |s.starts| && s.starts[t].phase.Dialed?
  {
    var n := s.starts[t].n;
    var p := s.starts[t].phase;
    var (sh, out) := StartInstall(s.sh, n, p.conn, p.gen, p.ctx, p.sock);
    var s1 := s.(sh := sh, starts := s.starts[t := Start(n, Over)]);
    if !out.Launched? then s1
    else
      var w := Worker(n, p.conn, p.gen, p.ctx, out.sock, out.hubGen, Working);
      var s2 := Hire(s1, w);
      if n == Screen then s2.(reconnects := s.reconnects + [Reconnect(|s.workers|, w.Tok(), p.ctx, Checking)]) else s2
  }

  // ---- stopStream

  function DoStop(s: State, n: StreamId): State {
    var (sh, out) := StopEnter(s.sh, n);
    match out
    case StopReturned => s.(sh := sh, owners := if s.sh.connected then s.owners[n := Nobody] else s.owners)
    case StopWait(gen, done) => s.(sh := sh, stops := s.stops + [Stop(n, gen, done, false)],
                                   owners := s.owners[n := ByStop(|s.stops|)])
  }

  function DoStopReturn(s: State, t: nat): State
    requires t < |s.stops|
  {
    var p := s.stops[t];
    s.(sh := StopFinish(s.sh, p.n, p.gen), stops := s.stops[t := p.(over := true)])
  }

  // ---- Disconnect and Connect

  function DoDisconnect(s: State): State {
    var (sh, out) := DisconnectEnter(s.sh);
    match out
    case NotConnected => s.(sh := sh)
    case Detached(conn, dones) => s.(sh := sh, discs := s.discs + [Disc(conn, dones, Closing)], owners := NoOwners)
  }

  function DoDisconnectClose(s: State, d: nat): State
    requires d < |s.discs|
  {
    s.(sh := CloseConnection(s.sh, s.discs[d].conn), discs := s.discs[d := s.discs[d].(phase := Joining)])
  }

  function DoConnect(s: State): State {
    var (sh, must) := ConnectEnter(s.sh);
    s.(sh := sh, connect := if must then MustDisconnect else AfterDisconnect(None))
  }

  function DoConnectDisconnect(s: State): State {
    var s1 := DoDisconnect(s);
    s1.(connect := AfterDisconnect(if |s1.discs| > |s.discs| then Some(|s.discs|) else None))
  }

  function DoConnectBegin(s: State): State {
    var (sh, gen, ctx) := ConnectBegin(s.sh);
    s.(sh := sh, connect := Connecting(gen, ctx), ctxs := s.ctxs + [CtxConnect])
  }

  /** ConnectContext asks for the speaker only; it succeeds with that socket or not at all. */
  function DoConnectDialOk(s: State): State
    requires s.connect.Connecting?
  {
    var sock := |s.users|;
    s.(sh := s.sh.(conns := s.sh.conns + [Conn(false, map[Speaker := sock])]), users := s.users + [UConnect],
       connect := Connected(s.connect.gen, s.connect.ctx, |s.sh.conns|))
  }

  function DoPublish(s: State): State
    requires s.connect.Connected?
  {
    var (sh, out) := ConnectPublish(s.sh, s.connect.gen, s.connect.ctx, s.connect.conn);
    var s1 := s.(sh := sh, connect := Idle);
    match out
    case SpeakerLaunched(_, gen, ctx, sock) =>
      Hire(s1.(ctxs := s.ctxs + [CtxStream(Speaker, gen)]), Worker(Speaker, s.connect.conn, gen, ctx, Some(sock), 0, Working))
    case _ => s1
  }

  // ---- workers and reconnects

  function AtPhase(s: State, i: nat, p: Phase): State
    requires i < |s.workers|
  {
    s.(workers := s.workers[i := s.workers[i].(phase := p)])
  }

  function DoExit(s: State, i: nat): State
    requires i < |s.workers|
  {
    var w := s.workers[i];
    AtPhase(s, i, Exited).(sh := WorkerExit(s.sh, w.n, w.conn, w.gen, w.hubGen))
  }

  function Reach(s: State, k: nat, p: ReconnectPhase): State
    requires k < |s.reconnects|
  {
    s.(reconnects := s.reconnects[k := s.reconnects[k].(phase := p)])
  }

  function DoCheck(s: State, k: nat): State
    requires k < |s.reconnects|
  {
    var (sh, go) := ReconnectCheck(s.sh, s.reconnects[k].tok);
    Reach(s, k, if go then RDialing else ROver(None)).(sh := sh)
  }

  function DoReconnectInstall(s: State, k: nat): State
    requires k < |s.reconnects| && s.reconnects[k].phase.RDialed?
  {
    var r := s.reconnects[k];
    var (sh, ok) := ReconnectInstall(s.sh, r.tok, r.ctx, r.phase.sock);
    Reach(s, k, if ok then RInstalled(r.phase.sock) else ROver(None)).(sh := sh)
  }

  function DoRegister(s: State, k: nat): State
    requires k < |s.reconnects| && s.reconnects[k].phase.RCurrent?
  {
    var r := s.reconnects[k];
    var (sh, ok) := ReconnectRegister(s.sh, r.tok, r.phase.sock);
    Reach(s, k, if ok then ROver(Some(r.phase.sock)) else RClosing(r.phase.sock)).(sh := sh)
  }

  // ---- runs

  ghost predicate IsRun(s: State, acts: seq<Action>)
    decreases |acts|
  {
    acts == [] || (Enabled(s, acts[0]) && IsRun(Next(s, acts[0]), acts[1..]))
  }

  ghost function After(s: State, acts: seq<Action>): State
    requires IsRun(s, acts)
    decreases |acts|
  {
    if acts == [] then s else After(Next(s, acts[0]), acts[1..])
  }

  ghost predicate Reachable(s: State) {
    exists acts :: IsRun(Initial, acts) && After(Initial, acts) == s
  }
}
