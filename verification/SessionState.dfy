/** The state that ServerController guards (allrelay-server/internal/web/controller.go) and its
    critical sections as functions: each takes the shared state and the goroutine's locals, and
    gives the new shared state and what the goroutine goes on with.

    A Connection object is an index into `conns`, a context and a done channel are the numbers
    `contexts` and `launched` had when they were made, a socket is a number. */
module SessionState {
  import opened Wrappers
  import opened Transport

  datatype Metrics = Metrics(fps: int, bitrate: int, latency: int, bytes: int, frames: int)

  /** StreamController. */
  datatype Stream = Stream(
    active: bool,
    running: bool,
    metrics: Metrics,
    cancel: Option<nat>,
    done: Option<nat>,
    gen: nat,
    hubGen: nat)

  const FreshStream := Stream(false, false, Metrics(0, 0, 0, 0, 0), None, None, 0, 0)
  const AllIds := {Screen, Camera, Mic, Speaker, Control}

  /** The table of streams; NewServerController fills all five. */
  type Streams = map<StreamId, Stream>

  function Of(m: Streams, n: StreamId): Stream {
    if n in m then m[n] else FreshStream
  }

  lemma EveryId(n: StreamId)
    ensures n in AllIds
  {
  }

  /** Which screen session may touch the control slot: controlConnection,
      controlScreenGeneration and controlHubGeneration. */
  datatype Token = Token(conn: nat, gen: nat, hubGen: nat)

  /** As much of the Hub as the session core decides: see module Hub for the whole of it. */
  datatype HubLife = HubLife(active: bool, gen: nat, route: Option<nat>)

  datatype Shared = Shared(
    connected: bool,
    conn: Option<nat>,
    connectGen: nat,
    connectCancel: Option<nat>,
    streams: Streams,
    token: Option<Token>,
    hub: HubLife,
    conns: seq<Conn>,
    closed: set<nat>,
    cancelled: set<nat>,
    contexts: nat,
    launched: nat)

  function At(sh: Shared, n: StreamId): Stream {
    Of(sh.streams, n)
  }

  function Put(sh: Shared, n: StreamId, st: Stream): Shared {
    sh.(streams := sh.streams[n := st])
  }

  function CancelIf(cancelled: set<nat>, c: Option<nat>): set<nat> {
    if c.Some? then cancelled + {c.value} else cancelled
  }

  // ---- the transport, one connection of the table at a time

  function WiresOf(sh: Shared, c: nat): Wires
    requires c < |sh.conns|
  {
    Wires(sh.conns[c], sh.closed)
  }

  function Rewire(sh: Shared, c: nat, w: Wires): Shared
    requires c < |sh.conns|
  {
    sh.(conns := sh.conns[c := w.conn], closed := w.closed)
  }

  /** conn.CloseStream(id), where conn may be nil. */
  function CloseOn(sh: Shared, c: Option<nat>, n: StreamId): Shared {
    if c.Some? && c.value < |sh.conns| then Rewire(sh, c.value, CloseStream(WiresOf(sh, c.value), n)) else sh
  }

  /** The socket of a slot, if there is one. */
  function SlotOn(sh: Shared, c: nat, n: StreamId): Option<nat> {
    if c < |sh.conns| && n in sh.conns[c].slots then Some(sh.conns[c].slots[n]) else None
  }

  // ---- the hub's lifecycle, as far as the controller drives it

  function BeginScreen(hub: HubLife): HubLife {
    HubLife(true, hub.gen + 1, None)
  }

  function EndScreen(hub: HubLife, gen: nat): HubLife {
    if hub.active && hub.gen == gen then HubLife(false, hub.gen, None) else hub
  }

  // ---- Disconnect

  datatype DisconnectOutcome = NotConnected | Detached(conn: Option<nat>, dones: set<nat>)

  /** A stream after Disconnect took its worker away. */
  function Retired(st: Stream): Stream {
    st.(cancel := None, done := None, running := false, active := false, gen := st.gen + 1)
  }

  function AllRetired(m: Streams): Streams {
    map n | n in AllIds :: Retired(Of(m, n))
  }

  lemma IsAllRetired(m: Streams, r: Streams)
    requires forall n :: n in AllIds ==> n in r && r[n] == Retired(Of(m, n))
    ensures r == AllRetired(m)
  {
    forall n: StreamId
      ensures n in AllIds
    {
      EveryId(n);
    }
  }

  function DonesOf(m: Streams, ids: set<StreamId>): set<nat> {
    set n | n in ids && Of(m, n).done.Some? :: Of(m, n).done.value
  }

  function CancelsOf(m: Streams, ids: set<StreamId>): set<nat> {
    set n | n in ids && Of(m, n).cancel.Some? :: Of(m, n).cancel.value
  }

  lemma OneMore(m: Streams, ids: set<StreamId>, n: StreamId)
    ensures DonesOf(m, ids + {n}) == CancelIf(DonesOf(m, ids), Of(m, n).done)
    ensures CancelsOf(m, ids + {n}) == CancelIf(CancelsOf(m, ids), Of(m, n).cancel)
  {
  }

  function DropPendingConnect(sh: Shared): Shared {
    if sh.connectCancel.Some?
    then sh.(cancelled := sh.cancelled + {sh.connectCancel.value}, connectCancel := None, connectGen := sh.connectGen + 1)
    else sh
  }

  function DisconnectEnter(sh0: Shared): (r: (Shared, DisconnectOutcome)) {
    var sh := DropPendingConnect(sh0);
    if !sh.connected then
      (sh, NotConnected)
    else
      var sh1 := EndHub(sh, Screen);
      (sh1.(streams := AllRetired(sh1.streams), cancelled := sh1.cancelled + CancelsOf(sh1.streams, AllIds),
            token := None, conn := None, connected := false),
       Detached(sh1.conn, DonesOf(sh1.streams, AllIds)))
  }

  /** conn.Close() of a connection value that may be nil. */
  function CloseConnection(sh: Shared, c: Option<nat>): Shared {
    if c.Some? && c.value < |sh.conns| then Rewire(sh, c.value, CloseAll(WiresOf(sh, c.value))) else sh
  }

  // ---- stopStream

  datatype StopOutcome = StopReturned | StopWait(gen: nat, done: Option<nat>)

  /** The stream's generation is taken, its context cancelled. */
  function StopClaim(sh: Shared, n: StreamId): Shared {
    var st := At(sh, n);
    Put(sh, n, st.(cancel := None, gen := st.gen + 1, active := false)).(cancelled := CancelIf(sh.cancelled, st.cancel))
  }

  /** Ends the hub's session of a screen stream that has one. */
  function EndHub(sh: Shared, n: StreamId): Shared {
    var st := At(sh, n);
    if n == Screen && st.hubGen != 0
    then Put(sh, n, st.(hubGen := 0)).(hub := EndScreen(sh.hub, st.hubGen))
    else sh
  }

  function StopEnter(sh: Shared, n: StreamId): (Shared, StopOutcome) {
    if !sh.connected then
      (sh, StopReturned)
    else
      var sh1 := StopClaim(sh, n);
      var st := At(sh1, n);
      if !st.running && st.done.None? then
        (sh1, StopReturned)
      else
        (CloseOn(EndHub(sh1, n), sh1.conn, n), StopWait(st.gen, st.done))
  }

  function StopFinish(sh: Shared, n: StreamId, gen: nat): Shared {
    var st := At(sh, n);
    if st.gen == gen then Put(sh, n, st.(running := false, active := false, done := None)) else sh
  }

  // ---- startStream

  datatype StartOutcome =
    | StartReturned
    | StartWait(session: Option<nat>, gen: nat, done: Option<nat>)
    | StartDial(conn: nat, gen: nat, ctx: nat, needsDial: bool)

  function StartEnter(sh: Shared, n: StreamId): (Shared, StartOutcome) {
    if !sh.connected then
      (sh, StartReturned)
    else
      var st := At(sh, n);
      if st.running && st.active then
        (sh, StartReturned)
      else if st.running || st.done.Some? then
        var st1 := st.(cancel := None, gen := st.gen + 1);
        var sh1 := Put(sh, n, st1).(cancelled := CancelIf(sh.cancelled, st.cancel));
        (CloseOn(sh1, sh1.conn, n), StartWait(sh1.conn, st1.gen, st1.done))
      else
        DialDecision(sh, n)
  }

  /** Re-entry once the previous worker's done channel is closed. */
  function StartResume(sh: Shared, n: StreamId, conn: Option<nat>, waitGen: nat): (Shared, StartOutcome) {
    var st := At(sh, n);
    if !sh.connected || sh.conn != conn || st.gen != waitGen then
      (sh, StartReturned)
    else
      DialDecision(Put(sh, n, st.(done := None, running := false)), n)
  }

  /** From reading sc.conn to releasing the lock before the dial. */
  function DialDecision(sh: Shared, n: StreamId): (Shared, StartOutcome) {
    if sh.conn.None? then
      (sh, StartReturned)
    else
      var st := At(sh, n);
      var ctx := sh.contexts;
      var st1 := st.(gen := st.gen + 1, cancel := Some(ctx));
      var needsDial := n == Screen || SlotOn(sh, sh.conn.value, n).None?;
      var sh1 := Put(sh, n, st1).(cancelled := CancelIf(sh.cancelled, st.cancel), contexts := sh.contexts + 1);
      (if n == Screen then CloseOn(sh1, sh1.conn, n) else sh1, StartDial(sh.conn.value, st1.gen, ctx, needsDial))
  }

  function StartDialFailed(sh: Shared, n: StreamId, conn: nat, gen: nat, ctx: nat): Shared {
    var sh1 := sh.(cancelled := sh.cancelled + {ctx});
    var st := At(sh1, n);
    if sh1.conn == Some(conn) && st.gen == gen
    then Put(sh1, n, st.(active := false, running := false, cancel := None))
    else sh1
  }

  datatype InstallOutcome =
    | Aborted
    | InstallFailed
    | Launched(done: nat, sock: Option<nat>, hubGen: nat)

  /** The ownership check, InstallStream and the launch of the worker. */
  function StartInstall(sh: Shared, n: StreamId, conn: nat, gen: nat, ctx: nat, sock: Option<nat>)
    : (Shared, InstallOutcome)
  {
    var st := At(sh, n);
    if !sh.connected || sh.conn != Some(conn) || st.gen != gen || ctx in sh.cancelled || conn >= |sh.conns| then
      var sh1 := sh.(cancelled := sh.cancelled + {ctx}, closed := CancelIf(sh.closed, sock));
      (if st.gen == gen then Put(sh1, n, st.(active := false, running := false, cancel := None)) else sh1,
       Aborted)
    else if sock.Some? && sh.conns[conn].closed then
      (Put(Rewire(sh, conn, InstallStream(WiresOf(sh, conn), n, sock.value)), n,
           st.(active := false, running := false, cancel := None)).(cancelled := sh.cancelled + {ctx}),
       InstallFailed)
    else
      LaunchOn(if sock.Some? then Rewire(sh, conn, InstallStream(WiresOf(sh, conn), n, sock.value)) else sh, n, conn, gen)
  }

  /** The worker of the stream is launched with the socket in its slot; a screen's launch opens a
      hub session and takes the control token. */
  function LaunchOn(sh: Shared, n: StreamId, conn: nat, gen: nat): (Shared, InstallOutcome) {
    var done := sh.launched;
    var st := At(sh, n).(running := true, active := true, done := Some(done));
    var sh1 := sh.(launched := done + 1);
    if n == Screen then
      var hub := BeginScreen(sh.hub);
      (Put(sh1, n, st.(hubGen := hub.gen)).(hub := hub, token := Some(Token(conn, gen, hub.gen))),
       Launched(done, SlotOn(sh, conn, n), hub.gen))
    else
      (Put(sh1, n, st), Launched(done, SlotOn(sh, conn, n), 0))
  }

  // ---- worker exits

  /** The exit section every worker ends with. `hubGen` matters for the screen only, whose slot
      the worker has already closed without taking the lock. */
  function WorkerExit(sh: Shared, n: StreamId, conn: nat, gen: nat, hubGen: nat): Shared {
    var st := At(sh, n);
    if st.running && st.gen == gen && sh.conn == Some(conn) && (n == Screen ==> st.hubGen == hubGen) then
      var sh1 := if n == Screen then sh else CloseOn(sh, Some(conn), n);
      Put(sh1, n, st.(running := false, active := false, hubGen := if n == Screen then 0 else st.hubGen))
    else
      sh
  }

  function UpdateMetrics(sh: Shared, n: StreamId, gen: nat, conn: nat, m: Metrics): Shared {
    var st := At(sh, n);
    if sh.conn != Some(conn) || st.gen != gen || !st.running then sh
    else Put(sh, n, st.(metrics := m))
  }

  // ---- the control reconnect of a screen session

  function ControlTurn(sh: Shared, t: Token): bool {
    sh.token == Some(t)
  }

  /** First check: a current session starts by closing whatever the control slot holds. */
  function ReconnectCheck(sh: Shared, t: Token): (Shared, bool) {
    if ControlTurn(sh, t) then (CloseOn(sh, Some(t.conn), Control), true) else (sh, false)
  }

  /** Second check, after the dial: install or close the dialled socket. */
  function ReconnectInstall(sh: Shared, t: Token, ctx: nat, sock: nat): (Shared, bool) {
    if !ControlTurn(sh, t) || ctx in sh.cancelled || t.conn >= |sh.conns| then
      (sh.(closed := sh.closed + {sock}), false)
    else
      (Rewire(sh, t.conn, InstallStream(WiresOf(sh, t.conn), Control, sock)), !sh.conns[t.conn].closed)
  }

  predicate StillCurrent(sh: Shared, t: Token) {
    var st := At(sh, Screen);
    sh.connected && sh.conn == Some(t.conn) && st.gen == t.gen && st.hubGen == t.hubGen && st.running
  }

  function ReconnectRegister(sh: Shared, t: Token, sock: nat): (Shared, bool) {
    if !sh.hub.active || sh.hub.gen != t.hubGen then (sh, false)
    else (sh.(hub := sh.hub.(route := Some(sock))), true)
  }

  function CloseControl(sh: Shared, c: nat, sock: nat): Shared {
    if c < |sh.conns| then Rewire(sh, c, CloseControlConn(WiresOf(sh, c), sock)) else sh
  }

  /** closeScreenControl, on the way out of a screen worker. */
  function CloseScreenControl(sh: Shared, t: Token): Shared {
    if ControlTurn(sh, t) then
      var sh1 := sh.(token := None);
      var sock := SlotOn(sh1, t.conn, Control);
      if sock.Some? then CloseControl(sh1, t.conn, sock.value) else sh1
    else sh
  }

  // ---- Connect

  /** Entry of Connect: cancels a pending one; true when it must disconnect first. */
  function ConnectEnter(sh: Shared): (Shared, bool) {
    (sh.(cancelled := CancelIf(sh.cancelled, sh.connectCancel), connectCancel := None), sh.connected)
  }

  function ConnectBegin(sh: Shared): (Shared, nat, nat) {
    (sh.(connectGen := sh.connectGen + 1, connectCancel := Some(sh.contexts), contexts := sh.contexts + 1),
     sh.connectGen + 1, sh.contexts)
  }

  function ConnectFailed(sh: Shared, gen: nat): Shared {
    if sh.connectGen == gen then sh.(connectCancel := None) else sh
  }

  datatype PublishOutcome = ConnectAborted | ConnectedIdle | SpeakerLaunched(done: nat, gen: nat, ctx: nat, sock: nat)

  /** Publishing the dialled connection, with launchSpeakerWorkerLocked. */
  function ConnectPublish(sh: Shared, gen: nat, ctx: nat, c: nat): (Shared, PublishOutcome) {
    if sh.connectGen != gen || ctx in sh.cancelled then
      (CloseConnection(sh, Some(c)), ConnectAborted)
    else
      var sh1 := sh.(connectCancel := None, conn := Some(c), connected := true);
      var st := At(sh1, Speaker);
      var sock := SlotOn(sh1, c, Speaker);
      if sock.None? then
        (Put(sh1, Speaker, st.(active := false, running := false)), ConnectedIdle)
      else
        var done := sh1.launched;
        var wctx := sh1.contexts;
        (Put(sh1, Speaker, st.(running := true, active := true, gen := st.gen + 1, cancel := Some(wctx),
                               done := Some(done)))
         .(launched := done + 1, contexts := wctx + 1),
         SpeakerLaunched(done, st.gen + 1, wctx, sock.value))
  }
}
