/** A run in which a screen's worker and its reconnect are done and a control socket is still open:
    Disconnect has detached the connection and has not closed it yet. */
module SessionWitness {
  import opened Wrappers
  import opened Transport
  import opened SessionState
  import opened SessionSystem
  import opened SessionInvariant
  import opened SessionTheorems

  lemma {:induction false} RunExtends(s: State, acts: seq<Action>, a: Action)
    requires IsRun(s, acts) && Enabled(After(s, acts), a)
    ensures IsRun(s, acts + [a]) && After(s, acts + [a]) == Next(After(s, acts), a)
    decreases |acts|
  {
    if acts == [] {
      assert acts + [a] == [a];
      assert IsRun(Next(s, a), []);
    } else {
      RunExtends(Next(s, acts[0]), acts[1..], a);
      assert (acts + [a])[1..] == acts[1..] + [a];
    }
  }

  lemma Extends(s: State, a: Action)
    requires Reachable(s) && Enabled(s, a)
    ensures Reachable(Next(s, a))
  {
    var acts :| IsRun(Initial, acts) && After(Initial, acts) == s;
    RunExtends(Initial, acts, a);
  }

  lemma InitialReachable()
    ensures Reachable(Initial)
  {
    assert IsRun(Initial, []) && After(Initial, []) == Initial;
  }

  /** Connected, with the speaker's worker running on connection 0. */
  predicate UpAndRunning(s: State) {
    && s.sh.connected && s.sh.conn == Some(0) && s.sh.conns == [Conn(false, map[Speaker := 0])]
    && At(s.sh, Screen) == FreshStream && s.sh.token == None && s.sh.hub == HubLife(false, 0, None)
    && s.sh.cancelled == {} && s.sh.closed == {} && s.sh.connectCancel == None
    && s.sh.launched == 1 && s.sh.contexts == 2
    && |s.workers| == 1 && s.starts == [] && s.discs == [] && s.reconnects == [] && s.users == [UWorker(Speaker, 0)]
    && s.connect == Idle
  }

  /** Connect has dialled connection 0. */
  predicate Dialled(s: State) {
    && s.connect == Connected(1, 0, 0) && !s.sh.connected && s.sh.conn == None && s.sh.conns == [Conn(false, map[Speaker := 0])]
    && s.sh.connectGen == 1
    && At(s.sh, Screen) == FreshStream && s.sh.token == None && s.sh.hub == HubLife(false, 0, None)
    && s.sh.cancelled == {} && s.sh.closed == {} && s.sh.launched == 0 && s.sh.contexts == 1
    && s.workers == [] && s.starts == [] && s.discs == [] && s.reconnects == [] && s.users == [UConnect]
  }

  lemma Dialling() returns (s: State)
    ensures Reachable(s) && Dialled(s)
  {
    InitialReachable();
    var s1 := DoConnect(Initial);
    Extends(Initial, ConnectCall);
    var s2 := DoConnectBegin(s1);
    Extends(s1, ConnectDials);
    s := DoConnectDialOk(s2);
    Extends(s2, ConnectDialOk);
  }

  lemma PublishesUp(s: State)
    requires Dialled(s)
    ensures UpAndRunning(DoPublish(s))
  {
  }

  lemma Connects() returns (s: State)
    ensures Reachable(s) && UpAndRunning(s)
  {
    var s1 := Dialling();
    PublishesUp(s1);
    s := DoPublish(s1);
    Extends(s1, ConnectPublishes);
  }

  /** The screen's worker runs; its reconnect is about to check. */
  predicate ScreenUp(s: State) {
    && s.sh.connected && s.sh.conn == Some(0) && |s.sh.conns| == 1 && !s.sh.conns[0].closed && SlotOn(s.sh, 0, Control) == None
    && At(s.sh, Screen).gen == 1 && At(s.sh, Screen).hubGen == 1 && At(s.sh, Screen).running
    && s.sh.token == Some(Token(0, 1, 1)) && s.sh.hub == HubLife(true, 1, None)
    && 2 !in s.sh.cancelled && s.sh.closed == {} && s.sh.connectCancel == None
    && |s.workers| == 2 && s.workers[1].n == Screen && s.workers[1].phase == Working && s.workers[1].Tok() == Token(0, 1, 1)
    && s.reconnects == [Reconnect(1, Token(0, 1, 1), 2, Checking)] && |s.users| == 2 && s.discs == []
  }

  /** startStream of the screen has dialled socket 1. */
  predicate ScreenDialled(s: State) {
    && s.sh.connected && s.sh.conn == Some(0) && |s.sh.conns| == 1 && !s.sh.conns[0].closed && SlotOn(s.sh, 0, Control) == None
    && SlotOn(s.sh, 0, Screen) == None
    && At(s.sh, Screen) == FreshStream.(gen := 1, cancel := Some(2)) && s.sh.token == None && s.sh.hub == HubLife(false, 0, None)
    && s.sh.cancelled == {} && s.sh.closed == {} && s.sh.connectCancel == None && s.sh.contexts == 3
    && |s.workers| == 1 && s.sh.launched == 1 && s.starts == [Start(Screen, Dialed(0, 1, 2, Some(1)))]
    && s.reconnects == [] && |s.users| == 2 && s.discs == []
  }

  lemma DialsScreen(s: State) returns (r: State)
    requires Reachable(s) && UpAndRunning(s)
    ensures Reachable(r) && ScreenDialled(r)
  {
    var s1 := DoStart(s, Screen);
    Extends(s, StartCall(Screen));
    assert s1.starts == [Start(Screen, Dialing(0, 1, 2))];
    r := DoDialOk(s1, 0);
    Extends(s1, DialOk(0));
  }

  lemma InstallsUp(s: State)
    requires ScreenDialled(s)
    ensures ScreenUp(DoInstall(s, 0))
  {
  }

  lemma Starts(s: State) returns (r: State)
    requires Reachable(s) && UpAndRunning(s)
    ensures Reachable(r) && ScreenUp(r)
  {
    var s1 := DialsScreen(s);
    InstallsUp(s1);
    r := DoInstall(s1, 0);
    Extends(s1, Installs(0));
  }

  /** The reconnect has put socket 2 into the control slot. */
  predicate Installed(s: State) {
    && s.sh.connected && s.sh.conn == Some(0) && |s.sh.conns| == 1 && SlotOn(s.sh, 0, Control) == Some(2)
    && At(s.sh, Screen).gen == 1 && At(s.sh, Screen).hubGen == 1 && At(s.sh, Screen).running && s.sh.hub == HubLife(true, 1, None)
    && s.sh.closed == {} && s.discs == []
    && |s.workers| == 2 && s.workers[1].n == Screen && s.workers[1].phase == Working
    && s.reconnects == [Reconnect(1, Token(0, 1, 1), 2, RInstalled(2))] && |s.users| == 3 && s.users[2] == UReconnect(0)
  }

  /** The reconnect has dialled socket 2. */
  predicate HasSocket(s: State) {
    && s.sh.connected && s.sh.conn == Some(0) && |s.sh.conns| == 1 && !s.sh.conns[0].closed && SlotOn(s.sh, 0, Control) == None
    && At(s.sh, Screen).gen == 1 && At(s.sh, Screen).hubGen == 1 && At(s.sh, Screen).running && s.sh.hub == HubLife(true, 1, None)
    && s.sh.token == Some(Token(0, 1, 1)) && 2 !in s.sh.cancelled && s.sh.closed == {} && s.discs == []
    && |s.workers| == 2 && s.workers[1].n == Screen && s.workers[1].phase == Working
    && s.reconnects == [Reconnect(1, Token(0, 1, 1), 2, RDialed(2))] && |s.users| == 3 && s.users[2] == UReconnect(0)
  }

  lemma DialsControl(s: State) returns (r: State)
    requires Reachable(s) && ScreenUp(s)
    ensures Reachable(r) && HasSocket(r)
  {
    var s1 := DoCheck(s, 0);
    Extends(s, ReconnectChecks(0));
    r := Reach(s1, 0, RDialed(|s1.users|)).(users := s1.users + [UReconnect(0)]);
    Extends(s1, ReconnectDialOk(0));
  }

  lemma Dials(s: State) returns (r: State)
    requires Reachable(s) && HasSocket(s)
    ensures Reachable(r) && Installed(r)
  {
    r := DoReconnectInstall(s, 0);
    Extends(s, ReconnectInstalls(0));
  }

  /** The reconnect has registered socket 2 and finished. */
  predicate Registered(s: State) {
    && s.sh.connected && s.sh.conn == Some(0) && |s.sh.conns| == 1 && SlotOn(s.sh, 0, Control) == Some(2)
    && s.sh.closed == {} && s.discs == []
    && |s.workers| == 2 && s.workers[1].n == Screen && s.workers[1].phase == Working
    && s.reconnects == [Reconnect(1, Token(0, 1, 1), 2, ROver(Some(2)))] && |s.users| == 3 && s.users[2] == UReconnect(0)
  }

  lemma Registers(s: State) returns (r: State)
    requires Reachable(s) && Installed(s)
    ensures Reachable(r) && Registered(r)
  {
    var s1 := Next(s, ReconnectAsks(0));
    Extends(s, ReconnectAsks(0));
    r := DoRegister(s1, 0);
    Extends(s1, ReconnectRegisters(0));
  }

  /** The connection is detached and socket 2 still open; the reconnect is through. */
  predicate Outlived(s: State, p: Phase) {
    && |s.workers| == 2 && s.workers[1].n == Screen && s.workers[1].phase == p
    && |s.reconnects| == 1 && s.reconnects[0].worker == 1 && s.reconnects[0].phase.ROver?
    && |s.users| == 3 && s.users[2] == UReconnect(0) && 2 !in s.sh.closed
    && s.sh.conn == None && s.sh.token == None && |s.sh.conns| == 1 && SlotOn(s.sh, 0, Control) == Some(2)
    && SlotOn(s.sh, 0, Screen) != Some(2)
  }

  lemma Detaches(s: State) returns (r: State)
    requires Reachable(s) && Registered(s) && SlotOn(s.sh, 0, Screen) != Some(2)
    ensures Reachable(r) && Outlived(r, Working)
  {
    r := DoDisconnect(s);
    Extends(s, DisconnectCall);
  }

  lemma Leaves(s: State) returns (r: State)
    requires Reachable(s) && Outlived(s, Working)
    ensures Reachable(r) && Outlived(r, ControlClosed)
  {
    var s1 := Next(s, WorkerEndsHub(1));
    Extends(s, WorkerEndsHub(1));
    r := Next(s1, WorkerEndsControl(1));
    Extends(s1, WorkerEndsControl(1));
  }

  lemma EmptiesSlot(s: State) returns (r: State)
    requires Reachable(s) && Outlived(s, ControlClosed)
    ensures Reachable(r) && Outlived(r, SlotClosed)
  {
    r := Next(s, WorkerEndsSlot(1));
    Extends(s, WorkerEndsSlot(1));
  }

  lemma Exits(s: State) returns (r: State)
    requires Reachable(s) && Outlived(s, SlotClosed)
    ensures Reachable(r) && Outlived(r, Exited)
  {
    r := Next(s, WorkerExits(1));
    Extends(s, WorkerExits(1));
  }

  lemma Finishes(s: State) returns (r: State)
    requires Reachable(s) && Outlived(s, Exited)
    ensures Reachable(r) && Outlived(r, Finished)
  {
    r := Next(s, WorkerFinishes(1));
    Extends(s, WorkerFinishes(1));
  }

  /** The slots of two streams never hold the same socket: they answer to different goroutines. */
  lemma SlotsDiffer(s: State)
    requires Reachable(s) && |s.sh.conns| == 1 && SlotOn(s.sh, 0, Control) == Some(2) && |s.users| == 3 && s.users[2] == UReconnect(0)
    ensures SlotOn(s.sh, 0, Screen) != Some(2)
  {
    ReachableInv(s);
    assert LaneOk(s, Screen);
  }

  /** Worker and reconnect have finished, and the socket is open. */
  lemma ControlSocketMayOutliveBoth() returns (s: State)
    ensures Reachable(s) && Outlived(s, Finished)
  {
    var s0 := Connects();
    var s1 := Starts(s0);
    var s2 := DialsControl(s1);
    var s3 := Dials(s2);
    var s4 := Registers(s3);
    SlotsDiffer(s4);
    var s5 := Detaches(s4);
    var s6 := Leaves(s5);
    var s7 := EmptiesSlot(s6);
    var s8 := Exits(s7);
    s := Finishes(s8);
  }
}
