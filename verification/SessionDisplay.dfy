/** Display power over the session core: the hub's own machine and the session core's, joined. An end
    of a screen session is cut in two here, so that the other goroutines run between the moment the
    route is detached and the ON that is written to it.

    EndScreenSession is called at the start of what stopStream, Disconnect and the screen's worker do
    to a session. StartsEnd and FinishesEnd are that call; the section follows as a step of its own,
    in which the hub's session is over already. That the callers hold the controller's mutex meanwhile
    is not used: more interleavings are covered than can happen. */
module SessionDisplay {
  import opened Wrappers
  import opened Transport
  import opened SessionState
  import opened SessionSystem
  import opened SessionInvariant
  import opened SessionLanes
  import opened SessionInstalls
  import opened SessionControl
  import opened SessionReconnects
  import opened SessionTheorems
  import opened SessionSafety
  import opened HubLink
  import ScreenHub
  import HubRuns

  /** `sock` says which socket a control route was made for. */
  datatype Joint = Joint(s: State, hub: HubRuns.State, sock: map<nat, nat>)

  const Start := Joint(Initial, HubRuns.Initial, map[])

  datatype Step =
    | Runs(a: Action, ok: bool)
    | StartsEnd
    | FinishesEnd(ok: bool)
    | GetsHeader(gen: nat, header: ScreenHub.Header, ok: bool)
    | Frames(gen: nat, frame: ScreenHub.Frame)

  predicate Launches(s: State, a: Action)
    requires Enabled(s, a)
  {
    a.Installs? && s.starts[a.t].n == Screen && InstallOut(s, a.t).Launched?
  }

  /** The section calls the hub, and waits for displayMu while an end is in progress. */
  predicate WaitsForHub(s: State, a: Action)
    requires Enabled(s, a)
  {
    a == StopCall(Screen) || a.DisconnectCall? || a.ConnectDisconnects? || a.WorkerEndsHub? || a.ReconnectRegisters? || Launches(s, a)
  }

  /** The section would end the active session of the hub in one step. */
  predicate EndsActive(s: State, a: Action)
    requires Enabled(s, a)
  {
    (a == StopCall(Screen) || a.DisconnectCall? || a.ConnectDisconnects? || a.WorkerEndsHub?) && Next(s, a).sh.hub != s.sh.hub
  }

  predicate Possible(x: Joint, e: Step) {
    match e
    case Runs(a, _) => Enabled(x.s, a) && !EndsActive(x.s, a) && (x.hub.ending.Some? ==> !WaitsForHub(x.s, a))
    case StartsEnd => x.s.sh.hub.active && x.hub.ending.None?
    case FinishesEnd(_) => x.hub.ending.Some?
    case GetsHeader(_, _, _) => x.hub.ending.None?
    case Frames(_, _) => true
  }

  function HubOver(s: State): State {
    s.(sh := s.sh.(hub := EndScreen(s.sh.hub, s.sh.hub.gen)))
  }

  function Do(x: Joint, e: Step): Joint
    requires Possible(x, e)
  {
    match e
    case Runs(a, ok) =>
      var s' := Next(x.s, a);
      if x.hub.ending.None? && Launches(x.s, a) then Joint(s', HubRuns.Next(x.hub, HubRuns.Begins(ok)), x.sock)
      else if x.hub.ending.None? && a.ReconnectRegisters? then
        var r := x.s.reconnects[a.k];
        Joint(s', HubRuns.Next(x.hub, HubRuns.Registers(r.tok.hubGen, ok)), x.sock[x.hub.h.routes := r.phase.sock])
      else x.(s := s')
    case StartsEnd => x.(s := HubOver(x.s), hub := HubRuns.Next(x.hub, HubRuns.StartsEnd(x.s.sh.hub.gen)))
    case FinishesEnd(ok) => x.(hub := HubRuns.Next(x.hub, HubRuns.FinishesEnd(ok)))
    case GetsHeader(gen, header, ok) => x.(hub := HubRuns.Next(x.hub, HubRuns.GetsHeader(gen, header, ok)))
    case Frames(gen, frame) => x.(hub := HubRuns.Next(x.hub, HubRuns.Frames(gen, frame)))
  }

  ghost predicate IsJointRun(x: Joint, es: seq<Step>)
    decreases |es|
  {
    es == [] || (Possible(x, es[0]) && IsJointRun(Do(x, es[0]), es[1..]))
  }

  ghost function AfterSteps(x: Joint, es: seq<Step>): Joint
    requires IsJointRun(x, es)
    decreases |es|
  {
    if es == [] then x else AfterSteps(Do(x, es[0]), es[1..])
  }

  // ---- the invariant

  /** The route on socket `v` was detached by an end in progress: its session is still the current
      one, its worker has not passed the hub, its reconnect is through. */
  ghost predicate Ending(s: State, v: nat) {
    && 1 <= s.sh.hub.gen <= |s.reconnects|
    && s.reconnects[s.sh.hub.gen - 1].phase == ROver(Some(v))
    && WorkerOf(s, s.sh.hub.gen) < |s.workers|
    && s.workers[WorkerOf(s, s.sh.hub.gen)].n == Screen && s.workers[WorkerOf(s, s.sh.hub.gen)].phase == Working
    && s.sh.conn == Some(s.reconnects[s.sh.hub.gen - 1].tok.conn)
  }

  ghost predicate Linked(x: Joint) {
    && x.s.sh.hub == Life(x.hub.h, x.sock)
    && (x.hub.h.route.Some? ==> x.hub.h.route.value.id in x.sock)
    && (x.hub.ending.Some? && x.hub.ending.value.Some? ==>
          x.hub.ending.value.value.id in x.sock && Ending(x.s, x.sock[x.hub.ending.value.value.id]))
  }

  ghost predicate JointInv(x: Joint) {
    Inv(x.s) && HubRuns.Inv(x.hub) && Linked(x)
  }

  // ---- what the steps of the session core leave alone

  lemma StreamLeavesHub(s: State, s': State, a: Action)
    requires IsStreamStep(a) && Enabled(s, a) && s' == Next(s, a) && !WaitsForHub(s, a)
    ensures s'.sh.hub == s.sh.hub && s'.reconnects == s.reconnects && s'.sh.conn == s.sh.conn
    ensures |s.workers| <= |s'.workers| && forall i :: 0 <= i < |s.workers| ==> s'.workers[i] == s.workers[i]
  {
    match a
    case StartCall(n) => StartLeavesHub(s.sh, n);
    case StartResumes(t) => ResumeLeavesHub(s.sh, s.starts[t].n, s.starts[t].phase.session, s.starts[t].phase.gen);
    case Installs(t) => InstallLeavesHub(s, s', t);
    case _ =>
  }

  lemma StartLeavesHub(sh: Shared, n: StreamId)
    ensures StartEnter(sh, n).0.hub == sh.hub && StartEnter(sh, n).0.conn == sh.conn
  {
  }

  lemma ResumeLeavesHub(sh: Shared, n: StreamId, conn: Option<nat>, gen: nat)
    ensures StartResume(sh, n, conn, gen).0.hub == sh.hub && StartResume(sh, n, conn, gen).0.conn == sh.conn
  {
  }

  lemma InstallLeavesHub(s: State, s': State, t: nat)
    requires Enabled(s, Installs(t)) && s' == DoInstall(s, t) && !Launches(s, Installs(t))
    ensures s'.sh.hub == s.sh.hub && s'.reconnects == s.reconnects && s'.sh.conn == s.sh.conn
    ensures |s.workers| <= |s'.workers| && forall i :: 0 <= i < |s.workers| ==> s'.workers[i] == s.workers[i]
  {
  }

  /** A worker that is still working is left so by all but its own entry into the hub. */
  lemma WorkerLeavesHub(s: State, s': State, a: Action)
    requires IsWorkerStep(a) && !a.WorkerEndsHub? && Enabled(s, a) && s' == Next(s, a)
    ensures s'.sh.hub == s.sh.hub && s'.reconnects == s.reconnects && s'.sh.conn == s.sh.conn && |s'.workers| == |s.workers|
    ensures forall i :: 0 <= i < |s.workers| && s.workers[i].n == Screen && s.workers[i].phase == Working ==> s'.workers[i] == s.workers[i]
  {
  }

  lemma ConnectLeavesHub(s: State, s': State, a: Action)
    requires IsConnectStep(a) && Enabled(s, a) && s' == Next(s, a) && !WaitsForHub(s, a)
    ensures s'.sh.hub == s.sh.hub && s'.reconnects == s.reconnects
    ensures |s.workers| <= |s'.workers| && forall i :: 0 <= i < |s.workers| ==> s'.workers[i] == s.workers[i]
    ensures s'.sh.conn == s.sh.conn || a.ConnectPublishes?
  {
  }

  lemma ReconnectLeavesHub(s: State, s': State, a: Action)
    requires IsReconnectStep(a) && !a.ReconnectRegisters? && Enabled(s, a) && s' == Next(s, a)
    ensures s'.sh.hub == s.sh.hub && s'.workers == s.workers && s'.sh.conn == s.sh.conn && |s'.reconnects| == |s.reconnects|
    ensures forall k :: 0 <= k < |s.reconnects| ==>
              s'.reconnects[k].worker == s.reconnects[k].worker && s'.reconnects[k].tok == s.reconnects[k].tok
              && (s.reconnects[k].phase.ROver? ==> s'.reconnects[k].phase == s.reconnects[k].phase)
  {
  }

  lemma HubUntouched(s: State, s': State, a: Action)
    requires Enabled(s, a) && s' == Next(s, a) && (!WaitsForHub(s, a) || (!EndsActive(s, a) && !Launches(s, a) && !a.ReconnectRegisters?))
    ensures s'.sh.hub == s.sh.hub
  {
    if !WaitsForHub(s, a) {
      if IsStreamStep(a) {
        StreamLeavesHub(s, s', a);
      } else if IsWorkerStep(a) {
        WorkerLeavesHub(s, s', a);
      } else if IsConnectStep(a) {
        ConnectLeavesHub(s, s', a);
      } else {
        ReconnectLeavesHub(s, s', a);
      }
    }
  }

  /** Between the two halves of an end nothing moves that its route depends on. */
  lemma EndingKept(s: State, s': State, a: Action, v: nat)
    requires Ending(s, v) && (s.connect.Connected? ==> !s.sh.connected) && (s.sh.connected <==> s.sh.conn.Some?)
    requires Enabled(s, a) && s' == Next(s, a) && !WaitsForHub(s, a)
    ensures Ending(s', v)
  {
    if IsStreamStep(a) {
      StreamLeavesHub(s, s', a);
    } else if IsWorkerStep(a) {
      WorkerLeavesHub(s, s', a);
    } else if IsConnectStep(a) {
      ConnectLeavesHub(s, s', a);
    } else {
      ReconnectLeavesHub(s, s', a);
    }
  }

  // ---- the two halves of an end

  lemma HubOverKeeps(s: State)
    requires Inv(s)
    ensures Inv(HubOver(s))
  {
    var s' := HubOver(s);
    assert HubStays(s, s') && SameControl(s, s');
    ControlCarries(s, s');
    HubOverOnly(s);
    ControlOnlyStep(s, s');
  }

  lemma HubOverOnly(s: State)
    ensures ControlOnly(s, HubOver(s))
  {
  }

  /** What the end detaches. */
  lemma EndingBegins(s: State, v: nat)
    requires HubOk(s) && ReconnectsOk(s) && s.sh.hub.active && s.sh.hub.route == Some(v)
    ensures Ending(HubOver(s), v)
  {
  }

  /** The route detached is an open socket, and the one in the current control slot. */
  lemma EndingIsLive(s: State, v: nat)
    requires ReconnectsOk(s) && TokenOk(s) && Ending(s, v)
    ensures v !in s.sh.closed && CurSlot(s.sh, Control) == Some(v)
  {
    var k := s.sh.hub.gen - 1;
    assert ReconnectOk(s, k, s.reconnects[k]);
    var i := s.reconnects[k].worker;
    assert ScreenWorkerOk(s, i, s.workers[i]);
    EndingHeld(s, v, k, i);
  }

  lemma EndingHeld(s: State, v: nat, k: nat, i: nat)
    requires Ending(s, v) && k == s.sh.hub.gen - 1 && ReconnectOk(s, k, s.reconnects[k]) && i == s.reconnects[k].worker
    requires i < |s.workers| && ScreenWorkerOk(s, i, s.workers[i])
    ensures v !in s.sh.closed && CurSlot(s.sh, Control) == Some(v)
  {
  }

  // ---- every step keeps the link

  lemma HubStep(h: HubRuns.State, a: HubRuns.Action)
    requires HubRuns.Inv(h) && HubRuns.Enabled(h, a)
    ensures HubRuns.Inv(HubRuns.Next(h, a))
  {
    HubRuns.PowerStep(h, a);
    HubRuns.ReplayStep(h, a);
  }

  lemma RunsHub(x: Joint, x': Joint, a: Action, ok: bool)
    requires HubRuns.Inv(x.hub) && Possible(x, Runs(a, ok)) && x' == Do(x, Runs(a, ok))
    ensures HubRuns.Inv(x'.hub)
  {
    if x.hub.ending.None? && Launches(x.s, a) {
      HubStep(x.hub, HubRuns.Begins(ok));
    } else if x.hub.ending.None? && a.ReconnectRegisters? {
      HubStep(x.hub, HubRuns.Registers(x.s.reconnects[a.k].tok.hubGen, ok));
    } else {
      assert x'.hub == x.hub;
    }
  }

  lemma RunsLinks(x: Joint, x': Joint, a: Action, ok: bool)
    requires Linked(x) && Possible(x, Runs(a, ok)) && x' == Do(x, Runs(a, ok))
    requires (x.s.connect.Connected? ==> !x.s.sh.connected) && (x.s.sh.connected <==> x.s.sh.conn.Some?)
    requires x.hub.h.route.Some? ==> x.hub.h.route.value.id < x.hub.h.routes
    ensures Linked(x')
  {
    if x.hub.ending.None? && Launches(x.s, a) {
      LaunchLinks(x, x', a, ok);
    } else if x.hub.ending.None? && a.ReconnectRegisters? {
      RegisterLinks(x, x', a.k, ok);
    } else {
      HubUntouched(x.s, x'.s, a);
      if x.hub.ending.Some? && x.hub.ending.value.Some? {
        EndingKept(x.s, x'.s, a, x.sock[x.hub.ending.value.value.id]);
      }
    }
  }

  lemma RunsKeeps(x: Joint, x': Joint, a: Action, ok: bool)
    requires JointInv(x) && Possible(x, Runs(a, ok)) && x' == Do(x, Runs(a, ok))
    ensures JointInv(x')
  {
    RunsSession(x, x', a, ok);
    RunsHub(x, x', a, ok);
    RunsLinks(x, x', a, ok);
  }

  lemma RunsSession(x: Joint, x': Joint, a: Action, ok: bool)
    requires Inv(x.s) && Possible(x, Runs(a, ok)) && x' == Do(x, Runs(a, ok))
    ensures Inv(x'.s)
  {
    RunsNext(x, x', a, ok);
    StepKeeps(x.s, a);
  }

  lemma RunsNext(x: Joint, x': Joint, a: Action, ok: bool)
    requires Possible(x, Runs(a, ok)) && x' == Do(x, Runs(a, ok))
    ensures x'.s == Next(x.s, a)
  {
  }

  lemma LaunchLinks(x: Joint, x': Joint, a: Action, ok: bool)
    requires Linked(x) && x.hub.ending.None? && Enabled(x.s, a) && Launches(x.s, a)
    requires x' == Joint(Next(x.s, a), HubRuns.Next(x.hub, HubRuns.Begins(ok)), x.sock)
    ensures Linked(x')
  {
    BeginAgrees(x.hub.h, x.sock, ok);
    LaunchBegins(x.s, x'.s, a.t);
  }

  lemma LaunchBegins(s: State, s': State, t: nat)
    requires Enabled(s, Installs(t)) && Launches(s, Installs(t)) && s' == DoInstall(s, t)
    ensures s'.sh.hub == BeginScreen(s.sh.hub)
  {
  }

  lemma RegisterLinks(x: Joint, x': Joint, k: nat, ok: bool)
    requires Linked(x) && x.hub.ending.None? && Enabled(x.s, ReconnectRegisters(k))
    requires var r := x.s.reconnects[k];
             x' == Joint(DoRegister(x.s, k), HubRuns.Next(x.hub, HubRuns.Registers(r.tok.hubGen, ok)), x.sock[x.hub.h.routes := r.phase.sock])
    requires x.hub.h.route.Some? ==> x.hub.h.route.value.id < x.hub.h.routes
    ensures Linked(x')
  {
    var r := x.s.reconnects[k];
    RegisterAgrees(x.s.sh, x.hub.h, x.sock, r.tok, r.phase.sock, ok);
  }

  lemma EndLinks(x: Joint, x': Joint)
    requires Linked(x) && HubOk(x.s) && ReconnectsOk(x.s) && Possible(x, StartsEnd) && x' == Do(x, StartsEnd)
    ensures Linked(x')
  {
    EndAgrees(x.hub.h, x.sock, x.s.sh.hub.gen, true);
    if x.hub.h.route.Some? {
      EndingBegins(x.s, x.sock[x.hub.h.route.value.id]);
    }
  }

  lemma FinishLinks(x: Joint, x': Joint, ok: bool)
    requires Linked(x) && Possible(x, FinishesEnd(ok)) && x' == Do(x, FinishesEnd(ok))
    ensures Linked(x')
  {
  }

  lemma ShowLinks(x: Joint, x': Joint, e: Step)
    requires Linked(x) && (e.GetsHeader? || e.Frames?) && Possible(x, e) && x' == Do(x, e)
    ensures Linked(x')
  {
    match e
    case GetsHeader(gen, header, ok) => ShowingAgrees(x.hub.h, x.sock, gen, header, [], ok);
    case Frames(gen, frame) => ShowingAgrees(x.hub.h, x.sock, gen, ScreenHub.Header(0, 0), frame, true);
  }

  lemma JointStepKeeps(x: Joint, x': Joint, e: Step)
    requires JointInv(x) && Possible(x, e) && x' == Do(x, e)
    ensures JointInv(x')
  {
    match e
    case Runs(a, ok) => RunsKeeps(x, x', a, ok);
    case StartsEnd =>
      HubOverKeeps(x.s);
      HubStep(x.hub, HubRuns.StartsEnd(x.s.sh.hub.gen));
      EndLinks(x, x');
    case FinishesEnd(ok) =>
      HubStep(x.hub, HubRuns.FinishesEnd(ok));
      FinishLinks(x, x', ok);
    case GetsHeader(gen, header, ok) =>
      HubStep(x.hub, HubRuns.GetsHeader(gen, header, ok));
      ShowLinks(x, x', e);
    case Frames(gen, frame) =>
      HubStep(x.hub, HubRuns.Frames(gen, frame));
      ShowLinks(x, x', e);
  }

  lemma {:induction false} JointRunKeeps(x: Joint, es: seq<Step>)
    requires JointInv(x) && IsJointRun(x, es)
    ensures JointInv(AfterSteps(x, es))
    decreases |es|
  {
    if es != [] {
      JointStepKeeps(x, Do(x, es[0]), es[0]);
      JointRunKeeps(Do(x, es[0]), es[1..]);
    }
  }

  lemma StartJoint()
    ensures JointInv(Start)
  {
    InitialInv();
  }

  // ---- the theorems

  /** While the hub has an active session, the screen's done channel is there. */
  lemma ActiveHasDone(s: State)
    requires HubOk(s) && ReconnectsOk(s) && LaneOk(s, Screen) && s.sh.hub.active
    ensures At(s.sh, Screen).done.Some?
  {
    var k := s.sh.hub.gen - 1;
    var i := s.reconnects[k].worker;
    assert ReconnectOk(s, k, s.reconnects[k]) && WorkerOk(s, Screen, i, s.workers[i]);
  }

  /** When a screen worker is launched the hub has no active session: BeginScreenSession never has to
      end one for the controller. */
  lemma LaunchFindsHubIdle(s: State, t: nat)
    requires Inv(s) && Enabled(s, Installs(t)) && Launches(s, Installs(t))
    ensures !s.sh.hub.active
  {
    LaneOf(s, Screen);
    LaunchFindsNoDone(s, t);
    if s.sh.hub.active { ActiveHasDone(s); }
  }

  lemma LaunchFindsNoDone(s: State, t: nat)
    requires SessionOk(s) && LaneOk(s, Screen) && Enabled(s, Installs(t)) && Launches(s, Installs(t))
    ensures At(s.sh, Screen).done == None
  {
    LaunchHires(s, DoInstall(s, t), Screen, t);
  }

  /** The log gained nothing, or one OFF on the route registered now. */
  predicate OffOnly(h: ScreenHub.HubState, h': ScreenHub.HubState) {
    h'.log == h.log || (h'.route.Some? && exists ok :: h'.log == h.log + [ScreenHub.Sent(h'.route.value.id, false, ok)])
  }

  lemma HeaderLog(h: ScreenHub.HubState, gen: nat, header: ScreenHub.Header, ok: bool)
    ensures OffOnly(h, ScreenHub.SetSession(h, gen, header, ok).0)
  {
  }

  lemma RegisterLog(h: ScreenHub.HubState, gen: nat, ok: bool)
    ensures OffOnly(h, ScreenHub.Register(h, gen, ok).0)
  {
  }

  /** A power write on route `r` reached an open socket: the one in the control slot of the current
      connection. */
  ghost predicate Reached(x: Joint, r: nat) {
    r in x.sock && x.sock[r] !in x.s.sh.closed && CurSlot(x.s.sh, Control) == Some(x.sock[r])
  }

  lemma CurrentRouteReached(x: Joint)
    requires Linked(x) && HubOk(x.s) && ReconnectsOk(x.s) && TokenOk(x.s) && x.hub.h.route.Some?
    ensures Reached(x, x.hub.h.route.value.id)
  {
    var s, k := x.s, x.s.sh.hub.gen - 1;
    assert ReconnectOk(s, k, s.reconnects[k]);
    var i := s.reconnects[k].worker;
    assert ScreenWorkerOk(s, i, s.workers[i]);
    RouteHeld(s, k, i);
  }

  lemma EndingRouteReached(x: Joint)
    requires Linked(x) && ReconnectsOk(x.s) && TokenOk(x.s) && x.hub.ending.Some? && x.hub.ending.value.Some?
    ensures Reached(x, x.hub.ending.value.value.id)
  {
    EndingIsLive(x.s, x.sock[x.hub.ending.value.value.id]);
  }

  /** Both the current route and one whose session is ending lead to a live socket. */
  ghost predicate RoutesReach(x: Joint) {
    && (x.hub.h.route.Some? ==> Reached(x, x.hub.h.route.value.id))
    && (x.hub.ending.Some? && x.hub.ending.value.Some? ==> Reached(x, x.hub.ending.value.value.id))
  }

  lemma InvReaches(x: Joint)
    requires JointInv(x)
    ensures RoutesReach(x)
  {
    if x.hub.h.route.Some? { CurrentRouteReached(x); }
    if x.hub.ending.Some? && x.hub.ending.value.Some? { EndingRouteReached(x); }
  }

  /** Before and after any step of any run. */
  lemma RoutesStayLive(es: seq<Step>, x: Joint, e: Step, x': Joint)
    requires IsJointRun(Start, es) && x == AfterSteps(Start, es) && Possible(x, e) && x' == Do(x, e)
    ensures RoutesReach(x) && RoutesReach(x') && (e.Runs? && Launches(x.s, e.a) ==> !x.s.sh.hub.active) && Linked(x)
    ensures x.hub.ending.Some? && x.hub.ending.value.Some? ==> !x.hub.ending.value.value.closed
  {
    StartJoint();
    JointRunKeeps(Start, es);
    JointStepKeeps(x, x', e);
    InvReaches(x);
    InvReaches(x');
    if e.Runs? && Launches(x.s, e.a) { LaunchFindsHubIdle(x.s, e.a.t); }
  }

  /** Every automatic power write, OFF or ON, in every interleaving of the whole session core with the
      two halves of an end, goes to a socket that is open and in the control slot of the current
      connection. */
  lemma PowerWritesReachLiveSockets(es: seq<Step>, x: Joint, e: Step, x': Joint, i: nat)
    requires IsJointRun(Start, es) && x == AfterSteps(Start, es) && Possible(x, e) && x' == Do(x, e)
    requires |x.hub.h.log| <= i < |x'.hub.h.log|
    ensures Reached(x', x'.hub.h.log[i].route)
  {
    RoutesStayLive(es, x, e, x');
    match e
    case GetsHeader(gen, header, ok) => HeaderLog(x.hub.h, gen, header, ok);
    case Runs(a, ok) => RunLog(x, x', a, ok);
    case _ =>
  }

  lemma RunLog(x: Joint, x': Joint, a: Action, ok: bool)
    requires Possible(x, Runs(a, ok)) && x' == Do(x, Runs(a, ok)) && x.s.sh.hub.active == x.hub.h.active
    requires Launches(x.s, a) ==> !x.s.sh.hub.active
    ensures OffOnly(x.hub.h, x'.hub.h)
  {
    if x.hub.ending.None? && a.ReconnectRegisters? && !Launches(x.s, a) {
      RegisterLog(x.hub.h, x.s.reconnects[a.k].tok.hubGen, ok);
    }
  }

  /** However an end is overtaken by other goroutines between its halves: while the display is off its
      second half attempts ON, on the route that was active when it began, and that route's socket has
      not been closed and is still the current one; the duty ends if and only if the write succeeds. */
  lemma EndAttemptsOnLiveSocket(es: seq<Step>, x: Joint, r: ScreenHub.Route, ok: bool, x': Joint)
    requires IsJointRun(Start, es) && x == AfterSteps(Start, es)
    requires x.hub.ending == Some(Some(r)) && x.hub.h.powerOff && x' == Do(x, FinishesEnd(ok))
    ensures x'.hub.h.log == x.hub.h.log + [ScreenHub.Sent(r.id, true, ok)] && Reached(x', r.id)
    ensures x'.hub.h.powerOff <==> !ok
  {
    RoutesStayLive(es, x, FinishesEnd(ok), x');
  }
}
