/** The steps of a screen session's control reconnect keep the invariant. */
module SessionReconnects {
  import opened Wrappers
  import opened Transport
  import opened SessionState
  import opened SessionEdits
  import opened SessionSystem
  import opened SessionInvariant
  import opened SessionFrames
  import opened SessionLanes
  import opened SessionControl

  /** In a control slot a step of reconnect `k` changes nothing, or takes its own socket out, or
      puts its own socket into the empty slot of the session in charge. */
  ghost predicate SlotMove(s: State, s': State, k: nat, c: nat)
    requires k < |s.reconnects|
  {
    var was, now := SlotOn(s.sh, c, Control), SlotOn(s'.sh, c, Control);
    || now == was
    || (was.Some? && was.value < |s.users| && s.users[was.value] == UReconnect(k) && now == None)
    || (was == None && now.Some? && now.value < |s'.users| && s'.users[now.value] == UReconnect(k)
        && c == s.reconnects[k].tok.conn && s.sh.token == Some(s.reconnects[k].tok))
  }

  /** A step of reconnect `k`, which had not finished. */
  ghost predicate ReconnectMoves(s: State, s': State, k: nat) {
    && k < |s.reconnects| && !s.reconnects[k].phase.ROver?
    && |s'.reconnects| == |s.reconnects|
    && s'.reconnects == s.reconnects[k := s.reconnects[k].(phase := s'.reconnects[k].phase)]
    && s'.workers == s.workers
    && ControlOnly(s, s')
    && s'.sh.token == s.sh.token && s'.sh.hub.gen == s.sh.hub.gen
    && (forall v :: |s.users| <= v < |s'.users| ==> s'.users[v] == UReconnect(k))
    && (forall v :: v in s'.sh.closed && v !in s.sh.closed ==> v < |s.users| && s.users[v] == UReconnect(k))
    && (forall c :: 0 <= c < |s.sh.conns| ==> SlotMove(s, s', k, c))
  }

  lemma OtherReconnect(s: State, s': State, k: nat, j: nat)
    requires ReconnectMoves(s, s', k) && j < |s.reconnects| && j != k
    requires ReconnectOk(s, j, s.reconnects[j]) && s.reconnects[k].tok.hubGen == k + 1
    requires s.reconnects[j].tok.conn < |s.sh.conns|
    requires forall v :: v in s.sh.closed ==> v < |s.users|
    ensures ReconnectOk(s', j, s'.reconnects[j])
  {
    assert SlotMove(s, s', k, s.reconnects[j].tok.conn);
  }

  lemma MovesReconnects(s: State, s': State, k: nat)
    requires ReconnectMoves(s, s', k) && ReconnectsOk(s)
    requires forall v :: v in s.sh.closed ==> v < |s.users|
    requires ReconnectOk(s', k, s'.reconnects[k])
    requires forall v :: 0 <= v < |s'.users| && s'.users[v] == UReconnect(k) ==> HasDialled(s'.reconnects[k].phase) && (v in s'.sh.closed || Held(s'.reconnects[k].phase) == Some(v))
    ensures ReconnectsOk(s')
  {
    assert ReconnectOk(s, k, s.reconnects[k]);
    forall j | 0 <= j < |s'.reconnects|
      ensures ReconnectOk(s', j, s'.reconnects[j])
    {
      if j != k {
        assert ReconnectOk(s, j, s.reconnects[j]);
        OtherReconnect(s, s', k, j);
      }
    }
  }

  /** Reconnect `k`'s socket is open while it is in a control slot. */
  ghost predicate OpenIfOwn(s: State, k: nat, c: nat) {
    var o := SlotOn(s.sh, c, Control);
    o.Some? && o.value < |s.users| && s.users[o.value] == UReconnect(k) ==> o.value !in s.sh.closed
  }

  /** What a reconnect's step has to show about itself. */
  ghost predicate OwnPart(s: State, s': State, k: nat)
    requires k < |s'.reconnects|
  {
    && ReconnectOk(s', k, s'.reconnects[k])
    && (forall v :: 0 <= v < |s'.users| && s'.users[v] == UReconnect(k) ==>
          HasDialled(s'.reconnects[k].phase) && (v in s'.sh.closed || Held(s'.reconnects[k].phase) == Some(v)))
    && (forall c :: 0 <= c < |s'.sh.conns| ==> OpenIfOwn(s', k, c))
    && (s'.reconnects[k].phase.RDialed? ==> forall c :: 0 <= c < |s'.sh.conns| && SlotOn(s'.sh, c, Control).Some? ==>
          SlotOn(s'.sh, c, Control).value < |s'.users| && s'.users[SlotOn(s'.sh, c, Control).value] != UReconnect(k))
  }

  lemma MovesToken(s: State, s': State, k: nat)
    requires ReconnectMoves(s, s', k) && TokenOk(s) && OwnPart(s, s', k)
    ensures TokenOk(s')
  {
    if s.sh.conn.Some? && s.sh.conn.value < |s.sh.conns| { assert SlotMove(s, s', k, s.sh.conn.value); }
    forall j | 0 <= j < |s'.workers| && s'.workers[j].n == Screen
      ensures ScreenWorkerOk(s', j, s'.workers[j])
    {
      assert ScreenWorkerOk(s, j, s.workers[j]);
    }
    forall c | 0 <= c < |s'.sh.conns| && SlotOn(s'.sh, c, Control).Some?
      ensures ControlOccupantOk(s', c, SlotOn(s'.sh, c, Control).value)
    {
      assert SlotMove(s, s', k, c);
      assert OpenIfOwn(s', k, c);
      if SlotOn(s.sh, c, Control).Some? { assert ControlOccupantOk(s, c, SlotOn(s.sh, c, Control).value); }
    }
  }

  lemma MovesHub(s: State, s': State, k: nat)
    requires ReconnectMoves(s, s', k) && HubOk(s)
    requires s'.sh.hub == s.sh.hub
             || (s.sh.hub.active && s.sh.hub.gen == k + 1 && s'.sh.hub.active && s'.sh.hub.route.Some?
                 && s'.reconnects[k].phase == ROver(s'.sh.hub.route))
    ensures HubOk(s')
  {
  }

  lemma ReconnectStep(s: State, s': State, k: nat)
    requires Inv(s) && ReconnectMoves(s, s', k) && OwnPart(s, s', k) && HubOk(s')
    ensures Inv(s')
  {
    MovesReconnects(s, s', k);
    MovesToken(s, s', k);
    ControlOnlyStep(s, s');
  }

  // ---- the steps, one by one

  /** What every step may use: its reconnect, and that sockets are numbered before they are closed. */
  ghost predicate Turn(s: State, k: nat) {
    && k < |s.reconnects| && ReconnectOk(s, k, s.reconnects[k])
    && (forall v :: v in s.sh.closed ==> v < |s.users|)
    && (forall v :: 0 <= v < |s.users| && s.users[v] == UReconnect(k) ==>
          HasDialled(s.reconnects[k].phase) && (v in s.sh.closed || Held(s.reconnects[k].phase) == Some(v)))
    && (forall c :: 0 <= c < |s.sh.conns| && SlotOn(s.sh, c, Control).Some? ==> ControlOccupantOk(s, c, SlotOn(s.sh, c, Control).value))
    && (s.sh.conns[s.reconnects[k].tok.conn].closed ==> s.sh.conns[s.reconnects[k].tok.conn].slots == map[])
    && (s.sh.token == Some(s.reconnects[k].tok) ==> !s.sh.conns[s.reconnects[k].tok.conn].closed)
  }

  lemma TurnOf(s: State, k: nat)
    requires SessionOk(s) && ReconnectsOk(s) && k < |s.reconnects|
    requires s.sh.token.Some? ==> s.sh.conn == Some(s.sh.token.value.conn)
    requires forall c :: 0 <= c < |s.sh.conns| && SlotOn(s.sh, c, Control).Some? ==> ControlOccupantOk(s, c, SlotOn(s.sh, c, Control).value)
    ensures Turn(s, k)
  {
  }

  /** The first check of a session in charge finds its control slot empty: it closes nothing. */
  lemma CheckFindsEmptySlot(s: State, k: nat)
    requires Turn(s, k) && s.reconnects[k].phase == Checking
    ensures ReconnectCheck(s.sh, s.reconnects[k].tok).0 == s.sh
  {
  }

  lemma QuietMove(s: State, s': State, k: nat)
    requires Turn(s, k) && !s.reconnects[k].phase.ROver?
    requires s' == s.(reconnects := s'.reconnects) && |s'.reconnects| == |s.reconnects|
    requires s'.reconnects == s.reconnects[k := s.reconnects[k].(phase := s'.reconnects[k].phase)]
    requires var p, p' := s.reconnects[k].phase, s'.reconnects[k].phase; Held(p') == Held(p) && !p.RDialed? && !p'.RDialed?
    ensures ReconnectMoves(s, s', k) && OwnPart(s, s', k)
  {
  }

  lemma DialsMove(s: State, s': State, k: nat)
    requires Turn(s, k) && s.reconnects[k].phase == RDialing
    requires s' == Reach(s, k, RDialed(|s.users|)).(users := s.users + [UReconnect(k)])
    ensures ReconnectMoves(s, s', k) && OwnPart(s, s', k)
  {
  }

  lemma InstallsMove(s: State, s': State, k: nat)
    requires Turn(s, k) && s.reconnects[k].phase.RDialed? && s' == DoReconnectInstall(s, k)
    ensures ReconnectMoves(s, s', k)
  {
    assert SlotOn(s'.sh, s.reconnects[k].tok.conn, Control) != SlotOn(s.sh, s.reconnects[k].tok.conn, Control)
      ==> s.sh.token == Some(s.reconnects[k].tok);
  }

  lemma InstallsOwn(s: State, s': State, k: nat)
    requires Turn(s, k) && s.reconnects[k].phase.RDialed? && s' == DoReconnectInstall(s, k)
    ensures OwnPart(s, s', k)
  {
    forall c | 0 <= c < |s'.sh.conns|
      ensures OpenIfOwn(s', k, c)
    {
      if SlotOn(s.sh, c, Control).Some? { assert ControlOccupantOk(s, c, SlotOn(s.sh, c, Control).value); }
    }
  }

  lemma ClosesMove(s: State, s': State, k: nat)
    requires Turn(s, k) && s.reconnects[k].phase.RClosing?
    requires s' == Reach(s, k, ROver(None)).(sh := CloseControl(s.sh, s.reconnects[k].tok.conn, s.reconnects[k].phase.sock))
    ensures ReconnectMoves(s, s', k)
  {
  }

  lemma ClosesOwn(s: State, s': State, k: nat)
    requires Turn(s, k) && s.reconnects[k].phase.RClosing?
    requires s' == Reach(s, k, ROver(None)).(sh := CloseControl(s.sh, s.reconnects[k].tok.conn, s.reconnects[k].phase.sock))
    ensures OwnPart(s, s', k)
  {
    forall c | 0 <= c < |s'.sh.conns|
      ensures OpenIfOwn(s', k, c)
    {
      if SlotOn(s.sh, c, Control).Some? { assert ControlOccupantOk(s, c, SlotOn(s.sh, c, Control).value); }
    }
  }

  lemma RegistersMove(s: State, s': State, k: nat)
    requires Turn(s, k) && s.reconnects[k].phase.RCurrent? && s' == DoRegister(s, k)
    ensures ReconnectMoves(s, s', k) && OwnPart(s, s', k)
  {
    forall c | 0 <= c < |s'.sh.conns|
      ensures OpenIfOwn(s', k, c)
    {
      if SlotOn(s.sh, c, Control).Some? { assert ControlOccupantOk(s, c, SlotOn(s.sh, c, Control).value); }
    }
  }

  lemma RegistersHub(s: State, s': State, k: nat)
    requires Turn(s, k) && HubOk(s) && s.reconnects[k].phase.RCurrent? && s' == DoRegister(s, k)
    requires ReconnectMoves(s, s', k)
    ensures HubOk(s')
  {
    MovesHub(s, s', k);
  }

  lemma QuietStepMoves(s: State, s': State, a: Action, k: nat)
    requires (a.ReconnectChecks? || a.ReconnectDialFails? || a.ReconnectAsks?) && a.k == k && Enabled(s, a) && s' == Next(s, a)
    requires Turn(s, k) && HubOk(s)
    ensures ReconnectMoves(s, s', k) && OwnPart(s, s', k) && HubOk(s')
  {
    if a.ReconnectChecks? { CheckFindsEmptySlot(s, k); }
    QuietMove(s, s', k);
    MovesHub(s, s', k);
  }

  lemma SlotStepMoves(s: State, s': State, a: Action, k: nat)
    requires (a.ReconnectDialOk? || a.ReconnectInstalls? || a.ReconnectCloses?) && a.k == k && Enabled(s, a) && s' == Next(s, a)
    requires Turn(s, k) && HubOk(s)
    ensures ReconnectMoves(s, s', k) && OwnPart(s, s', k) && HubOk(s')
  {
    match a {
    case ReconnectDialOk(_) => DialsMove(s, s', k);
    case ReconnectInstalls(_) =>
      InstallsMove(s, s', k);
      InstallsOwn(s, s', k);
    case ReconnectCloses(_) =>
      ClosesMove(s, s', k);
      ClosesOwn(s, s', k);
    }
    MovesHub(s, s', k);
  }

  /** Each reconnect step, as a move of its own reconnect. */
  lemma StepMoves(s: State, s': State, a: Action, k: nat)
    requires IsReconnectStep(a) && a.k == k && Enabled(s, a) && s' == Next(s, a)
    requires Turn(s, k) && HubOk(s)
    ensures ReconnectMoves(s, s', k) && OwnPart(s, s', k) && HubOk(s')
  {
    if a.ReconnectRegisters? {
      RegistersMove(s, s', k);
      RegistersHub(s, s', k);
    } else if a.ReconnectDialOk? || a.ReconnectInstalls? || a.ReconnectCloses? {
      SlotStepMoves(s, s', a, k);
    } else {
      QuietStepMoves(s, s', a, k);
    }
  }

  lemma ReconnectKeeps(s: State, s': State, a: Action)
    requires Inv(s) && IsReconnectStep(a) && Enabled(s, a) && s' == Next(s, a)
    ensures Inv(s')
  {
    TurnOf(s, a.k);
    StepMoves(s, s', a, a.k);
    ReconnectStep(s, s', a.k);
  }
}
