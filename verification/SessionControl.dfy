/** The control slot: the last steps of a screen's worker and the steps of its reconnect. */
module SessionControl {
  import opened Wrappers
  import opened Transport
  import opened SessionState
  import opened SessionEdits
  import opened SessionSystem
  import opened SessionInvariant
  import opened SessionFrames
  import opened SessionLanes

  // ---- the screen's worker ends the hub's session

  function EndsHub(s: State, i: nat): State
    requires i < |s.workers|
  {
    AtPhase(s, i, HubEnded).(sh := s.sh.(hub := EndScreen(s.sh.hub, s.workers[i].hubGen)))
  }

  lemma EndsHubWithin(s: State, s': State, i: nat)
    requires LaneOk(s, Screen) && i < |s.workers| && s.workers[i].n == Screen && s' == EndsHub(s, i)
    ensures Within(s, s', Screen, None, {}, {}, -1, -1, i)
  {
    assert s'.sh.conns == s.sh.conns;
  }

  lemma EndsHubShows(s: State, s': State, i: nat)
    requires LaneOk(s, Screen) && i < |s.workers| && s.workers[i].n == Screen && s.workers[i].phase == Working
    requires s' == EndsHub(s, i)
    ensures Shows(s, s', Screen, -1, -1, i)
  {
    assert WorkerOk(s, Screen, i, s.workers[i]);
    assert CurSlot(s'.sh, Screen) == CurSlot(s.sh, Screen);
  }

  lemma EndsHubHub(s: State, s': State, i: nat)
    requires HubOk(s) && ReconnectsOk(s)
    requires i < |s.workers| && s.workers[i].n == Screen && s.workers[i].phase == Working && s' == EndsHub(s, i)
    ensures |s'.workers| == |s.workers| && RankStays(s, s') && HubOk(s')
  {
    if s.sh.hub.active {
      assert ReconnectOk(s, s.sh.hub.gen - 1, s.reconnects[s.sh.hub.gen - 1]);
    }
  }

  lemma EndsHubKeeps(s: State, s': State, i: nat)
    requires Inv(s) && i < |s.workers| && s.workers[i].n == Screen && s.workers[i].phase == Working
    requires s' == EndsHub(s, i)
    ensures Inv(s')
  {
    LaneOf(s, Screen);
    EndsHubWithin(s, s', i);
    EndsHubShows(s, s', i);
    EndsHubHub(s, s', i);
    StreamStep(s, s', Screen, None, {}, {}, -1, -1, i);
  }

  // ---- steps on the control slot

  /** From `s` to `s'` only control slots, sockets of reconnects, reconnects, the token and the
      hub changed, and workers in their phase. */
  ghost predicate ControlOnly(s: State, s': State) {
    && s'.sh.conn == s.sh.conn && s'.sh.connected == s.sh.connected && s'.sh.connectCancel == s.sh.connectCancel
    && (forall m :: At(s'.sh, m) == At(s.sh, m))
    && s'.sh.contexts == s.sh.contexts && s'.sh.launched == s.sh.launched && s'.sh.cancelled == s.sh.cancelled
    && s'.connect == s.connect && s'.discs == s.discs && s'.starts == s.starts && s'.stops == s.stops
    && s'.owners == s.owners && s'.ctxs == s.ctxs
    && |s'.workers| == |s.workers|
    && (forall i :: 0 <= i < |s.workers| ==> s'.workers[i] == s.workers[i].(phase := s'.workers[i].phase))
    && |s.users| <= |s'.users| && (forall v :: 0 <= v < |s.users| ==> s'.users[v] == s.users[v])
    && (forall v :: v in s'.sh.closed && v !in s.sh.closed ==> v < |s.users| && s.users[v].UReconnect?)
    && s.sh.closed <= s'.sh.closed
    && OnlyControlSlots(s, s')
  }

  ghost predicate OnlyControlSlots(s: State, s': State) {
    && |s'.sh.conns| == |s.sh.conns|
    && (forall c :: 0 <= c < |s.sh.conns| ==> s'.sh.conns[c].closed == s.sh.conns[c].closed)
    && (forall c :: 0 <= c < |s.sh.conns| && (s.sh.conns[c].closed || Published(s) <= c) ==> s'.sh.conns[c] == s.sh.conns[c])
    && (forall c, m :: 0 <= c < |s.sh.conns| && m != Control ==> SlotOn(s'.sh, c, m) == SlotOn(s.sh, c, m))
  }

  lemma ControlOnlySession(s: State, s': State)
    requires ControlOnly(s, s') && SessionOk(s)
    ensures KeepsSession(s, s')
  {
  }

  lemma ControlOnlyLane(s: State, s': State, m: StreamId)
    requires ControlOnly(s, s') && m in s.owners && m != Control
    requires forall i :: 0 <= i < |s.workers| && s.workers[i].n == m ==> s'.workers[i] == s.workers[i]
    ensures SameLane(s, s', m)
  {
  }

  lemma ControlOnlyStep(s: State, s': State)
    requires Inv(s) && ControlOnly(s, s') && s'.workers == s.workers && ControlOk(s')
    ensures Inv(s')
  {
    ControlOnlySession(s, s');
    OwnersCover(s);
    forall m | m in Media
      ensures SameLane(s, s', m)
    {
      ControlOnlyLane(s, s', m);
    }
    ControlStep(s, s');
  }

  // ---- closeScreenControl

  function EndsControl(s: State, i: nat): State
    requires i < |s.workers|
  {
    AtPhase(s, i, ControlClosed).(sh := CloseScreenControl(s.sh, s.workers[i].Tok()))
  }

  /** What the session in charge knows of its control slot. */
  lemma TurnSlot(s: State, t: Token)
    requires TokenHeld(s) && s.sh.token == Some(t) && ReconnectOk(s, t.hubGen - 1, s.reconnects[t.hubGen - 1])
    ensures 1 <= t.hubGen <= |s.reconnects| && s.reconnects[t.hubGen - 1].tok == t && s.sh.conn == Some(t.conn)
    ensures var p := s.reconnects[t.hubGen - 1].phase;
            SlotOn(s.sh, t.conn, Control) == if p.RDialed? then None else Held(p)
    ensures SlotOn(s.sh, t.conn, Control).Some? ==>
              SlotOn(s.sh, t.conn, Control).value < |s.users|
              && s.users[SlotOn(s.sh, t.conn, Control).value] == UReconnect(t.hubGen - 1)
  {
  }

  /** closeScreenControl gave up the token and emptied the control slot of the worker's own
      connection, or had nothing to do with either. */
  ghost predicate GivesUp(s: State, s': State, i: nat)
    requires i < |s.workers|
  {
    var w := s.workers[i];
    && s' == s.(sh := s'.sh, workers := s.workers[i := w.(phase := ControlClosed)])
    && w.n == Screen
    && if s.sh.token == Some(w.Tok()) then
         && 1 <= w.hubGen <= |s.reconnects| && s.reconnects[w.hubGen - 1].tok == w.Tok()
         && w.conn < Published(s) && s.sh.conn == Some(w.conn) && !s.sh.conns[w.conn].closed
         && |s'.sh.conns| == |s.sh.conns|
         && s'.sh == s.sh.(token := None, conns := s'.sh.conns, closed := CancelIf(s.sh.closed, SlotOn(s.sh, w.conn, Control)))
         && (forall c :: 0 <= c < |s.sh.conns| && c != w.conn ==> s'.sh.conns[c] == s.sh.conns[c])
         && s'.sh.conns[w.conn] == s.sh.conns[w.conn].(slots := s.sh.conns[w.conn].slots - {Control})
         && (SlotOn(s.sh, w.conn, Control).Some? ==>
               SlotOn(s.sh, w.conn, Control).value < |s.users|
               && s.users[SlotOn(s.sh, w.conn, Control).value] == UReconnect(w.hubGen - 1))
       else s'.sh == s.sh
  }

  lemma GivesUpSlot(sh: Shared, t: Token)
    requires sh.token == Some(t) && t.conn < |sh.conns|
    ensures var sh' := CloseScreenControl(sh, t);
            && sh' == sh.(token := None, conns := sh'.conns, closed := CancelIf(sh.closed, SlotOn(sh, t.conn, Control)))
            && sh'.conns == sh.conns[t.conn := sh.conns[t.conn].(slots := sh.conns[t.conn].slots - {Control})]
  {
    if SlotOn(sh, t.conn, Control) == None {
      assert sh.conns[t.conn].slots - {Control} == sh.conns[t.conn].slots;
    }
  }

  lemma GivesUpIf(s: State, s': State, i: nat)
    requires i < |s.workers| && s.workers[i].n == Screen && s' == EndsControl(s, i)
    requires s.sh.conn.Some? ==> s.sh.conn.value < Published(s) && !s.sh.conns[s.sh.conn.value].closed
    requires TokenHeld(s)
    requires s.sh.token.Some? ==> ReconnectOk(s, s.sh.token.value.hubGen - 1, s.reconnects[s.sh.token.value.hubGen - 1])
    ensures GivesUp(s, s', i)
  {
    var w := s.workers[i];
    if s.sh.token == Some(w.Tok()) {
      TurnSlot(s, w.Tok());
      GivesUpSlot(s.sh, w.Tok());
    }
  }

  lemma EndsControlOnly(s: State, s': State, i: nat)
    requires i < |s.workers| && GivesUp(s, s', i)
    ensures ControlOnly(s, s')
  {
  }

  lemma EndsControlReconnect(s: State, s': State, i: nat, k: nat)
    requires i < |s.workers| && GivesUp(s, s', i)
    requires k < |s.reconnects| && ReconnectOk(s, k, s.reconnects[k])
    ensures ReconnectOk(s', k, s'.reconnects[k])
  {
  }

  lemma EndsControlReconnects(s: State, s': State, i: nat)
    requires i < |s.workers| && GivesUp(s, s', i) && ReconnectsOk(s)
    ensures ReconnectsOk(s')
  {
    forall k | 0 <= k < |s'.reconnects|
      ensures ReconnectOk(s', k, s'.reconnects[k])
    {
      assert ReconnectOk(s, k, s.reconnects[k]);
      EndsControlReconnect(s, s', i, k);
    }
  }

  lemma EndsControlScreens(s: State, s': State, i: nat, j: nat)
    requires i < |s.workers| && GivesUp(s, s', i) && j < |s.workers| && s.workers[j].n == Screen
    requires ScreenWorkerOk(s, j, s.workers[j]) && ScreenWorkerOk(s, i, s.workers[i])
    ensures ScreenWorkerOk(s', j, s'.workers[j])
  {
  }

  lemma EndsControlOccupant(s: State, s': State, i: nat, c: nat)
    requires i < |s.workers| && GivesUp(s, s', i) && c < |s.sh.conns| && SlotOn(s'.sh, c, Control).Some?
    requires SlotOn(s.sh, c, Control).Some? ==> ControlOccupantOk(s, c, SlotOn(s.sh, c, Control).value)
    ensures ControlOccupantOk(s', c, SlotOn(s'.sh, c, Control).value)
  {
  }

  lemma EndsControlTurn(s: State, s': State, i: nat)
    requires i < |s.workers| && GivesUp(s, s', i) && TokenHeld(s)
    requires s.sh.token.Some? ==> ReconnectOk(s, s.sh.token.value.hubGen - 1, s.reconnects[s.sh.token.value.hubGen - 1])
    requires CurSlot(s.sh, Control).Some? ==> s.sh.token.Some?
    ensures TokenHeld(s') && (CurSlot(s'.sh, Control).Some? ==> s'.sh.token.Some?)
  {
  }

  lemma EndsControlToken(s: State, s': State, i: nat)
    requires i < |s.workers| && GivesUp(s, s', i) && ReconnectsOk(s) && TokenOk(s)
    ensures TokenOk(s')
  {
    if s.sh.token.Some? {
      var k := s.sh.token.value.hubGen - 1;
      assert ReconnectOk(s, k, s.reconnects[k]);
    }
    EndsControlTurn(s, s', i);
    forall j | 0 <= j < |s'.workers| && s'.workers[j].n == Screen
      ensures ScreenWorkerOk(s', j, s'.workers[j])
    {
      EndsControlScreens(s, s', i, j);
    }
    forall c | 0 <= c < |s'.sh.conns| && SlotOn(s'.sh, c, Control).Some?
      ensures ControlOccupantOk(s', c, SlotOn(s'.sh, c, Control).value)
    {
      EndsControlOccupant(s, s', i, c);
    }
  }

  lemma EndsControlLane(s: State, s': State, i: nat)
    requires LaneOk(s, Screen) && ControlOnly(s, s') && i < |s.workers| && s.workers[i].n == Screen
    requires s.workers[i].phase == HubEnded && s'.workers == s.workers[i := s.workers[i].(phase := ControlClosed)]
    ensures LaneOk(s', Screen)
  {
    assert WorkerOk(s, Screen, i, s.workers[i]);
    assert Touches(s, s', Screen, -1, -1, i);
    EndsControlStream(s, s', i);
    LaneRebuilt(s, s', Screen, -1, -1, i);
  }

  lemma EndsControlStream(s: State, s': State, i: nat)
    requires LaneOk(s, Screen) && ControlOnly(s, s') && i < |s.workers| && s.workers[i].n == Screen
    requires s.workers[i].phase == HubEnded && s'.workers == s.workers[i := s.workers[i].(phase := ControlClosed)]
    ensures StreamOk(s', Screen) && WorkerOk(s', Screen, i, s'.workers[i])
  {
    assert WorkerOk(s, Screen, i, s.workers[i]);
    assert CurSlot(s'.sh, Screen) == CurSlot(s.sh, Screen);
  }

  lemma EndsControlHub(s: State, s': State, i: nat)
    requires HubOk(s) && i < |s.workers| && s.workers[i].phase == HubEnded && GivesUp(s, s', i)
    ensures HubOk(s')
  {
    MovesOn(s, s', i);
    HubCarries(s, s');
  }

  lemma EndsControlPart(s: State, s': State, i: nat)
    requires s.sh.conn.Some? ==> s.sh.conn.value < Published(s) && !s.sh.conns[s.sh.conn.value].closed
    requires ControlOk(s) && i < |s.workers| && s.workers[i].n == Screen && s.workers[i].phase == HubEnded
    requires s' == EndsControl(s, i)
    ensures ControlOk(s') && ControlOnly(s, s')
  {
    GivesUpIf(s, s', i);
    EndsControlOnly(s, s', i);
    EndsControlReconnects(s, s', i);
    EndsControlToken(s, s', i);
    EndsControlHub(s, s', i);
  }

  lemma EndsControlLanes(s: State, s': State, i: nat)
    requires LanesOk(s) && ControlOnly(s, s') && i < |s.workers| && s.workers[i].n == Screen
    requires s.workers[i].phase == HubEnded && s'.workers == s.workers[i := s.workers[i].(phase := ControlClosed)]
    ensures LanesOk(s')
  {
    OwnersCover(s);
    forall m | m in Media
      ensures LaneOk(s', m)
    {
      assert LaneOk(s, m);
      if m == Screen {
        EndsControlLane(s, s', i);
      } else {
        EndsControlOthers(s, s', i, m);
      }
    }
  }

  lemma EndsControlOthers(s: State, s': State, i: nat, m: StreamId)
    requires LaneOk(s, m) && m in Media && m != Screen && ControlOnly(s, s') && i < |s.workers| && s.workers[i].n == Screen
    requires s'.workers == s.workers[i := s.workers[i].(phase := ControlClosed)]
    ensures LaneOk(s', m)
  {
    ControlOnlyLane(s, s', m);
    LaneCarries(s, s', m);
  }

  lemma ControlOnlySessions(s: State, s': State)
    requires ControlOnly(s, s') && SessionOk(s) && RetiredOk(s)
    ensures SessionOk(s') && RetiredOk(s')
  {
    ControlOnlySession(s, s');
    SessionCarries(s, s');
  }

  lemma EndsControlKeeps(s: State, s': State, i: nat)
    requires Inv(s) && i < |s.workers| && s.workers[i].n == Screen && s.workers[i].phase == HubEnded
    requires s' == EndsControl(s, i)
    ensures Inv(s')
  {
    EndsControlPart(s, s', i);
    EndsControlLanes(s, s', i);
    ControlOnlySessions(s, s');
  }

  /** Only a screen's worker goes through the steps before its exit. */
  lemma OnlyScreensLeaveSlowly(s: State, i: nat)
    requires SessionOk(s) && LanesOk(s) && i < |s.workers|
    requires s.workers[i].phase == HubEnded || s.workers[i].phase == ControlClosed
    ensures s.workers[i].n == Screen
  {
    LaneOf(s, s.workers[i].n);
    assert WorkerOk(s, s.workers[i].n, i, s.workers[i]);
  }
}
