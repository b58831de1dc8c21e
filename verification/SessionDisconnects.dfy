/** Disconnect keeps the invariant. */
module SessionDisconnects {
  import opened Wrappers
  import opened Transport
  import opened SessionState
  import opened SessionSystem
  import opened SessionInvariant
  import opened SessionFrames

  // ---- steps outside every lane: contexts and phases of Connect

  /** Only the bookkeeping of Connect changed: its phase, its generation and its own contexts. */
  ghost predicate ConnectOnly(s: State, s': State) {
    && s'.sh == s.sh.(connectGen := s'.sh.connectGen, connectCancel := s'.sh.connectCancel,
                      cancelled := s'.sh.cancelled, contexts := s'.sh.contexts)
    && s' == s.(sh := s'.sh, connect := s'.connect, ctxs := s'.ctxs)
    && !s.connect.Connected? && !s'.connect.Connected?
    && |s.ctxs| <= |s'.ctxs| && s'.ctxs[..|s.ctxs|] == s.ctxs && |s'.ctxs| == s'.sh.contexts
    && s.sh.cancelled <= s'.sh.cancelled
    && (forall x :: x in s'.sh.cancelled && x !in s.sh.cancelled ==> x < |s.ctxs| && s.ctxs[x] == CtxConnect)
    && (s'.sh.connectCancel.Some? ==> s'.sh.connectCancel.value < |s'.ctxs| && s'.ctxs[s'.sh.connectCancel.value] == CtxConnect)
    && (s'.connect.AfterDisconnect? || s'.connect.Connecting? ==> !s.sh.connected)
  }

  lemma ConnectOnlyLane(s: State, s': State, n: StreamId)
    requires ConnectOnly(s, s') && n in s.owners
    ensures SameLane(s, s', n)
  {
  }

  lemma ConnectOnlySession(s: State, s': State)
    requires ConnectOnly(s, s') && SessionOk(s) && RetiredOk(s)
    ensures SessionOk(s') && RetiredOk(s')
  {
    forall c | 0 <= c < Published(s') && s'.sh.conn != Some(c)
      ensures s'.sh.conns[c].closed || Closer(s', c)
    {
      assert s.sh.conns[c].closed || Closer(s, c);
    }
  }

  lemma ConnectOnlyControl(s: State, s': State)
    requires ConnectOnly(s, s')
    ensures SameControl(s, s') && (HubOk(s) ==> HubStays(s, s'))
  {
  }

  lemma ConnectOnlyLanes(s: State, s': State)
    requires ConnectOnly(s, s') && LanesOk(s)
    ensures LanesOk(s')
  {
    OwnersCover(s);
    forall m | m in Media
      ensures LaneOk(s', m)
    {
      ConnectOnlyLane(s, s', m);
      LaneCarries(s, s', m);
    }
  }

  lemma ConnectOnlyKeeps(s: State, s': State)
    requires Inv(s) && ConnectOnly(s, s')
    ensures Inv(s')
  {
    ConnectOnlySession(s, s');
    ConnectOnlyLanes(s, s');
    ConnectOnlyControl(s, s');
    ControlCarries(s, s');
  }

  // ---- Disconnect takes the session apart

  /** Every stream retired under a new generation, no connection, no token, no hub session; a
      Disconnect is left holding the old connection. */
  ghost predicate Detaches(s: State, s': State) {
    && s.sh.conn.Some?
    && s'.sh.conn == None && !s'.sh.connected && s'.sh.token == None
    && s'.sh.conns == s.sh.conns && s'.sh.closed == s.sh.closed
    && s'.sh.contexts == s.sh.contexts && s'.sh.launched == s.sh.launched
    && (forall n :: At(s'.sh, n).gen == At(s.sh, n).gen + 1 && At(s'.sh, n).done == None && At(s'.sh, n).cancel == None
                    && !At(s'.sh, n).active && !At(s'.sh, n).running)
    && s'.sh.hub.gen == s.sh.hub.gen && !s'.sh.hub.active && s'.sh.hub.route == None && At(s'.sh, Screen).hubGen == 0
    && s'.sh.connectCancel == None
    && (forall x :: x in s'.sh.cancelled ==> x < |s.ctxs|)
    && s' == s.(sh := s'.sh, connect := s'.connect, owners := NoOwners,
                discs := s.discs + [Disc(s.sh.conn, DonesOf(s.sh.streams, AllIds), Closing)])
    && !s.connect.Connected? && !s'.connect.Connected?
  }

  lemma DetachedLane(s: State, s': State, n: StreamId)
    requires Detaches(s, s') && LaneOk(s, n)
    ensures LaneOk(s', n)
  {
    EveryId(n);
    forall c | 0 <= c < |s'.sh.conns| && SlotOn(s'.sh, c, n).Some?
      ensures OccupantOk(s', n, c, SlotOn(s'.sh, c, n).value)
    {
      assert OccupantOk(s, n, c, SlotOn(s.sh, c, n).value);
    }
    forall i | 0 <= i < |s'.workers| && s'.workers[i].n == n
      ensures WorkerOk(s', n, i, s'.workers[i])
    {
      assert WorkerOk(s, n, i, s.workers[i]);
    }
  }

  lemma DetachedSession(s: State, s': State)
    requires Detaches(s, s') && SessionOk(s) && RetiredOk(s)
    ensures SessionOk(s') && RetiredOk(s')
  {
    assert s'.discs[|s.discs|].conn == s.sh.conn;
    forall c | 0 <= c < Published(s') && s'.sh.conn != Some(c)
      ensures s'.sh.conns[c].closed || Closer(s', c)
    {
      if s.sh.conn == Some(c) {
        assert s'.discs[|s.discs|].conn == Some(c) && s'.discs[|s.discs|].phase == Closing;
      } else {
        assert s.sh.conns[c].closed || Closer(s, c);
        if Closer(s, c) {
          var d :| 0 <= d < |s.discs| && s.discs[d].conn == Some(c) && s.discs[d].phase == Closing;
          assert s'.discs[d] == s.discs[d];
        }
      }
    }
  }

  lemma DetachedControl(s: State, s': State)
    requires Detaches(s, s') && ReconnectsOk(s) && TokenOk(s)
    ensures ControlOk(s')
  {
    forall k | 0 <= k < |s'.reconnects|
      ensures ReconnectOk(s', k, s'.reconnects[k])
    {
      assert ReconnectOk(s, k, s.reconnects[k]);
    }
    forall j | 0 <= j < |s'.workers| && s'.workers[j].n == Screen
      ensures ScreenWorkerOk(s', j, s'.workers[j])
    {
      assert ScreenWorkerOk(s, j, s.workers[j]);
    }
    forall c | 0 <= c < |s'.sh.conns| && SlotOn(s'.sh, c, Control).Some?
      ensures ControlOccupantOk(s', c, SlotOn(s'.sh, c, Control).value)
    {
      assert ControlOccupantOk(s, c, SlotOn(s.sh, c, Control).value);
    }
  }

  lemma DetachKeeps(s: State, s': State)
    requires Inv(s) && Detaches(s, s')
    ensures Inv(s')
  {
    DetachedSession(s, s');
    DetachedControl(s, s');
    forall m | m in Media
      ensures LaneOk(s', m)
    {
      assert LaneOk(s, m);
      DetachedLane(s, s', m);
    }
  }

  /** The contexts Disconnect cancels are known ones. */
  lemma CancelsKnown(s: State)
    requires LanesOk(s) && At(s.sh, Control).cancel == None
    ensures forall x :: x in CancelsOf(s.sh.streams, AllIds) ==> x < |s.ctxs|
  {
    forall x | x in CancelsOf(s.sh.streams, AllIds)
      ensures x < |s.ctxs|
    {
      var n :| n in AllIds && Of(s.sh.streams, n).cancel == Some(x);
      assert LaneOk(s, n);
    }
  }

  lemma EndHubSameWorkers(sh: Shared)
    ensures CancelsOf(EndHub(sh, Screen).streams, AllIds) == CancelsOf(sh.streams, AllIds)
    ensures DonesOf(EndHub(sh, Screen).streams, AllIds) == DonesOf(sh.streams, AllIds)
  {
    var m, m' := sh.streams, EndHub(sh, Screen).streams;
    assert forall n :: Of(m', n).cancel == Of(m, n).cancel && Of(m', n).done == Of(m, n).done;
  }

  lemma EnterDetaches(s: State, s': State)
    requires s.sh.connected && s.sh.conn.Some? && HubOk(s) && !s.connect.Connected?
    requires forall x :: x in s.sh.cancelled ==> x < |s.ctxs|
    requires forall x :: x in CancelsOf(s.sh.streams, AllIds) ==> x < |s.ctxs|
    requires s.sh.connectCancel.Some? ==> s.sh.connectCancel.value < |s.ctxs|
    requires s' == DoDisconnect(s).(connect := s'.connect) && !s'.connect.Connected?
    ensures Detaches(s, s')
  {
    EndHubSameWorkers(DropPendingConnect(s.sh));
    forall n: StreamId
      ensures n in AllIds
    {
      EveryId(n);
    }
  }

  lemma DisconnectKeeps(s: State, s': State)
    requires Inv(s)
    requires s' == DoDisconnect(s).(connect := s'.connect)
    requires s'.connect == s.connect || (s.connect.MustDisconnect? && s'.connect.AfterDisconnect?)
    ensures Inv(s')
  {
    if s.sh.connected {
      CancelsKnown(s);
      EnterDetaches(s, s');
      DetachKeeps(s, s');
    } else if s.connect.Connected? {
      DropPendingKeeps(s, s');
    } else {
      ConnectOnlyKeeps(s, s');
    }
  }

  /** A Disconnect that meets a Connect about to publish only cancels it. */
  lemma DropPendingKeeps(s: State, s': State)
    requires Inv(s) && s' == s.(sh := DropPendingConnect(s.sh))
    ensures Inv(s')
  {
    OwnersCover(s);
    assert SameControl(s, s') && HubStays(s, s');
    ControlCarries(s, s');
    forall m | m in Media
      ensures LaneOk(s', m)
    {
      assert LaneOk(s, m);
      DropPendingLane(s, s', m);
    }
    DropPendingSession(s, s');
  }

  lemma DropPendingLane(s: State, s': State, m: StreamId)
    requires LaneOk(s, m) && s' == s.(sh := DropPendingConnect(s.sh))
    requires s.sh.connectCancel.Some? ==> s.sh.connectCancel.value < |s.ctxs| && s.ctxs[s.sh.connectCancel.value] == CtxConnect
    ensures LaneOk(s', m)
  {
    assert SameLane(s, s', m);
    LaneCarries(s, s', m);
  }

  lemma DropPendingSession(s: State, s': State)
    requires SessionOk(s) && RetiredOk(s) && s' == s.(sh := DropPendingConnect(s.sh))
    ensures SessionOk(s') && RetiredOk(s')
  {
    forall c | 0 <= c < Published(s') && s'.sh.conn != Some(c)
      ensures s'.sh.conns[c].closed || Closer(s', c)
    {
      assert s.sh.conns[c].closed || Closer(s, c);
    }
  }

  lemma DisconnectCallKeeps(s: State, s': State)
    requires Inv(s) && s' == DoDisconnect(s)
    ensures Inv(s')
  {
    DisconnectKeeps(s, s');
  }

  lemma ConnectDisconnectsKeeps(s: State, s': State)
    requires Inv(s) && s.connect == MustDisconnect && s' == DoConnectDisconnect(s)
    ensures Inv(s')
  {
    DisconnectKeeps(s, s');
  }
}
