/** A step of one stream leaves the other lanes, the session and the control part as they were. */
module SessionFrames {
  import opened Wrappers
  import opened Transport
  import opened SessionState
  import opened SessionEdits
  import opened SessionSystem
  import opened SessionInvariant

  /** Outside the shared state a step of stream `n` moved at most the start `dt`, the stop `dp` and
      the worker `dw` (-1 for none), all of that stream, and hired nobody. */
  ghost predicate Moves(s: State, s': State, n: StreamId, dt: int, dp: int, dw: int) {
    && s'.connect == s.connect && s'.discs == s.discs && s'.reconnects == s.reconnects
    && GrowsLike(s, s')
    && n in s.owners && n in s'.owners && (forall m :: m in s.owners && m != n ==> m in s'.owners && s'.owners[m] == s.owners[m])
    && (forall t :: 0 <= t < |s'.starts| && t != dt ==> t < |s.starts| && s'.starts[t] == s.starts[t])
    && (0 <= dt < |s'.starts| ==> s'.starts[dt].n == n && (dt < |s.starts| ==> s.starts[dt].n == n))
    && (forall t :: 0 <= t < |s'.stops| && t != dp ==> t < |s.stops| && s'.stops[t] == s.stops[t])
    && (0 <= dp < |s'.stops| ==> s'.stops[dp].n == n && (dp < |s.stops| ==> s.stops[dp].n == n))
    && |s'.workers| == |s.workers|
    && (forall i :: 0 <= i < |s.workers| && i != dw ==> s'.workers[i] == s.workers[i])
    && (0 <= dw < |s.workers| ==> s.workers[dw].n == n && s'.workers[dw] == s.workers[dw].(phase := s'.workers[dw].phase))
    && (forall v :: 0 <= v < |s.users| ==> s'.users[v] == s.users[v])
    && (forall v :: |s.users| <= v < |s'.users| ==> s'.users[v].UStart?)
  }

  /** What the step closed and cancelled belongs to stream `n`. */
  ghost predicate OwnThings(s: State, n: StreamId, c: Option<nat>, socks: set<nat>, ctxs: set<nat>, dt: int) {
    && (forall v :: v in socks ==> v < |s.users| && ((s.users[v].UWorker? && s.users[v].n == n) || (dt >= 0 && s.users[v] == UStart(n, dt))))
    && (forall x :: x in ctxs ==> CtxFor(s, x, n))
    && (c.Some? ==> c.value < Published(s))
    && (c.Some? && SlotOn(s.sh, c.value, n).Some? ==> OccupantOk(s, n, c.value, SlotOn(s.sh, c.value, n).value))
  }

  /** Where the step of stream `n` happened, and nowhere else. */
  ghost predicate Within(s: State, s': State, n: StreamId, c: Option<nat>, socks: set<nat>, ctxs: set<nat>,
                         dt: int, dp: int, dw: int) {
    && Moves(s, s', n, dt, dp, dw)
    && Edits(s.sh, s'.sh, n, c, socks, ctxs)
    && OwnThings(s, n, c, socks, ctxs, dt)
    && |s'.ctxs| - |s.ctxs| == s'.sh.contexts - s.sh.contexts
  }

  lemma OtherLane(s: State, s': State, n: StreamId, c: Option<nat>, socks: set<nat>, ctxs: set<nat>,
                  dt: int, dp: int, dw: int, m: StreamId)
    requires Within(s, s', n, c, socks, ctxs, dt, dp, dw)
    requires m in s.owners && m != n
    ensures SameLane(s, s', m)
  {
    EditsSlots(s.sh, s'.sh, n, c, socks, ctxs, m);
  }

  lemma SessionKept(s: State, s': State, n: StreamId, c: Option<nat>, socks: set<nat>, ctxs: set<nat>,
                    dt: int, dp: int, dw: int)
    requires Within(s, s', n, c, socks, ctxs, dt, dp, dw)
    requires SessionOk(s) && n != Control
    ensures KeepsSession(s, s')
  {
  }

  /** A screen's worker did not pass the point where it gives up control. */
  ghost predicate RankStays(s: State, s': State)
    requires |s'.workers| == |s.workers|
  {
    forall i :: 0 <= i < |s.workers| && s.workers[i].n == Screen ==>
      (Rank(s'.workers[i].phase) < Rank(ControlClosed) <==> Rank(s.workers[i].phase) < Rank(ControlClosed))
  }

  lemma ControlKept(s: State, s': State, n: StreamId, c: Option<nat>, socks: set<nat>, ctxs: set<nat>,
                    dt: int, dp: int, dw: int)
    requires Within(s, s', n, c, socks, ctxs, dt, dp, dw)
    requires s'.sh.hub.gen == s.sh.hub.gen && RankStays(s, s') && n != Control
    ensures SameControl(s, s')
  {
    EditsSlots(s.sh, s'.sh, n, c, socks, ctxs, Control);
  }

  lemma OwnersCover(s: State)
    requires LanesOk(s)
    ensures forall m :: m in Media ==> m in s.owners
  {
    forall m | m in Media
      ensures m in s.owners
    {
      assert LaneOk(s, m);
    }
  }

  /** The generation and the owner stay together or the generation grows, and the done channel
      changes only when every other worker on the connection has finished. */
  ghost predicate Advances(s: State, s': State, n: StreamId, dw: int)
    requires n in s.owners && n in s'.owners
  {
    && ((At(s'.sh, n).gen == At(s.sh, n).gen && s'.owners[n] == s.owners[n]) || At(s'.sh, n).gen > At(s.sh, n).gen)
    && (At(s'.sh, n).done == At(s.sh, n).done
        || forall i :: 0 <= i < |s.workers| && i != dw && s.workers[i].n == n && s.sh.conn == Some(s.workers[i].conn) ==> !s.workers[i].Open())
  }

  /** What a step of stream `n` has to show besides its place in the machine. */
  ghost predicate Shows(s: State, s': State, n: StreamId, dt: int, dp: int, dw: int) {
    && n in s.owners && n in s'.owners && |s'.workers| == |s.workers|
    && Advances(s, s', n, dw)
    && StreamOk(s', n)
    && (0 <= dt < |s'.starts| ==> StartOk(s', n, dt, s'.starts[dt].phase))
    && (0 <= dp < |s'.stops| && !s'.stops[dp].over ==> HoldsGen(s', n, s'.stops[dp].gen, ByStop(dp)))
    && (0 <= dw < |s'.workers| ==> WorkerOk(s', n, dw, s'.workers[dw]))
  }

  lemma OwnLane(s: State, s': State, n: StreamId, c: Option<nat>, socks: set<nat>, ctxs: set<nat>,
                dt: int, dp: int, dw: int)
    requires Within(s, s', n, c, socks, ctxs, dt, dp, dw)
    requires Advances(s, s', n, dw)
    ensures Touches(s, s', n, dt, dp, dw)
  {
    EditsSlots(s.sh, s'.sh, n, c, socks, ctxs, n);
  }

  lemma ControlPartKept(s: State, s': State, n: StreamId, c: Option<nat>, socks: set<nat>, ctxs: set<nat>,
                    dt: int, dp: int, dw: int)
    requires ControlOk(s) && n != Control && Within(s, s', n, c, socks, ctxs, dt, dp, dw)
    requires |s'.workers| == |s.workers| && RankStays(s, s') && s'.sh.hub.gen == s.sh.hub.gen
    requires HubStays(s, s') || HubOk(s')
    ensures ControlOk(s')
  {
    ControlKept(s, s', n, c, socks, ctxs, dt, dp, dw);
    ReconnectsCarry(s, s');
    TokenCarries(s, s');
    if HubStays(s, s') { HubCarries(s, s'); }
  }

  lemma OwnLaneKept(s: State, s': State, n: StreamId, c: Option<nat>, socks: set<nat>, ctxs: set<nat>,
                    dt: int, dp: int, dw: int)
    requires LaneOk(s, n) && Within(s, s', n, c, socks, ctxs, dt, dp, dw) && Shows(s, s', n, dt, dp, dw)
    ensures LaneOk(s', n)
  {
    OwnLane(s, s', n, c, socks, ctxs, dt, dp, dw);
    LaneRebuilt(s, s', n, dt, dp, dw);
  }

  lemma OtherLanes(s: State, s': State, n: StreamId, c: Option<nat>, socks: set<nat>, ctxs: set<nat>,
                   dt: int, dp: int, dw: int)
    requires Within(s, s', n, c, socks, ctxs, dt, dp, dw) && forall m :: m in Media ==> m in s.owners
    ensures forall m :: m in Media && m != n ==> SameLane(s, s', m)
  {
    forall m | m in Media && m != n
      ensures SameLane(s, s', m)
    {
      OtherLane(s, s', n, c, socks, ctxs, dt, dp, dw, m);
    }
  }

  /** The whole of a stream's step: what it touched in its own lane is all that is left to show. */
  lemma StreamStep(s: State, s': State, n: StreamId, c: Option<nat>, socks: set<nat>, ctxs: set<nat>,
                   dt: int, dp: int, dw: int)
    requires Inv(s) && n in Media
    requires Within(s, s', n, c, socks, ctxs, dt, dp, dw)
    requires |s'.workers| == |s.workers| && RankStays(s, s') && s'.sh.hub.gen == s.sh.hub.gen
    requires HubStays(s, s') || HubOk(s')
    requires Shows(s, s', n, dt, dp, dw)
    ensures Inv(s')
  {
    SessionKept(s, s', n, c, socks, ctxs, dt, dp, dw);
    ControlPartKept(s, s', n, c, socks, ctxs, dt, dp, dw);
    assert LaneOk(s, n);
    OwnLaneKept(s, s', n, c, socks, ctxs, dt, dp, dw);
    OwnersCover(s);
    OtherLanes(s, s', n, c, socks, ctxs, dt, dp, dw);
    LaneStep(s, s', n);
  }
}
