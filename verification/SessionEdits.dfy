/** What the sections of one stream may do to the shared state, whatever the stream: its own
    record, one slot of its own kind, and contexts and sockets of its own. */
module SessionEdits {
  import opened Wrappers
  import opened Transport
  import opened SessionState

  /** From `sh` to `sh'` only stream `n` changed; its slot may have been emptied on connection `c`;
      besides what was in that slot, only sockets in `socks` were closed, and only contexts in
      `ctxs` were cancelled. */
  ghost predicate Edits(sh: Shared, sh': Shared, n: StreamId, c: Option<nat>, socks: set<nat>, ctxs: set<nat>) {
    && sh'.conn == sh.conn && sh'.connected == sh.connected
    && sh'.connectGen == sh.connectGen && sh'.connectCancel == sh.connectCancel
    && sh'.token == sh.token
    && sh.contexts <= sh'.contexts && sh'.launched == sh.launched
    && (forall m :: m != n ==> At(sh', m) == At(sh, m))
    && |sh'.conns| == |sh.conns|
    && (forall k :: 0 <= k < |sh.conns| && Some(k) != c ==> sh'.conns[k] == sh.conns[k])
    && (c.Some? && c.value < |sh.conns| ==>
          && sh'.conns[c.value].closed == sh.conns[c.value].closed
          && (sh'.conns[c.value].slots == sh.conns[c.value].slots || sh'.conns[c.value].slots == sh.conns[c.value].slots - {n}))
    && (forall v :: v in sh'.closed && v !in sh.closed ==> v in socks || (c.Some? && SlotOn(sh, c.value, n) == Some(v)))
    && (forall x :: x in sh'.cancelled && x !in sh.cancelled ==> x in ctxs)
    && sh.closed <= sh'.closed && sh.cancelled <= sh'.cancelled
  }

  lemma EditsSlots(sh: Shared, sh': Shared, n: StreamId, c: Option<nat>, socks: set<nat>, ctxs: set<nat>, m: StreamId)
    requires Edits(sh, sh', n, c, socks, ctxs)
    ensures m != n ==> forall k :: 0 <= k < |sh.conns| ==> SlotOn(sh', k, m) == SlotOn(sh, k, m)
    ensures forall k :: 0 <= k < |sh.conns| ==> SlotOn(sh', k, n) == SlotOn(sh, k, n) || SlotOn(sh', k, n) == None
    ensures forall k :: 0 <= k < |sh.conns| ==> sh'.conns[k].closed == sh.conns[k].closed
  {
  }

  function CtxOf(st: Stream): set<nat> {
    if st.cancel.Some? then {st.cancel.value} else {}
  }

  lemma CloseOnEdits(sh: Shared, c: Option<nat>, n: StreamId)
    ensures Edits(sh, CloseOn(sh, c, n), n, c, {}, {})
    ensures c.Some? ==> SlotOn(CloseOn(sh, c, n), c.value, n) == None
    ensures At(CloseOn(sh, c, n), n) == At(sh, n)
    ensures CloseOn(sh, c, n).contexts == sh.contexts
  {
  }

  lemma ExitEdits(sh: Shared, n: StreamId, conn: nat, gen: nat, hubGen: nat)
    ensures Edits(sh, WorkerExit(sh, n, conn, gen, hubGen), n, Some(conn), {}, {})
    ensures WorkerExit(sh, n, conn, gen, hubGen).contexts == sh.contexts
  {
    CloseOnEdits(sh, Some(conn), n);
  }

  lemma MetricsEdits(sh: Shared, n: StreamId, gen: nat, conn: nat, m: Metrics)
    ensures Edits(sh, UpdateMetrics(sh, n, gen, conn, m), n, None, {}, {})
    ensures UpdateMetrics(sh, n, gen, conn, m).contexts == sh.contexts
  {
  }

  lemma DialFailedEdits(sh: Shared, n: StreamId, conn: nat, gen: nat, ctx: nat)
    ensures Edits(sh, StartDialFailed(sh, n, conn, gen, ctx), n, None, {}, {ctx})
    ensures StartDialFailed(sh, n, conn, gen, ctx).contexts == sh.contexts
  {
  }

  lemma StopFinishEdits(sh: Shared, n: StreamId, gen: nat)
    ensures Edits(sh, StopFinish(sh, n, gen), n, None, {}, {})
    ensures StopFinish(sh, n, gen).contexts == sh.contexts
  {
  }

  lemma DialEdits(sh: Shared, n: StreamId)
    ensures var (sh', out) := DialDecision(sh, n);
            Edits(sh, sh', n, sh.conn, {}, CtxOf(At(sh, n))) && sh'.contexts == sh.contexts + (if out.StartDial? then 1 else 0)
  {
    if sh.conn.Some? && n == Screen {
      var st := At(sh, n);
      var sh1 := Put(sh, n, st.(gen := st.gen + 1, cancel := Some(sh.contexts)))
                 .(cancelled := CancelIf(sh.cancelled, st.cancel), contexts := sh.contexts + 1);
      CloseOnEdits(sh1, sh1.conn, n);
    }
  }

  lemma StartEdits(sh: Shared, n: StreamId)
    ensures var (sh', out) := StartEnter(sh, n);
            Edits(sh, sh', n, sh.conn, {}, CtxOf(At(sh, n))) && sh'.contexts == sh.contexts + (if out.StartDial? then 1 else 0)
  {
    var st := At(sh, n);
    DialEdits(sh, n);
    var sh1 := Put(sh, n, st.(cancel := None, gen := st.gen + 1)).(cancelled := CancelIf(sh.cancelled, st.cancel));
    CloseOnEdits(sh1, sh1.conn, n);
  }

  lemma ResumeEdits(sh: Shared, n: StreamId, conn: Option<nat>, gen: nat)
    ensures var (sh', out) := StartResume(sh, n, conn, gen);
            Edits(sh, sh', n, sh.conn, {}, CtxOf(At(sh, n))) && sh'.contexts == sh.contexts + (if out.StartDial? then 1 else 0)
  {
    var st := At(sh, n);
    DialEdits(Put(sh, n, st.(done := None, running := false)), n);
  }

  /** Ending the hub's session: in the stream, only which session it names. */
  lemma EndHubEdits(sh: Shared, n: StreamId)
    ensures Edits(sh, EndHub(sh, n), n, None, {}, {})
    ensures EndHub(sh, n).contexts == sh.contexts && EndHub(sh, n).conns == sh.conns
    ensures At(EndHub(sh, n), n) == At(sh, n).(hubGen := At(EndHub(sh, n), n).hubGen)
  {
  }

  lemma StopClaimEdits(sh: Shared, n: StreamId)
    ensures Edits(sh, StopClaim(sh, n), n, None, {}, CtxOf(At(sh, n)))
    ensures StopClaim(sh, n).contexts == sh.contexts && StopClaim(sh, n).hub == sh.hub
  {
  }

  lemma StopEdits(sh: Shared, n: StreamId)
    ensures var sh' := StopEnter(sh, n).0;
            Edits(sh, sh', n, sh.conn, {}, CtxOf(At(sh, n))) && sh'.contexts == sh.contexts
  {
    var sh1 := StopClaim(sh, n);
    StopClaimEdits(sh, n);
    EndHubEdits(sh1, n);
    CloseOnEdits(EndHub(sh1, n), sh1.conn, n);
  }
}
