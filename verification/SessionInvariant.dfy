/** The inductive invariant of the session core. The generation of a stream, the connection and
    the done channel together are an ownership token: whoever holds the current generation is the
    stream's owner, and the owner decides what the stream, its slot and its context look like.

    The invariant is cut by what it reads: the session, one lane for each of the four streams, and
    the control slot with its token, the reconnects and the hub. `SameLane` says that a step left
    a lane alone, and then the lane's part carries over. */
module SessionInvariant {
  import opened Wrappers
  import opened Transport
  import opened SessionState
  import opened SessionSystem

  const Media := {Screen, Camera, Mic, Speaker}

  /** The slot of a stream on the current connection. */
  function CurSlot(sh: Shared, n: StreamId): Option<nat> {
    if sh.conn.Some? then SlotOn(sh, sh.conn.value, n) else None
  }

  /** How many connections have been published: a dialled one waits at the end of the table. */
  function Published(s: State): int {
    |s.sh.conns| - if s.connect.Connected? then 1 else 0
  }

  // ---- the session

  ghost predicate SessionOk(s: State) {
    && (s.sh.connected <==> s.sh.conn.Some?)
    && (s.sh.conn.Some? ==> s.sh.conn.value < Published(s) && !s.sh.conns[s.sh.conn.value].closed)
    && |s.workers| == s.sh.launched
    && |s.ctxs| == s.sh.contexts
    && (s.connect.AfterDisconnect? || s.connect.Connecting? || s.connect.Connected? ==> !s.sh.connected)
    && (s.connect.Connected? ==> PendingOk(s, s.connect.conn))
    && (s.sh.connectCancel.Some? ==> s.sh.connectCancel.value < |s.ctxs| && s.ctxs[s.sh.connectCancel.value] == CtxConnect)
    && At(s.sh, Control).done == None && At(s.sh, Control).cancel == None
    && (forall t :: 0 <= t < |s.starts| ==> s.starts[t].n != Control)
    && (forall t :: 0 <= t < |s.stops| ==> s.stops[t].n != Control)
    && (forall i :: 0 <= i < |s.workers| ==> s.workers[i].n != Control)
    && (forall c :: 0 <= c < |s.sh.conns| && s.sh.conns[c].closed ==> s.sh.conns[c].slots == map[])
    && (forall v :: v in s.sh.closed ==> v < |s.users|)
    && (forall x :: x in s.sh.cancelled ==> x < |s.ctxs|)
  }

  /** A dialled connection that Connect has not published yet. */
  ghost predicate PendingOk(s: State, c: nat) {
    && c == |s.sh.conns| - 1
    && !s.sh.conns[c].closed
    && s.sh.conns[c].slots.Keys == {Speaker}
    && s.sh.conns[c].slots[Speaker] < |s.users|
    && s.users[s.sh.conns[c].slots[Speaker]] == UConnect
  }

  /** A connection that is no longer current is closed, or a Disconnect is about to close it. */
  ghost predicate RetiredOk(s: State) {
    && (forall d :: 0 <= d < |s.discs| ==>
          s.discs[d].conn.Some? && s.discs[d].conn.value < Published(s) && s.discs[d].conn != s.sh.conn)
    && (forall c :: 0 <= c < Published(s) && s.sh.conn != Some(c) ==> s.sh.conns[c].closed || Closer(s, c))
  }

  ghost predicate Closer(s: State, c: nat) {
    exists d :: 0 <= d < |s.discs| && s.discs[d].conn == Some(c) && s.discs[d].phase == Closing
  }

  // ---- a lane: one stream, its owner, its goroutines and its slots

  /** Nothing runs and the slot is empty. */
  ghost predicate Quiet(sh: Shared, n: StreamId) {
    var st := At(sh, n);
    !st.active && !st.running && st.done == None && CurSlot(sh, n) == None
  }

  ghost predicate OwnerOk(s: State, n: StreamId, o: Owner) {
    var st := At(s.sh, n);
    match o
    case Nobody => Quiet(s.sh, n)
    case ByStart(t) => t < |s.starts| && s.starts[t].n == n && StarterOk(s.sh, n, s.starts[t].phase)
    case ByStop(t) => t < |s.stops| && s.stops[t].n == n
                      && (if s.stops[t].over then Quiet(s.sh, n)
                          else s.stops[t].gen == st.gen && s.stops[t].prev == st.done && !st.active && CurSlot(s.sh, n) == None)
    case ByWorker(i) => i < |s.workers| && s.workers[i].n == n && EmployedOk(s.sh, n, i, s.workers[i])
  }

  ghost predicate StarterOk(sh: Shared, n: StreamId, p: StartPhase) {
    var st := At(sh, n);
    match p
    case Waiting(session, gen, prev) =>
      gen == st.gen && sh.conn.Some? && session == sh.conn && prev == st.done && !st.active && CurSlot(sh, n) == None
    case Dialing(conn, gen, ctx) => PendingDial(sh, n, conn, gen, ctx)
    case Dialed(conn, gen, ctx, sock) => PendingDial(sh, n, conn, gen, ctx) && sock.Some?
    case Over => Quiet(sh, n)
  }

  ghost predicate PendingDial(sh: Shared, n: StreamId, conn: nat, gen: nat, ctx: nat) {
    && Quiet(sh, n)
    && gen == At(sh, n).gen
    && sh.conn == Some(conn)
    && ctx !in sh.cancelled
  }

  /** The worker launched with the current generation. */
  ghost predicate EmployedOk(sh: Shared, n: StreamId, i: nat, w: Worker) {
    var st := At(sh, n);
    && w.gen == st.gen
    && sh.conn == Some(w.conn)
    && st.done == Some(i)
    && (if Rank(w.phase) < Rank(Exited)
        then st.active && st.running && (n == Screen ==> st.hubGen == w.hubGen)
             && CurSlot(sh, n) == (if Rank(w.phase) < Rank(SlotClosed) then w.sock else None)
        else !st.active && !st.running && CurSlot(sh, n) == None)
  }

  ghost predicate StreamOk(s: State, n: StreamId) {
    var st := At(s.sh, n);
    && n in s.owners
    && OwnerOk(s, n, s.owners[n])
    && (st.done.Some? ==> st.done.value < |s.workers| && s.workers[st.done.value].n == n
                          && s.sh.conn == Some(s.workers[st.done.value].conn))
    && (st.cancel.Some? ==> CtxFor(s, st.cancel.value, n))
  }

  ghost predicate CtxFor(s: State, x: nat, n: StreamId) {
    x < |s.ctxs| && s.ctxs[x].CtxStream? && s.ctxs[x].n == n
  }

  /** A generation in someone's hands is not newer than the stream's, and if it is the current
      one then they are the owner. */
  ghost predicate HoldsGen(s: State, n: StreamId, gen: nat, o: Owner) {
    && n in s.owners
    && gen <= At(s.sh, n).gen
    && (gen == At(s.sh, n).gen ==> s.owners[n] == o)
  }

  ghost predicate StartOk(s: State, n: StreamId, t: nat, p: StartPhase) {
    && (p.Waiting? ==> p.session.Some? && HoldsGen(s, n, p.gen, ByStart(t)))
    && (p.Dialing? || p.Dialed? ==>
          HoldsGen(s, n, p.gen, ByStart(t)) && p.ctx < |s.ctxs| && s.ctxs[p.ctx] == CtxStream(n, p.gen))
    && (p.Dialed? && p.sock.Some? ==>
          p.sock.value < |s.users| && s.users[p.sock.value] == UStart(n, t) && p.sock.value !in s.sh.closed)
  }

  ghost predicate WorkerOk(s: State, n: StreamId, i: nat, w: Worker) {
    && (n == Screen || w.phase == Working || Rank(w.phase) >= Rank(Exited))
    && w.conn < Published(s)
    && w.ctx < |s.ctxs| && s.ctxs[w.ctx] == CtxStream(n, w.gen)
    && w.sock.Some? && w.sock.value < |s.users| && s.users[w.sock.value] == UWorker(n, i)
    && HoldsGen(s, n, w.gen, ByWorker(i))
    // the done channel of an open worker on the current connection is the stream's
    && (w.Open() && s.sh.conn == Some(w.conn) ==> At(s.sh, n).done == Some(i))
    // until the worker closes its slot, nobody else's socket is in it
    && (Rank(w.phase) < Rank(SlotClosed) && SlotOn(s.sh, w.conn, n).Some? ==> SlotOn(s.sh, w.conn, n) == w.sock)
    && (n == Screen && w.phase == SlotClosed ==> SlotOn(s.sh, w.conn, n) == None)
  }

  /** What may sit in a media slot, by who answers for the socket. */
  ghost predicate OccupantOk(s: State, n: StreamId, c: nat, v: nat) {
    && v < |s.users|
    && match s.users[v]
       case UConnect => s.connect.Connected? && s.connect.conn == c && n == Speaker
       case UWorker(m, i) => m == n && i < |s.workers| && s.workers[i].conn == c
       case _ => false
  }

  ghost predicate LaneOk(s: State, n: StreamId) {
    && StreamOk(s, n)
    && (forall t :: 0 <= t < |s.starts| && s.starts[t].n == n ==> StartOk(s, n, t, s.starts[t].phase))
    && (forall t :: 0 <= t < |s.stops| && s.stops[t].n == n && !s.stops[t].over ==> HoldsGen(s, n, s.stops[t].gen, ByStop(t)))
    && (forall i :: 0 <= i < |s.workers| && s.workers[i].n == n ==> WorkerOk(s, n, i, s.workers[i]))
    && (forall c :: 0 <= c < |s.sh.conns| && SlotOn(s.sh, c, n).Some? ==> OccupantOk(s, n, c, SlotOn(s.sh, c, n).value))
  }

  // ---- the control slot: token, reconnects and hub

  function WorkerOf(s: State, h: nat): nat
    requires 1 <= h <= |s.reconnects|
  {
    s.reconnects[h - 1].worker
  }

  /** The token is that of a screen worker of the current connection that still has control. */
  ghost predicate TokenHeld(s: State) {
    s.sh.token.Some? ==>
      var t := s.sh.token.value;
      && s.sh.conn == Some(t.conn)
      && 1 <= t.hubGen <= |s.reconnects|
      && s.reconnects[t.hubGen - 1].tok == t
      && WorkerOf(s, t.hubGen) < |s.workers| && s.workers[WorkerOf(s, t.hubGen)].n == Screen
      && Rank(s.workers[WorkerOf(s, t.hubGen)].phase) < Rank(ControlClosed)
  }

  ghost predicate TokenOk(s: State) {
    && TokenHeld(s)
    && (forall i :: 0 <= i < |s.workers| && s.workers[i].n == Screen ==> ScreenWorkerOk(s, i, s.workers[i]))
    && (forall c :: 0 <= c < |s.sh.conns| && SlotOn(s.sh, c, Control).Some? ==> ControlOccupantOk(s, c, SlotOn(s.sh, c, Control).value))
    && (CurSlot(s.sh, Control).Some? ==> s.sh.token.Some?)
  }

  ghost predicate ScreenWorkerOk(s: State, i: nat, w: Worker) {
    && 1 <= w.hubGen <= |s.reconnects|
    && WorkerOf(s, w.hubGen) == i
    && s.reconnects[w.hubGen - 1].tok == w.Tok()
    && (s.sh.conn == Some(w.conn) && Rank(w.phase) < Rank(ControlClosed) ==> s.sh.token == Some(w.Tok()))
  }

  ghost predicate ControlOccupantOk(s: State, c: nat, v: nat) {
    v < |s.users| && s.users[v].UReconnect? && s.users[v].k < |s.reconnects| && s.reconnects[s.users[v].k].tok.conn == c
    && !s.reconnects[s.users[v].k].phase.RDialed? && v !in s.sh.closed
  }

  predicate HasDialled(p: ReconnectPhase) {
    p != Checking && p != RDialing
  }

  ghost predicate ReconnectsOk(s: State) {
    && |s.reconnects| == s.sh.hub.gen
    && (forall k :: 0 <= k < |s.reconnects| ==> ReconnectOk(s, k, s.reconnects[k]))
    && (forall v :: 0 <= v < |s.users| && s.users[v].UReconnect? ==>
          s.users[v].k < |s.reconnects| && HasDialled(s.reconnects[s.users[v].k].phase)
          && (v in s.sh.closed || Held(s.reconnects[s.users[v].k].phase) == Some(v)))
  }

  ghost predicate ReconnectOk(s: State, k: nat, r: Reconnect) {
    && r.tok.hubGen == k + 1
    && r.tok.conn < Published(s)
    && r.worker < |s.workers| && s.workers[r.worker].n == Screen && s.workers[r.worker].Tok() == r.tok
    && (Held(r.phase).Some? ==> Held(r.phase).value < |s.users| && s.users[Held(r.phase).value] == UReconnect(k))
    && (r.phase.RDialed? ==> r.phase.sock !in s.sh.closed)
    // the control slot of the session in charge holds its own reconnect's socket, or nothing
    && (s.sh.token == Some(r.tok) ==> SlotOn(s.sh, r.tok.conn, Control) == (if r.phase.RDialed? then None else Held(r.phase)))
    && (s.sh.token == Some(r.tok) && Held(r.phase).Some? ==> Held(r.phase).value !in s.sh.closed)
    && (Held(r.phase).Some? && !r.phase.RDialed? ==>
          Held(r.phase).value in s.sh.closed || SlotOn(s.sh, r.tok.conn, Control) == Held(r.phase))
  }

  ghost predicate HubOk(s: State) {
    && At(s.sh, Screen).hubGen <= s.sh.hub.gen
    && (s.sh.hub.active ==>
          && 1 <= s.sh.hub.gen <= |s.reconnects|
          && WorkerOf(s, s.sh.hub.gen) < |s.workers| && s.workers[WorkerOf(s, s.sh.hub.gen)].n == Screen
          && s.workers[WorkerOf(s, s.sh.hub.gen)].phase == Working
          && s.sh.conn == Some(s.reconnects[s.sh.hub.gen - 1].tok.conn)
          && At(s.sh, Screen).hubGen == s.sh.hub.gen)
    && (s.sh.hub.route.Some? ==>
          && s.sh.hub.active
          && s.reconnects[s.sh.hub.gen - 1].phase == ROver(s.sh.hub.route))
  }

  ghost predicate ControlOk(s: State) {
    ReconnectsOk(s) && TokenOk(s) && HubOk(s)
  }

  ghost predicate LanesOk(s: State) {
    forall n :: n in Media ==> LaneOk(s, n)
  }

  ghost predicate Inv(s: State) {
    SessionOk(s) && RetiredOk(s) && LanesOk(s) && ControlOk(s)
  }

  lemma InitialInv()
    ensures Inv(Initial)
  {
  }

  // ---- what a step may leave alone

  ghost predicate SameSession(s: State, s': State) {
    && s'.sh.conn == s.sh.conn && s'.sh.connected == s.sh.connected
    && (s'.connect == s.connect || (!s.connect.Connected? && !s'.connect.Connected?))
    && |s'.sh.conns| == |s.sh.conns|
  }

  ghost predicate GrowsLike(s: State, s': State) {
    && |s.ctxs| <= |s'.ctxs| && (forall x :: 0 <= x < |s.ctxs| ==> s'.ctxs[x] == s.ctxs[x])
    && |s.users| <= |s'.users|
    && |s.starts| <= |s'.starts| && |s.stops| <= |s'.stops| && |s.workers| <= |s'.workers|
  }

  ghost predicate ForLane(u: User, n: StreamId) {
    match u
    case UConnect => n == Speaker
    case UStart(m, _) => m == n
    case UWorker(m, _) => m == n
    case UReconnect(_) => false
  }

  /** In the lane of `n`, a step touched at most the start `dt`, the stop `dp` and the worker `dw`
      (-1 for none), and the stream's record within what the others rely on. */
  ghost predicate Touches(s: State, s': State, n: StreamId, dt: int, dp: int, dw: int) {
    && SameSession(s, s')
    && GrowsLike(s, s')
    && n in s.owners && n in s'.owners
    && ((At(s'.sh, n).gen == At(s.sh, n).gen && s'.owners[n] == s.owners[n]) || At(s'.sh, n).gen > At(s.sh, n).gen)
    && (forall t :: 0 <= t < |s'.starts| && t != dt && s'.starts[t].n == n ==> t < |s.starts| && s.starts[t] == s'.starts[t])
    && (forall t :: 0 <= t < |s'.stops| && t != dp && s'.stops[t].n == n ==> t < |s.stops| && s.stops[t] == s'.stops[t])
    && (forall i :: 0 <= i < |s'.workers| && i != dw && s'.workers[i].n == n ==> i < |s.workers| && s.workers[i] == s'.workers[i])
    && (forall i :: 0 <= i < |s.workers| ==> s'.workers[i].conn == s.workers[i].conn)
    // the slots only empty
    && (forall c :: 0 <= c < |s.sh.conns| ==> SlotOn(s'.sh, c, n) == SlotOn(s.sh, c, n) || SlotOn(s'.sh, c, n) == None)
    // the done channel changes only when every other worker on this connection is finished
    && (At(s'.sh, n).done == At(s.sh, n).done
        || forall i :: 0 <= i < |s.workers| && i != dw && s.workers[i].n == n && s.sh.conn == Some(s.workers[i].conn) ==> !s.workers[i].Open())
    && (forall v :: 0 <= v < |s.users| && s.users[v] != UStart(n, if dt < 0 then |s.starts| else dt) ==> s'.users[v] == s.users[v])
    && (forall v, t :: 0 <= v < |s.users| && v in s'.sh.closed && v !in s.sh.closed && s.users[v] == UStart(n, t) ==> t == dt)
  }

  lemma StartStays(s: State, s': State, n: StreamId, dt: int, dp: int, dw: int, t: nat)
    requires Touches(s, s', n, dt, dp, dw)
    requires t < |s'.starts| && s'.starts[t].n == n && t != dt
    requires StartOk(s, n, t, s'.starts[t].phase)
    ensures StartOk(s', n, t, s'.starts[t].phase)
  {
  }

  lemma WorkerStays(s: State, s': State, n: StreamId, dt: int, dp: int, dw: int, i: nat)
    requires Touches(s, s', n, dt, dp, dw)
    requires i < |s'.workers| && s'.workers[i].n == n && i != dw
    requires WorkerOk(s, n, i, s'.workers[i])
    ensures WorkerOk(s', n, i, s'.workers[i])
  {
  }

  lemma OccupantStays(s: State, s': State, n: StreamId, dt: int, dp: int, dw: int, c: nat)
    requires Touches(s, s', n, dt, dp, dw)
    requires c < |s'.sh.conns| && SlotOn(s'.sh, c, n).Some?
    requires OccupantOk(s, n, c, SlotOn(s'.sh, c, n).value)
    ensures OccupantOk(s', n, c, SlotOn(s'.sh, c, n).value)
  {
  }

  lemma StartsRebuilt(s: State, s': State, n: StreamId, dt: int, dp: int, dw: int)
    requires Touches(s, s', n, dt, dp, dw)
    requires forall t :: 0 <= t < |s.starts| && s.starts[t].n == n ==> StartOk(s, n, t, s.starts[t].phase)
    requires 0 <= dt < |s'.starts| && s'.starts[dt].n == n ==> StartOk(s', n, dt, s'.starts[dt].phase)
    ensures forall t :: 0 <= t < |s'.starts| && s'.starts[t].n == n ==> StartOk(s', n, t, s'.starts[t].phase)
  {
    forall t | 0 <= t < |s'.starts| && s'.starts[t].n == n
      ensures StartOk(s', n, t, s'.starts[t].phase)
    {
      if t != dt { StartStays(s, s', n, dt, dp, dw, t); }
    }
  }

  lemma WorkersRebuilt(s: State, s': State, n: StreamId, dt: int, dp: int, dw: int)
    requires Touches(s, s', n, dt, dp, dw)
    requires forall i :: 0 <= i < |s.workers| && s.workers[i].n == n ==> WorkerOk(s, n, i, s.workers[i])
    requires 0 <= dw < |s'.workers| && s'.workers[dw].n == n ==> WorkerOk(s', n, dw, s'.workers[dw])
    ensures forall i :: 0 <= i < |s'.workers| && s'.workers[i].n == n ==> WorkerOk(s', n, i, s'.workers[i])
  {
    forall i | 0 <= i < |s'.workers| && s'.workers[i].n == n
      ensures WorkerOk(s', n, i, s'.workers[i])
    {
      if i != dw { WorkerStays(s, s', n, dt, dp, dw, i); }
    }
  }

  lemma OccupantsRebuilt(s: State, s': State, n: StreamId, dt: int, dp: int, dw: int)
    requires Touches(s, s', n, dt, dp, dw)
    requires forall c :: 0 <= c < |s.sh.conns| && SlotOn(s.sh, c, n).Some? ==> OccupantOk(s, n, c, SlotOn(s.sh, c, n).value)
    ensures forall c :: 0 <= c < |s'.sh.conns| && SlotOn(s'.sh, c, n).Some? ==> OccupantOk(s', n, c, SlotOn(s'.sh, c, n).value)
  {
    forall c | 0 <= c < |s'.sh.conns| && SlotOn(s'.sh, c, n).Some?
      ensures OccupantOk(s', n, c, SlotOn(s'.sh, c, n).value)
    {
      assert SlotOn(s'.sh, c, n) == SlotOn(s.sh, c, n);
      OccupantStays(s, s', n, dt, dp, dw, c);
    }
  }

  /** What the step touched is all that has to be shown about the lane. */
  lemma LaneRebuilt(s: State, s': State, n: StreamId, dt: int, dp: int, dw: int)
    requires LaneOk(s, n) && Touches(s, s', n, dt, dp, dw)
    requires StreamOk(s', n)
    requires 0 <= dt < |s'.starts| && s'.starts[dt].n == n ==> StartOk(s', n, dt, s'.starts[dt].phase)
    requires 0 <= dp < |s'.stops| && s'.stops[dp].n == n && !s'.stops[dp].over ==> HoldsGen(s', n, s'.stops[dp].gen, ByStop(dp))
    requires 0 <= dw < |s'.workers| && s'.workers[dw].n == n ==> WorkerOk(s', n, dw, s'.workers[dw])
    ensures LaneOk(s', n)
  {
    StartsRebuilt(s, s', n, dt, dp, dw);
    WorkersRebuilt(s, s', n, dt, dp, dw);
    OccupantsRebuilt(s, s', n, dt, dp, dw);
  }

  ghost predicate SameLane(s: State, s': State, n: StreamId) {
    && SameSession(s, s')
    && GrowsLike(s, s')
    && At(s'.sh, n) == At(s.sh, n)
    && n in s.owners && n in s'.owners && s'.owners[n] == s.owners[n]
    && (forall c :: 0 <= c < |s.sh.conns| ==> SlotOn(s'.sh, c, n) == SlotOn(s.sh, c, n))
    && (forall t :: 0 <= t < |s.starts| && s.starts[t].n == n ==> s'.starts[t] == s.starts[t])
    && (forall t :: 0 <= t < |s'.starts| && s'.starts[t].n == n ==> t < |s.starts| && s.starts[t].n == n)
    && (forall t :: 0 <= t < |s.stops| && s.stops[t].n == n ==> s'.stops[t] == s.stops[t])
    && (forall t :: 0 <= t < |s'.stops| && s'.stops[t].n == n ==> t < |s.stops| && s.stops[t].n == n)
    && (forall i :: 0 <= i < |s.workers| && s.workers[i].n == n ==> s'.workers[i] == s.workers[i])
    && (forall i :: 0 <= i < |s'.workers| && s'.workers[i].n == n ==> i < |s.workers| && s.workers[i].n == n)
    && (forall i :: 0 <= i < |s.workers| ==> s'.workers[i].conn == s.workers[i].conn)
    && (forall v :: 0 <= v < |s.users| && ForLane(s.users[v], n) ==> s'.users[v] == s.users[v])
    && (forall v :: 0 <= v < |s.users| && v in s'.sh.closed && v !in s.sh.closed ==> !(s.users[v].UStart? && s.users[v].n == n))
    && (forall x :: 0 <= x < |s.ctxs| && x in s'.sh.cancelled && x !in s.sh.cancelled ==> !(s.ctxs[x].CtxStream? && s.ctxs[x].n == n))
  }

  lemma OwnerCarries(s: State, s': State, n: StreamId)
    requires StreamOk(s, n) && SameLane(s, s', n)
    requires s.owners[n].ByStart? ==> StartOk(s, n, s.owners[n].t, s.starts[s.owners[n].t].phase)
    ensures StreamOk(s', n)
  {
    assert CurSlot(s'.sh, n) == CurSlot(s.sh, n);
    match s.owners[n]
    case ByStart(t) => assert s'.starts[t] == s.starts[t];
    case ByStop(t) => assert s'.stops[t] == s.stops[t];
    case ByWorker(i) => assert s'.workers[i] == s.workers[i];
    case Nobody =>
  }

  lemma StartCarries(s: State, s': State, n: StreamId, t: nat)
    requires SameLane(s, s', n) && t < |s.starts| && s.starts[t].n == n && StartOk(s, n, t, s.starts[t].phase)
    ensures t < |s'.starts| && StartOk(s', n, t, s'.starts[t].phase)
  {
  }

  lemma WorkerCarries(s: State, s': State, n: StreamId, i: nat)
    requires SameLane(s, s', n) && i < |s.workers| && s.workers[i].n == n && WorkerOk(s, n, i, s.workers[i])
    ensures i < |s'.workers| && WorkerOk(s', n, i, s'.workers[i])
  {
  }

  lemma OccupantCarries(s: State, s': State, n: StreamId, c: nat)
    requires SameLane(s, s', n) && c < |s.sh.conns| && SlotOn(s.sh, c, n).Some? && OccupantOk(s, n, c, SlotOn(s.sh, c, n).value)
    ensures SlotOn(s'.sh, c, n) == SlotOn(s.sh, c, n) && OccupantOk(s', n, c, SlotOn(s'.sh, c, n).value)
  {
  }

  lemma LaneCarries(s: State, s': State, n: StreamId)
    requires LaneOk(s, n) && SameLane(s, s', n)
    ensures LaneOk(s', n)
  {
    OwnerCarries(s, s', n);
    forall t | 0 <= t < |s'.starts| && s'.starts[t].n == n
      ensures StartOk(s', n, t, s'.starts[t].phase)
    {
      StartCarries(s, s', n, t);
    }
    forall i | 0 <= i < |s'.workers| && s'.workers[i].n == n
      ensures WorkerOk(s', n, i, s'.workers[i])
    {
      WorkerCarries(s, s', n, i);
    }
    forall c | 0 <= c < |s'.sh.conns| && SlotOn(s'.sh, c, n).Some?
      ensures OccupantOk(s', n, c, SlotOn(s'.sh, c, n).value)
    {
      OccupantCarries(s, s', n, c);
    }
  }

  /** What steps outside Connect and Disconnect do to the session's part. */
  ghost predicate KeepsSession(s: State, s': State) {
    && SameSession(s, s') && GrowsLike(s, s')
    && s'.connect == s.connect && s'.discs == s.discs
    && (forall c :: 0 <= c < |s.sh.conns| ==> s'.sh.conns[c].closed == s.sh.conns[c].closed)
    && |s'.workers| == s'.sh.launched && |s'.ctxs| == s'.sh.contexts
    && s'.sh.connectCancel == s.sh.connectCancel
    && At(s'.sh, Control) == At(s.sh, Control)
    && (forall t :: 0 <= t < |s'.starts| ==> s'.starts[t].n != Control)
    && (forall t :: 0 <= t < |s'.stops| ==> s'.stops[t].n != Control)
    && (forall i :: 0 <= i < |s'.workers| ==> s'.workers[i].n != Control)
    && (forall c :: 0 <= c < |s.sh.conns| && s'.sh.conns[c].closed ==> s'.sh.conns[c].slots == map[])
    && (s.connect.Connected? ==> s.connect.conn < |s.sh.conns| && s'.sh.conns[s.connect.conn].slots == s.sh.conns[s.connect.conn].slots)
    && (forall v :: 0 <= v < |s.users| && s.users[v] == UConnect ==> s'.users[v] == UConnect)
    && (forall v :: v in s'.sh.closed ==> v < |s'.users|)
    && (forall x :: x in s'.sh.cancelled ==> x < |s'.ctxs|)
  }

  lemma SessionCarries(s: State, s': State)
    requires SessionOk(s) && RetiredOk(s) && KeepsSession(s, s')
    ensures SessionOk(s') && RetiredOk(s')
  {
    forall c | 0 <= c < Published(s') && s'.sh.conn != Some(c)
      ensures s'.sh.conns[c].closed || Closer(s', c)
    {
      assert s.sh.conns[c].closed || Closer(s, c);
    }
  }

  /** What the token and the reconnects see of a step that is not theirs. */
  ghost predicate SameControl(s: State, s': State) {
    && SameSession(s, s')
    && |s.workers| <= |s'.workers| && |s.users| <= |s'.users|
    && s'.sh.token == s.sh.token && s'.sh.hub.gen == s.sh.hub.gen && s'.reconnects == s.reconnects
    && (forall c :: 0 <= c < |s.sh.conns| ==> SlotOn(s'.sh, c, Control) == SlotOn(s.sh, c, Control))
    && (forall i :: 0 <= i < |s.workers| ==>
          && s'.workers[i].n == s.workers[i].n && s'.workers[i].Tok() == s.workers[i].Tok()
          && (s.workers[i].n == Screen ==>
                (Rank(s'.workers[i].phase) < Rank(ControlClosed) <==> Rank(s.workers[i].phase) < Rank(ControlClosed))))
    && (forall i :: |s.workers| <= i < |s'.workers| ==> s'.workers[i].n != Screen)
    && (forall v :: 0 <= v < |s.users| && s.users[v].UReconnect? ==> s'.users[v] == s.users[v])
    && (forall v :: 0 <= v < |s'.users| && s'.users[v].UReconnect? ==> v < |s.users| && s.users[v].UReconnect?)
    && (forall v :: 0 <= v < |s.users| && s.users[v].UReconnect? ==> (v in s'.sh.closed <==> v in s.sh.closed))
  }

  /** The hub's session is as it was, or has ended. */
  ghost predicate HubStays(s: State, s': State) {
    && |s.workers| <= |s'.workers| && s'.reconnects == s.reconnects && s'.sh.conn == s.sh.conn
    && s'.sh.hub.gen == s.sh.hub.gen
    && At(s'.sh, Screen).hubGen <= s.sh.hub.gen
    && ((!s'.sh.hub.active && s'.sh.hub.route == None)
        || (&& s'.sh.hub == s.sh.hub
            && At(s'.sh, Screen).hubGen == At(s.sh, Screen).hubGen
            && forall i :: 0 <= i < |s.workers| ==>
                 s'.workers[i].n == s.workers[i].n && (s.workers[i].phase == Working && s.workers[i].n == Screen ==> s'.workers[i].phase == Working)))
  }

  lemma ReconnectsCarry(s: State, s': State)
    requires ReconnectsOk(s) && SameControl(s, s')
    ensures ReconnectsOk(s')
  {
    forall k | 0 <= k < |s'.reconnects|
      ensures ReconnectOk(s', k, s'.reconnects[k])
    {
      assert ReconnectOk(s, k, s.reconnects[k]);
    }
  }

  lemma TokenCarries(s: State, s': State)
    requires TokenOk(s) && SameControl(s, s')
    ensures TokenOk(s')
  {
    assert CurSlot(s'.sh, Control) == CurSlot(s.sh, Control);
    forall i | 0 <= i < |s'.workers| && s'.workers[i].n == Screen
      ensures ScreenWorkerOk(s', i, s'.workers[i])
    {
      assert ScreenWorkerOk(s, i, s.workers[i]);
    }
    forall c | 0 <= c < |s'.sh.conns| && SlotOn(s'.sh, c, Control).Some?
      ensures ControlOccupantOk(s', c, SlotOn(s'.sh, c, Control).value)
    {
      assert ControlOccupantOk(s, c, SlotOn(s.sh, c, Control).value);
    }
  }

  lemma HubCarries(s: State, s': State)
    requires HubOk(s) && HubStays(s, s')
    ensures HubOk(s')
  {
  }

  lemma ControlCarries(s: State, s': State)
    requires ControlOk(s) && SameControl(s, s') && HubStays(s, s')
    ensures ControlOk(s')
  {
    ReconnectsCarry(s, s');
    TokenCarries(s, s');
    HubCarries(s, s');
  }

  /** A step of one lane. */
  lemma LaneStep(s: State, s': State, n: StreamId)
    requires Inv(s) && n in Media
    requires KeepsSession(s, s') && ControlOk(s')
    requires forall m :: m in Media && m != n ==> SameLane(s, s', m)
    requires LaneOk(s', n)
    ensures Inv(s')
  {
    SessionCarries(s, s');
    forall m | m in Media
      ensures LaneOk(s', m)
    {
      if m != n {
        assert LaneOk(s, m);
        LaneCarries(s, s', m);
      }
    }
  }

  /** A step of the control part. */
  lemma ControlStep(s: State, s': State)
    requires Inv(s)
    requires KeepsSession(s, s') && ControlOk(s')
    requires forall m :: m in Media ==> SameLane(s, s', m)
    ensures Inv(s')
  {
    SessionCarries(s, s');
    forall m | m in Media
      ensures LaneOk(s', m)
    {
      assert LaneOk(s, m);
      LaneCarries(s, s', m);
    }
  }
}
