/** The socket slots of transport.Connection (allrelay-server/internal/transport/connection.go).

    A socket is a number. `Conn` is the value of a Connection: the `closed` flag and the
    slots, an absent key standing for a nil slot. The functions on `Wires` give the effect
    of each operation once it has returned; `Ledger` below cuts the same operations at the
    release of the connection's mutex, where a socket has left its slot but is not closed yet. */
module Transport {
  import opened Wrappers

  datatype StreamId = Screen | Camera | Mic | Speaker | Control

  datatype Conn = Conn(closed: bool, slots: map<StreamId, nat>)

  /** A connection together with the set of sockets that have been closed. */
  datatype Wires = Wires(conn: Conn, closed: set<nat>)

  function HasStream(c: Conn, id: StreamId): bool {
    id in c.slots
  }

  /** Closes and clears one slot. */
  function CloseStream(w: Wires, id: StreamId): Wires {
    if id in w.conn.slots
    then Wires(w.conn.(slots := w.conn.slots - {id}), w.closed + {w.conn.slots[id]})
    else w
  }

  /** Closes everything, once. */
  function CloseAll(w: Wires): Wires {
    if w.conn.closed then w else Wires(Conn(true, map[]), w.closed + w.conn.slots.Values)
  }

  /** Closes the given socket; clears the control slot only if it still holds that socket. */
  function CloseControlConn(w: Wires, s: nat): Wires {
    var slots := w.conn.slots;
    var slots' := if Control in slots && slots[Control] == s then slots - {Control} else slots;
    Wires(w.conn.(slots := slots'), w.closed + {s})
  }

  /** Fills a slot, closing the socket it displaces; a closed connection closes the argument. */
  function InstallStream(w: Wires, id: StreamId, s: nat): Wires {
    var slots := w.conn.slots;
    if w.conn.closed then
      w.(closed := w.closed + {s})
    else
      Wires(w.conn.(slots := slots[id := s]),
            if id in slots && slots[id] != s then w.closed + {slots[id]} else w.closed)
  }

  // ---- what a caller can count on

  predicate Holds(w: Wires, id: StreamId, s: nat) {
    id in w.conn.slots && w.conn.slots[id] == s
  }

  /** Closing a stream empties its slot and closes what was in it, and touches nothing else. */
  lemma CloseStreamEffect(w: Wires, id: StreamId)
    ensures var w' := CloseStream(w, id);
            && (forall s :: !Holds(w', id, s))
            && (forall k, s :: k != id ==> (Holds(w', k, s) <==> Holds(w, k, s)))
            && (forall s :: s in w'.closed <==> s in w.closed || Holds(w, id, s))
            && w'.conn.closed == w.conn.closed
  {
  }

  /** Closing a connection empties every slot, closes all that was in them, and is done once. */
  lemma CloseAllEffect(w: Wires)
    requires w.conn.closed ==> w.conn.slots == map[]
    ensures var w' := CloseAll(w);
            && w'.conn.closed && w'.conn.slots == map[]
            && (forall s :: s in w'.closed <==> s in w.closed || exists id :: Holds(w, id, s))
            && CloseAll(w') == w'
  {
    forall s | s in w.conn.slots.Values
      ensures exists id :: Holds(w, id, s)
    {
      var id :| id in w.conn.slots && w.conn.slots[id] == s;
      assert Holds(w, id, s);
    }
  }

  /** Closing a control socket closes that very socket, and empties the control slot only if it still
      holds it. */
  lemma CloseControlEffect(w: Wires, s: nat)
    ensures var w' := CloseControlConn(w, s);
            && w'.closed == w.closed + {s}
            && (forall k, v :: Holds(w', k, v) <==> Holds(w, k, v) && !(k == Control && v == s))
            && w'.conn.closed == w.conn.closed
  {
  }

  /** Installing a socket fills its slot and closes the one displaced; a closed connection stays empty
      and closes the socket instead. */
  lemma InstallEffect(w: Wires, id: StreamId, s: nat)
    ensures var w' := InstallStream(w, id, s);
            && w'.conn.closed == w.conn.closed
            && (if w.conn.closed then w'.conn == w.conn && w'.closed == w.closed + {s}
                else
                  && Holds(w', id, s)
                  && (forall k, v :: k != id ==> (Holds(w', k, v) <==> Holds(w, k, v)))
                  && (forall v :: v in w'.closed <==> v in w.closed || (Holds(w, id, v) && v != s)))
  {
  }

  // ---------------------------------------------------------------------------------------
  // The object itself

  /** The sockets of the process: which of them have been closed. */
  class Sockets {
    var closed: set<nat>

    constructor ()
      ensures closed == {}
    {
      closed := {};
    }

    method CloseSocket(s: nat)
      modifies this
      ensures closed == old(closed) + {s}
    {
      closed := closed + {s};
    }
  }

  /** One outcome of dialling a requested port. */
  datatype DialResult = DialResult(id: StreamId, conn: Option<nat>)

  function SlotMap(video: Option<nat>, camera: Option<nat>, mic: Option<nat>, speaker: Option<nat>,
                   control: Option<nat>): map<StreamId, nat> {
    map id | id in {Screen, Camera, Mic, Speaker, Control}
             && SlotOf(video, camera, mic, speaker, control, id).Some?
      :: SlotOf(video, camera, mic, speaker, control, id).value
  }

  function SlotOf(video: Option<nat>, camera: Option<nat>, mic: Option<nat>, speaker: Option<nat>,
                  control: Option<nat>, id: StreamId): Option<nat> {
    match id
    case Screen => video
    case Camera => camera
    case Mic => mic
    case Speaker => speaker
    case Control => control
  }

  class Connection {
    var closed: bool
    var video: Option<nat>
    var camera: Option<nat>
    var mic: Option<nat>
    var speaker: Option<nat>
    var control: Option<nat>

    function Slots(): map<StreamId, nat>
      reads this
    {
      SlotMap(video, camera, mic, speaker, control)
    }

    function View(): Conn
      reads this
    {
      Conn(closed, Slots())
    }

    constructor ()
      ensures View() == Conn(false, map[])
    {
      closed := false;
      video, camera, mic, speaker, control := None, None, None, None, None;
    }

    method HasStreamOn(id: StreamId) returns (r: bool)
      ensures r == HasStream(View(), id)
    {
      match id
      case Screen => r := video.Some?;
      case Camera => r := camera.Some?;
      case Mic => r := mic.Some?;
      case Speaker => r := speaker.Some?;
      case Control => r := control.Some?;
    }

    method SetSlot(id: StreamId, v: Option<nat>)
      modifies this
      ensures closed == old(closed)
      ensures Slots() == if v.Some? then old(Slots())[id := v.value] else old(Slots()) - {id}
    {
      match id
      case Screen => video := v;
      case Camera => camera := v;
      case Mic => mic := v;
      case Speaker => speaker := v;
      case Control => control := v;
    }

    method GetSlot(id: StreamId) returns (v: Option<nat>)
      ensures v.Some? <==> id in Slots()
      ensures v.Some? ==> v.value == Slots()[id]
    {
      v := SlotOf(video, camera, mic, speaker, control, id);
    }

    method TakeAll() returns (conns: seq<nat>)
      modifies this
      ensures closed == old(closed) && Slots() == map[]
      ensures forall s :: s in conns <==> Some(s) in old({video, camera, mic, speaker, control})
    {
      conns := [];
      if video.Some? { conns := conns + [video.value]; video := None; }
      if camera.Some? { conns := conns + [camera.value]; camera := None; }
      if mic.Some? { conns := conns + [mic.value]; mic := None; }
      if speaker.Some? { conns := conns + [speaker.value]; speaker := None; }
      if control.Some? { conns := conns + [control.value]; control := None; }
    }

    /** Close: takes every socket out under the lock, then closes them one by one. */
    method Close(net: Sockets)
      modifies this, net
      ensures Wires(View(), net.closed) == CloseAll(Wires(old(View()), old(net.closed)))
    {
      if closed {
        return;
      }
      closed := true;
      SlotValues(video, camera, mic, speaker, control);
      var conns := TakeAll();
      for i := 0 to |conns|
        invariant net.closed == old(net.closed) + (set x | x in conns[..i])
        invariant View() == Conn(true, map[])
        modifies net
      {
        assert conns[..i + 1] == conns[..i] + [conns[i]];
        net.CloseSocket(conns[i]);
      }
      assert conns[..|conns|] == conns;
      assert (set x | x in conns) == old(Slots()).Values;
    }

    method CloseOne(id: StreamId, net: Sockets)
      modifies this, net
      ensures Wires(View(), net.closed) == CloseStream(Wires(old(View()), old(net.closed)), id)
    {
      var toClose := GetSlot(id);
      if toClose.Some? {
        SetSlot(id, None);
        net.CloseSocket(toClose.value);
      }
    }

    method CloseControl(s: nat, net: Sockets)
      modifies this, net
      ensures Wires(View(), net.closed) == CloseControlConn(Wires(old(View()), old(net.closed)), s)
    {
      if control == Some(s) {
        assert Control in Slots() && Slots()[Control] == s;
        SetSlot(Control, None);
      }
      net.CloseSocket(s);
    }

    method Install(id: StreamId, s: nat, net: Sockets) returns (ok: bool)
      modifies this, net
      ensures ok == !old(closed)
      ensures Wires(View(), net.closed) == InstallStream(Wires(old(View()), old(net.closed)), id, s)
    {
      if closed {
        net.CloseSocket(s);
        return false;
      }
      var oldConn := GetSlot(id);
      SetSlot(id, Some(s));
      if oldConn.Some? && oldConn.value != s {
        net.CloseSocket(oldConn.value);
      }
      return true;
    }
  }

  lemma SlotValues(video: Option<nat>, camera: Option<nat>, mic: Option<nat>, speaker: Option<nat>,
                   control: Option<nat>)
    ensures forall s :: s in SlotMap(video, camera, mic, speaker, control).Values
                        <==> Some(s) in {video, camera, mic, speaker, control}
  {
    var m := SlotMap(video, camera, mic, speaker, control);
    forall s | Some(s) in {video, camera, mic, speaker, control}
      ensures s in m.Values
    {
      var id := if video == Some(s) then Screen else if camera == Some(s) then Camera
                else if mic == Some(s) then Mic else if speaker == Some(s) then Speaker else Control;
      assert id in m && m[id] == s;
    }
  }

  /** ConnectContext's collection loop: a failed dial carries no socket, and one failure
      closes every socket already collected. */
  method ConnectContext(results: seq<DialResult>, net: Sockets) returns (conn: Connection, ok: bool)
    requires forall i, j :: 0 <= i < j < |results| ==> results[i].id != results[j].id
    modifies net
    ensures fresh(conn)
    ensures ok <==> forall i :: 0 <= i < |results| ==> results[i].conn.Some?
    ensures ok ==> net.closed == old(net.closed) && !conn.closed
                   && forall id, s :: id in conn.Slots() && conn.Slots()[id] == s
                                      <==> DialResult(id, Some(s)) in results
    ensures !ok ==> conn.View() == Conn(true, map[]) && net.closed == old(net.closed) + Collected(results)
    ensures Distinct(results) && Collected(results) !! old(net.closed)
            ==> Conserved(Ledger(conn.View(), Collected(results), {}, net.closed - old(net.closed)))
  {
    conn := new Connection();
    ok := true;
    var i := 0;
    while i < |results|
      invariant 0 <= i <= |results|
      invariant fresh(conn) && !conn.closed
      invariant net.closed == old(net.closed)
      invariant ok <==> forall k :: 0 <= k < i ==> results[k].conn.Some?
      invariant forall id, s :: id in conn.Slots() && conn.Slots()[id] == s
                                <==> DialResult(id, Some(s)) in results[..i]
    {
      var r := results[i];
      if r.conn.None? {
        ok := false;
      }
      assert results[..i + 1] == results[..i] + [r];
      assert forall k :: 0 <= k < i ==> results[k].id != r.id;
      conn.SetSlot(r.id, r.conn);
      i := i + 1;
    }
    assert results[..i] == results;
    if !ok {
      ghost var slots := conn.Slots();
      SlotsAreCollected(results, slots);
      conn.Close(net);
    } else if Distinct(results) {
      CollectedConserves(results, conn.Slots());
    }
  }

  /** The sockets that the dials gave. */
  function Collected(results: seq<DialResult>): set<nat> {
    set r | r in results && r.conn.Some? :: r.conn.value
  }

  /** No two dials gave the same socket. */
  predicate Distinct(results: seq<DialResult>) {
    forall r, q :: r in results && q in results && r.conn.Some? && r.conn == q.conn ==> r == q
  }

  lemma SlotsAreCollected(results: seq<DialResult>, slots: map<StreamId, nat>)
    requires forall id, s :: id in slots && slots[id] == s <==> DialResult(id, Some(s)) in results
    ensures slots.Values == Collected(results)
  {
    forall s | s in slots.Values
      ensures s in Collected(results)
    {
      var id :| id in slots && slots[id] == s;
      assert DialResult(id, Some(s)) in results;
    }
    forall r | r in results && r.conn.Some?
      ensures r.conn.value in slots.Values
    {
      assert DialResult(r.id, Some(r.conn.value)) in results;
      assert r.id in slots;
    }
  }

  /** Conservation begins with what the collection loop leaves. */
  lemma CollectedConserves(results: seq<DialResult>, slots: map<StreamId, nat>)
    requires forall id, s :: id in slots && slots[id] == s <==> DialResult(id, Some(s)) in results
    requires Distinct(results)
    ensures Conserved(Ledger(Conn(false, slots), Collected(results), {}, {}))
  {
    SlotsAreCollected(results, slots);
    forall a, b | a in slots && b in slots && slots[a] == slots[b]
      ensures a == b
    {
      assert DialResult(a, Some(slots[a])) in results && DialResult(b, Some(slots[a])) in results;
    }
  }

  // ---------------------------------------------------------------------------------------
  // Conservation over every interleaving

  /** `handed` are all the sockets ever given to the connection; `pending` are those a goroutine
      took out under the lock and has not closed yet. */
  datatype Ledger = Ledger(conn: Conn, handed: set<nat>, pending: set<nat>, closed: set<nat>)

  datatype Event =
    | CloseBegin
    | CloseStreamBegin(id: StreamId)
    | CloseControlBegin(s: nat)
    | InstallBegin(id: StreamId, s: nat)
    | InstallUnknown(s: nat)
    | CloseEnd(s: nat)

  /** What the callers guarantee: an installed socket is newly dialled, and CloseControlConn is
      given a socket that was installed before. */
  ghost predicate Allowed(l: Ledger, e: Event) {
    match e
    case InstallBegin(_, s) => s !in l.handed
    case InstallUnknown(s) => s !in l.handed
    case CloseControlBegin(s) => s in l.handed && forall id :: id in l.conn.slots && l.conn.slots[id] == s ==> id == Control
    case CloseEnd(s) => s in l.pending
    case _ => true
  }

  function Happen(l: Ledger, e: Event): Ledger {
    var slots := l.conn.slots;
    match e
    case CloseBegin =>
      if l.conn.closed then l else l.(conn := Conn(true, map[]), pending := l.pending + slots.Values)
    case CloseStreamBegin(id) =>
      if id in slots then l.(conn := l.conn.(slots := slots - {id}), pending := l.pending + {slots[id]}) else l
    case CloseControlBegin(s) =>
      l.(conn := if Control in slots && slots[Control] == s then l.conn.(slots := slots - {Control}) else l.conn,
         pending := l.pending + {s})
    case InstallBegin(id, s) =>
      if l.conn.closed then l.(handed := l.handed + {s}, pending := l.pending + {s})
      else l.(conn := l.conn.(slots := slots[id := s]), handed := l.handed + {s},
              pending := if id in slots && slots[id] != s then l.pending + {slots[id]} else l.pending)
    case InstallUnknown(s) => l.(handed := l.handed + {s}, pending := l.pending + {s})
    case CloseEnd(s) => l.(pending := l.pending - {s}, closed := l.closed + {s})
  }

  /** Every handed socket is in exactly one slot, or on its way to being closed, or closed. */
  ghost predicate Conserved(l: Ledger) {
    var slots := l.conn.slots;
    && l.handed == slots.Values + l.pending + l.closed
    && slots.Values !! l.pending + l.closed
    && (forall a, b :: a in slots && b in slots && slots[a] == slots[b] ==> a == b)
    && (l.conn.closed ==> slots == map[])
  }

  lemma ConservedStep(l: Ledger, e: Event)
    requires Conserved(l) && Allowed(l, e)
    ensures Conserved(Happen(l, e))
  {
    var slots := l.conn.slots;
    var l' := Happen(l, e);
    var slots' := l'.conn.slots;
    match e
    case CloseStreamBegin(id) =>
      if id in slots {
        ValuesWithout(slots, id);
      }
    case CloseControlBegin(s) =>
      if Control in slots && slots[Control] == s {
        ValuesWithout(slots, Control);
      } else {
        assert s !in slots.Values;
      }
    case InstallBegin(id, s) =>
      if !l.conn.closed {
        ValuesWith(slots, id, s);
      }
    case _ =>
  }

  lemma ValuesWithout(m: map<StreamId, nat>, id: StreamId)
    requires id in m
    requires forall a, b :: a in m && b in m && m[a] == m[b] ==> a == b
    ensures (m - {id}).Values == m.Values - {m[id]}
  {
    var m' := m - {id};
    forall s | s in m.Values - {m[id]}
      ensures s in m'.Values
    {
      var k :| k in m && m[k] == s;
      assert k in m' && m'[k] == s;
    }
  }

  lemma ValuesWith(m: map<StreamId, nat>, id: StreamId, s: nat)
    requires s !in m.Values
    requires forall a, b :: a in m && b in m && m[a] == m[b] ==> a == b
    ensures m[id := s].Values == (if id in m then m.Values - {m[id]} else m.Values) + {s}
  {
    var m' := m[id := s];
    assert m'[id] == s;
    forall v | v in (if id in m then m.Values - {m[id]} else m.Values)
      ensures v in m'.Values
    {
      var k :| k in m && m[k] == v;
      assert k in m' && m'[k] == v;
    }
    forall v | v in m'.Values && v != s
      ensures v in (if id in m then m.Values - {m[id]} else m.Values)
    {
      var k :| k in m' && m'[k] == v;
      assert k in m && m[k] == v;
    }
  }

  ghost predicate IsLedgerRun(l: Ledger, es: seq<Event>)
    decreases |es|
  {
    es == [] || (Allowed(l, es[0]) && IsLedgerRun(Happen(l, es[0]), es[1..]))
  }

  function AfterRun(l: Ledger, es: seq<Event>): Ledger
    decreases |es|
  {
    if es == [] then l else AfterRun(Happen(l, es[0]), es[1..])
  }

  /** Socket conservation over every run: nothing handed to the connection is ever dropped open,
      and once Close has taken the lock no slot is filled again. */
  lemma {:induction false} SocketsConserved(l: Ledger, es: seq<Event>)
    requires Conserved(l) && IsLedgerRun(l, es)
    ensures Conserved(AfterRun(l, es))
    ensures l.handed <= AfterRun(l, es).handed
    ensures l.conn.closed ==> AfterRun(l, es).conn == Conn(true, map[])
    decreases |es|
  {
    if es != [] {
      ConservedStep(l, es[0]);
      SocketsConserved(Happen(l, es[0]), es[1..]);
    }
  }

  /** Once every goroutine has finished closing what it took, a closed connection has closed
      every socket it was ever handed. */
  lemma NothingLeaks(l: Ledger, es: seq<Event>)
    requires Conserved(l) && IsLedgerRun(l, es) && l.conn.closed
    requires AfterRun(l, es).pending == {}
    ensures AfterRun(l, es).closed == AfterRun(l, es).handed >= l.handed
  {
    SocketsConserved(l, es);
  }

  /** A returned operation is its locked section followed by the closes it owes: the functions
      on `Wires` that the controller uses are exactly that composition. */
  lemma SectionsCompose(w: Wires, handed: set<nat>, id: StreamId, s: nat)
    ensures var l := Ledger(w.conn, handed, {}, w.closed);
            && Settled(Happen(l, CloseBegin)) == CloseAll(w)
            && Settled(Happen(l, CloseStreamBegin(id))) == CloseStream(w, id)
            && Settled(Happen(l, CloseControlBegin(s))) == CloseControlConn(w, s)
            && Settled(Happen(l, InstallBegin(id, s))) == InstallStream(w, id, s)
  {
  }

  /** The connection and closed sockets once all pending closes are done. */
  function Settled(l: Ledger): Wires {
    Wires(l.conn, l.closed + l.pending)
  }
}
