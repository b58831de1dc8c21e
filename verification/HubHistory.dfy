/** The hub as its callers see it: sessions counted by their begins, the header and the frames of the
    one that is on, the route it was given, and the power writes - none of the hub's flags. The hub
    refines this history: every flag is what the history says, over every run and any outcome of the
    writes, so that each operation writes exactly what is due. */
module HubHistory {
  import opened Wrappers
  import opened ScreenHub
  import opened HubRuns

  /** How many sessions and routes there have been; whether the latest session is on, and its header,
      route and frames; the route an end in progress has yet to restore; the writes attempted. */
  datatype History = History(
    begins: nat,
    on: bool,
    header: Option<Header>,
    route: Option<nat>,
    routes: nat,
    ending: Option<Option<nat>>,
    frames: seq<Frame>,
    log: seq<Sent>)

  const Nothing := History(0, false, None, None, 0, None, [], [])

  /** Some OFF on this route has succeeded. */
  ghost predicate SwitchedOff(log: seq<Sent>, route: nat) {
    exists i :: 0 <= i < |log| && log[i] == Sent(route, false, true)
  }

  /** The write that turns the display on again: due while the last successful write was OFF. */
  ghost function OnDue(log: seq<Sent>, route: Option<nat>, ok: bool): seq<Sent> {
    if LastGoodWasOff(log) && route.Some? then [Sent(route.value, true, ok)] else []
  }

  /** The write that turns it off: due until it has succeeded on this route. */
  ghost function OffDue(log: seq<Sent>, route: Option<nat>, ok: bool): seq<Sent> {
    if route.Some? && !SwitchedOff(log, route.value) then [Sent(route.value, false, ok)] else []
  }

  /** What an action adds to the history; calls of any but the session that is on add nothing. */
  ghost function Adds(y: History, a: Action): History {
    match a
    case Begins(ok) =>
      History(y.begins + 1, true, None, None, y.routes, y.ending, [], if y.on then y.log + OnDue(y.log, y.route, ok) else y.log)
    case GetsHeader(gen, header, ok) =>
      if y.on && gen == y.begins
      then y.(header := Some(header), frames := [], log := y.log + OffDue(y.log, y.route, ok)) else y
    case StartsEnd(gen) =>
      if y.on && gen == y.begins
      then y.(on := false, header := None, route := None, frames := [], ending := Some(y.route)) else y
    case FinishesEnd(ok) =>
      if y.ending.Some? then y.(ending := None, log := y.log + OnDue(y.log, y.ending.value, ok)) else y
    case Registers(gen, ok) =>
      if y.on && gen == y.begins
      then y.(route := Some(y.routes), routes := y.routes + 1,
              log := if y.header.Some? then y.log + [Sent(y.routes, false, ok)] else y.log) else y
    case Clears(id) => if y.route == Some(id) then y.(route := None) else y
    case Frames(gen, f) => if y.on && gen == y.begins then y.(frames := y.frames + [f]) else y
  }

  function FramesOf(span: seq<Shown>): seq<Frame> {
    seq(|span|, i requires 0 <= i < |span| => span[i].frame)
  }

  /** The route, as the hub holds it: live, of the latest session, and marked exactly if an OFF on it
      has succeeded. */
  ghost predicate RouteAgrees(r: Option<Route>, y: History) {
    && r.Some? == y.route.Some?
    && (r.Some? ==> r.value.id == y.route.value && r.value.gen == y.begins && !r.value.closed
                    && r.value.offSent == SwitchedOff(y.log, r.value.id))
  }

  ghost predicate EndingAgrees(e: Option<Option<Route>>, y: Option<Option<nat>>) {
    && e.Some? == y.Some?
    && (e.Some? ==> e.value.Some? == y.value.Some?)
    && (e.Some? && e.value.Some? ==> e.value.value.id == y.value.value && !e.value.value.closed)
  }

  /** The hub's fields, all of them, are determined by the history. */
  ghost predicate Agrees(s: State, y: History) {
    && s.h.gen == y.begins && s.h.active == y.on && s.h.offDesired == y.on
    && s.h.session == y.header && s.h.headerReady == y.header.Some?
    && s.h.routes == y.routes && s.h.log == y.log
    && s.h.powerOff == LastGoodWasOff(y.log)
    && RouteAgrees(s.h.route, y)
    && EndingAgrees(s.ending, y.ending)
    && FramesOf(s.span) == y.frames
  }

  lemma SwitchGrows(log: seq<Sent>, w: Sent, route: nat)
    ensures SwitchedOff(log + [w], route) <==> SwitchedOff(log, route) || w == Sent(route, false, true)
  {
    if SwitchedOff(log, route) {
      var i :| 0 <= i < |log| && log[i] == Sent(route, false, true);
      assert (log + [w])[i] == Sent(route, false, true);
    }
    if w == Sent(route, false, true) {
      assert (log + [w])[|log|] == w;
    }
  }

  /** An OFF through the hub's route, where the history says it is due. */
  lemma OffAgrees(h: HubState, y: History, ok: bool, h': HubState)
    requires h.route.Some? && RouteAgrees(h.route, y) && h.log == y.log && h.powerOff == LastGoodWasOff(y.log)
    requires h.route.value.offSent ==> h.powerOff
    requires h' == OffOnRoute(h, ok).0
    ensures h'.log == y.log + OffDue(y.log, y.route, ok)
    ensures h'.powerOff == LastGoodWasOff(h'.log)
    ensures RouteAgrees(h'.route, y.(log := h'.log))
    ensures h' == h.(route := h'.route, log := h'.log, powerOff := h'.powerOff)
  {
    var w := Sent(h.route.value.id, false, ok);
    LogGrows(y.log, w);
    SwitchGrows(y.log, w, h.route.value.id);
    assert y.log + [] == y.log;
  }

  lemma OnAgrees(h: HubState, r: Option<Route>, log: seq<Sent>, id: Option<nat>, ok: bool, h': HubState)
    requires h.log == log && h.powerOff == LastGoodWasOff(log) && h' == Restore(h, r, ok).0
    requires r.Some? == id.Some? && (r.Some? ==> r.value.id == id.value && !r.value.closed)
    ensures h'.log == log + OnDue(log, id, ok) && h'.powerOff == LastGoodWasOff(h'.log)
    ensures h' == h.(log := h'.log, powerOff := h'.powerOff)
  {
    if r.Some? { LogGrows(log, Sent(r.value.id, true, ok)); }
    assert log + [] == log;
  }

  lemma BeginAgrees(s: State, y: History, ok: bool, s': State)
    requires Agrees(s, y) && s.ending.None? && s' == Next(s, Begins(ok))
    ensures Agrees(s', Adds(y, Begins(ok)))
  {
    OnAgrees(Detach(s.h), s.h.route, y.log, y.route, ok, Restore(Detach(s.h), s.h.route, ok).0);
  }

  lemma HeaderAgrees(s: State, y: History, gen: nat, header: Header, ok: bool, s': State)
    requires PowerOk(s) && Agrees(s, y) && s.ending.None? && s' == Next(s, GetsHeader(gen, header, ok))
    ensures Agrees(s', Adds(y, GetsHeader(gen, header, ok)))
  {
    if s.h.active && gen == s.h.gen {
      if s.h.route.Some? {
        OffAgrees(ClearReplay(s.h).(session := Some(header), headerReady := true), y, ok, s'.h);
      }
      assert y.log + [] == y.log;
    }
  }

  lemma EndAgrees(s: State, y: History, gen: nat, s': State)
    requires Agrees(s, y) && s.ending.None? && s' == Next(s, StartsEnd(gen))
    ensures Agrees(s', Adds(y, StartsEnd(gen)))
  {
  }

  lemma FinishAgrees(s: State, y: History, ok: bool, s': State)
    requires PowerOk(s) && Agrees(s, y) && s.ending.Some? && s' == Next(s, FinishesEnd(ok))
    ensures Agrees(s', Adds(y, FinishesEnd(ok)))
  {
    OnAgrees(s.h, s.ending.value, y.log, y.ending.value, ok, s'.h);
  }

  lemma RegisterAgrees(s: State, y: History, gen: nat, ok: bool, s': State)
    requires PowerOk(s) && Agrees(s, y) && s.ending.None? && s' == Next(s, Registers(gen, ok))
    ensures Agrees(s', Adds(y, Registers(gen, ok)))
  {
    if s.h.active && gen == s.h.gen {
      var h1 := s.h.(route := Some(Route(s.h.routes, gen, false, false)), routes := s.h.routes + 1);
      var y1 := y.(route := Some(y.routes), routes := y.routes + 1);
      assert !SwitchedOff(y.log, y.routes);
      if s.h.headerReady { OffAgrees(h1, y1, ok, s'.h); }
    }
  }

  lemma FrameAgrees(s: State, y: History, gen: nat, f: Frame, s': State)
    requires Agrees(s, y) && s' == Next(s, Frames(gen, f))
    ensures Agrees(s', Adds(y, Frames(gen, f)))
  {
  }

  lemma ClearAgrees(s: State, y: History, id: nat, s': State)
    requires Agrees(s, y) && s' == s.(h := ClearRoute(s.h, id))
    ensures Agrees(s', Adds(y, Clears(id)))
  {
  }

  lemma StepAgrees(s: State, y: History, a: Action, s': State)
    requires PowerOk(s) && Agrees(s, y) && Enabled(s, a) && s' == Next(s, a)
    ensures Agrees(s', Adds(y, a))
  {
    match a
    case Begins(ok) => BeginAgrees(s, y, ok, s');
    case GetsHeader(gen, header, ok) => HeaderAgrees(s, y, gen, header, ok, s');
    case StartsEnd(gen) => EndAgrees(s, y, gen, s');
    case FinishesEnd(ok) => FinishAgrees(s, y, ok, s');
    case Registers(gen, ok) => RegisterAgrees(s, y, gen, ok, s');
    case Clears(id) => ClearAgrees(s, y, id, s');
    case Frames(gen, f) => FrameAgrees(s, y, gen, f, s');
  }

  ghost function Told(y: History, acts: seq<Action>): History
    decreases |acts|
  {
    if acts == [] then y else Told(Adds(y, acts[0]), acts[1..])
  }

  lemma {:induction false} RunAgrees(s: State, y: History, acts: seq<Action>)
    requires PowerOk(s) && Agrees(s, y) && IsRun(s, acts)
    ensures Agrees(After(s, acts), Told(y, acts))
    decreases |acts|
  {
    if acts != [] {
      PowerStep(s, acts[0]);
      StepAgrees(s, y, acts[0], Next(s, acts[0]));
      RunAgrees(Next(s, acts[0]), Adds(y, acts[0]), acts[1..]);
    }
  }

  /** The hub refines its history: after any run its flags, its route, its log and its frames are
      what the history of the same calls says. */
  lemma HubIsItsHistory(acts: seq<Action>)
    requires IsRun(Initial, acts)
    ensures Agrees(After(Initial, acts), Told(Nothing, acts))
  {
    RunAgrees(Initial, Nothing, acts);
  }

  // ---- what is owed has been tried

  ghost predicate OffTried(log: seq<Sent>, route: nat) {
    exists i :: 0 <= i < |log| && log[i].route == route && !log[i].on
  }

  ghost predicate Dutiful(y: History) {
    y.on && y.header.Some? && y.route.Some? ==> OffTried(y.log, y.route.value)
  }

  lemma TriedGrows(log: seq<Sent>, w: seq<Sent>, route: nat)
    requires OffTried(log, route) || (|w| > 0 && w[0].route == route && !w[0].on)
    ensures OffTried(log + w, route)
  {
    if OffTried(log, route) {
      var i :| 0 <= i < |log| && log[i].route == route && !log[i].on;
      assert (log + w)[i] == log[i];
    } else {
      assert (log + w)[|log|] == w[0];
    }
  }

  lemma StepDutiful(y: History, a: Action)
    requires Dutiful(y)
    ensures Dutiful(Adds(y, a))
  {
    match a
    case GetsHeader(gen, header, ok) =>
      if y.on && gen == y.begins && y.route.Some? {
        if SwitchedOff(y.log, y.route.value) {
          var i :| 0 <= i < |y.log| && y.log[i] == Sent(y.route.value, false, true);
          assert y.log[i].route == y.route.value;
        }
        TriedGrows(y.log, OffDue(y.log, y.route, ok), y.route.value);
      }
    case Registers(gen, ok) =>
      if y.on && gen == y.begins && y.header.Some? {
        TriedGrows(y.log, [Sent(y.routes, false, ok)], y.routes);
      }
    case FinishesEnd(ok) =>
      if y.ending.Some? && y.on && y.header.Some? && y.route.Some? {
        TriedGrows(y.log, OnDue(y.log, y.ending.value, ok), y.route.value);
      }
    case _ =>
  }

  lemma {:induction false} ToldDutiful(y: History, acts: seq<Action>)
    requires Dutiful(y)
    ensures Dutiful(Told(y, acts))
    decreases |acts|
  {
    if acts != [] {
      StepDutiful(y, acts[0]);
      ToldDutiful(Adds(y, acts[0]), acts[1..]);
    }
  }

  /** Whenever a session has its header and its route, the display has been told to go off through
      that very route; if any such write has succeeded, the route is marked and the display is known
      to be off. */
  lemma OffIsAttempted(acts: seq<Action>)
    requires IsRun(Initial, acts)
    ensures var h := After(Initial, acts).h;
            h.active && h.headerReady && h.route.Some? ==>
              && (exists i :: 0 <= i < |h.log| && h.log[i].route == h.route.value.id && !h.log[i].on)
              && (forall i :: 0 <= i < |h.log| && h.log[i] == Sent(h.route.value.id, false, true) ==>
                    h.route.value.offSent && h.powerOff)
  {
    HubIsItsHistory(acts);
    ToldDutiful(Nothing, acts);
    RunKeeps(Initial, acts);
    var h, y := After(Initial, acts).h, Told(Nothing, acts);
    if h.active && h.headerReady && h.route.Some? {
      assert OffTried(y.log, h.route.value.id);
    }
  }

  /** A header that is accepted writes OFF on the session's route unless one has succeeded there, and
      a route registered after the header has one written at once; nothing else writes OFF. */
  lemma OffIsWrittenWhenDue(acts: seq<Action>, a: Action)
    requires IsRun(Initial, acts) && Enabled(After(Initial, acts), a)
    ensures var h, h' := After(Initial, acts).h, Next(After(Initial, acts), a).h;
            && (a.GetsHeader? && h.active && a.gen == h.gen ==>
                  h'.session == Some(a.header) && h'.log == h.log + OffDue(h.log, if h.route.Some? then Some(h.route.value.id) else None, a.ok))
            && (a.Registers? && h.active && a.gen == h.gen ==>
                  && h'.route.Some? && h'.route.value.id == h.routes && !SwitchedOff(h.log, h.routes)
                  && h'.log == h.log + (if h.session.Some? then [Sent(h.routes, false, a.ok)] else []))
            && (!a.GetsHeader? && !a.Registers? ==> forall i :: |h.log| <= i < |h'.log| ==> h'.log[i].on)
  {
    var s, y := After(Initial, acts), Told(Nothing, acts);
    HubIsItsHistory(acts);
    RunKeeps(Initial, acts);
    StepAgrees(s, y, a, Next(s, a));
    assert s.h.log + [] == s.h.log;
  }

  /** What the calls answer: headers, frames, ends and routes are taken exactly from the session that
      is on; a registration fails exactly with its write; the end of a session fails exactly if a due
      ON has no route to go through, or fails to be written. */
  lemma AnswersAreTruthful(acts: seq<Action>, gen: nat, header: Header, f: Frame, ok: bool)
    requires IsRun(Initial, acts)
    ensures var s := After(Initial, acts); var own := s.h.active && gen == s.h.gen;
            && SetSession(s.h, gen, header, ok).1 == own
            && Broadcast(s.h, gen, f).1 == own
            && EndBegin(s.h, gen).1 == (if own then Some(s.h.route) else None)
            && Register(s.h, gen, ok).1 == (if own then Some(s.h.routes) else None)
            && Register(s.h, gen, ok).2 == (if own && s.h.session.Some? && !ok then WriteFailed else Ok)
            && (s.ending.Some? ==>
                  Restore(s.h, s.ending.value, ok).1
                  == if !LastGoodWasOff(s.h.log) then Ok
                     else if s.ending.value.None? then NoControlRoute
                     else if ok then Ok else WriteFailed)
  {
    HubIsItsHistory(acts);
  }
}
