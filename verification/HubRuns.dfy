/** What the hub promises over every run: any interleaving of its operations, any outcome of any
    write, stale generations calling in. */
module HubRuns {
  import opened Wrappers
  import opened ScreenHub

  /** A frame or header accepted by the hub, with the generation it came under. */
  datatype Shown = Shown(gen: nat, frame: Frame)

  /** The hub; the route an EndScreenSession in progress has yet to restore (it holds displayMu
      meanwhile); and the history: the frames accepted since the latest header or session begin. */
  datatype State = State(h: HubState, ending: Option<Option<Route>>, span: seq<Shown>)

  const Initial := State(NewHub, None, [])

  datatype Action =
    | Begins(ok: bool)
    | GetsHeader(gen: nat, header: Header, ok: bool)
    | StartsEnd(gen: nat)
    | FinishesEnd(ok: bool)
    | Registers(gen: nat, ok: bool)
    | Clears(id: nat)
    | Frames(gen: nat, frame: Frame)

  /** displayMu shuts out all but the frames while an end is in progress. */
  predicate Enabled(s: State, a: Action) {
    match a
    case FinishesEnd(_) => s.ending.Some?
    case Frames(_, _) => true
    case _ => s.ending.None?
  }

  function Next(s: State, a: Action): State
    requires Enabled(s, a)
  {
    match a
    case Begins(ok) => s.(h := Begin(s.h, ok), span := [])
    case GetsHeader(gen, header, ok) =>
      var (h, accepted) := SetSession(s.h, gen, header, ok);
      s.(h := h, span := if accepted then [] else s.span)
    case StartsEnd(gen) =>
      var (h, r) := EndBegin(s.h, gen);
      State(h, r, if r.Some? then [] else s.span)
    case FinishesEnd(ok) => s.(h := Restore(s.h, s.ending.value, ok).0, ending := None)
    case Registers(gen, ok) => s.(h := Register(s.h, gen, ok).0)
    case Clears(id) => s.(h := ClearRoute(s.h, id))
    case Frames(gen, f) =>
      var (h, accepted) := Broadcast(s.h, gen, f);
      s.(h := h, span := if accepted then s.span + [Shown(gen, f)] else s.span)
  }

  ghost predicate IsRun(s: State, acts: seq<Action>)
    decreases |acts|
  {
    acts == [] || (Enabled(s, acts[0]) && IsRun(Next(s, acts[0]), acts[1..]))
  }

  ghost function After(s: State, acts: seq<Action>): State
    requires IsRun(s, acts)
    decreases |acts|
  {
    if acts == [] then s else After(Next(s, acts[0]), acts[1..])
  }

  // ---- what the log and the frames say

  /** The last successful automatic power write was an OFF. */
  function LastGoodWasOff(log: seq<Sent>): bool {
    if log == [] then false
    else if log[|log| - 1].ok then !log[|log| - 1].on
    else LastGoodWasOff(log[..|log| - 1])
  }

  predicate GoodOff(w: Sent) {
    !w.on && w.ok
  }

  /** Bit 0 of a frame's first byte marks a config, bit 1 a key frame; a lone byte is neither. */
  predicate MarkedConfig(f: Frame) {
    |f| >= 2 && f[0] % 2 == 1
  }

  predicate MarkedKey(f: Frame) {
    |f| >= 2 && f[0] / 2 % 2 == 1
  }

  function Configs(span: seq<Shown>): seq<Frame> {
    if span == [] then []
    else Configs(span[..|span| - 1]) + (if MarkedConfig(span[|span| - 1].frame) then [span[|span| - 1].frame] else [])
  }

  function LatestKey(span: seq<Shown>): Option<Frame> {
    if span == [] then None
    else if MarkedKey(span[|span| - 1].frame) && |span[|span| - 1].frame| <= 2097152 then Some(span[|span| - 1].frame)
    else LatestKey(span[..|span| - 1])
  }

  // ---- the invariant

  ghost predicate NoGoodOff(log: seq<Sent>, route: nat) {
    forall i :: 0 <= i < |log| && GoodOff(log[i]) ==> log[i].route != route
  }

  /** No route carries two successful OFFs. */
  ghost predicate OnceEach(log: seq<Sent>) {
    forall i, j :: 0 <= i < j < |log| && GoodOff(log[i]) && GoodOff(log[j]) ==> log[i].route != log[j].route
  }

  ghost predicate LogOk(log: seq<Sent>, off: bool, routes: nat) {
    && off == LastGoodWasOff(log)
    && (forall i :: 0 <= i < |log| ==> log[i].route < routes)
    && OnceEach(log)
  }

  /** A route that has sent OFF still owes an ON, and one that has not is not in the log. */
  ghost predicate RouteOk(r: Route, log: seq<Sent>, off: bool, routes: nat) {
    && !r.closed && r.id < routes
    && (if r.offSent then off else NoGoodOff(log, r.id))
  }

  ghost predicate PowerOk(s: State) {
    && LogOk(s.h.log, s.h.powerOff, s.h.routes)
    && s.h.offDesired == s.h.active
    && (s.h.headerReady ==> s.h.active)
    && (s.h.route.Some? ==> s.h.active && s.h.route.value.gen == s.h.gen
                            && RouteOk(s.h.route.value, s.h.log, s.h.powerOff, s.h.routes))
    && (s.ending.Some? ==> !s.h.active)
    && (s.ending.Some? && s.ending.value.Some? ==> !s.ending.value.value.closed && s.ending.value.value.id < s.h.routes)
  }

  ghost predicate ReplayOk(s: State) {
    && s.h.configs == Last(Configs(s.span), MAX_REPLAY_CONFIG_FRAMES)
    && s.h.keyFrame == LatestKey(s.span)
    && (forall i :: 0 <= i < |s.span| ==> s.span[i].gen == s.h.gen)
    && (!s.h.active ==> s.span == [] && s.h.session == None)
    && (s.h.session.Some? <==> s.h.headerReady)
  }

  ghost predicate Inv(s: State) {
    PowerOk(s) && ReplayOk(s)
  }

  lemma LogGrows(log: seq<Sent>, w: Sent)
    ensures LastGoodWasOff(log + [w]) == if w.ok then !w.on else LastGoodWasOff(log)
  {
    assert (log + [w])[..|log|] == log;
  }

  lemma RestorePower(s: State, h: HubState, r: Option<Route>, ok: bool)
    requires LogOk(s.h.log, s.h.powerOff, s.h.routes) && (r.Some? ==> r.value.id < s.h.routes)
    requires h == Restore(s.h, r, ok).0
    ensures LogOk(h.log, h.powerOff, h.routes)
    ensures s.h.log <= h.log && forall i :: |s.h.log| <= i < |h.log| ==> h.log[i].on && r.Some? && h.log[i].route == r.value.id
  {
    if r.Some? { LogGrows(s.h.log, Sent(r.value.id, true, ok)); }
  }

  /** An OFF on a route keeps the log and the route in order. */
  lemma OffKeeps(r: Route, log: seq<Sent>, off: bool, routes: nat, ok: bool, r': Route, log': seq<Sent>, off': bool)
    requires LogOk(log, off, routes) && RouteOk(r, log, off, routes)
    requires (r', log') == (SendOff(r, log, ok).0, SendOff(r, log, ok).1) && off' == (off || SendOff(r, log, ok).2 == Ok)
    ensures LogOk(log', off', routes) && RouteOk(r', log', off', routes) && r'.gen == r.gen
  {
    LogGrows(log, Sent(r.id, false, ok));
  }

  lemma OffOnRouteKeeps(h0: HubState, ok: bool, h: HubState)
    requires h0.route.Some? && LogOk(h0.log, h0.powerOff, h0.routes) && RouteOk(h0.route.value, h0.log, h0.powerOff, h0.routes)
    requires h == OffOnRoute(h0, ok).0
    ensures LogOk(h.log, h.powerOff, h.routes) && h.route.Some? && RouteOk(h.route.value, h.log, h.powerOff, h.routes)
    ensures h == h0.(route := h.route, log := h.log, powerOff := h.powerOff) && h.route.value.gen == h0.route.value.gen
  {
    OffKeeps(h0.route.value, h0.log, h0.powerOff, h0.routes, ok, h.route.value, h.log, h.powerOff);
  }

  lemma BeginPower(s: State, s': State, ok: bool)
    requires PowerOk(s) && s.ending.None? && s' == s.(h := Begin(s.h, ok), span := [])
    ensures PowerOk(s')
  {
    var s1 := s.(h := Detach(s.h));
    RestorePower(s1, Restore(s1.h, s.h.route, ok).0, s.h.route, ok);
  }

  lemma HeaderPower(s: State, s': State, gen: nat, header: Header, ok: bool)
    requires PowerOk(s) && s.ending.None? && s'.h == SetSession(s.h, gen, header, ok).0 && s'.ending == s.ending
    ensures PowerOk(s')
  {
    if Current(s.h, gen) && s.h.route.Some? {
      OffOnRouteKeeps(ClearReplay(s.h).(session := Some(header), headerReady := true), ok, s'.h);
    }
  }

  /** A route that is new has sent nothing. */
  lemma NewRoute(log: seq<Sent>, off: bool, routes: nat, gen: nat)
    requires LogOk(log, off, routes)
    ensures LogOk(log, off, routes + 1) && RouteOk(Route(routes, gen, false, false), log, off, routes + 1)
  {
  }

  lemma RegisterPower(s: State, s': State, gen: nat, ok: bool)
    requires PowerOk(s) && s.ending.None? && s'.h == Register(s.h, gen, ok).0 && s'.ending == s.ending
    ensures PowerOk(s')
  {
    if Current(s.h, gen) {
      NewRoute(s.h.log, s.h.powerOff, s.h.routes, gen);
      var h1 := s.h.(route := Some(Route(s.h.routes, gen, false, false)), routes := s.h.routes + 1);
      if h1.headerReady { OffOnRouteKeeps(h1, ok, s'.h); }
    }
  }

  lemma FinishPower(s: State, s': State, ok: bool)
    requires PowerOk(s) && s.ending.Some? && s'.h == Restore(s.h, s.ending.value, ok).0 && s'.ending == None
    ensures PowerOk(s')
  {
    RestorePower(s, s'.h, s.ending.value, ok);
  }

  lemma PowerStep(s: State, a: Action)
    requires PowerOk(s) && Enabled(s, a)
    ensures PowerOk(Next(s, a))
  {
    var s' := Next(s, a);
    match a
    case Begins(ok) => BeginPower(s, s', ok);
    case GetsHeader(gen, header, ok) => HeaderPower(s, s', gen, header, ok);
    case StartsEnd(gen) =>
    case FinishesEnd(ok) => FinishPower(s, s', ok);
    case Registers(gen, ok) => RegisterPower(s, s', gen, ok);
    case Clears(_) =>
    case Frames(_, _) =>
  }

  /** Cutting to the last `n` as frames come is cutting at the end. */
  lemma LastOfLast<T>(s: seq<T>, x: T, n: nat)
    requires n > 0
    ensures Last(Last(s, n) + [x], n) == Last(s + [x], n)
  {
  }

  lemma Bits(b: bv8)
    ensures b & 1 != 0 <==> b % 2 == 1
    ensures b & 2 != 0 <==> b / 2 % 2 == 1
  {
  }

  lemma Marks(f: Frame)
    ensures IsConfig(f) <==> MarkedConfig(f)
    ensures IsKey(f) <==> MarkedKey(f) && |f| <= 2097152
  {
    if |f| > 1 { Bits(f[0]); }
  }

  lemma SpanGrows(span: seq<Shown>, x: Shown)
    ensures Configs(span + [x]) == if IsConfig(x.frame) then Configs(span) + [x.frame] else Configs(span)
    ensures LatestKey(span + [x]) == if IsKey(x.frame) then Some(x.frame) else LatestKey(span)
  {
    Marks(x.frame);
    assert (span + [x])[..|span|] == span;
    assert Configs(span) + [] == Configs(span);
  }

  lemma FrameReplay(s: State, s': State, gen: nat, f: Frame)
    requires ReplayOk(s) && s' == Next(s, Frames(gen, f))
    ensures ReplayOk(s')
  {
    if Current(s.h, gen) {
      LastOfLast(Configs(s.span), f, MAX_REPLAY_CONFIG_FRAMES);
      SpanGrows(s.span, Shown(gen, f));
    }
  }

  lemma FreshReplay(s: State)
    requires s.span == [] && s.h.configs == [] && s.h.keyFrame == None
    requires (s.h.session.Some? <==> s.h.headerReady) && (!s.h.active ==> s.h.session == None)
    ensures ReplayOk(s)
  {
  }

  lemma SameReplay(s: State, s': State)
    requires ReplayOk(s) && s'.span == s.span && s'.h.configs == s.h.configs && s'.h.keyFrame == s.h.keyFrame
    requires s'.h.gen == s.h.gen && s'.h.session == s.h.session && s'.h.active == s.h.active && s'.h.headerReady == s.h.headerReady
    ensures ReplayOk(s')
  {
  }

  lemma OtherReplay(s: State, s': State, a: Action)
    requires ReplayOk(s) && Enabled(s, a) && !a.Frames? && s' == Next(s, a) && (s.h.headerReady ==> s.h.active)
    ensures ReplayOk(s')
  {
    match a
    case Begins(_) => FreshReplay(s');
    case GetsHeader(gen, _, _) => if Current(s.h, gen) { FreshReplay(s'); } else { SameReplay(s, s'); }
    case StartsEnd(gen) => if Current(s.h, gen) { FreshReplay(s'); } else { SameReplay(s, s'); }
    case _ => SameReplay(s, s');
  }

  lemma ReplayStep(s: State, a: Action)
    requires ReplayOk(s) && Enabled(s, a) && (s.h.headerReady ==> s.h.active)
    ensures ReplayOk(Next(s, a))
  {
    if a.Frames? {
      FrameReplay(s, Next(s, a), a.gen, a.frame);
    } else {
      OtherReplay(s, Next(s, a), a);
    }
  }

  lemma {:induction false} RunKeeps(s: State, acts: seq<Action>)
    requires Inv(s) && IsRun(s, acts)
    ensures Inv(After(s, acts))
    decreases |acts|
  {
    if acts != [] {
      PowerStep(s, acts[0]);
      ReplayStep(s, acts[0]);
      RunKeeps(Next(s, acts[0]), acts[1..]);
    }
  }

  // ---- the theorems

  /** However writes fail, `displayPowerOff` says whether the last successful automatic write was
      OFF; and no route ever carries two successful OFFs. */
  lemma PowerFlagIsTheLog(acts: seq<Action>)
    requires IsRun(Initial, acts)
    ensures var h := After(Initial, acts).h;
            && h.powerOff == LastGoodWasOff(h.log)
            && forall i, j :: 0 <= i < j < |h.log| && GoodOff(h.log[i]) && GoodOff(h.log[j]) ==> h.log[i].route != h.log[j].route
  {
    RunKeeps(Initial, acts);
  }

  /** The replay cache is the log of frames: the last four configs and the latest key frame within
      the limit, of those accepted since the latest header or session begin, all of the active
      generation; nothing when no session is active. */
  lemma ReplayCacheIsTheSpan(acts: seq<Action>)
    requires IsRun(Initial, acts)
    ensures var s := After(Initial, acts);
            && s.h.configs == (var all := Configs(s.span); if |all| <= 4 then all else all[|all| - 4..])
            && s.h.keyFrame == LatestKey(s.span)
            && (forall i :: 0 <= i < |s.span| ==> s.span[i].gen == s.h.gen)
            && (!s.h.active ==> s.h.configs == [] && s.h.keyFrame == None && s.h.session == None)
  {
    RunKeeps(Initial, acts);
  }

  /** What OFF writes a log gained were made by the session that is active then, on its route. */
  predicate OffsAreOwn(h: HubState, h': HubState) {
    && h.log <= h'.log
    && forall i :: |h.log| <= i < |h'.log| && !h'.log[i].on ==>
         h'.active && h'.headerReady && h'.route.Some? && h'.route.value.id == h'.log[i].route && h'.route.value.gen == h'.gen
  }

  lemma HeaderOff(h: HubState, gen: nat, header: Header, ok: bool)
    requires h.active && h.route.Some? ==> h.route.value.gen == h.gen
    ensures OffsAreOwn(h, SetSession(h, gen, header, ok).0)
  {
  }

  lemma RegisterOff(h: HubState, gen: nat, ok: bool)
    ensures OffsAreOwn(h, Register(h, gen, ok).0)
  {
  }

  /** An automatic OFF is written only in an active session whose header has arrived, on its own
      current route. */
  lemma OffOnlyInSession(acts: seq<Action>, a: Action)
    requires IsRun(Initial, acts) && Enabled(After(Initial, acts), a)
    ensures OffsAreOwn(After(Initial, acts).h, Next(After(Initial, acts), a).h)
  {
    RunKeeps(Initial, acts);
    var s := After(Initial, acts);
    match a
    case Begins(ok) =>
      var s1 := s.(h := Detach(s.h));
      RestorePower(s1, Restore(s1.h, s.h.route, ok).0, s.h.route, ok);
    case FinishesEnd(ok) => RestorePower(s, Next(s, a).h, s.ending.value, ok);
    case GetsHeader(gen, header, ok) => HeaderOff(s.h, gen, header, ok);
    case Registers(gen, ok) => RegisterOff(s.h, gen, ok);
    case _ =>
  }

  /** Each path that ends a session while the display is off attempts ON through the route that was
      active, which is still open, before that route is given up; the duty ends only if it succeeds. */
  lemma EndingAttemptsOn(acts: seq<Action>, a: Action, r: Option<Route>)
    requires IsRun(Initial, acts) && Enabled(After(Initial, acts), a)
    requires var s := After(Initial, acts);
             (a.FinishesEnd? && r == s.ending.value) || (a.Begins? && s.h.active && r == s.h.route)
    requires After(Initial, acts).h.powerOff
    ensures var s, s' := After(Initial, acts), Next(After(Initial, acts), a);
            && (r.Some? ==> !r.value.closed && s'.h.log == s.h.log + [Sent(r.value.id, true, a.ok)])
            && (r.None? ==> s'.h.log == s.h.log)
            && (s'.h.powerOff <==> r.None? || !a.ok)
            && s'.h.route == None
  {
    RunKeeps(Initial, acts);
  }

  /** EndScreenSession hands exactly the active route to its second half, and by then no frame and
      no route belongs to the session. */
  lemma EndTakesActiveRoute(s: State, gen: nat)
    requires Inv(s) && s.ending.None?
    ensures var s' := Next(s, StartsEnd(gen));
            if Current(s.h, gen) then s'.ending == Some(s.h.route) && !s'.h.active && s'.h.route == None && s'.span == [] && s'.h.log == s.h.log
            else s' == s
  {
  }

  /** No new log entry in `w` is a successful ON. */
  predicate NoGoodOn(w: seq<Sent>) {
    forall i :: 0 <= i < |w| ==> !(w[i].on && w[i].ok)
  }

  lemma {:induction false} OffUntilOn(log: seq<Sent>, w: seq<Sent>)
    requires LastGoodWasOff(log) && NoGoodOn(w)
    ensures LastGoodWasOff(log + w)
    decreases |w|
  {
    if w == [] {
      assert log + w == log;
    } else {
      var n := |w| - 1;
      assert log + w == (log + w[..n]) + [w[n]];
      OffUntilOn(log, w[..n]);
      LogGrows(log + w[..n], w[n]);
    }
  }

  lemma LogOnlyGrows(s: State, acts: seq<Action>)
    requires IsRun(s, acts)
    ensures s.h.log <= After(s, acts).h.log
    decreases |acts|
  {
    if acts != [] {
      LogOnlyGrows(Next(s, acts[0]), acts[1..]);
    }
  }

  /** The duty to turn the display on again survives everything - replaced routes, later sessions,
      failed writes - until an ON write succeeds. */
  lemma DutySurvives(acts: seq<Action>, more: seq<Action>)
    requires IsRun(Initial, acts) && After(Initial, acts).h.powerOff
    requires IsRun(After(Initial, acts), more)
    ensures var s, s' := After(Initial, acts), After(After(Initial, acts), more);
            && s.h.log <= s'.h.log
            && (NoGoodOn(s'.h.log[|s.h.log|..]) ==> s'.h.powerOff)
  {
    RunKeeps(Initial, acts);
    var s := After(Initial, acts);
    RunKeeps(s, more);
    LogOnlyGrows(s, more);
    var s' := After(s, more);
    assert s'.h.log == s.h.log + s'.h.log[|s.h.log|..];
    if NoGoodOn(s'.h.log[|s.h.log|..]) {
      OffUntilOn(s.h.log, s'.h.log[|s.h.log|..]);
    }
  }

  /** A caller with an old generation changes nothing. */
  lemma StaleCallsAreIgnored(s: State, a: Action)
    requires Enabled(s, a)
    requires match a
             case GetsHeader(gen, _, _) => !Current(s.h, gen)
             case StartsEnd(gen) => !Current(s.h, gen)
             case Registers(gen, _) => !Current(s.h, gen)
             case Frames(gen, _) => !Current(s.h, gen)
             case _ => false
    ensures Next(s, a).h == s.h && Next(s, a).span == s.span
  {
  }
}
