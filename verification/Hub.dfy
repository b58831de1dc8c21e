/** The screen lifecycle of the web Hub: display power, control routes and the replay cache
    (allrelay-server/internal/web/hub.go).

    The result of a write to a control route is a parameter: the device may fail any of them. `log`
    records the display-power writes the hub attempts on its own account. */
module ScreenHub {
  import opened Wrappers

  const MAX_REPLAY_FRAME_BYTES := 2 * 1024 * 1024
  const MAX_REPLAY_CONFIG_FRAMES := 4

  type Frame = seq<bv8>

  datatype Header = Header(width: nat, height: nat)

  /** controlRoute; `id` tells routes apart. */
  datatype Route = Route(id: nat, gen: nat, closed: bool, offSent: bool)

  /** One attempted power write: on which route, ON or OFF, and whether it succeeded. */
  datatype Sent = Sent(route: nat, on: bool, ok: bool)

  datatype HubState = HubState(
    gen: nat,
    active: bool,
    headerReady: bool,
    offDesired: bool,
    powerOff: bool,
    route: Option<Route>,
    session: Option<Header>,
    configs: seq<Frame>,
    keyFrame: Option<Frame>,
    routes: nat,
    log: seq<Sent>)

  const NewHub := HubState(0, false, false, false, false, None, None, [], None, 0, [])

  datatype Err = Ok | NoControlRoute | WriteFailed

  // ---- writes on a route

  /** sendDisplayOff: at most one successful OFF per route. */
  function SendOff(r: Route, log: seq<Sent>, ok: bool): (Route, seq<Sent>, Err) {
    if r.closed then (r, log, NoControlRoute)
    else if r.offSent then (r, log, Ok)
    else if ok then (r.(offSent := true), log + [Sent(r.id, false, true)], Ok)
    else (r, log + [Sent(r.id, false, false)], WriteFailed)
  }

  function SendOn(r: Option<Route>, log: seq<Sent>, ok: bool): (seq<Sent>, Err) {
    if r.None? || r.value.closed then (log, NoControlRoute)
    else (log + [Sent(r.value.id, true, ok)], if ok then Ok else WriteFailed)
  }

  // ---- the operations

  function ClearReplay(h: HubState): HubState {
    h.(session := None, configs := [], keyFrame := None)
  }

  /** endScreenSessionLocked. */
  function Detach(h: HubState): HubState {
    h.(active := false, headerReady := false, offDesired := false, route := None)
  }

  /** restoreDisplay through the route that was active when the lifecycle ended. */
  function Restore(h: HubState, r: Option<Route>, ok: bool): (HubState, Err) {
    if !h.powerOff then (h, Ok)
    else
      var (log, err) := SendOn(r, h.log, ok);
      (h.(log := log, powerOff := err != Ok), err)
  }

  /** BeginScreenSession. */
  function Begin(h: HubState, ok: bool): HubState {
    var h1 := if h.active then Restore(Detach(h), h.route, ok).0 else h;
    ClearReplay(h1.(gen := h1.gen + 1, active := true, headerReady := false, offDesired := true, route := None))
  }

  function OffOnRoute(h: HubState, ok: bool): (HubState, Err)
    requires h.route.Some?
  {
    var (r, log, err) := SendOff(h.route.value, h.log, ok);
    (h.(route := Some(r), log := log, powerOff := h.powerOff || err == Ok), err)
  }

  predicate Current(h: HubState, gen: nat) {
    h.active && gen == h.gen
  }

  /** SetScreenSession. */
  function SetSession(h: HubState, gen: nat, header: Header, ok: bool): (HubState, bool) {
    if !Current(h, gen) then (h, false)
    else
      var h1 := ClearReplay(h).(session := Some(header), headerReady := true);
      (if h1.route.Some? && h1.offDesired then OffOnRoute(h1, ok).0 else h1, true)
  }

  /** The first half of EndScreenSession, under controlMu; None when it does nothing. */
  function EndBegin(h: HubState, gen: nat): (HubState, Option<Option<Route>>) {
    if !Current(h, gen) then (h, None) else (ClearReplay(Detach(h)), Some(h.route))
  }

  /** RegisterControlRoute; the previous route is closed. */
  function Register(h: HubState, gen: nat, ok: bool): (HubState, Option<nat>, Err) {
    if !Current(h, gen) then (h, None, Ok)
    else
      var h1 := h.(route := Some(Route(h.routes, gen, false, false)), routes := h.routes + 1);
      if !h1.headerReady || !h1.offDesired then (h1, Some(h.routes), Ok)
      else
        var (h2, err) := OffOnRoute(h1, ok);
        (h2, Some(h.routes), err)
  }

  /** ClearControlRoute. */
  function ClearRoute(h: HubState, id: nat): HubState {
    if h.route.Some? && h.route.value.id == id then h.(route := None) else h
  }

  predicate IsConfig(f: Frame) {
    |f| > 1 && f[0] & 1 != 0
  }

  predicate IsKey(f: Frame) {
    |f| > 1 && f[0] & 2 != 0 && |f| <= MAX_REPLAY_FRAME_BYTES
  }

  /** The last `n` of a sequence, or all of it. */
  function Last<T>(s: seq<T>, n: nat): seq<T> {
    if |s| > n then s[|s| - n..] else s
  }

  /** BroadcastScreenFrame, as far as the replay cache goes. */
  function Broadcast(h: HubState, gen: nat, f: Frame): (HubState, bool) {
    if !Current(h, gen) then (h, false)
    else
      (h.(configs := if IsConfig(f) then Last(h.configs + [f], MAX_REPLAY_CONFIG_FRAMES) else h.configs,
          keyFrame := if IsKey(f) then Some(f) else h.keyFrame), true)
  }

  // ---------------------------------------------------------------------------------------
  // The objects

  class ControlRoute {
    const id: nat
    const generation: nat
    var closed: bool
    var displayOffSent: bool

    constructor (id: nat, generation: nat)
      ensures this.id == id && Value() == Route(id, generation, false, false)
    {
      this.id, this.generation := id, generation;
      closed, displayOffSent := false, false;
    }

    function Value(): Route
      reads this
    {
      Route(id, generation, closed, displayOffSent)
    }

    method Close()
      modifies this
      ensures Value() == old(Value()).(closed := true)
    {
      closed := true;
    }
  }

  class Hub {
    var screenSession: Option<Header>
    var screenConfigFrames: seq<Frame>
    var screenKeyFrame: Option<Frame>
    var screenGeneration: nat
    var screenActive: bool
    var screenHeaderReady: bool
    var displayOffDesired: bool
    var displayPowerOff: bool
    var controlRoute: ControlRoute?
    var routes: nat
    var log: seq<Sent>

    function View(): HubState
      reads this, controlRoute
    {
      HubState(screenGeneration, screenActive, screenHeaderReady, displayOffDesired, displayPowerOff,
               if controlRoute == null then None else Some(controlRoute.Value()),
               screenSession, screenConfigFrames, screenKeyFrame, routes, log)
    }

    constructor ()
      ensures View() == NewHub && controlRoute == null
    {
      screenSession, screenConfigFrames, screenKeyFrame := None, [], None;
      screenGeneration, screenActive, screenHeaderReady := 0, false, false;
      displayOffDesired, displayPowerOff, controlRoute, routes, log := false, false, null, 0, [];
    }

    method SendDisplayOff(ok: bool) returns (err: Err)
      requires controlRoute != null
      modifies this`log, this`displayPowerOff, controlRoute
      ensures (View(), err) == OffOnRoute(old(View()), ok)
    {
      var r := controlRoute;
      if r.closed {
        return NoControlRoute;
      }
      if !r.displayOffSent {
        log := log + [Sent(r.id, false, ok)];
        if !ok {
          return WriteFailed;
        }
        r.displayOffSent := true;
      }
      displayPowerOff := true;
      err := Ok;
    }

    method RestoreDisplay(route: ControlRoute?, ok: bool) returns (err: Err)
      modifies this`log, this`displayPowerOff
      ensures (View(), err) == Restore(old(View()), if route == null then None else Some(route.Value()), ok)
    {
      if !displayPowerOff {
        return Ok;
      }
      if route == null || route.closed {
        return NoControlRoute;
      }
      log := log + [Sent(route.id, true, ok)];
      if !ok {
        return WriteFailed;
      }
      displayPowerOff := false;
      err := Ok;
    }

    method EndLocked() returns (route: ControlRoute?)
      modifies this`screenActive, this`screenHeaderReady, this`displayOffDesired, this`controlRoute
      ensures View() == Detach(old(View())) && route == old(controlRoute)
    {
      screenActive, screenHeaderReady, displayOffDesired := false, false, false;
      route := controlRoute;
      controlRoute := null;
    }

    method ResetReplay(session: Option<Header>)
      modifies this`screenSession, this`screenConfigFrames, this`screenKeyFrame
      ensures View() == ClearReplay(old(View())).(session := session)
    {
      screenSession, screenConfigFrames, screenKeyFrame := session, [], None;
    }

    method BeginScreenSession(ok: bool) returns (generation: nat)
      modifies this, controlRoute
      ensures View() == Begin(old(View()), ok) && generation == screenGeneration
      ensures old(screenActive) && old(controlRoute) != null ==> old(controlRoute).closed
    {
      if screenActive {
        var route := EndLocked();
        var _ := RestoreDisplay(route, ok);
        if route != null {
          route.Close();
        }
      }
      screenGeneration := screenGeneration + 1;
      screenActive, screenHeaderReady, displayOffDesired, controlRoute := true, false, true, null;
      ResetReplay(None);
      generation := screenGeneration;
    }

    method SetScreenSession(generation: nat, width: nat, height: nat, ok: bool) returns (accepted: bool)
      modifies this, controlRoute
      ensures (View(), accepted) == SetSession(old(View()), generation, Header(width, height), ok)
      ensures controlRoute == old(controlRoute)
    {
      if !screenActive || generation != screenGeneration {
        return false;
      }
      ResetReplay(Some(Header(width, height)));
      screenHeaderReady := true;
      if controlRoute != null && displayOffDesired {
        var _ := SendDisplayOff(ok);
      }
      accepted := true;
    }

    /** EndScreenSession up to the release of controlMu. */
    method EndScreenSessionBegin(generation: nat) returns (ended: bool, route: ControlRoute?)
      modifies this
      ensures var (h, r) := EndBegin(old(View()), generation);
              View() == h && ended == r.Some?
              && (ended ==> route == old(controlRoute) && r.value == if route == null then None else Some(route.Value()))
    {
      if !screenActive || generation != screenGeneration {
        return false, null;
      }
      route := EndLocked();
      ResetReplay(None);
      ended := true;
    }

    /** The rest of it, with displayMu still held. */
    method EndScreenSessionFinish(route: ControlRoute?, ok: bool) returns (err: Err)
      requires route == null || route != controlRoute
      modifies this, route
      ensures (View(), err) == Restore(old(View()), if route == null then None else Some(old(route.Value())), ok)
      ensures route != null ==> route.closed
    {
      err := RestoreDisplay(route, ok);
      if route != null {
        route.Close();
      }
    }

    method RegisterControlRoute(generation: nat, ok: bool) returns (route: ControlRoute?, err: Err)
      modifies this, controlRoute
      ensures var (h, id, e) := Register(old(View()), generation, ok);
              View() == h && err == e && (route == null <==> id == None)
              && (route != null ==> route == controlRoute && fresh(route) && Some(route.id) == id)
      ensures route != null && old(controlRoute) != null ==> old(controlRoute).closed
    {
      if !screenActive || generation != screenGeneration {
        return null, Ok;
      }
      if controlRoute != null {
        controlRoute.Close();
      }
      route := new ControlRoute(routes, generation);
      routes := routes + 1;
      controlRoute := route;
      if !screenHeaderReady || !displayOffDesired {
        return route, Ok;
      }
      err := SendDisplayOff(ok);
    }

    method ClearControlRoute(route: ControlRoute)
      requires controlRoute != null && controlRoute.id == route.id ==> controlRoute == route
      modifies this`controlRoute, route
      ensures View() == ClearRoute(old(View()), route.id)
      ensures old(controlRoute) == route ==> route.closed
    {
      if controlRoute == route {
        controlRoute := null;
        route.Close();
      }
    }

    method BroadcastScreenFrame(generation: nat, data: Frame) returns (accepted: bool)
      modifies this`screenConfigFrames, this`screenKeyFrame
      ensures (View(), accepted) == Broadcast(old(View()), generation, data)
    {
      if !screenActive || generation != screenGeneration {
        return false;
      }
      if |data| > 1 {
        var flags := data[0];
        if flags & 1 != 0 {
          screenConfigFrames := screenConfigFrames + [data];
          if |screenConfigFrames| > MAX_REPLAY_CONFIG_FRAMES {
            screenConfigFrames := screenConfigFrames[|screenConfigFrames| - MAX_REPLAY_CONFIG_FRAMES..];
          }
        }
        if flags & 2 != 0 && |data| <= MAX_REPLAY_FRAME_BYTES {
          screenKeyFrame := Some(data);
        }
      }
      accepted := true;
    }
  }
}
