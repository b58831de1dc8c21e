/** The hub that the session core sees is the hub: forgetting everything but the lifecycle and
    which socket the route writes to commutes with every operation. */
module HubLink {
  import opened Wrappers
  import opened SessionState
  import ScreenHub

  /** `sock` says which socket a route was made for. */
  function Life(h: ScreenHub.HubState, sock: map<nat, nat>): HubLife {
    HubLife(h.active, h.gen,
            if h.route.Some? && h.route.value.id in sock then Some(sock[h.route.value.id]) else None)
  }

  lemma BeginAgrees(h: ScreenHub.HubState, sock: map<nat, nat>, ok: bool)
    ensures Life(ScreenHub.Begin(h, ok), sock) == BeginScreen(Life(h, sock))
  {
  }

  /** Both halves of EndScreenSession together are the session core's EndScreen. */
  lemma EndAgrees(h: ScreenHub.HubState, sock: map<nat, nat>, gen: nat, ok: bool)
    ensures var (h', r) := ScreenHub.EndBegin(h, gen);
            && Life(h', sock) == EndScreen(Life(h, sock), gen)
            && (r.Some? ==> Life(ScreenHub.Restore(h', r.value, ok).0, sock) == EndScreen(Life(h, sock), gen))
  {
  }

  lemma RegisterAgrees(sh: Shared, h: ScreenHub.HubState, sock: map<nat, nat>, t: Token, s: nat, ok: bool)
    requires sh.hub == Life(h, sock)
    ensures var (h', id, _) := ScreenHub.Register(h, t.hubGen, ok);
            var (sh', registered) := ReconnectRegister(sh, t, s);
            && registered == id.Some?
            && (if registered then sh'.hub == Life(h', sock[h.routes := s]) else h' == h && sh' == sh)
  {
  }

  /** Headers and frames leave the lifecycle alone. */
  lemma ShowingAgrees(h: ScreenHub.HubState, sock: map<nat, nat>, gen: nat, header: ScreenHub.Header, f: ScreenHub.Frame, ok: bool)
    ensures Life(ScreenHub.SetSession(h, gen, header, ok).0, sock) == Life(h, sock)
    ensures Life(ScreenHub.Broadcast(h, gen, f).0, sock) == Life(h, sock)
  {
  }
}
