/** What the proxied sockets make of the bridge: which of its calls an event is, and
    so what crosses between renderer and server. */
module SocketBridge {
  import opened Texts
  import opened Snapshots
  import opened ExportCursors
  import opened BridgeRelay
  import opened BridgeRuns
  import opened BridgeScript
  import opened SocketProxy
  import opened SocketRuns
  import opened SocketExact

  lemma ReachedFacts(r: Relay)
    requires Reached(r)
    ensures RelayOk(r) && Facts(r, PastNow(r))
  {
    var environment, es :| ReachedBy(r, environment, es);
    Reachable(environment, es);
    RunFacts(environment, es);
  }

  /** The call an event is to the bridge: a frame of the renderer on the live socket
      of its id, a frame of the server on the socket its id maps to, the game, a
      watcher's callback, the end. */
  function CallOf(p: Proxy, e: ProxyEvent): Option<RelayEvent> {
    match e
    case SendAsked(id, m) =>
      if id in p.current && p.current[id] < |p.socks| && p.socks[p.current[id]].state.Live?
      then Some(Out(id, p.current[id], m)) else None
    case SockMessage(s, m) =>
      if m.Framed? && s < |p.socks| && MapsTo(p.current, p.socks[s].id, s)
      then Some(In(p.socks[s].id, s, m.frame)) else None
    case GameTurned(running) => Some(Game(running))
    case Callback(c) => Some(c)
    case BeforeQuit => Some(Quit)
    case _ => None
  }

  lemma SendIsCall(p: Proxy, id: SocketId, m: Message)
    requires p.relay.open == set s: Socket | s < |p.socks| && p.socks[s].state.Live?
    ensures var (e, q) := (SendAsked(id, m), StepProxy(p, SendAsked(id, m)));
            q.relay == if CallOf(p, e).Some? then StepRelay(p.relay, CallOf(p, e).value) else p.relay
  {
  }

  lemma MessageIsCall(p: Proxy, s: Socket, m: Message)
    requires s < |p.socks| ==> (InForce(p, s) <==> Mapped(p, p.socks[s].id) == Some(s))
    ensures var (e, q) := (SockMessage(s, m), StepProxy(p, SockMessage(s, m)));
            q.relay == if CallOf(p, e).Some? then StepRelay(p.relay, CallOf(p, e).value) else p.relay
  {
  }

  lemma CallAnswers(r: Relay, c: RelayEvent)
    requires Reached(r) && Possible(r, c)
    ensures Answers(r, StepRelay(r, c), c)
  {
    ReachedFacts(r);
    StepAnswers(r, c);
  }

  /** What is said on the sockets reaches the bridge, and the bridge does exactly
      what its script says of it; what is said elsewhere leaves the bridge alone. */
  lemma TalkReachesTheBridge(p: Proxy, e: ProxyEvent)
    requires Tidy(p) && Sensible(p, e) && IsTalk(e)
    ensures var q := StepProxy(p, e);
            if CallOf(p, e).None? then q.relay == p.relay else Answers(p.relay, q.relay, CallOf(p, e).value)
  {
    match e {
      case SendAsked(id, m) =>
        OpenIsLive(p);
        SendIsCall(p, id, m);
      case SockMessage(s, m) =>
        if s < |p.socks| { AliveInForce(p, s); }
        MessageIsCall(p, s, m);
      case _ =>
    }
    if CallOf(p, e).Some? { CallAnswers(p.relay, CallOf(p, e).value); }
  }

  lemma OpenIsLive(p: Proxy)
    requires OpenOk(p)
    ensures p.relay.open == set s: Socket | s < |p.socks| && p.socks[s].state.Live?
  {
  }

  lemma {:induction false} FlushKeepsPast(r: Relay, id: SocketId, s: Socket, buffer: seq<Message>)
    ensures r.log <= Flush(r, id, s, buffer).log && PastNow(Flush(r, id, s, buffer)) == PastNow(r)
    decreases buffer
  {
    if buffer != [] { FlushKeepsPast(StepRelay(r, Out(id, s, buffer[0])), id, s, buffer[1..]); }
  }

  /** The greeting of a socket: its owner is let go, it hears the game's status and
      the watch request. */
  function Greeting(r: Relay, s: Socket): seq<Effect> {
    Farewell(PastNow(r).(open := r.open + {s}), r.log, SocketReplaced)
    + [Wire(s, StatusFrame(r.gameRunning)), Wire(s, WatchFrame)]
  }

  lemma GreetedOwns(r: Relay, id: SocketId, s: Socket, token: Option<string>)
    requires Reached(r) && Usable(token) && r.token == token
    ensures var next := StepRelay(r, Up(id, s, token));
            PastNow(next).owner == Some((id, s)) && r.log + Greeting(r, s) <= next.log
  {
    ReachedFacts(r);
    OwnerGreeted(r.(open := r.open + {s}), PastNow(r).(open := r.open + {s}), id, s, token);
    Extends(r.log, Greeting(r, s), StepRelay(r, Up(id, s, token)).log);
  }

  lemma Extends(log: seq<Effect>, first: seq<Effect>, next: seq<Effect>)
    requires log <= next && first <= next[|log|..]
    ensures log + first <= next
  {
    assert next == log + next[|log|..];
  }

  lemma OpeningFlushes(p: Proxy, s: Socket)
    requires s < |p.socks| && p.socks[s].state.Connecting? && InForce(p, s) && !p.quitting
    ensures var (id, greeted) := (p.socks[s].id, StepRelay(p.relay, Up(p.socks[s].id, s, p.token)));
            StepProxy(p, SockOpen(s)).relay == Flush(greeted, id, s, if id in p.buffers then p.buffers[id] else [])
  {
  }

  /** A socket that opens in its place owns the bridge from then on, and its wire
      begins with the game's status and the watch request, ahead of all that was
      held back for it. */
  lemma OpeningOwnsTheBridge(p: Proxy, s: Socket)
    requires Tidy(p) && s < |p.socks| && p.socks[s].state.Connecting? && !p.quitting
    ensures var q := StepProxy(p, SockOpen(s));
            PastNow(q.relay).owner == Some((p.socks[s].id, s)) && p.relay.log + Greeting(p.relay, s) <= q.relay.log
  {
    var id := p.socks[s].id;
    AliveInForce(p, s);
    assert EntryOk(p.token, p.socks, id, s);
    GreetedOwns(p.relay, id, s, p.token);
    OpeningFlushes(p, s);
    FlushKeepsPast(StepRelay(p.relay, Up(id, s, p.token)), id, s, if id in p.buffers then p.buffers[id] else []);
  }

  /** Over every run of the proxy, on the log alone: whatever crosses was entitled
      to, in a run of the bridge's own calls; no frame of the renderer on a wire is
      local evidence, and none asks for another bridge than the local export. */
  lemma ProxyCrossings(environment: Option<string>, es: seq<ProxyEvent>, k: nat)
    requires LegalRun(NewProxy(environment), es)
    requires var log := RunProxy(NewProxy(environment), es).relay.log; k < |log| && IsCrossing(log[k])
    ensures var r := RunProxy(NewProxy(environment), es).relay;
            && (exists env, rs, n: nat :: CrossedIn(r, env, rs, k, n))
            && (r.log[k].Wire? && r.log[k].msg.m.Framed? ==>
                  var f := r.log[k].msg.m.frame;
                  && f.kind != BridgeObserve && f.kind != BridgeLeave
                  && (f.kind == BridgeWatch ==> f.payload == Some(map[Mode := Str("local-export")])))
  {
    CouplingHolds(environment, es);
    var r := RunProxy(NewProxy(environment), es).relay;
    var env, rs :| ReachedBy(r, env, rs);
    CrossingsAreEntitled(env, rs, k);
    var n: nat :| CrossedBy(env, rs, k, n, r.log[k]);
    assert CrossedIn(r, env, rs, k, n);
  }

  ghost predicate CrossedIn(r: Relay, environment: Option<string>, rs: seq<RelayEvent>, k: nat, n: nat) {
    ReachedBy(r, environment, rs) && k < |r.log| && CrossedBy(environment, rs, k, n, r.log[k])
  }
}
