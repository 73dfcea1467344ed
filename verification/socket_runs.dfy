/** What the proxied sockets keep over every run of handlers and events. */
module SocketRuns {
  import opened Texts
  import opened Snapshots
  import opened ExportCursors
  import opened BridgeRelay
  import opened BridgeRuns
  import opened SocketProxy

  // ----- the relay behind the proxy -----

  /** The relay is in a state its own methods and callbacks lead to. */
  ghost predicate Reached(r: Relay) {
    exists environment, es :: ReachedBy(r, environment, es)
  }

  ghost predicate ReachedBy(r: Relay, environment: Option<string>, es: seq<RelayEvent>) {
    BridgeRuns.Legal(NewRelay(environment), es) && r == RunRelay(NewRelay(environment), es)
  }

  lemma {:induction false} RelayAppend(r: Relay, es: seq<RelayEvent>, e: RelayEvent)
    requires BridgeRuns.Legal(r, es) && Possible(RunRelay(r, es), e)
    ensures BridgeRuns.Legal(r, es + [e]) && RunRelay(r, es + [e]) == StepRelay(RunRelay(r, es), e)
    decreases es
  {
    if es == [] {
      assert es + [e] == [e] && [e][1..] == [];
      assert RunRelay(StepRelay(r, e), []) == StepRelay(r, e);
    } else {
      RelayAppend(StepRelay(r, es[0]), es[1..], e);
      assert (es + [e])[0] == es[0] && (es + [e])[1..] == es[1..] + [e];
    }
  }

  lemma ReachedStep(r: Relay, e: RelayEvent)
    requires Reached(r) && Possible(r, e)
    ensures Reached(StepRelay(r, e))
  {
    var environment, es :| ReachedBy(r, environment, es);
    RelayAppend(NewRelay(environment), es, e);
    assert ReachedBy(StepRelay(r, e), environment, es + [e]);
  }

  // ----- the coupling invariant -----

  /** Every mapped socket carries its id and the current token, and has not ended. */
  predicate MappedOk(token: Option<string>, socks: seq<Sock>, current: map<SocketId, Socket>) {
    forall id :: id in current ==> EntryOk(token, socks, id, current[id])
  }

  predicate EntryOk(token: Option<string>, socks: seq<Sock>, id: SocketId, s: Socket) {
    s < |socks| && socks[s].id == id && socks[s].token == token && Usable(token) && !socks[s].state.Ended?
  }

  /** Buffers belong to mapped sockets, hold at most 64 frames, and every
      connecting mapped socket has one. */
  predicate BuffersOk(socks: seq<Sock>, current: map<SocketId, Socket>, buffers: map<SocketId, seq<Message>>) {
    && (forall id :: id in buffers ==> id in current && |buffers[id]| <= SEND_BUF_MAX)
    && (forall id :: id in current && current[id] < |socks| && socks[current[id]].state.Connecting? ==> id in buffers)
  }

  /** Opens wait only while there is no token. */
  predicate PendingOk(p: Proxy) {
    && |p.pending| <= OPEN_QUEUE_MAX
    && (p.token.Some? ==> Usable(p.token) && p.pending == [])
  }

  /** The bridge has the session's token, and its owner is a mapped socket that
      has opened. Quitting takes both away. */
  predicate BridgeOk(p: Proxy) {
    && (if p.quitting then p.relay.owner.None? else p.relay.token == p.token)
    && (p.relay.owner.Some? ==>
          && OwnerMapped(p.relay.owner.value, p.socks, p.current))
  }

  predicate OwnerMapped(o: Owner, socks: seq<Sock>, current: map<SocketId, Socket>) {
    && o.id in current && current[o.id] == o.socket
    && o.socket < |socks| && !socks[o.socket].state.Connecting?
  }

  /** The relay sees as open exactly the live sockets it was told of. */
  predicate OpenOk(p: Proxy) {
    && (forall s :: s in p.relay.open ==> s < |p.socks| && p.socks[s].state.Live?)
    && (forall s: Socket :: s < |p.socks| && p.socks[s].state.Live? ==> s in p.relay.open)
  }

  /** A socket's close is told at most once, and only after it left the map. */
  ghost predicate ToldOk(made: nat, current: map<SocketId, Socket>, told: multiset<Notice>) {
    forall id: SocketId, s: Socket :: CloseToldOk(made, current, told, id, s)
  }

  predicate CloseToldOk(made: nat, current: map<SocketId, Socket>, told: multiset<Notice>, id: SocketId, s: Socket) {
    && told[ClosedTo(id, Some(s))] <= 1
    && (told[ClosedTo(id, Some(s))] > 0 ==> s < made && !(id in current && current[id] == s))
  }

  /** All but the queue of waiting opens. */
  ghost predicate CoreOk(p: Proxy) {
    && Reached(p.relay)
    && MappedOk(p.token, p.socks, p.current) && BuffersOk(p.socks, p.current, p.buffers)
    && BridgeOk(p) && OpenOk(p) && ToldOk(|p.socks|, p.current, p.told)
  }

  ghost predicate ProxyOk(p: Proxy) {
    CoreOk(p) && PendingOk(p)
  }

  // ----- what the relay's steps do to its token, owner and open sockets -----

  predicate Untouched(r: Relay, next: Relay) {
    next.token == r.token && next.owner == r.owner && next.open == r.open
  }

  lemma QuietSteps(r: Relay, e: RelayEvent)
    requires e.Game? || e.Snap? || e.Quiet? || e.Out? || e.In?
    ensures Untouched(r, StepRelay(r, e))
  {
  }

  lemma AuthStep(r: Relay, token: Option<string>)
    ensures var next := StepRelay(r, Auth(token));
            && next.open == r.open && next.token == token
            && next.owner == (if r.token == token then r.owner else None)
  {
  }

  lemma UpStep(r: Relay, id: SocketId, s: Socket, token: Option<string>)
    ensures var next := StepRelay(r, Up(id, s, token));
            && next.open == r.open + {s} && next.token == r.token
            && (if Admits(r, token) then next.owner.Some? && next.owner.value.id == id && next.owner.value.socket == s
                else next.owner == r.owner)
  {
    ClearBare(r.(open := r.open + {s}), true, SocketReplaced);
  }

  lemma GoneStep(r: Relay, id: SocketId, s: Socket)
    ensures var next := StepRelay(r, Gone(id, s));
            && next.open == r.open && next.token == r.token
            && next.owner == (if OwnedBy(r, id, s) then None else r.owner)
  {
    ClearBare(r, true, ExplicitInactive);
  }

  lemma QuitStep(r: Relay)
    ensures var next := StepRelay(r, Quit);
            next.open == r.open && next.token.None? && next.owner.None?
  {
    ClearBare(r, true, AppQuit);
  }

  // ----- every handler keeps it -----

  lemma ShutOk(p: Proxy, which: set<Socket>)
    requires CoreOk(p)
    ensures CoreOk(CloseSocks(p, which))
  {
    ReachedStep(p.relay, Down(which));
  }

  lemma RelayStepOk(p: Proxy, e: RelayEvent)
    requires CoreOk(p) && Possible(p.relay, e) && Untouched(p.relay, StepRelay(p.relay, e))
    ensures CoreOk(p.(relay := StepRelay(p.relay, e)))
  {
    ReachedStep(p.relay, e);
  }

  lemma ReleaseOk(p: Proxy, id: SocketId)
    requires CoreOk(p)
    ensures var q := Release(p, id);
            && CoreOk(q) && (q.relay.owner.Some? ==> q.relay.owner.value.id != id)
            && q == p.(relay := q.relay, socks := q.socks) && |q.socks| == |p.socks|
  {
    if id in p.current {
      var s := p.current[id];
      GoneStep(p.relay, id, s);
      ReachedStep(p.relay, Gone(id, s));
      ShutOk(p.(relay := StepRelay(p.relay, Gone(id, s))), {s});
    }
  }

  lemma OpenSocketOk(p: Proxy, id: SocketId)
    requires CoreOk(p) && Usable(p.token)
    ensures var next := OpenSocket(p, id);
            CoreOk(next) && next.token == p.token && next.pending == p.pending
  {
    ReleaseOk(p, id);
    NewSocketOk(Release(p, id), id);
  }

  lemma NewSocketOk(p: Proxy, id: SocketId)
    requires CoreOk(p) && Usable(p.token) && (p.relay.owner.Some? ==> p.relay.owner.value.id != id)
    ensures CoreOk(p.(socks := p.socks + [Sock(id, p.token, Connecting)],
                      current := p.current[id := |p.socks|],
                      buffers := p.buffers[id := []]))
  {
    var next := p.(socks := p.socks + [Sock(id, p.token, Connecting)],
                   current := p.current[id := |p.socks|],
                   buffers := p.buffers[id := []]);
    forall i: SocketId, s: Socket ensures CloseToldOk(|next.socks|, next.current, next.told, i, s) {
      assert CloseToldOk(|p.socks|, p.current, p.told, i, s);
    }
  }

  lemma {:induction false} OpenAllOk(p: Proxy, ids: seq<SocketId>)
    requires CoreOk(p) && Usable(p.token)
    ensures var next := OpenAll(p, ids);
            CoreOk(next) && next.token == p.token && next.pending == p.pending
    decreases ids
  {
    if ids != [] {
      OpenSocketOk(p, ids[0]);
      OpenAllOk(OpenSocket(p, ids[0]), ids[1..]);
    }
  }

  /** Unmapping every socket, each with its one close notice. */
  lemma EmptyToldOk(made: nat, current: map<SocketId, Socket>, told: multiset<Notice>)
    requires ToldOk(made, current, told) && forall id :: id in current ==> current[id] < made
    ensures ToldOk(made, map[], told + multiset(Closings(current)))
  {
    forall id: SocketId, s: Socket ensures CloseToldOk(made, map[], told + multiset(Closings(current)), id, s) {
      assert CloseToldOk(made, current, told, id, s);
      assert ClosedTo(id, Some(s)) in Closings(current) <==> id in current && current[id] == s;
    }
  }

  lemma SetTokenOk(p: Proxy, token: Option<string>)
    requires CoreOk(p)
    ensures var next := SetToken(p, token);
            && CoreOk(next) && next.token == token && next.pending == p.pending && next.quitting == p.quitting
  {
    if p.token != token {
      AuthStep(p.relay, token);
      ReachedStep(p.relay, Auth(token));
      ReachedStep(StepRelay(p.relay, Auth(token)), Down(p.current.Values));
      EmptyToldOk(|p.socks|, p.current, p.told);
    }
  }

  lemma LoginOk(p: Proxy, token: string)
    requires ProxyOk(p) && token != ""
    ensures ProxyOk(Login(p, token))
  {
    SetTokenOk(p, Some(token));
    var q := SetToken(p, Some(token));
    OpenAllOk(q.(pending := []), q.pending);
  }

  lemma {:induction false} RefusalsNameNoSocket(ids: seq<SocketId>, id: SocketId, s: Socket)
    ensures Refusals(ids)[ClosedTo(id, Some(s))] == 0
  {
    if ids != [] { RefusalsNameNoSocket(ids[1..], id, s); }
  }

  lemma NoTokenNoSockets(socks: seq<Sock>, current: map<SocketId, Socket>)
    requires MappedOk(None, socks, current)
    ensures current == map[]
  {
    assert forall id :: id in current ==> EntryOk(None, socks, id, current[id]);
  }

  lemma UnlinkOk(p: Proxy)
    requires ProxyOk(p)
    ensures ProxyOk(Unlink(p))
  {
    SetTokenOk(p, None);
    var q := SetToken(p, None);
    NoTokenNoSockets(q.socks, q.current);
    assert q.buffers == map[];
    var told := q.told + Refusals(q.pending);
    forall id: SocketId, s: Socket ensures CloseToldOk(|q.socks|, q.current, told, id, s) {
      RefusalsNameNoSocket(q.pending, id, s);
      assert CloseToldOk(|q.socks|, q.current, q.told, id, s);
    }
    ShutOk(q.(pending := [], told := told), q.current.Values);
  }

  lemma TellOk(p: Proxy, n: Notice)
    requires CoreOk(p) && !(n.ClosedTo? && n.which.Some?)
    ensures CoreOk(Tell(p, n))
  {
    forall id: SocketId, s: Socket ensures CloseToldOk(|p.socks|, p.current, Tell(p, n).told, id, s) {
      assert CloseToldOk(|p.socks|, p.current, p.told, id, s);
    }
  }

  lemma AskOpenOk(p: Proxy, id: SocketId)
    requires ProxyOk(p)
    ensures ProxyOk(AskOpen(p, id))
  {
    if Usable(p.token) {
      OpenSocketOk(p, id);
    } else if |p.pending| >= OPEN_QUEUE_MAX {
      TellOk(p, ClosedTo(p.pending[0], None));
    }
  }

  lemma AskSendOk(p: Proxy, id: SocketId, m: Message)
    requires ProxyOk(p)
    ensures ProxyOk(AskSend(p, id, m))
  {
    if id in p.current && p.current[id] < |p.socks| && p.socks[p.current[id]].state.Live? {
      QuietSteps(p.relay, Out(id, p.current[id], m));
      RelayStepOk(p, Out(id, p.current[id], m));
    }
  }

  lemma {:induction false} WithoutFirstShorter(ids: seq<SocketId>, id: SocketId)
    ensures |WithoutFirst(ids, id)| <= |ids|
  {
    if ids != [] && ids[0] != id { WithoutFirstShorter(ids[1..], id); }
  }

  /** A socket leaves the map; its close may be told or not. */
  lemma UnmapOk(p: Proxy, id: SocketId)
    requires CoreOk(p) && (p.relay.owner.Some? ==> p.relay.owner.value.id != id)
    ensures CoreOk(p.(current := p.current - {id}, buffers := p.buffers - {id}))
  {
    forall i: SocketId, s: Socket ensures CloseToldOk(|p.socks|, p.current - {id}, p.told, i, s) {
      assert CloseToldOk(|p.socks|, p.current, p.told, i, s);
    }
  }

  lemma AskCloseOk(p: Proxy, id: SocketId)
    requires ProxyOk(p)
    ensures ProxyOk(AskClose(p, id))
  {
    ReleaseOk(p, id);
    UnmapOk(Release(p, id), id);
    WithoutFirstShorter(p.pending, id);
  }

  lemma {:induction false} FlushOk(r: Relay, id: SocketId, s: Socket, buffer: seq<Message>)
    requires Reached(r)
    ensures Reached(Flush(r, id, s, buffer)) && Untouched(r, Flush(r, id, s, buffer))
    decreases buffer
  {
    if buffer != [] {
      ReachedStep(r, Out(id, s, buffer[0]));
      FlushOk(StepRelay(r, Out(id, s, buffer[0])), id, s, buffer[1..]);
    }
  }

  lemma ConnectedOk(p: Proxy, s: Socket)
    requires ProxyOk(p)
    ensures ProxyOk(Connected(p, s))
  {
    if s < |p.socks| && p.socks[s].state.Connecting? {
      if !InForce(p, s) || p.quitting { RefusedOk(p, s); } else { GreetedOk(p, s); }
    }
  }

  lemma RefusedOk(p: Proxy, s: Socket)
    requires CoreOk(p) && s < |p.socks| && p.socks[s].state.Connecting?
    ensures CoreOk(CloseSocks(p.(socks := p.socks[s := p.socks[s].(state := Live)]), {s}))
  {
    ReachedStep(p.relay, Down({s}));
  }

  /** The mapped socket is live and its buffer gone; the relay did the rest. */
  lemma LiveOk(p: Proxy, s: Socket, relay: Relay)
    requires CoreOk(p) && s < |p.socks| && p.socks[s].state.Connecting? && InForce(p, s) && !p.quitting
    requires Reached(relay) && relay.open == p.relay.open + {s} && relay.token == p.relay.token
    requires relay.owner.Some? ==> relay.owner == p.relay.owner
                                   || (relay.owner.value.id == p.socks[s].id && relay.owner.value.socket == s)
    ensures CoreOk(p.(socks := p.socks[s := p.socks[s].(state := Live)], relay := relay,
                      buffers := p.buffers - {p.socks[s].id}))
  {
    var socks, buffers := p.socks[s := p.socks[s].(state := Live)], p.buffers - {p.socks[s].id};
    assert MappedOk(p.token, socks, p.current);
    assert BuffersOk(socks, p.current, buffers);
  }

  lemma GreetedOk(p: Proxy, s: Socket)
    requires CoreOk(p) && s < |p.socks| && p.socks[s].state.Connecting? && InForce(p, s) && !p.quitting
    ensures CoreOk(Connected(p, s))
  {
    var id := p.socks[s].id;
    var greeted := StepRelay(p.relay, Up(id, s, p.token));
    var buffer := if id in p.buffers then p.buffers[id] else [];
    UpStep(p.relay, id, s, p.token);
    ReachedStep(p.relay, Up(id, s, p.token));
    FlushOk(greeted, id, s, buffer);
    var q := p.(socks := p.socks[s := p.socks[s].(state := Live)], relay := Flush(greeted, id, s, buffer),
                buffers := p.buffers - {id});
    LiveOk(p, s, Flush(greeted, id, s, buffer));
    TellOk(q, OpenedTo(id, s));
  }

  lemma ReceivedOk(p: Proxy, s: Socket, m: Message)
    requires ProxyOk(p)
    ensures ProxyOk(Received(p, s, m))
  {
    if InForce(p, s) {
      match m {
        case Plain(text) => TellOk(p, TextTo(p.socks[s].id, s, text));
        case Framed(f) =>
          QuietSteps(p.relay, In(p.socks[s].id, s, f));
          RelayStepOk(p, In(p.socks[s].id, s, f));
      }
    }
  }

  lemma GoneOk(p: Proxy, id: SocketId, s: Socket)
    requires CoreOk(p)
    ensures var next := p.(relay := StepRelay(p.relay, Gone(id, s)));
            CoreOk(next) && (Mapped(p, id) == Some(s) && next.relay.owner.Some? ==> next.relay.owner.value.id != id)
  {
    GoneStep(p.relay, id, s);
    ReachedStep(p.relay, Gone(id, s));
  }

  lemma EndedOk(p: Proxy, s: Socket)
    requires CoreOk(p) && s < |p.socks| && Mapped(p, p.socks[s].id) != Some(s) && p.socks[s].state.Closing?
    ensures CoreOk(p.(socks := p.socks[s := p.socks[s].(state := Ended)]))
  {
  }

  lemma TellCloseOk(p: Proxy, id: SocketId, s: Socket)
    requires CoreOk(p) && s < |p.socks| && Mapped(p, id) != Some(s) && p.told[ClosedTo(id, Some(s))] == 0
    ensures CoreOk(Tell(p, ClosedTo(id, Some(s))))
  {
    forall i: SocketId, t: Socket
      ensures CloseToldOk(|p.socks|, p.current, Tell(p, ClosedTo(id, Some(s))).told, i, t)
    {
      assert CloseToldOk(|p.socks|, p.current, p.told, i, t);
    }
  }

  lemma DroppedOk(p: Proxy, s: Socket)
    requires ProxyOk(p)
    ensures ProxyOk(Dropped(p, s))
  {
    if s < |p.socks| && !p.socks[s].state.Ended? {
      var id := p.socks[s].id;
      var closing := CloseSocks(p, {s});
      ShutOk(p, {s});
      GoneOk(closing, id, s);
      var gone := closing.(relay := StepRelay(closing.relay, Gone(id, s)));
      if Mapped(p, id) == Some(s) {
        assert CloseToldOk(|p.socks|, p.current, p.told, id, s);
        UnmapOk(gone, id);
        var free := gone.(current := gone.current - {id}, buffers := gone.buffers - {id});
        DroppedIs(p, s, free);
        EndedOk(free, s);
        TellCloseOk(free.(socks := free.socks[s := free.socks[s].(state := Ended)]), id, s);
      } else {
        DroppedIs(p, s, gone);
        EndedOk(gone, s);
      }
    }
  }

  /** The end of a socket is its closing, taken to the end. */
  lemma DroppedIs(p: Proxy, s: Socket, q: Proxy)
    requires s < |p.socks| && !p.socks[s].state.Ended?
    requires var (id, closing) := (p.socks[s].id, CloseSocks(p, {s}));
             q == closing.(relay := StepRelay(closing.relay, Gone(id, s)),
                           current := if Mapped(p, id) == Some(s) then p.current - {id} else p.current,
                           buffers := if Mapped(p, id) == Some(s) then p.buffers - {id} else p.buffers)
    ensures var (id, ended) := (p.socks[s].id, q.(socks := q.socks[s := q.socks[s].(state := Ended)]));
            && q.socks[s].state.Closing? && q.socks[s].id == id
            && Dropped(p, s) == if Mapped(p, id) == Some(s) then Tell(ended, ClosedTo(id, Some(s))) else ended
  {
    assert q.socks[s := q.socks[s].(state := Ended)] == p.socks[s := p.socks[s].(state := Ended)];
  }

  lemma QuitOk(p: Proxy)
    requires ProxyOk(p)
    ensures ProxyOk(StepProxy(p, BeforeQuit))
  {
    QuitStep(p.relay);
    ReachedStep(p.relay, Quit);
  }

  /** The events that come from the account and from the renderer. */
  predicate IsAsk(e: ProxyEvent) {
    e.LoggedIn? || e.Unlinked? || e.OpenAsked? || e.SendAsked? || e.CloseAsked?
  }

  lemma AskOk(p: Proxy, e: ProxyEvent)
    requires ProxyOk(p) && Sensible(p, e) && IsAsk(e)
    ensures ProxyOk(StepProxy(p, e))
  {
    match e {
      case LoggedIn(token) => LoginOk(p, token);
      case Unlinked => UnlinkOk(p);
      case OpenAsked(id) => AskOpenOk(p, id);
      case SendAsked(id, m) => AskSendOk(p, id, m);
      case CloseAsked(id) => AskCloseOk(p, id);
    }
  }

  lemma RelayEventOk(p: Proxy, e: RelayEvent)
    requires ProxyOk(p) && (e.Game? || e.Snap? || e.Quiet?) && Possible(p.relay, e)
    ensures ProxyOk(p.(relay := StepRelay(p.relay, e)))
  {
    QuietSteps(p.relay, e);
    RelayStepOk(p, e);
  }

  lemma StepProxyOk(p: Proxy, e: ProxyEvent)
    requires ProxyOk(p) && Sensible(p, e)
    ensures ProxyOk(StepProxy(p, e))
  {
    match e {
      case SockOpen(s) => ConnectedOk(p, s);
      case SockMessage(s, m) => ReceivedOk(p, s, m);
      case SockEnding(s) => ShutOk(p, {s});
      case SockClose(s) => DroppedOk(p, s);
      case SockError(s) => if InForce(p, s) { TellOk(p, FailedTo(p.socks[s].id, s)); }
      case GameTurned(running) => RelayEventOk(p, Game(running));
      case Callback(c) => RelayEventOk(p, c);
      case BeforeQuit => QuitOk(p);
      case WillQuit => ShutOk(p, p.current.Values);
      case _ => AskOk(p, e);
    }
  }

  lemma {:induction false} RunProxyOk(p: Proxy, es: seq<ProxyEvent>)
    requires ProxyOk(p) && LegalRun(p, es)
    ensures ProxyOk(RunProxy(p, es))
    decreases es
  {
    if es != [] {
      StepProxyOk(p, es[0]);
      RunProxyOk(StepProxy(p, es[0]), es[1..]);
    }
  }

  lemma NewProxyOk(environment: Option<string>)
    ensures ProxyOk(NewProxy(environment))
  {
    assert ReachedBy(NewRelay(environment), environment, []);
  }

  // ----- what every run guarantees -----

  /** The coupling of proxy and bridge, over all interleavings of handlers, socket
      events, logins and watcher callbacks: every mapped socket was made for the
      current token, which is the bridge's own; the bridge's owner is a mapped
      socket; buffers and queues stay within their limits; a close is told at
      most once; and the bridge is in a state of its own runs. */
  lemma CouplingHolds(environment: Option<string>, es: seq<ProxyEvent>)
    requires LegalRun(NewProxy(environment), es)
    ensures var p := RunProxy(NewProxy(environment), es);
            && MappedOk(p.token, p.socks, p.current) && BuffersOk(p.socks, p.current, p.buffers)
            && PendingOk(p) && BridgeOk(p) && OpenOk(p) && ToldOk(|p.socks|, p.current, p.told)
            && Reached(p.relay)
  {
    NewProxyOk(environment);
    RunProxyOk(NewProxy(environment), es);
  }

  /** Each socket's close is told to the renderer at most once, in any run. */
  lemma CloseToldOnce(environment: Option<string>, es: seq<ProxyEvent>, id: SocketId, s: Socket)
    requires LegalRun(NewProxy(environment), es)
    ensures RunProxy(NewProxy(environment), es).told[ClosedTo(id, Some(s))] <= 1
  {
    CouplingHolds(environment, es);
    var p := RunProxy(NewProxy(environment), es);
    assert CloseToldOk(|p.socks|, p.current, p.told, id, s);
  }

  /** A chat frame for a server room gets through the proxy only on the mapped
      socket of the current session, under a binding the server acknowledged on
      that very socket, with nothing revoked since. */
  lemma {:induction false} RoomChatIsThisSession(environment: Option<string>, es: seq<ProxyEvent>, p: Proxy,
                                                 id: SocketId, f: Frame)
    requires LegalRun(NewProxy(environment), es) && p == RunProxy(NewProxy(environment), es)
    requires ServerBound(f) && id in p.current && Outgoing(p.relay, id, p.current[id], Framed(f)).Some?
    ensures !p.quitting && Usable(p.token) && p.relay.token == p.token
    ensures p.current[id] < |p.socks| && p.socks[p.current[id]].token == p.token
    ensures !p.socks[p.current[id]].state.Connecting?
    ensures NamedBinding(f).Some? && Acknowledged(p.relay.log, id, p.current[id], NamedBinding(f).value)
  {
    CouplingHolds(environment, es);
    var env, rs :| ReachedBy(p.relay, env, rs);
    ChatPassesIffAcknowledged(env, rs, id, p.current[id], f);
    assert EntryOk(p.token, p.socks, id, p.current[id]);
  }

  /** The token checks in the socket's own handlers never decide anything: a
      mapped socket always carries the current token. */
  lemma MappedIsInForce(environment: Option<string>, es: seq<ProxyEvent>, s: Socket)
    requires LegalRun(NewProxy(environment), es)
    ensures var p := RunProxy(NewProxy(environment), es);
            InForce(p, s) <==> s < |p.socks| && Mapped(p, p.socks[s].id) == Some(s)
  {
    CouplingHolds(environment, es);
    var p := RunProxy(NewProxy(environment), es);
    if s < |p.socks| && Mapped(p, p.socks[s].id) == Some(s) {
      assert EntryOk(p.token, p.socks, p.socks[s].id, s);
    }
  }
}
