/** Ordered delivery through connect: the bounded buffers refine one unbounded
    record per socket. */
module SocketDelivery {
  import opened Texts
  import opened Snapshots
  import opened ExportCursors
  import opened BridgeRelay
  import opened BridgeRuns
  import opened SocketProxy
  import opened SocketRuns

  /** The renderer's frames a socket has put on the wire, in order. */
  function SentFrames(log: seq<Effect>, s: Socket): seq<Message> {
    if log == [] then [] else
    var before, e := SentFrames(log[..|log| - 1], s), log[|log| - 1];
    if e.Wire? && e.socket == s && e.msg.RendererFrame? then before + [e.msg.m] else before
  }

  // ----- the simple form -----

  /** held: everything let through while the socket was connecting; sent: what
      belongs on its wire. */
  datatype Story = Story(held: seq<Message>, sent: seq<Message>)

  const BLANK: Story := Story([], [])

  function LastOf(ms: seq<Message>, n: nat): seq<Message> {
    if |ms| <= n then ms else ms[|ms| - n..]
  }

  /** Each frame as the bridge lets it out, refused ones left out. */
  function Routed(r: Relay, id: SocketId, s: Socket, ms: seq<Message>): seq<Message> {
    if ms == [] then [] else
    var first := Outgoing(r, id, s, ms[0]);
    (if first.Some? then [first.value] else []) + Routed(r, id, s, ms[1..])
  }

  predicate Accepts(p: Proxy, s: Socket) {
    s < |p.socks| && p.socks[s].state.Connecting? && InForce(p, s) && !p.quitting
  }

  /** What one event adds to a socket's story. */
  function Told(p: Proxy, t: Story, e: ProxyEvent, s: Socket): Story {
    match e
    case SendAsked(id, m) =>
      if Mapped(p, id) != Some(s) || s >= |p.socks| || Outgoing(p.relay, id, s, m).None? then t
      else if p.socks[s].state.Connecting? then t.(held := t.held + [Outgoing(p.relay, id, s, m).value])
      else if p.socks[s].state.Live? then t.(sent := t.sent + [Outgoing(p.relay, id, s, m).value])
      else t
    case SockOpen(o) =>
      if o != s || !Accepts(p, s) then t
      else t.(sent := Routed(StepRelay(p.relay, Up(p.socks[s].id, s, p.token)), p.socks[s].id, s,
                             LastOf(t.held, 64)))
    case _ => t
  }

  function StoryOf(p: Proxy, t: Story, es: seq<ProxyEvent>, s: Socket): Story
    decreases es
  {
    if es == [] then t else StoryOf(StepProxy(p, es[0]), Told(p, t, es[0], s), es[1..], s)
  }

  // ----- which relay steps send renderer frames -----

  lemma PutSends(log: seq<Effect>, e: Effect, s: Socket)
    ensures SentFrames(log + [e], s)
            == SentFrames(log, s) + if e.Wire? && e.socket == s && e.msg.RendererFrame? then [e.msg.m] else []
  {
  }

  lemma SendSends(r: Relay, to: Option<Owner>, m: WireMessage, s: Socket)
    requires !m.RendererFrame?
    ensures SentFrames(Send(r, to, m).log, s) == SentFrames(r.log, s)
  {
    if to.Some? { PutSends(r.log, Wire(to.value.socket, m), s); }
  }

  lemma ClearSends(r: Relay, leave: bool, reason: Reason, s: Socket)
    ensures SentFrames(Clear(r, leave, reason).log, s) == SentFrames(r.log, s)
  {
    var stopped := if r.watcher.Some? then Put(r, Stopped(r.watcher.value)) else r;
    if r.watcher.Some? { PutSends(r.log, Stopped(r.watcher.value), s); }
    if r.owner.Some? {
      SendSends(stopped, r.owner, LeaveFrame(reason), s);
      var left := if leave then Send(stopped, r.owner, LeaveFrame(reason)) else stopped;
      PutSends(left.log, ToldInactive(r.owner.value.id), s);
      ClearSplits(r, leave, reason);
    }
  }

  lemma GameSends(r: Relay, running: bool, s: Socket)
    ensures SentFrames(SetGameRunning(r, running).log, s) == SentFrames(r.log, s)
  {
    var set1 := r.(gameRunning := running);
    var cleared := if !running then Clear(set1, true, GameExit) else set1;
    if !running { ClearSends(set1, true, GameExit, s); }
    SendSends(cleared, cleared.owner, StatusFrame(running), s);
  }

  lemma OpenedSends(r: Relay, id: SocketId, socket: Socket, token: Option<string>, s: Socket)
    ensures SentFrames(Opened(r, id, socket, token).log, s) == SentFrames(r.log, s)
  {
    if Admits(r, token) {
      var cleared := Clear(r, true, SocketReplaced);
      ClearSends(r, true, SocketReplaced, s);
      var owned := cleared.(owner := Some(Owner(id, socket, token.value, cleared.epoch)));
      SendSends(owned, owned.owner, StatusFrame(owned.gameRunning), s);
      var told := Send(owned, owned.owner, StatusFrame(owned.gameRunning));
      SendSends(told, told.owner, WatchFrame, s);
    }
  }

  lemma SnapshotSends(r: Relay, h: Handle, snap: Snapshot, s: Socket)
    ensures SentFrames(OnSnapshot(r, h, snap).log, s) == SentFrames(r.log, s)
  {
    if IsCurrent(r, h) {
      if r.expected.None? || r.expected.value.key != Generation(snap) {
        PutSends(r.log, ToldInactive(h.owner.id), s);
      }
    }
  }

  /** Only a renderer's own frame reaches the wire as a renderer's frame. */
  lemma StepSends(r: Relay, e: RelayEvent, s: Socket)
    requires !e.Out?
    ensures SentFrames(StepRelay(r, e).log, s) == SentFrames(r.log, s)
  {
    match e {
      case Auth(token) => ClearSends(r, true, AccountChange, s);
      case Game(running) => GameSends(r, running, s);
      case Up(id, socket, token) => OpenedSends(r.(open := r.open + {socket}), id, socket, token, s);
      case Gone(id, socket) => ClearSends(r, true, ExplicitInactive, s);
      case Snap(h, snap) => SnapshotSends(r, h, snap, s);
      case Quiet(h, reason) =>
      case In(id, socket, f) => PutSends(r.log, Forwarded(id, socket, f), s);
      case Quit => ClearSends(r, true, AppQuit, s);
      case _ =>
    }
  }

  lemma OutSends(r: Relay, id: SocketId, socket: Socket, m: Message, s: Socket)
    requires socket in r.open
    ensures SentFrames(StepRelay(r, Out(id, socket, m)).log, s)
            == SentFrames(r.log, s) + if socket == s then Routed(r, id, s, [m]) else []
  {
    var routed := Outgoing(r, id, socket, m);
    if routed.Some? { PutSends(r.log, Wire(socket, RendererFrame(routed.value)), s); }
    assert Routed(r, id, socket, [m]) == if routed.Some? then [routed.value] else [] by {
      assert [m][1..] == [];
    }
  }

  /** What passes does not depend on what was sent before. */
  lemma {:induction false} RoutedBlind(r: Relay, log: seq<Effect>, id: SocketId, s: Socket, ms: seq<Message>)
    ensures Routed(r.(log := log), id, s, ms) == Routed(r, id, s, ms)
  {
    if ms != [] { RoutedBlind(r, log, id, s, ms[1..]); }
  }

  lemma {:induction false} FlushSends(r: Relay, id: SocketId, socket: Socket, ms: seq<Message>, s: Socket)
    requires socket in r.open
    ensures SentFrames(Flush(r, id, socket, ms).log, s)
            == SentFrames(r.log, s) + if socket == s then Routed(r, id, s, ms) else []
    decreases ms
  {
    if ms != [] {
      var next := StepRelay(r, Out(id, socket, ms[0]));
      OutSends(r, id, socket, ms[0], s);
      FlushSends(next, id, socket, ms[1..], s);
      RoutedBlind(r, next.log, id, s, ms[1..]);
      assert next == r.(log := next.log);
      assert [ms[0]][1..] == [];
    }
  }

  // ----- refinement -----

  /** The buffer of a connecting socket is the end of what was held for it. */
  predicate BufferIs(p: Proxy, t: Story, s: Socket) {
    s < |p.socks| && p.socks[s].state.Connecting? ==>
      && t.sent == []
      && (Mapped(p, p.socks[s].id) == Some(s) ==>
            p.socks[s].id in p.buffers && p.buffers[p.socks[s].id] == LastOf(t.held, 64))
  }

  predicate Delivers(p: Proxy, t: Story, s: Socket) {
    && SentFrames(p.relay.log, s) == t.sent
    && BufferIs(p, t, s)
    && (s >= |p.socks| ==> t == BLANK)
  }

  lemma ReleaseDelivers(p: Proxy, id: SocketId, t: Story, s: Socket)
    requires Delivers(p, t, s)
    ensures Delivers(Release(p, id), t, s)
  {
    if id in p.current {
      StepSends(p.relay, Gone(id, p.current[id]), s);
      StepSends(StepRelay(p.relay, Gone(id, p.current[id])), Down({p.current[id]}), s);
    }
  }

  lemma OpenDelivers(p: Proxy, id: SocketId, t: Story, s: Socket)
    requires Delivers(p, t, s)
    ensures Delivers(OpenSocket(p, id), t, s)
  {
    ReleaseDelivers(p, id, t, s);
  }

  lemma {:induction false} OpenAllDelivers(p: Proxy, ids: seq<SocketId>, t: Story, s: Socket)
    requires Delivers(p, t, s)
    ensures Delivers(OpenAll(p, ids), t, s)
    decreases ids
  {
    if ids != [] {
      OpenDelivers(p, ids[0], t, s);
      OpenAllDelivers(OpenSocket(p, ids[0]), ids[1..], t, s);
    }
  }

  lemma ShutDelivers(p: Proxy, which: set<Socket>, t: Story, s: Socket)
    requires Delivers(p, t, s)
    ensures Delivers(CloseSocks(p, which), t, s)
  {
    StepSends(p.relay, Down(which), s);
  }

  lemma SetTokenDelivers(p: Proxy, token: Option<string>, t: Story, s: Socket)
    requires Delivers(p, t, s)
    ensures Delivers(SetToken(p, token), t, s)
  {
    if p.token != token {
      StepSends(p.relay, Auth(token), s);
      StepSends(StepRelay(p.relay, Auth(token)), Down(p.current.Values), s);
    }
  }

  lemma UnlinkDelivers(p: Proxy, t: Story, s: Socket)
    requires Delivers(p, t, s)
    ensures Delivers(Unlink(p), t, s)
  {
    SetTokenDelivers(p, None, t, s);
    var q := SetToken(p, None);
    ShutDelivers(q.(pending := [], told := q.told + Refusals(q.pending)), q.current.Values, t, s);
  }

  /** A frame sent on a live socket. */
  lemma LiveDelivers(p: Proxy, id: SocketId, m: Message, t: Story, s: Socket)
    requires Delivers(p, t, s) && ProxyOk(p) && id in p.current
    requires EntryOk(p.token, p.socks, id, p.current[id]) && p.socks[p.current[id]].state.Live?
    ensures Delivers(AskSend(p, id, m), Told(p, t, SendAsked(id, m), s), s)
  {
    OutSends(p.relay, id, p.current[id], m, s);
    assert [m][1..] == [];
  }

  /** A frame held back while its socket connects. */
  lemma HoldDelivers(p: Proxy, id: SocketId, m: Message, t: Story, s: Socket)
    requires Delivers(p, t, s) && id in p.current
    requires EntryOk(p.token, p.socks, id, p.current[id]) && p.socks[p.current[id]].state.Connecting?
    requires s < |p.socks| && Mapped(p, p.socks[s].id) == Some(s) ==> EntryOk(p.token, p.socks, p.socks[s].id, s)
    ensures Delivers(AskSend(p, id, m), Told(p, t, SendAsked(id, m), s), s)
  {
    var routed := Outgoing(p.relay, id, p.current[id], m);
  }

  lemma SendDelivers(p: Proxy, id: SocketId, m: Message, t: Story, s: Socket)
    requires Delivers(p, t, s) && ProxyOk(p)
    ensures Delivers(AskSend(p, id, m), Told(p, t, SendAsked(id, m), s), s)
  {
    if id in p.current {
      var o := p.current[id];
      assert EntryOk(p.token, p.socks, id, o);
      if p.socks[o].state.Live? {
        LiveDelivers(p, id, m, t, s);
      } else if p.socks[o].state.Connecting? {
        HoldDelivers(p, id, m, t, s);
      }
    }
  }

  lemma AcceptSends(p: Proxy, o: Socket, s: Socket)
    requires ProxyOk(p) && Accepts(p, o)
    ensures var id := p.socks[o].id;
            && id in p.buffers
            && SentFrames(Connected(p, o).relay.log, s)
               == SentFrames(p.relay.log, s)
                  + if o == s then Routed(StepRelay(p.relay, Up(id, o, p.token)), id, s, p.buffers[id]) else []
  {
    var id := p.socks[o].id;
    var greeted := StepRelay(p.relay, Up(id, o, p.token));
    StepSends(p.relay, Up(id, o, p.token), s);
    UpStep(p.relay, id, o, p.token);
    FlushSends(greeted, id, o, p.buffers[id], s);
  }

  lemma RefuseDelivers(p: Proxy, o: Socket, t: Story, s: Socket)
    requires Delivers(p, t, s) && o < |p.socks| && p.socks[o].state.Connecting?
    ensures Delivers(CloseSocks(p.(socks := p.socks[o := p.socks[o].(state := Live)]), {o}), t, s)
  {
    ShutDelivers(p.(socks := p.socks[o := p.socks[o].(state := Live)]), {o}, t, s);
  }

  lemma ConnectDelivers(p: Proxy, o: Socket, t: Story, s: Socket)
    requires Delivers(p, t, s) && ProxyOk(p)
    ensures Delivers(Connected(p, o), Told(p, t, SockOpen(o), s), s)
  {
    if o < |p.socks| && p.socks[o].state.Connecting? {
      if Accepts(p, o) { AcceptSends(p, o, s); } else { RefuseDelivers(p, o, t, s); }
    }
  }

  lemma DropDelivers(p: Proxy, o: Socket, t: Story, s: Socket)
    requires Delivers(p, t, s)
    ensures Delivers(Dropped(p, o), t, s)
  {
    if o < |p.socks| {
      StepSends(p.relay, Down({o}), s);
      StepSends(StepRelay(p.relay, Down({o})), Gone(p.socks[o].id, o), s);
    }
  }

  lemma LoginDelivers(p: Proxy, token: string, t: Story, s: Socket)
    requires Delivers(p, t, s)
    ensures Delivers(Login(p, token), t, s)
  {
    SetTokenDelivers(p, Some(token), t, s);
    var q := SetToken(p, Some(token));
    OpenAllDelivers(q.(pending := []), q.pending, t, s);
  }

  /** An event that touches the relay alone. */
  lemma RelayDelivers(p: Proxy, e: RelayEvent, t: Story, s: Socket)
    requires Delivers(p, t, s) && !e.Out?
    ensures Delivers(p.(relay := StepRelay(p.relay, e)), t, s)
  {
    StepSends(p.relay, e, s);
  }

  lemma MessageDelivers(p: Proxy, o: Socket, m: Message, t: Story, s: Socket)
    requires Delivers(p, t, s)
    ensures Delivers(Received(p, o, m), t, s)
  {
    if m.Framed? && o < |p.socks| { RelayDelivers(p, In(p.socks[o].id, o, m.frame), t, s); }
  }

  lemma AskDelivers(p: Proxy, e: ProxyEvent, t: Story, s: Socket)
    requires Delivers(p, t, s) && ProxyOk(p)
    requires e.LoggedIn? || e.Unlinked? || e.OpenAsked? || e.SendAsked? || e.CloseAsked?
    ensures Delivers(StepProxy(p, e), Told(p, t, e, s), s)
  {
    match e {
      case LoggedIn(token) => LoginDelivers(p, token, t, s);
      case Unlinked => UnlinkDelivers(p, t, s);
      case OpenAsked(id) => if Usable(p.token) { OpenDelivers(p, id, t, s); }
      case SendAsked(id, m) => SendDelivers(p, id, m, t, s);
      case CloseAsked(id) => ReleaseDelivers(p, id, t, s);
    }
  }

  lemma StepDelivers(p: Proxy, e: ProxyEvent, t: Story, s: Socket)
    requires Delivers(p, t, s) && ProxyOk(p) && Sensible(p, e)
    ensures Delivers(StepProxy(p, e), Told(p, t, e, s), s)
  {
    match e {
      case SockOpen(o) => ConnectDelivers(p, o, t, s);
      case SockMessage(o, m) => MessageDelivers(p, o, m, t, s);
      case SockEnding(o) => ShutDelivers(p, {o}, t, s);
      case SockClose(o) => DropDelivers(p, o, t, s);
      case SockError(o) =>
      case GameTurned(running) => RelayDelivers(p, Game(running), t, s);
      case Callback(c) => RelayDelivers(p, c, t, s);
      case BeforeQuit => RelayDelivers(p, Quit, t, s);
      case WillQuit => ShutDelivers(p, p.current.Values, t, s);
      case _ => AskDelivers(p, e, t, s);
    }
  }

  lemma {:induction false} RunDelivers(p: Proxy, es: seq<ProxyEvent>, t: Story, s: Socket)
    requires Delivers(p, t, s) && ProxyOk(p) && LegalRun(p, es)
    ensures Delivers(RunProxy(p, es), StoryOf(p, t, es, s), s)
    decreases es
  {
    if es != [] {
      StepDelivers(p, es[0], t, s);
      StepProxyOk(p, es[0]);
      RunDelivers(StepProxy(p, es[0]), es[1..], Told(p, t, es[0], s), s);
    }
  }

  /** In every run the renderer's frames on a socket's wire are those among the
      last 64 frames let through while it was connecting that are still let
      through when it opens, in order, followed by all later frames let through,
      in order. */
  lemma DeliveryIsOrdered(environment: Option<string>, es: seq<ProxyEvent>, s: Socket)
    requires LegalRun(NewProxy(environment), es)
    ensures SentFrames(RunProxy(NewProxy(environment), es).relay.log, s)
            == StoryOf(NewProxy(environment), BLANK, es, s).sent
  {
    NewProxyOk(environment);
    RunDelivers(NewProxy(environment), es, BLANK, s);
  }

  /** A frame for a server room is never held back and sent later: opening the
      socket drops the binding it would need. */
  lemma {:induction false} HeldChatNeverLeaves(r: Relay, id: SocketId, s: Socket, token: Option<string>,
                                               ms: seq<Message>, k: nat)
    requires Admits(r, token)
    requires var sent := Routed(StepRelay(r, Up(id, s, token)), id, s, ms); k < |sent|
    ensures var sent := Routed(StepRelay(r, Up(id, s, token)), id, s, ms);
            sent[k].Plain? || !ServerBound(sent[k].frame)
    decreases ms
  {
    var greeted := StepRelay(r, Up(id, s, token));
    assert greeted.binding.None?;
    var first := Outgoing(greeted, id, s, ms[0]);
    if first.None? {
      HeldChatNeverLeaves(r, id, s, token, ms[1..], k);
    } else if k > 0 {
      HeldChatNeverLeaves(r, id, s, token, ms[1..], k - 1);
    }
  }
}
