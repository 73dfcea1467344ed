/** The main process between the renderer's sockets and the server: one proxied
    socket per renderer id, frames held back while a socket connects, opens held
    back while there is no session token. */
module SocketProxy {
  import opened Texts
  import opened Snapshots
  import opened ExportCursors
  import opened BridgeRelay
  import opened BridgeRuns

  const SEND_BUF_MAX: nat := 64
  const OPEN_QUEUE_MAX: nat := 8

  datatype SockState = Connecting | Live | Closing | Ended

  /** A server socket: the renderer id and the session token it was made for. */
  datatype Sock = Sock(id: SocketId, token: Option<string>, state: SockState)

  /** What the renderer is told beside the relay's own frames. */
  datatype Notice =
    | OpenedTo(id: SocketId, socket: Socket)
    | ClosedTo(id: SocketId, which: Option<Socket>)
    | FailedTo(id: SocketId, socket: Socket)
    | TextTo(id: SocketId, socket: Socket, text: string)

  /** socks holds every socket ever made, by its number. */
  datatype Proxy = Proxy(
    token: Option<string>,
    relay: Relay,
    socks: seq<Sock>,
    current: map<SocketId, Socket>,
    buffers: map<SocketId, seq<Message>>,
    pending: seq<SocketId>,
    quitting: bool,
    told: multiset<Notice>)

  function NewProxy(environment: Option<string>): Proxy {
    Proxy(None, NewRelay(environment), [], map[], map[], [], false, multiset{})
  }

  // ----- specification -----

  function Tell(p: Proxy, n: Notice): Proxy {
    p.(told := p.told + multiset{n})
  }

  function ShutOne(k: Sock): Sock {
    if k.state.Connecting? || k.state.Live? then k.(state := Closing) else k
  }

  function Shut(socks: seq<Sock>, which: set<Socket>): seq<Sock> {
    seq(|socks|, s requires 0 <= s < |socks| => if s in which then ShutOne(socks[s]) else socks[s])
  }

  /** socket.close() on each of them. */
  function CloseSocks(p: Proxy, which: set<Socket>): Proxy {
    p.(socks := Shut(p.socks, which), relay := StepRelay(p.relay, Down(which)))
  }

  function Closings(current: map<SocketId, Socket>): set<Notice> {
    set id | id in current :: ClosedTo(id, Some(current[id]))
  }

  function SetToken(p: Proxy, token: Option<string>): Proxy {
    if p.token == token then p else
    CloseSocks(p.(relay := StepRelay(p.relay, Auth(token)), token := token), p.current.Values)
      .(current := map[], buffers := map[], told := p.told + multiset(Closings(p.current)))
  }

  function Mapped(p: Proxy, id: SocketId): Option<Socket> {
    if id in p.current then Some(p.current[id]) else None
  }

  function Release(p: Proxy, id: SocketId): Proxy {
    if id !in p.current then p else
    CloseSocks(p.(relay := StepRelay(p.relay, Gone(id, p.current[id]))), {p.current[id]})
  }

  function OpenSocket(p: Proxy, id: SocketId): Proxy {
    var q := Release(p, id);
    q.(socks := q.socks + [Sock(id, q.token, Connecting)],
       current := q.current[id := |q.socks|],
       buffers := q.buffers[id := []])
  }

  function OpenAll(p: Proxy, ids: seq<SocketId>): Proxy
    decreases ids
  {
    if ids == [] then p else OpenAll(OpenSocket(p, ids[0]), ids[1..])
  }

  /** A new token, then every open that waited for one. */
  function Login(p: Proxy, token: string): Proxy {
    var q := SetToken(p, Some(token));
    OpenAll(q.(pending := []), q.pending)
  }

  function Refusals(ids: seq<SocketId>): multiset<Notice> {
    if ids == [] then multiset{} else multiset{ClosedTo(ids[0], None)} + Refusals(ids[1..])
  }

  function Unlink(p: Proxy): Proxy {
    var q := SetToken(p, None);
    CloseSocks(q.(pending := [], told := q.told + Refusals(q.pending)), q.current.Values)
      .(current := map[], buffers := map[])
  }

  function AskOpen(p: Proxy, id: SocketId): Proxy {
    if Usable(p.token) then OpenSocket(p, id)
    else if |p.pending| >= OPEN_QUEUE_MAX then
      Tell(p, ClosedTo(p.pending[0], None)).(pending := p.pending[1..] + [id])
    else p.(pending := p.pending + [id])
  }

  function Push(buffer: seq<Message>, m: Message): seq<Message> {
    (if |buffer| >= SEND_BUF_MAX then buffer[1..] else buffer) + [m]
  }

  function AskSend(p: Proxy, id: SocketId, m: Message): Proxy {
    if id !in p.current || p.current[id] >= |p.socks| then p else
    var s := p.current[id];
    var routed := Outgoing(p.relay, id, s, m);
    if routed.None? then p
    else match p.socks[s].state
      case Live => p.(relay := StepRelay(p.relay, Out(id, s, m)))
      case Connecting =>
        if id in p.buffers then p.(buffers := p.buffers[id := Push(p.buffers[id], routed.value)]) else p
      case _ => p
  }

  function WithoutFirst(ids: seq<SocketId>, id: SocketId): seq<SocketId> {
    if ids == [] then [] else if ids[0] == id then ids[1..] else [ids[0]] + WithoutFirst(ids[1..], id)
  }

  function AskClose(p: Proxy, id: SocketId): Proxy {
    Release(p, id).(pending := WithoutFirst(p.pending, id), current := p.current - {id}, buffers := p.buffers - {id})
  }

  function Flush(r: Relay, id: SocketId, s: Socket, buffer: seq<Message>): Relay
    decreases buffer
  {
    if buffer == [] then r else Flush(StepRelay(r, Out(id, s, buffer[0])), id, s, buffer[1..])
  }

  /** The socket is the one its id maps to, and was made for this session. */
  predicate InForce(p: Proxy, s: Socket) {
    s < |p.socks| && Mapped(p, p.socks[s].id) == Some(s) && p.socks[s].token == p.token
  }

  function Connected(p: Proxy, s: Socket): Proxy {
    if s >= |p.socks| || !p.socks[s].state.Connecting? then p else
    var id := p.socks[s].id;
    var q := p.(socks := p.socks[s := p.socks[s].(state := Live)]);
    if !InForce(p, s) || p.quitting then CloseSocks(q, {s}) else
    var greeted := StepRelay(q.relay, Up(id, s, p.token));
    var buffer := if id in p.buffers then p.buffers[id] else [];
    Tell(q.(relay := Flush(greeted, id, s, buffer), buffers := q.buffers - {id}), OpenedTo(id, s))
  }

  function Received(p: Proxy, s: Socket, m: Message): Proxy {
    if !InForce(p, s) then p else
    match m
    case Plain(text) => Tell(p, TextTo(p.socks[s].id, s, text))
    case Framed(f) => p.(relay := StepRelay(p.relay, In(p.socks[s].id, s, f)))
  }

  /** The server, or the network, begins to close the socket. */
  function Ending(p: Proxy, s: Socket): Proxy {
    CloseSocks(p, {s})
  }

  function Dropped(p: Proxy, s: Socket): Proxy {
    if s >= |p.socks| || p.socks[s].state.Ended? then p else
    var id := p.socks[s].id;
    var q := p.(socks := p.socks[s := p.socks[s].(state := Ended)],
                relay := StepRelay(StepRelay(p.relay, Down({s})), Gone(id, s)));
    if Mapped(p, id) != Some(s) then q
    else Tell(q.(current := q.current - {id}, buffers := q.buffers - {id}), ClosedTo(id, Some(s)))
  }

  function Failed(p: Proxy, s: Socket): Proxy {
    if InForce(p, s) then Tell(p, FailedTo(p.socks[s].id, s)) else p
  }

  datatype ProxyEvent =
    | LoggedIn(token: string)
    | Unlinked
    | OpenAsked(id: SocketId)
    | SendAsked(id: SocketId, m: Message)
    | CloseAsked(id: SocketId)
    | SockOpen(s: Socket)
    | SockMessage(s: Socket, m: Message)
    | SockEnding(s: Socket)
    | SockClose(s: Socket)
    | SockError(s: Socket)
    | GameTurned(running: bool)
    | Callback(e: RelayEvent)      // a watcher's onSnapshot or onInactive
    | BeforeQuit
    | WillQuit

  function StepProxy(p: Proxy, e: ProxyEvent): Proxy {
    match e
    case LoggedIn(token) => Login(p, token)
    case Unlinked => Unlink(p)
    case OpenAsked(id) => AskOpen(p, id)
    case SendAsked(id, m) => AskSend(p, id, m)
    case CloseAsked(id) => AskClose(p, id)
    case SockOpen(s) => Connected(p, s)
    case SockMessage(s, m) => Received(p, s, m)
    case SockEnding(s) => Ending(p, s)
    case SockClose(s) => Dropped(p, s)
    case SockError(s) => Failed(p, s)
    case GameTurned(running) => p.(relay := StepRelay(p.relay, Game(running)))
    case Callback(c) => p.(relay := StepRelay(p.relay, c))
    case BeforeQuit => p.(quitting := true, relay := StepRelay(p.relay, Quit))
    case WillQuit => CloseSocks(p, p.current.Values)
  }

  function RunProxy(p: Proxy, es: seq<ProxyEvent>): Proxy
    decreases es
  {
    if es == [] then p else RunProxy(StepProxy(p, es[0]), es[1..])
  }

  /** A login always brings a token, and callbacks come from started watchers. */
  predicate Sensible(p: Proxy, e: ProxyEvent) {
    && (e.LoggedIn? ==> e.token != "")
    && (e.Callback? ==> (e.e.Snap? || e.e.Quiet?) && Possible(p.relay, e.e))
  }

  predicate LegalRun(p: Proxy, es: seq<ProxyEvent>)
    decreases es
  {
    es != [] ==> Sensible(p, es[0]) && LegalRun(StepProxy(p, es[0]), es[1..])
  }
}
