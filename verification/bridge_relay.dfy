/** The one desktop owner of the server-room bridge: it turns published export
    snapshots into room bindings and decides which frames may cross. */
module BridgeRelay {
  import opened Texts
  import opened Snapshots
  import opened ExportCursors

  // ----- frames -----

  type SocketId = nat   // the renderer's id for a proxied socket
  type Socket = nat     // the identity of a socket object

  /** The frame types the relay tells apart; Untyped is a type that is no string. */
  datatype Kind =
    | BridgeObserve | BridgeLeave | BridgeWatch | BridgeState | OtherBridge(name: string)
    | ClientStatus | ChatSend | SendMessage | OtherKind(name: string) | Untyped

  datatype Slot =
    | ChannelId | BridgeBindingId | BindingId | Status | SessionSlot | WorldSlot | SequenceSlot
    | InGame | Mode | OtherSlot(name: string)

  /** A payload value: a string, a number, a boolean, or anything else with its
      truth value and its text. */
  datatype Field = Str(s: string) | Num(r: real) | Flag(b: bool) | Other(truthy: bool, text: string)

  datatype Frame = Frame(kind: Kind, payload: Option<map<Slot, Field>>)

  datatype Message = Plain(text: string) | Framed(frame: Frame)

  function At(f: Frame, slot: Slot): Option<Field> {
    if f.payload.Some? && slot in f.payload.value then Some(f.payload.value[slot]) else None
  }

  predicate Truthy(f: Option<Field>) {
    f.Some? && match f.value
      case Str(s) => s != ""
      case Num(r) => r != 0.0
      case Flag(b) => b
      case Other(truthy, _) => truthy
  }

  predicate ServerName(s: string) { "server:" <= s }
  predicate RoomName(s: string) { "server:r:" <= s }

  /** A chat frame that names a server channel or a binding. */
  predicate ServerBound(f: Frame) {
    && f.kind in {ChatSend, SendMessage}
    && (|| (At(f, ChannelId).Some? && NamesServer(At(f, ChannelId).value))
        || Truthy(At(f, BridgeBindingId)))
  }

  predicate NamesServer(v: Field) {
    match v
    case Str(s) => ServerName(s)
    case Other(truthy, text) => truthy && ServerName(text)
    case _ => false
  }

  predicate IsBridge(k: Kind) {
    k.BridgeObserve? || k.BridgeLeave? || k.BridgeWatch? || k.BridgeState? || k.OtherBridge?
  }

  // ----- state -----

  datatype Owner = Owner(id: SocketId, socket: Socket, token: string, stamp: nat)

  /** What a watcher's callbacks capture. */
  datatype Handle = Handle(owner: Owner, epoch: nat)

  datatype Expected = Expected(key: WorldKey, sessionId: string, worldGeneration: string,
                               firstSequence: nat, latestSequence: nat)

  datatype Binding = Binding(bindingId: string, channelId: string)

  datatype WireMessage =
    | StatusFrame(inGame: bool)
    | WatchFrame
    | ObserveFrame(s: Snapshot)
    | LeaveFrame(reason: Reason)
    | RendererFrame(m: Message)

  /** Everything the relay does to the outside, in order. */
  datatype Effect =
    | Wire(socket: Socket, msg: WireMessage)
    | ToldInactive(id: SocketId)
    | Forwarded(id: SocketId, socket: Socket, frame: Frame)
    | Observed(h: Handle, s: Snapshot)
    | Started(h: Handle)
    | Stopped(h: Handle)

  datatype Relay = Relay(
    environment: Option<string>,
    token: Option<string>,
    gameRunning: bool,
    owner: Option<Owner>,
    watcher: Option<Handle>,
    expected: Option<Expected>,
    binding: Option<Binding>,
    epoch: nat,
    open: set<Socket>,       // the sockets whose readyState is OPEN
    log: seq<Effect>)

  function NewRelay(environment: Option<string>): Relay {
    Relay(environment, None, false, None, None, None, None, 0, {}, [])
  }

  // ----- specification of the methods -----

  function Put(r: Relay, e: Effect): Relay {
    r.(log := r.log + [e])
  }

  function Send(r: Relay, owner: Option<Owner>, m: WireMessage): Relay {
    if owner.Some? && owner.value.socket in r.open then Put(r, Wire(owner.value.socket, m)) else r
  }

  function Clear(r: Relay, leave: bool, reason: Reason): Relay {
    var stopped := if r.watcher.Some? then Put(r, Stopped(r.watcher.value)) else r;
    var bare := stopped.(epoch := r.epoch + 1, watcher := None, expected := None, binding := None);
    if r.owner.None? then bare else
    var left := if leave then Send(bare, r.owner, LeaveFrame(reason)) else bare;
    Put(left, ToldInactive(r.owner.value.id))
  }

  function SetAuth(r: Relay, token: Option<string>): Relay {
    if r.token == token then r
    else Clear(r, true, AccountChange).(owner := None, token := token)
  }

  predicate Usable(token: Option<string>) {
    token.Some? && token.value != ""
  }

  function Start(r: Relay): Relay {
    if r.watcher.Some? || r.environment.None? || !Usable(r.token) || !r.gameRunning || r.owner.None? then r
    else
      var h := Handle(r.owner.value, r.epoch);
      Put(r, Started(h)).(watcher := Some(h))
  }

  function SetGameRunning(r: Relay, running: bool): Relay {
    if r.gameRunning == running then r else
    var set1 := r.(gameRunning := running);
    var cleared := if !running then Clear(set1, true, GameExit) else set1;
    var told := Send(cleared, cleared.owner, StatusFrame(running));
    if running then Start(told) else told
  }

  predicate Admits(r: Relay, token: Option<string>) {
    Usable(token) && token == r.token
  }

  function Opened(r: Relay, id: SocketId, socket: Socket, token: Option<string>): Relay {
    if !Admits(r, token) then r else
    var cleared := Clear(r, true, SocketReplaced);
    var owned := cleared.(owner := Some(Owner(id, socket, token.value, cleared.epoch)));
    var told := Send(owned, owned.owner, StatusFrame(owned.gameRunning));
    Start(Send(told, told.owner, WatchFrame))
  }

  predicate IsCurrent(r: Relay, h: Handle) {
    h.epoch == r.epoch && r.owner == Some(h.owner) && r.token == Some(h.owner.token) && r.gameRunning
  }

  function FirstOf(s: Snapshot): Expected {
    Expected(Generation(s), s.sessionId, s.worldGeneration, s.sequence, s.sequence)
  }

  function OnSnapshot(r: Relay, h: Handle, s: Snapshot): Relay {
    if !IsCurrent(r, h) then r else
    var aimed :=
      if r.expected.None? || r.expected.value.key != Generation(s) then
        Put(r.(binding := None), ToldInactive(h.owner.id)).(expected := Some(FirstOf(s)))
      else r.(expected := Some(r.expected.value.(latestSequence := s.sequence)));
    Send(Put(aimed, Observed(h, s)), Some(h.owner), ObserveFrame(s))
  }

  function OnInactive(r: Relay, h: Handle, reason: Reason): Relay {
    if !IsCurrent(r, h) then r else
    Put(Send(r.(expected := None, binding := None), Some(h.owner), LeaveFrame(reason)), ToldInactive(h.owner.id))
  }

  predicate OwnedBy(r: Relay, id: SocketId, socket: Socket) {
    r.owner.Some? && r.owner.value.id == id && r.owner.value.socket == socket
  }

  function Closed(r: Relay, id: SocketId, socket: Socket): Relay {
    if !OwnedBy(r, id, socket) then r else Clear(r, true, ExplicitInactive).(owner := None)
  }

  function Dispose(r: Relay): Relay {
    Clear(r, true, AppQuit).(owner := None, token := None)
  }

  predicate Owned(r: Relay, id: SocketId, socket: Socket) {
    OwnedBy(r, id, socket) && Some(r.owner.value.token) == r.token
  }

  const WATCH_REQUEST: Frame := Frame(BridgeWatch, Some(map[Mode := Str("local-export")]))

  /** The chat frame names exactly the binding in force. */
  predicate NamesBinding(f: Frame, b: Binding) {
    At(f, ChannelId) == Some(Str(b.channelId)) && At(f, BridgeBindingId) == Some(Str(b.bindingId))
  }

  /** What becomes of a renderer frame on its way out; None drops it. */
  function Outgoing(r: Relay, id: SocketId, socket: Socket, m: Message): Option<Message> {
    if m.Plain? then Some(m) else
    var f := m.frame;
    if f.kind == BridgeObserve || f.kind == BridgeLeave then None
    else if f.kind == BridgeWatch then
      if Owned(r, id, socket) then Some(Framed(WATCH_REQUEST)) else None
    else if f.kind == ClientStatus then
      var kept := if f.payload.Some? then f.payload.value else map[];
      Some(Framed(f.(payload := Some(kept[InGame := Flag(r.gameRunning)]))))
    else if ServerBound(f) && (!Owned(r, id, socket) || !r.gameRunning || r.expected.None?
                               || r.binding.None? || !NamesBinding(f, r.binding.value)) then None
    else Some(m)
  }

  predicate SaysReady(f: Frame) {
    f.kind == BridgeState && At(f, Status) == Some(Str("ready"))
  }

  predicate WholeWithin(v: Option<Field>, low: int, high: int) {
    && v.Some? && v.value.Num? && v.value.r == v.value.r.Floor as real
    && -MAX_SAFE_INTEGER <= v.value.r.Floor <= MAX_SAFE_INTEGER
    && low <= v.value.r.Floor <= high
  }

  /** The ready frame acknowledges a snapshot inside the observed interval. */
  predicate Acknowledges(f: Frame, e: Expected) {
    && At(f, SessionSlot) == Some(Str(e.sessionId))
    && At(f, WorldSlot) == Some(Str(e.worldGeneration))
    && WholeWithin(At(f, SequenceSlot), e.firstSequence, e.latestSequence)
  }

  predicate HasBinding(f: Frame) {
    && At(f, BindingId).Some? && At(f, BindingId).value.Str?
    && At(f, ChannelId).Some? && At(f, ChannelId).value.Str? && RoomName(At(f, ChannelId).value.s)
  }

  function BindingOf(f: Frame): Binding
    requires HasBinding(f)
  {
    Binding(At(f, BindingId).value.s, At(f, ChannelId).value.s)
  }

  predicate NamesFrameBinding(f: Frame, b: Binding) {
    At(f, BindingId) == Some(Str(b.bindingId)) && At(f, ChannelId) == Some(Str(b.channelId))
  }

  /** Whether a server frame may reach the renderer. */
  predicate Passes(r: Relay, id: SocketId, socket: Socket, f: Frame) {
    !IsBridge(f.kind)
    || (Owned(r, id, socket)
        && if f.kind == BridgeState then
             SaysReady(f) ==> r.gameRunning && r.expected.Some? && Acknowledges(f, r.expected.value) && HasBinding(f)
           else
             r.expected.Some? && r.binding.Some? && r.gameRunning && NamesFrameBinding(f, r.binding.value))
  }

  function Incoming(r: Relay, id: SocketId, socket: Socket, f: Frame): Relay {
    if f.kind != BridgeState || !Passes(r, id, socket, f) then r
    else if SaysReady(f) then r.(binding := Some(BindingOf(f)))
    else r.(binding := None)
  }

  /** Incoming, and the main process handing the frame on when it passes. */
  function Deliver(r: Relay, id: SocketId, socket: Socket, f: Frame): Relay {
    if Passes(r, id, socket, f) then Put(Incoming(r, id, socket, f), Forwarded(id, socket, f)) else r
  }

  // ----- the object -----

  class LocalBridgeRelay {
    const environment: Option<string>
    var token: Option<string>
    var gameRunning: bool
    var owner: Option<Owner>
    var watcher: Option<Handle>
    var expected: Option<Expected>
    var binding: Option<Binding>
    var epoch: nat
    var open: set<Socket>
    var log: seq<Effect>

    ghost function View(): Relay
      reads this
    {
      Relay(environment, token, gameRunning, owner, watcher, expected, binding, epoch, open, log)
    }

    constructor (environment: Option<string>)
      ensures View() == NewRelay(environment)
    {
      this.environment := environment;
      token, gameRunning, owner, watcher, expected, binding := None, false, None, None, None, None;
      epoch, open, log := 0, {}, [];
    }

    method SendTo(to: Option<Owner>, m: WireMessage)
      modifies this`log
      ensures View() == Send(old(View()), to, m)
    {
      if to.None? || to.value.socket !in open { return; }
      log := log + [Wire(to.value.socket, m)];
    }

    method Reset(leave: bool, reason: Reason)
      modifies this
      ensures View() == Clear(old(View()), leave, reason)
    {
      epoch := epoch + 1;
      if watcher.Some? { log := log + [Stopped(watcher.value)]; }
      watcher, expected, binding := None, None, None;
      if owner.Some? {
        if leave { SendTo(owner, LeaveFrame(reason)); }
        log := log + [ToldInactive(owner.value.id)];
      }
    }

    method ChangeAuth(next: Option<string>)
      modifies this
      ensures View() == SetAuth(old(View()), next)
    {
      if token == next { return; }
      Reset(true, AccountChange);
      owner, token := None, next;
    }

    method ChangeGameRunning(running: bool)
      modifies this
      ensures View() == SetGameRunning(old(View()), running)
    {
      if gameRunning == running { return; }
      gameRunning := running;
      if !running { Reset(true, GameExit); }
      SendTo(owner, StatusFrame(running));
      if running { StartWatching(); }
    }

    method SocketOpened(id: SocketId, socket: Socket, presented: Option<string>) returns (ok: bool)
      modifies this
      ensures View() == Opened(old(View()), id, socket, presented)
      ensures ok == Admits(old(View()), presented)
    {
      if presented.None? || presented.value == "" || presented != token { return false; }
      Reset(true, SocketReplaced);
      owner := Some(Owner(id, socket, presented.value, epoch));
      SendTo(owner, StatusFrame(gameRunning));
      // A reader of the wire finds the watch request ahead of every observation.
      SendTo(owner, WatchFrame);
      StartWatching();
      return true;
    }

    method StartWatching()
      modifies this`watcher, this`log
      ensures View() == Start(old(View()))
    {
      if watcher.Some? || environment.None? || token.None? || token.value == "" || !gameRunning || owner.None? {
        return;
      }
      var h := Handle(owner.value, epoch);
      watcher, log := Some(h), log + [Started(h)];
    }

    method SnapshotArrived(h: Handle, s: Snapshot)
      modifies this
      ensures View() == OnSnapshot(old(View()), h, s)
    {
      if !(h.epoch == epoch && owner == Some(h.owner) && token == Some(h.owner.token) && gameRunning) { return; }
      var key := Generation(s);
      if expected.None? || expected.value.key != key {
        binding := None;
        log := log + [ToldInactive(h.owner.id)];
        expected := Some(Expected(key, s.sessionId, s.worldGeneration, s.sequence, s.sequence));
      } else {
        expected := Some(expected.value.(latestSequence := s.sequence));
      }
      log := log + [Observed(h, s)];
      SendTo(Some(h.owner), ObserveFrame(s));
    }

    method WentInactive(h: Handle, reason: Reason)
      modifies this
      ensures View() == OnInactive(old(View()), h, reason)
    {
      if !(h.epoch == epoch && owner == Some(h.owner) && token == Some(h.owner.token) && gameRunning) { return; }
      expected, binding := None, None;
      SendTo(Some(h.owner), LeaveFrame(reason));
      log := log + [ToldInactive(h.owner.id)];
    }

    method SocketClosed(id: SocketId, socket: Socket)
      modifies this
      ensures View() == Closed(old(View()), id, socket)
    {
      if owner.None? || owner.value.id != id || owner.value.socket != socket { return; }
      Reset(true, ExplicitInactive);
      owner := None;
    }

    method RouteOut(id: SocketId, socket: Socket, m: Message) returns (routed: Option<Message>)
      ensures routed == Outgoing(View(), id, socket, m)
    {
      if m.Plain? { return Some(m); }
      var f := m.frame;
      if f.kind == BridgeObserve || f.kind == BridgeLeave { return None; }
      var owned := owner.Some? && owner.value.id == id && owner.value.socket == socket
                   && Some(owner.value.token) == token;
      if f.kind == BridgeWatch {
        return if owned then Some(Framed(WATCH_REQUEST)) else None;
      }
      if f.kind == ClientStatus {
        var kept := if f.payload.Some? then f.payload.value else map[];
        return Some(Framed(f.(payload := Some(kept[InGame := Flag(gameRunning)]))));
      }
      if ServerBound(f) {
        if !owned || !gameRunning || expected.None? || binding.None? || !NamesBinding(f, binding.value) {
          return None;
        }
      }
      return Some(m);
    }

    method RouteIn(id: SocketId, socket: Socket, f: Frame) returns (passes: bool)
      modifies this`binding
      ensures View() == Incoming(old(View()), id, socket, f)
      ensures passes == Passes(old(View()), id, socket, f)
    {
      if !IsBridge(f.kind) { return true; }
      if owner.None? || owner.value.id != id || owner.value.socket != socket || Some(owner.value.token) != token {
        return false;
      }
      if f.kind == BridgeState {
        if At(f, Status) != Some(Str("ready")) { binding := None; return true; }
        if !gameRunning || expected.None? || !Acknowledges(f, expected.value) || !HasBinding(f) { return false; }
        binding := Some(BindingOf(f));
        return true;
      }
      return expected.Some? && binding.Some? && gameRunning && NamesFrameBinding(f, binding.value);
    }

    method Quit()
      modifies this
      ensures View() == Dispose(old(View()))
    {
      Reset(true, AppQuit);
      owner, token := None, None;
    }
  }
}
