/** The relay without its fields: what each call and callback must do to the
    outside, told only from the calls before it and from what was done so far. */
module BridgeScript {
  import opened Texts
  import opened Snapshots
  import opened ExportCursors
  import opened BridgeRelay
  import opened BridgeRuns

  // ----- what the calls so far say -----

  datatype Past = Past(token: Option<string>, game: bool, owner: Option<(SocketId, Socket)>, open: set<Socket>)

  /** The account is the last one set; the game state the last one told; the owner
      the last socket opened with that account's token and neither closed nor left
      behind by an account change or the end since. */
  function PastOf(es: seq<RelayEvent>): Past {
    if es == [] then Past(None, false, None, {}) else Next(PastOf(es[..|es| - 1]), es[|es| - 1])
  }

  function Next(p: Past, e: RelayEvent): Past {
    match e
    case Auth(token) => if token == p.token then p else p.(token := token, owner := None)
    case Game(running) => p.(game := running)
    case Up(id, socket, token) =>
      p.(open := p.open + {socket},
         owner := if token.Some? && token.value != "" && token == p.token then Some((id, socket)) else p.owner)
    case Down(gone) => p.(open := p.open - gone)
    case Gone(id, socket) => if p.owner == Some((id, socket)) then p.(owner := None) else p
    case Quit => p.(token := None, owner := None)
    case _ => p
  }

  // ----- what was done so far says -----

  /** The watcher started last, unless it was stopped. */
  function Running(log: seq<Effect>): Option<Handle> {
    if log == [] then None else
    match log[|log| - 1]
    case Started(h) => Some(h)
    case Stopped(_) => None
    case _ => Running(log[..|log| - 1])
  }

  /** The first and the last snapshot observed since the last inactivity. */
  function FirstSeen(log: seq<Effect>): Option<Snapshot> {
    if log == [] then None else
    var before := FirstSeen(log[..|log| - 1]);
    match log[|log| - 1]
    case ToldInactive(_) => None
    case Observed(_, s) => if before.Some? then before else Some(s)
    case _ => before
  }

  function LastSeen(log: seq<Effect>): Option<Snapshot> {
    if log == [] then None else
    match log[|log| - 1]
    case ToldInactive(_) => None
    case Observed(_, s) => Some(s)
    case _ => LastSeen(log[..|log| - 1])
  }

  predicate SameWorld(a: Snapshot, b: Snapshot) {
    a.provider == b.provider && a.sessionId == b.sessionId && a.worldGeneration == b.worldGeneration
  }

  /** The last server frame telling a renderer socket its bridge state, if nothing
      told it inactive since. */
  function LastState(log: seq<Effect>, id: SocketId): Option<(Socket, Frame)> {
    if log == [] then None else
    match log[|log| - 1]
    case ToldInactive(to) => if to == id then None else LastState(log[..|log| - 1], id)
    case Forwarded(to, socket, f) =>
      if to == id && f.kind.BridgeState? then Some((socket, f)) else LastState(log[..|log| - 1], id)
    case _ => LastState(log[..|log| - 1], id)
  }

  /** The socket was told ready, and the frame names what that ready frame named:
      its channel, and its binding in the given slot. */
  predicate Agreed(log: seq<Effect>, id: SocketId, socket: Socket, f: Frame, slot: Slot) {
    match LastState(log, id)
    case None => false
    case Some((told, g)) =>
      && told == socket && At(g, Status) == Some(Str("ready"))
      && At(f, slot) == At(g, BindingId) && At(f, ChannelId) == At(g, ChannelId)
  }

  // ----- the frames -----

  /** A chat frame for a server channel, or one that names any binding at all. */
  predicate Guarded(f: Frame) {
    && (f.kind == ChatSend || f.kind == SendMessage)
    && ((match At(f, ChannelId)
         case Some(Str(s)) => "server:" <= s
         case Some(Other(true, s)) => "server:" <= s
         case _ => false)
        || (match At(f, BridgeBindingId)
            case Some(Str(s)) => s != ""
            case Some(Num(r)) => r != 0.0
            case Some(Flag(b)) => b
            case Some(Other(truthy, _)) => truthy
            case None => false))
  }

  /** May the renderer's frame leave on the socket. */
  predicate Leaves(p: Past, log: seq<Effect>, id: SocketId, socket: Socket, m: Message) {
    m.Framed? ==>
      match m.frame.kind
      case BridgeObserve => false
      case BridgeLeave => false
      case BridgeWatch => p.owner == Some((id, socket))
      case _ => Guarded(m.frame) ==> Agreed(log, id, socket, m.frame, BridgeBindingId)
  }

  /** The same fields but for that one. */
  ghost predicate SameBut(a: Frame, b: Frame, but: Slot) {
    a.kind == b.kind && forall slot :: slot != but ==> At(a, slot) == At(b, slot)
  }

  /** What leaves: the frame as it is, but a watch request is for the local export
      and nothing else, and a status tells the game as it is. */
  ghost predicate LeavesAs(p: Past, m: Message, out: Message) {
    if m.Plain? then out == m
    else match m.frame.kind
      case BridgeWatch => out == Framed(Frame(BridgeWatch, Some(map[Mode := Str("local-export")])))
      case ClientStatus =>
        out.Framed? && SameBut(m.frame, out.frame, InGame) && At(out.frame, InGame) == Some(Flag(p.game))
      case _ => out == m
  }

  predicate IsNumber(v: Option<Field>, n: int) {
    v == Some(Num(n as real))
  }

  ghost predicate WholeNumber(v: Option<Field>, low: int, high: int) {
    exists n :: low <= n <= high && IsNumber(v, n)
  }

  predicate TextWith(v: Option<Field>, prefix: string) {
    v.Some? && v.value.Str? && prefix <= v.value.s
  }

  /** A ready frame for what was observed, naming a binding and a room. */
  ghost predicate Acceptable(log: seq<Effect>, f: Frame) {
    && FirstSeen(log).Some? && LastSeen(log).Some?
    && var first, last := FirstSeen(log).value, LastSeen(log).value;
       && At(f, SessionSlot) == Some(Str(first.sessionId))
       && At(f, WorldSlot) == Some(Str(first.worldGeneration))
       && WholeNumber(At(f, SequenceSlot), first.sequence, last.sequence)
       && WholeNumber(At(f, SequenceSlot), -MAX_SAFE_INTEGER, MAX_SAFE_INTEGER)
       && TextWith(At(f, BindingId), "") && TextWith(At(f, ChannelId), "server:r:")
  }

  /** May the server's frame reach the renderer. */
  ghost predicate Arrives(p: Past, log: seq<Effect>, id: SocketId, socket: Socket, f: Frame) {
    match f.kind
    case BridgeState =>
      && p.owner == Some((id, socket))
      && (At(f, Status) == Some(Str("ready")) ==> Acceptable(log, f))
    case BridgeObserve => Agreed(log, id, socket, f, BindingId)
    case BridgeLeave => Agreed(log, id, socket, f, BindingId)
    case BridgeWatch => Agreed(log, id, socket, f, BindingId)
    case OtherBridge(_) => Agreed(log, id, socket, f, BindingId)
    case _ => true
  }

  // ----- the script -----

  function ToOwner(p: Past, m: WireMessage): seq<Effect> {
    if p.owner.Some? && p.owner.value.1 in p.open then [Wire(p.owner.value.1, m)] else []
  }

  function Hush(p: Past): seq<Effect> {
    if p.owner.Some? then [ToldInactive(p.owner.value.0)] else []
  }

  /** The watcher stops, the server hears why, the renderer that it is over. */
  function Farewell(p: Past, log: seq<Effect>, reason: Reason): seq<Effect> {
    (if Running(log).Some? then [Stopped(Running(log).value)] else []) + ToOwner(p, LeaveFrame(reason)) + Hush(p)
  }

  /** A new watcher for the owner, if everything it needs is there. */
  ghost predicate Begins(environment: Option<string>, p: Past, log: seq<Effect>, more: seq<Effect>) {
    if environment.Some? && p.token.Some? && p.token.value != "" && p.game && p.owner.Some? then
      && |more| == 1 && more[0].Started? && more[0] !in log
      && var o := more[0].h.owner; (o.id, o.socket) == p.owner.value && Some(o.token) == p.token
    else more == []
  }

  ghost predicate BeginsAfter(environment: Option<string>, p: Past, log: seq<Effect>,
                              added: seq<Effect>, first: seq<Effect>) {
    first <= added && Begins(environment, p, log, added[|first|..])
  }

  /** What one call or callback adds to what was done. */
  ghost predicate Scripted(environment: Option<string>, p: Past, log: seq<Effect>, e: RelayEvent, added: seq<Effect>) {
    match e
    case Auth(token) => added == if token == p.token then [] else Farewell(p, log, AccountChange)
    case Game(running) =>
      if running == p.game then added == []
      else if running then
        BeginsAfter(environment, Next(p, e), log, added, ToOwner(p, StatusFrame(true)))
      else added == Farewell(p, log, GameExit) + ToOwner(p, StatusFrame(false))
    case Up(id, socket, token) =>
      if token.None? || token.value == "" || token != p.token then added == []
      else BeginsAfter(environment, Next(p, e), log, added,
                       Farewell(p.(open := p.open + {socket}), log, SocketReplaced)
                       + [Wire(socket, StatusFrame(p.game)), Wire(socket, WatchFrame)])
    case Down(_) => added == []
    case Gone(id, socket) =>
      added == if p.owner == Some((id, socket)) then Farewell(p, log, ExplicitInactive) else []
    case Snap(h, s) =>
      if Running(log) != Some(h) then added == [] else
      added == (if FirstSeen(log).Some? && SameWorld(FirstSeen(log).value, s) then [] else Hush(p))
               + [Observed(h, s)] + ToOwner(p, ObserveFrame(s))
    case Quiet(h, reason) =>
      added == if Running(log) != Some(h) then [] else ToOwner(p, LeaveFrame(reason)) + Hush(p)
    case Out(id, socket, m) =>
      if socket !in p.open || !Leaves(p, log, id, socket, m) then added == []
      else |added| == 1 && added[0].Wire? && added[0].socket == socket && added[0].msg.RendererFrame?
           && LeavesAs(p, m, added[0].msg.m)
    case In(id, socket, f) => added == if Arrives(p, log, id, socket, f) then [Forwarded(id, socket, f)] else []
    case Quit => added == Farewell(p, log, AppQuit)
  }

  // ----- the fields agree with the past -----

  predicate Facts(r: Relay, p: Past) {
    && r.token == p.token && r.gameRunning == p.game && r.open == p.open
    && (if p.owner.None? then r.owner.None?
        else r.owner.Some? && (r.owner.value.id, r.owner.value.socket) == p.owner.value)
    && Running(r.log) == r.watcher
  }

  function StopIt(r: Relay): Relay {
    if r.watcher.Some? then Put(r, Stopped(r.watcher.value)) else r
  }

  lemma StopSays(r: Relay, p: Past)
    requires Facts(r, p)
    ensures Running(StopIt(r).log).None?
    ensures StopIt(r).log == r.log + (if Running(r.log).Some? then [Stopped(Running(r.log).value)] else [])
  {
  }

  lemma ToOwnerSays(r: Relay, p: Past, m: WireMessage)
    requires r.open == p.open
    requires if p.owner.None? then r.owner.None?
             else r.owner.Some? && (r.owner.value.id, r.owner.value.socket) == p.owner.value
    ensures Send(r, r.owner, m).log == r.log + ToOwner(p, m)
    ensures Running(Send(r, r.owner, m).log) == Running(r.log)
  {
  }

  lemma ClearParts(r: Relay, reason: Reason)
    ensures Clear(r, true, reason).log
            == Send(StopIt(r), r.owner, LeaveFrame(reason)).log
               + (if r.owner.Some? then [ToldInactive(r.owner.value.id)] else [])
  {
    if r.owner.Some? { ClearSplits(r, true, reason); }
  }

  lemma Joined<T>(log: seq<T>, a: seq<T>, b: seq<T>, c: seq<T>)
    ensures ((log + a) + b) + c == log + (a + b + c)
  {
  }

  lemma ToldEnds(log: seq<Effect>, p: Past)
    requires Running(log).None?
    ensures Running(log + Hush(p)).None?
  {
    if p.owner.None? {
      assert log + Hush(p) == log;
    } else {
      assert (log + Hush(p))[..|log|] == log;
    }
  }

  /** What a clear adds, and what it leaves. */
  lemma ClearSays(r: Relay, p: Past, reason: Reason)
    requires Facts(r, p)
    ensures Clear(r, true, reason).log == r.log + Farewell(p, r.log, reason)
    ensures Running(Clear(r, true, reason).log).None?
  {
    StopSays(r, p);
    ToOwnerSays(StopIt(r), p, LeaveFrame(reason));
    ClearParts(r, reason);
    ToldEnds(Send(StopIt(r), r.owner, LeaveFrame(reason)).log, p);
    Joined(r.log, if Running(r.log).Some? then [Stopped(Running(r.log).value)] else [],
           ToOwner(p, LeaveFrame(reason)), Hush(p));
  }

  lemma StartSays(environment: Option<string>, r: Relay, p: Past)
    requires Facts(r, p) && r.environment == environment && r.watcher.None? && Epochs(r.log, r.epoch, None)
    requires r.owner.Some? ==> Some(r.owner.value.token) == r.token
    ensures r.log <= Start(r).log && Begins(environment, p, r.log, Start(r).log[|r.log|..]) && Facts(Start(r), p)
  {
    var next := Start(r);
    if next != r { assert next.log[|r.log|..] == [Started(next.watcher.value)]; }
  }

  // ----- every call and callback -----

  /** The step does what the script says, and the fields follow. */
  ghost predicate Adds(r: Relay, p: Past, e: RelayEvent) {
    var next := StepRelay(r, e);
    && r.log <= next.log && Scripted(r.environment, p, r.log, e, next.log[|r.log|..])
    && Facts(next, Next(p, e))
  }

  lemma Grown(log: seq<Effect>, added: seq<Effect>)
    ensures log <= log + added && (log + added)[|log|..] == added
  {
  }

  /** The owner is let go. */
  lemma LetGo(r: Relay, p: Past, reason: Reason)
    requires Facts(r, p)
    ensures var next := Clear(r, true, reason).(owner := None);
            next.log == r.log + Farewell(p, r.log, reason) && Facts(next, p.(owner := None))
    ensures Grows(r, Clear(r, true, reason).log, Farewell(p, r.log, reason))
  {
    ClearSays(r, p, reason);
    ClearBare(r, true, reason);
    Grown(r.log, Farewell(p, r.log, reason));
  }

  predicate Grows(r: Relay, log: seq<Effect>, added: seq<Effect>) {
    r.log <= log && log[|r.log|..] == added
  }

  lemma AuthSays(r: Relay, p: Past, token: Option<string>)
    requires Facts(r, p) && token != p.token
    ensures Grows(r, SetAuth(r, token).log, Farewell(p, r.log, AccountChange))
    ensures Facts(SetAuth(r, token), p.(owner := None, token := token))
  {
    LetGo(r, p, AccountChange);
  }

  lemma AuthAdds(r: Relay, p: Past, token: Option<string>)
    requires Facts(r, p)
    ensures Adds(r, p, Auth(token))
  {
    if token != p.token { AuthSays(r, p, token); }
  }

  lemma GoneSays(r: Relay, p: Past, id: SocketId, socket: Socket)
    requires Facts(r, p) && p.owner == Some((id, socket))
    ensures Grows(r, Closed(r, id, socket).log, Farewell(p, r.log, ExplicitInactive))
    ensures Facts(Closed(r, id, socket), p.(owner := None))
  {
    LetGo(r, p, ExplicitInactive);
  }

  lemma GoneAdds(r: Relay, p: Past, id: SocketId, socket: Socket)
    requires Facts(r, p)
    ensures Adds(r, p, Gone(id, socket))
  {
    if p.owner == Some((id, socket)) { GoneSays(r, p, id, socket); }
  }

  lemma QuitSays(r: Relay, p: Past)
    requires Facts(r, p)
    ensures Grows(r, Dispose(r).log, Farewell(p, r.log, AppQuit))
    ensures Facts(Dispose(r), p.(owner := None, token := None))
  {
    LetGo(r, p, AppQuit);
  }

  lemma QuitAdds(r: Relay, p: Past)
    requires Facts(r, p)
    ensures Adds(r, p, Quit)
  {
    QuitSays(r, p);
  }

  lemma Split(log: seq<Effect>, first: seq<Effect>, next: seq<Effect>)
    requires log + first <= next
    ensures log <= next && first <= next[|log|..] && next[|log|..][|first|..] == next[|log + first|..]
  {
  }

  lemma GameEnds(r: Relay, p: Past)
    requires Facts(r, p) && p.game
    ensures var next := SetGameRunning(r, false);
            && next.log == r.log + (Farewell(p, r.log, GameExit) + ToOwner(p, StatusFrame(false)))
            && Facts(next, p.(game := false))
  {
    var (set1, q) := (r.(gameRunning := false), p.(game := false));
    ClearSays(set1, q, GameExit);
    ClearBare(set1, true, GameExit);
    ToOwnerSays(Clear(set1, true, GameExit), q, StatusFrame(false));
  }

  lemma GameStarts(r: Relay, p: Past)
    requires Facts(r, p) && Nested(r) && Epochs(r.log, r.epoch, r.watcher) && !p.game
    ensures var (next, q) := (SetGameRunning(r, true), p.(game := true));
            && r.log <= next.log
            && BeginsAfter(r.environment, q, r.log, next.log[|r.log|..], ToOwner(p, StatusFrame(true)))
            && Facts(next, q)
  {
    var (set1, q) := (r.(gameRunning := true), p.(game := true));
    ToOwnerSays(set1, q, StatusFrame(true));
    var told := Send(set1, r.owner, StatusFrame(true));
    SendEpochs(set1, r.owner, StatusFrame(true));
    StartSays(r.environment, told, q);
    Split(r.log, ToOwner(p, StatusFrame(true)), Start(told).log);
  }

  lemma GameAdds(r: Relay, p: Past, running: bool)
    requires Facts(r, p) && Nested(r) && Epochs(r.log, r.epoch, r.watcher)
    ensures Adds(r, p, Game(running))
  {
    if running != p.game {
      if running { GameStarts(r, p); } else { GameEnds(r, p); }
    }
  }

  /** The greeting of a new owner, ahead of his watcher. */
  lemma GreetsFirst(r: Relay, p: Past, socket: Socket)
    requires Facts(r, p) && r.owner.Some? && r.owner.value.socket == socket && socket in r.open
    requires r.watcher.None? && Epochs(r.log, r.epoch, None) && Some(r.owner.value.token) == r.token
    ensures var told := Send(r, r.owner, StatusFrame(r.gameRunning));
            var next := Start(Send(told, told.owner, WatchFrame));
            var first := [Wire(socket, StatusFrame(p.game)), Wire(socket, WatchFrame)];
            && r.log + first <= next.log && Begins(r.environment, p, r.log, next.log[|r.log + first|..])
            && Facts(next, p)
  {
    ToOwnerSays(r, p, StatusFrame(p.game));
    SendEpochs(r, r.owner, StatusFrame(p.game));
    var told := Send(r, r.owner, StatusFrame(p.game));
    ToOwnerSays(told, p, WatchFrame);
    SendEpochs(told, told.owner, WatchFrame);
    var greeted := Send(told, told.owner, WatchFrame);
    StartSays(r.environment, greeted, p);
    assert greeted.log == r.log + [Wire(socket, StatusFrame(p.game)), Wire(socket, WatchFrame)];
  }

  lemma BeginsLater(environment: Option<string>, p: Past, log: seq<Effect>,
                    bye: seq<Effect>, hello: seq<Effect>, next: seq<Effect>)
    requires (log + bye) + hello <= next && Begins(environment, p, log + bye, next[|log + bye + hello|..])
    ensures log <= next && BeginsAfter(environment, p, log, next[|log|..], bye + hello)
  {
    assert (log + bye) + hello == log + (bye + hello);
    Split(log, bye + hello, next);
  }

  /** A new owner: the old one is let go, the new one greeted and watched for. */
  lemma OwnerGreeted(r: Relay, p: Past, id: SocketId, socket: Socket, token: Option<string>)
    requires Facts(r, p) && Nested(r) && Epochs(r.log, r.epoch, r.watcher) && socket in r.open && Admits(r, token)
    ensures var (next, q) := (Opened(r, id, socket, token), p.(owner := Some((id, socket))));
            && r.log <= next.log
            && BeginsAfter(r.environment, q, r.log, next.log[|r.log|..],
                           Farewell(p, r.log, SocketReplaced)
                           + [Wire(socket, StatusFrame(p.game)), Wire(socket, WatchFrame)])
            && Facts(next, q)
  {
    var cleared := Clear(r, true, SocketReplaced);
    LetGo(r, p, SocketReplaced);
    ClearBare(r, true, SocketReplaced);
    ClearEpochs(r, true, SocketReplaced);
    GreetsFirst(cleared.(owner := Some(Owner(id, socket, token.value, cleared.epoch))),
             p.(owner := Some((id, socket))), socket);
    BeginsLater(r.environment, p.(owner := Some((id, socket))), r.log, Farewell(p, r.log, SocketReplaced),
                [Wire(socket, StatusFrame(p.game)), Wire(socket, WatchFrame)], Opened(r, id, socket, token).log);
  }

  lemma UpAdds(r: Relay, p: Past, id: SocketId, socket: Socket, token: Option<string>)
    requires Facts(r, p) && Nested(r) && Epochs(r.log, r.epoch, r.watcher)
    ensures Adds(r, p, Up(id, socket, token))
  {
    var (r1, p1) := (r.(open := r.open + {socket}), p.(open := p.open + {socket}));
    if Admits(r1, token) { OwnerGreeted(r1, p1, id, socket, token); }
  }

  /** The interval observed, from its two ends. */
  lemma {:induction false} WindowIs(log: seq<Effect>)
    requires LogOk(log)
    ensures FirstSeen(log).None? <==> LastSeen(log).None?
    ensures WindowOf(log) == if FirstSeen(log).None? then None else
              var first := FirstSeen(log).value;
              Some(Expected(Generation(first), first.sessionId, first.worldGeneration,
                            first.sequence, LastSeen(log).value.sequence))
    decreases log
  {
    if log != [] { WindowIs(log[..|log| - 1]); }
  }

  /** The renderer's view, from the last state frame it was sent. */
  lemma {:induction false} ViewIs(log: seq<Effect>, id: SocketId)
    requires LogOk(log)
    ensures RendererView(log, id)
            == match LastState(log, id)
               case None => NotReady
               case Some((socket, g)) =>
                 if At(g, Status) == Some(Str("ready")) && HasBinding(g) then Ready(socket, BindingOf(g)) else NotReady
    ensures LastState(log, id).Some? && At(LastState(log, id).value.1, Status) == Some(Str("ready")) ==>
              HasBinding(LastState(log, id).value.1)
    decreases log
  {
    if log != [] { ViewIs(log[..|log| - 1], id); }
  }

  /** Agreement is with the binding the relay holds for the owner. */
  lemma AgreedMeans(r: Relay, id: SocketId, socket: Socket, f: Frame, slot: Slot)
    requires RelayOk(r)
    ensures Agreed(r.log, id, socket, f, slot)
            <==> && OwnedBy(r, id, socket) && r.binding.Some?
                 && At(f, ChannelId) == Some(Str(r.binding.value.channelId))
                 && At(f, slot) == Some(Str(r.binding.value.bindingId))
  {
    ViewIs(r.log, id);
    assert RendererView(r.log, id) == Expectation(r.owner, r.binding, id);
  }

  lemma SnapAdds(r: Relay, p: Past, h: Handle, s: Snapshot)
    requires RelayOk(r) && Facts(r, p) && Possible(r, Snap(h, s))
    ensures Adds(r, p, Snap(h, s))
  {
    if r.watcher == Some(h) {
      SnapSays(r, p, h, s);
    }
  }

  /** The snapshot opens an interval, or goes on with the one there is. */
  lemma SnapOpens(r: Relay, p: Past, s: Snapshot)
    requires RelayOk(r) && Facts(r, p) && r.owner.Some?
    ensures var going := r.expected.Some? && r.expected.value.key == Generation(s);
            && (going <==> FirstSeen(r.log).Some? && SameWorld(FirstSeen(r.log).value, s))
            && Hush(p) == [ToldInactive(r.owner.value.id)]
  {
    WindowIs(r.log);
  }

  lemma SeenSays(r: Relay, p: Past, h: Handle, s: Snapshot)
    requires Facts(r, p) && r.owner == Some(h.owner)
    ensures var next := Send(Put(r, Observed(h, s)), Some(h.owner), ObserveFrame(s));
            next.log == r.log + ([Observed(h, s)] + ToOwner(p, ObserveFrame(s))) && Facts(next, p)
  {
    var seen := Put(r, Observed(h, s));
    assert seen.log[..|r.log|] == r.log;
    ToOwnerSays(seen, p, ObserveFrame(s));
  }

  lemma SnapSays(r: Relay, p: Past, h: Handle, s: Snapshot)
    requires RelayOk(r) && Facts(r, p) && r.watcher == Some(h)
    ensures var next := OnSnapshot(r, h, s);
            && next.log == r.log + ((if FirstSeen(r.log).Some? && SameWorld(FirstSeen(r.log).value, s)
                                     then [] else Hush(p)) + [Observed(h, s)] + ToOwner(p, ObserveFrame(s)))
            && Facts(next, p)
  {
    SnapOpens(r, p, s);
    var (seen, sent) := ([Observed(h, s)], ToOwner(p, ObserveFrame(s)));
    if r.expected.Some? && r.expected.value.key == Generation(s) {
      SeenSays(r, p, h, s);
      assert [] + seen + sent == seen + sent;
    } else {
      var told := Put(r, ToldInactive(h.owner.id));
      assert told.log[..|r.log|] == r.log;
      SeenSays(told, p, h, s);
      assert (r.log + Hush(p)) + (seen + sent) == r.log + (Hush(p) + seen + sent);
    }
  }

  lemma QuietAdds(r: Relay, p: Past, h: Handle, reason: Reason)
    requires RelayOk(r) && Facts(r, p) && Possible(r, Quiet(h, reason))
    ensures Adds(r, p, Quiet(h, reason))
  {
    if r.watcher == Some(h) {
      QuietSays(r, p, h, reason);
    }
  }

  lemma QuietSays(r: Relay, p: Past, h: Handle, reason: Reason)
    requires RelayOk(r) && Facts(r, p) && r.watcher == Some(h)
    ensures var next := OnInactive(r, h, reason);
            next.log == r.log + (ToOwner(p, LeaveFrame(reason)) + Hush(p)) && Facts(next, p)
  {
  }

  lemma LeavesExactly(r: Relay, p: Past, id: SocketId, socket: Socket, m: Message)
    requires RelayOk(r) && Facts(r, p)
    ensures Outgoing(r, id, socket, m).Some? <==> Leaves(p, r.log, id, socket, m)
    ensures Outgoing(r, id, socket, m).Some? ==> LeavesAs(p, m, Outgoing(r, id, socket, m).value)
  {
    if m.Framed? {
      AgreedMeans(r, id, socket, m.frame, BridgeBindingId);
      assert ServerBound(m.frame) <==> Guarded(m.frame);
    }
  }

  lemma OutAdds(r: Relay, p: Past, id: SocketId, socket: Socket, m: Message)
    requires RelayOk(r) && Facts(r, p)
    ensures Adds(r, p, Out(id, socket, m))
  {
    LeavesExactly(r, p, id, socket, m);
  }

  lemma WholeMeans(v: Option<Field>, low: int, high: int)
    ensures WholeWithin(v, low, high)
            <==> WholeNumber(v, low, high) && WholeNumber(v, -MAX_SAFE_INTEGER, MAX_SAFE_INTEGER)
  {
    if WholeWithin(v, low, high) { assert IsNumber(v, v.value.r.Floor); }
  }

  lemma ArrivesExactly(r: Relay, p: Past, id: SocketId, socket: Socket, f: Frame)
    requires RelayOk(r) && Facts(r, p)
    ensures Passes(r, id, socket, f) <==> Arrives(p, r.log, id, socket, f)
  {
    AgreedMeans(r, id, socket, f, BindingId);
    WindowIs(r.log);
    if r.expected.Some? {
      WholeMeans(At(f, SequenceSlot), r.expected.value.firstSequence, r.expected.value.latestSequence);
    }
  }

  lemma InAdds(r: Relay, p: Past, id: SocketId, socket: Socket, f: Frame)
    requires RelayOk(r) && Facts(r, p)
    ensures Adds(r, p, In(id, socket, f))
  {
    ArrivesExactly(r, p, id, socket, f);
  }

  lemma StepAdds(r: Relay, p: Past, e: RelayEvent)
    requires RelayOk(r) && Facts(r, p) && Possible(r, e)
    ensures Adds(r, p, e)
  {
    match e {
      case Auth(token) => AuthAdds(r, p, token);
      case Game(running) => GameAdds(r, p, running);
      case Up(id, socket, token) => UpAdds(r, p, id, socket, token);
      case Down(_) =>
      case Gone(id, socket) => GoneAdds(r, p, id, socket);
      case Snap(h, s) => SnapAdds(r, p, h, s);
      case Quiet(h, reason) => QuietAdds(r, p, h, reason);
      case Out(id, socket, m) => OutAdds(r, p, id, socket, m);
      case In(id, socket, f) => InAdds(r, p, id, socket, f);
      case Quit => QuitAdds(r, p);
    }
  }

  // ----- from the fields alone -----

  /** The past of a bridge, read off its fields. */
  function PastNow(r: Relay): Past {
    Past(r.token, r.gameRunning,
         if r.owner.Some? then Some((r.owner.value.id, r.owner.value.socket)) else None, r.open)
  }

  /** The bridge did what the script says of that call. */
  ghost predicate Answers(before: Relay, after: Relay, c: RelayEvent) {
    && before.log <= after.log
    && Scripted(before.environment, PastNow(before), before.log, c, after.log[|before.log|..])
    && PastNow(after) == Next(PastNow(before), c)
  }

  lemma StepAnswers(r: Relay, c: RelayEvent)
    requires RelayOk(r) && Facts(r, PastNow(r)) && Possible(r, c)
    ensures Answers(r, StepRelay(r, c), c) && Facts(StepRelay(r, c), PastNow(StepRelay(r, c)))
  {
    StepAdds(r, PastNow(r), c);
  }

  // ----- runs -----

  lemma {:induction false} RelayLast(r: Relay, es: seq<RelayEvent>)
    requires es != [] && Legal(r, es)
    ensures var (before, e) := (es[..|es| - 1], es[|es| - 1]);
            && Legal(r, before) && Possible(RunRelay(r, before), e)
            && RunRelay(r, es) == StepRelay(RunRelay(r, before), e)
    decreases es
  {
    var before, next := es[..|es| - 1], StepRelay(r, es[0]);
    if |es| == 1 {
      assert before == [] && es[1..] == [];
    } else {
      RelayLast(next, es[1..]);
      assert before[0] == es[0] && before[1..] == es[1..][..|es| - 2];
    }
  }

  lemma StepEnvironment(r: Relay, e: RelayEvent)
    ensures StepRelay(r, e).environment == r.environment
  {
    match e {
      case Auth(_) => ClearBare(r, true, AccountChange);
      case Game(running) => ClearBare(r.(gameRunning := running), true, GameExit);
      case Up(_, socket, _) => ClearBare(r.(open := r.open + {socket}), true, SocketReplaced);
      case Gone(_, _) => ClearBare(r, true, ExplicitInactive);
      case Quit => ClearBare(r, true, AppQuit);
      case _ =>
    }
  }

  lemma {:induction false} RunFacts(environment: Option<string>, es: seq<RelayEvent>)
    requires Legal(NewRelay(environment), es)
    ensures var r := RunRelay(NewRelay(environment), es);
            Facts(r, PastOf(es)) && r.environment == environment
    decreases |es|
  {
    if es != [] {
      var (before, e) := (es[..|es| - 1], es[|es| - 1]);
      RelayLast(NewRelay(environment), es);
      RunFacts(environment, before);
      Reachable(environment, before);
      var r := RunRelay(NewRelay(environment), before);
      StepAdds(r, PastOf(before), e);
      StepEnvironment(r, e);
    }
  }

  /** In every run every call and callback adds to the log exactly what the script
      says, from the calls before it and the log alone: the relay's own fields
      decide nothing else. */
  lemma EveryStepIsScripted(environment: Option<string>, es: seq<RelayEvent>, e: RelayEvent)
    requires Legal(NewRelay(environment), es) && Possible(RunRelay(NewRelay(environment), es), e)
    ensures var r := RunRelay(NewRelay(environment), es);
            var next := StepRelay(r, e);
            r.log <= next.log && Scripted(environment, PastOf(es), r.log, e, next.log[|r.log|..])
  {
    RunFacts(environment, es);
    Reachable(environment, es);
    StepAdds(RunRelay(NewRelay(environment), es), PastOf(es), e);
  }

  predicate IsCrossing(e: Effect) {
    e.Forwarded? || (e.Wire? && e.msg.RendererFrame?)
  }

  predicate NoCrossing(added: seq<Effect>) {
    forall i :: 0 <= i < |added| ==> !IsCrossing(added[i])
  }

  lemma FarewellStays(p: Past, log: seq<Effect>, reason: Reason)
    ensures NoCrossing(Farewell(p, log, reason))
  {
  }

  lemma BeginningStays(environment: Option<string>, p: Past, log: seq<Effect>, added: seq<Effect>, first: seq<Effect>)
    requires BeginsAfter(environment, p, log, added, first) && NoCrossing(first)
    ensures NoCrossing(added)
  {
    forall i | 0 <= i < |added| ensures !IsCrossing(added[i]) {
      if i < |first| { assert added[i] == first[i]; } else { assert added[i] == added[|first|..][i - |first|]; }
    }
  }

  /** Only the renderer's and the server's own frames cross. */
  lemma OnlyFramesCross(environment: Option<string>, p: Past, log: seq<Effect>, e: RelayEvent, added: seq<Effect>)
    requires Scripted(environment, p, log, e, added) && !e.Out? && !e.In?
    ensures NoCrossing(added)
  {
    match e {
      case Auth(_) => FarewellStays(p, log, AccountChange);
      case Gone(_, _) => FarewellStays(p, log, ExplicitInactive);
      case Quit => FarewellStays(p, log, AppQuit);
      case Game(running) =>
        FarewellStays(p, log, GameExit);
        if running && running != p.game {
          BeginningStays(environment, Next(p, e), log, added, ToOwner(p, StatusFrame(true)));
        }
      case Up(_, socket, _) =>
        FarewellStays(p.(open := p.open + {socket}), log, SocketReplaced);
        if added != [] {
          BeginningStays(environment, Next(p, e), log, added,
                         Farewell(p.(open := p.open + {socket}), log, SocketReplaced)
                         + [Wire(socket, StatusFrame(p.game)), Wire(socket, WatchFrame)]);
        }
      case _ =>
    }
  }

  // ----- frames on the log -----

  /** The call that made entry k, and what was known when it was made. */
  ghost predicate CrossedBy(environment: Option<string>, es: seq<RelayEvent>, k: nat, n: nat, crossing: Effect) {
    var log := RunRelay(NewRelay(environment), es).log;
    && n < |es| && k < |log| && log[k] == crossing
    && RunRelay(NewRelay(environment), es[..n]).log == log[..k]
    && match es[n]
       case Out(id, socket, m) =>
         && crossing.Wire? && crossing.socket == socket && crossing.msg.RendererFrame?
         && socket in PastOf(es[..n]).open && Leaves(PastOf(es[..n]), log[..k], id, socket, m)
         && LeavesAs(PastOf(es[..n]), m, crossing.msg.m)
       case In(id, socket, f) =>
         crossing == Forwarded(id, socket, f) && Arrives(PastOf(es[..n]), log[..k], id, socket, f)
       case _ => false
  }

  /** Over every run, on the log alone: a frame of the renderer on a server socket
      and a frame of the server at the renderer got there by the one call that sent
      it, and were entitled to. */
  lemma {:induction false} CrossingsAreEntitled(environment: Option<string>, es: seq<RelayEvent>, k: nat)
    requires Legal(NewRelay(environment), es)
    requires var log := RunRelay(NewRelay(environment), es).log; k < |log| && IsCrossing(log[k])
    ensures exists n: nat :: CrossedBy(environment, es, k, n, RunRelay(NewRelay(environment), es).log[k])
    decreases |es|
  {
    assert es != [];
    var (before, e) := (es[..|es| - 1], es[|es| - 1]);
    RelayLast(NewRelay(environment), es);
    EveryStepIsScripted(environment, before, e);
    var (was, log) := (RunRelay(NewRelay(environment), before).log, RunRelay(NewRelay(environment), es).log);
    if k < |was| {
      assert was[k] == log[k] && was[..k] == log[..k];
      CrossingsAreEntitled(environment, before, k);
      var n: nat :| CrossedBy(environment, before, k, n, log[k]);
      assert before[..n] == es[..n];
      assert CrossedBy(environment, es, k, n, log[k]);
    } else {
      var added := log[|was|..];
      assert added[k - |was|] == log[k];
      if !e.Out? && !e.In? { OnlyFramesCross(environment, PastOf(before), was, e, added); }
      assert k == |was| && log[..k] == was;
      assert CrossedBy(environment, es, k, |es| - 1, log[k]);
    }
  }

  /** A renderer's frame on a wire is no local evidence; a watch request is for the
      local export and nothing else, from the owner; a status tells the game as it
      was when the frame was sent. */
  predicate Honest(p: Past, e: RelayEvent, s: Socket, f: Frame) {
    && e.Out? && e.socket == s
    && f.kind != BridgeObserve && f.kind != BridgeLeave
    && (f.kind == BridgeWatch ==>
          f.payload == Some(map[Mode := Str("local-export")]) && p.owner == Some((e.id, s)))
    && (f.kind == ClientStatus ==> At(f, InGame) == Some(Flag(p.game)))
  }

  /** What that means for the renderer: it can neither submit local evidence nor
      select another bridge, and it cannot misstate the game. */
  lemma RendererNeverTestifies(environment: Option<string>, es: seq<RelayEvent>, k: nat, s: Socket, f: Frame)
    requires Legal(NewRelay(environment), es)
    requires var log := RunRelay(NewRelay(environment), es).log;
             k < |log| && log[k] == Wire(s, RendererFrame(Framed(f)))
    ensures exists n: nat :: CrossedBy(environment, es, k, n, Wire(s, RendererFrame(Framed(f))))
                             && Honest(PastOf(es[..n]), es[n], s, f)
  {
    CrossingsAreEntitled(environment, es, k);
    var n: nat :| CrossedBy(environment, es, k, n, RunRelay(NewRelay(environment), es).log[k]);
    assert Honest(PastOf(es[..n]), es[n], s, f);
  }
}
