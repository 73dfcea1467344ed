/** Safety of the bridge relay over every run of its methods and callbacks. */
module BridgeRuns {
  import opened Texts
  import opened Snapshots
  import opened ExportCursors
  import opened BridgeRelay

  datatype RelayEvent =
    | Auth(token: Option<string>)
    | Game(running: bool)
    | Up(id: SocketId, socket: Socket, token: Option<string>)
    | Down(gone: set<Socket>)
    | Gone(id: SocketId, socket: Socket)
    | Snap(h: Handle, s: Snapshot)
    | Quiet(h: Handle, reason: Reason)
    | Out(id: SocketId, socket: Socket, m: Message)
    | In(id: SocketId, socket: Socket, f: Frame)
    | Quit

  /** The renderer's frame leaves on an open socket when it is let through. */
  function Emit(r: Relay, id: SocketId, socket: Socket, m: Message): Relay {
    var routed := Outgoing(r, id, socket, m);
    if routed.Some? && socket in r.open then Put(r, Wire(socket, RendererFrame(routed.value))) else r
  }

  function StepRelay(r: Relay, e: RelayEvent): Relay {
    match e
    case Auth(token) => SetAuth(r, token)
    case Game(running) => SetGameRunning(r, running)
    case Up(id, socket, token) => Opened(r.(open := r.open + {socket}), id, socket, token)
    case Down(gone) => r.(open := r.open - gone)
    case Gone(id, socket) => Closed(r, id, socket)
    case Snap(h, s) => OnSnapshot(r, h, s)
    case Quiet(h, reason) => OnInactive(r, h, reason)
    case Out(id, socket, m) => Emit(r, id, socket, m)
    case In(id, socket, f) => Deliver(r, id, socket, f)
    case Quit => Dispose(r)
  }

  function RunRelay(r: Relay, es: seq<RelayEvent>): Relay
    decreases es
  {
    if es == [] then r else RunRelay(StepRelay(r, es[0]), es[1..])
  }

  // ----- what the log alone says -----

  datatype Shown = NotReady | Ready(socket: Socket, binding: Binding)

  /** The last bridge:state a renderer socket was told. */
  function RendererView(log: seq<Effect>, id: SocketId): Shown {
    if log == [] then NotReady else
    var before, e := log[..|log| - 1], log[|log| - 1];
    match e
    case ToldInactive(to) => if to == id then NotReady else RendererView(before, id)
    case Forwarded(to, socket, f) =>
      if to == id && f.kind == BridgeState then
        if SaysReady(f) && HasBinding(f) then Ready(socket, BindingOf(f)) else NotReady
      else RendererView(before, id)
    case _ => RendererView(before, id)
  }

  /** The interval observed since the last inactivity or generation change. */
  function WindowOf(log: seq<Effect>): Option<Expected> {
    if log == [] then None else
    var before, e := WindowOf(log[..|log| - 1]), log[|log| - 1];
    match e
    case ToldInactive(_) => None
    case Observed(_, s) =>
      if before.Some? && before.value.key == Generation(s)
      then Some(before.value.(latestSequence := s.sequence)) else Some(FirstOf(s))
    case _ => before
  }

  /** The bridge:watch request has gone out on the socket. */
  predicate Greeted(log: seq<Effect>, socket: Socket) {
    Wire(socket, WatchFrame) in log
  }

  predicate IsStateTo(e: Effect) {
    e.ToldInactive? || (e.Forwarded? && e.frame.kind == BridgeState)
  }

  function Addressee(e: Effect): SocketId
    requires IsStateTo(e)
  {
    e.id
  }

  /** What each effect may count on when it happens. */
  ghost predicate EffectOk(before: seq<Effect>, e: Effect) {
    && (IsStateTo(e) ==> forall id :: id != Addressee(e) ==> RendererView(before, id) == NotReady)
    && (e.Forwarded? && SaysReady(e.frame) ==>
          && HasBinding(e.frame) && WindowOf(before).Some?
          && Acknowledges(e.frame, WindowOf(before).value))
    && (e.Observed? ==> WindowOf(before).None? || WindowOf(before).value.key == Generation(e.s))
    && (e.Wire? && e.msg.ObserveFrame? ==> Greeted(before, e.socket))
  }

  ghost predicate LogOk(log: seq<Effect>) {
    log == [] || (LogOk(log[..|log| - 1]) && EffectOk(log[..|log| - 1], log[|log| - 1]))
  }

  // ----- the invariant -----

  /** binding needs expected needs a watcher needs the owner, his token, the game. */
  predicate Nested(r: Relay) {
    && (r.binding.Some? ==> r.expected.Some?)
    && (r.expected.Some? ==> r.watcher.Some?)
    && (r.watcher.Some? <==> r.environment.Some? && Usable(r.token) && r.gameRunning && r.owner.Some?)
    && (r.watcher.Some? ==> r.watcher.value == Handle(r.owner.value, r.epoch))
    && (r.owner.Some? ==> Some(r.owner.value.token) == r.token && Usable(r.token))
  }

  function Expectation(owner: Option<Owner>, binding: Option<Binding>, id: SocketId): Shown {
    if owner.Some? && owner.value.id == id && binding.Some? then Ready(owner.value.socket, binding.value)
    else NotReady
  }

  /** The renderer has been told exactly what the relay holds. */
  ghost predicate Mirrored(log: seq<Effect>, owner: Option<Owner>, binding: Option<Binding>) {
    forall id :: RendererView(log, id) == Expectation(owner, binding, id)
  }

  /** A started watcher belongs to this epoch only if it is the current one. */
  ghost predicate Epochs(log: seq<Effect>, epoch: nat, watcher: Option<Handle>) {
    forall h :: Started(h) in log ==> h.epoch <= epoch && (h.epoch == epoch ==> watcher == Some(h))
  }

  ghost predicate Recorded(r: Relay) {
    && LogOk(r.log)
    && r.expected == WindowOf(r.log)
    && Mirrored(r.log, r.owner, r.binding)
    && (r.owner.Some? ==> Greeted(r.log, r.owner.value.socket))
  }

  ghost predicate RelayOk(r: Relay) {
    Nested(r) && Recorded(r) && Epochs(r.log, r.epoch, r.watcher)
  }

  // ----- single effects -----

  predicate Neutral(e: Effect) {
    match e
    case Wire(_, m) => !m.ObserveFrame?
    case Started(_) => true
    case Stopped(_) => true
    case Forwarded(_, _, f) => f.kind != BridgeState
    case _ => false
  }

  lemma PutNeutral(r: Relay, e: Effect)
    requires Recorded(r) && Neutral(e)
    ensures Recorded(Put(r, e))
  {
  }

  lemma SendNeutral(r: Relay, to: Option<Owner>, m: WireMessage)
    requires Recorded(r) && !m.ObserveFrame?
    ensures Recorded(Send(r, to, m))
  {
    if to.Some? { PutNeutral(r, Wire(to.value.socket, m)); }
  }

  /** The leave frame before the inactivity, sent from the state with its fields. */
  function Leaving(r: Relay, leave: bool, reason: Reason): Relay {
    var stopped := if r.watcher.Some? then Put(r, Stopped(r.watcher.value)) else r;
    if leave then Send(stopped, r.owner, LeaveFrame(reason)) else stopped
  }

  lemma LeavingRecorded(r: Relay, leave: bool, reason: Reason)
    requires Recorded(r)
    ensures Recorded(Leaving(r, leave, reason)) && Leaving(r, leave, reason).owner == r.owner
  {
    var stopped := if r.watcher.Some? then Put(r, Stopped(r.watcher.value)) else r;
    if r.watcher.Some? { PutNeutral(r, Stopped(r.watcher.value)); }
    SendNeutral(stopped, r.owner, LeaveFrame(reason));
  }

  lemma ClearSplits(r: Relay, leave: bool, reason: Reason)
    requires r.owner.Some?
    ensures Clear(r, leave, reason)
            == Put(Leaving(r, leave, reason), ToldInactive(r.owner.value.id))
               .(expected := None, binding := None, watcher := None, epoch := r.epoch + 1)
  {
  }

  lemma ClearRecorded(r: Relay, leave: bool, reason: Reason)
    requires Recorded(r) && Nested(r)
    ensures Recorded(Clear(r, leave, reason))
    ensures Mirrored(Clear(r, leave, reason).log, None, None)
  {
    if r.owner.Some? {
      LeavingRecorded(r, leave, reason);
      ClearSplits(r, leave, reason);
    }
  }

  // ----- every method keeps the record -----

  lemma StartRecorded(r: Relay)
    requires Recorded(r)
    ensures Recorded(Start(r))
  {
    if r.owner.Some? { PutNeutral(r, Started(Handle(r.owner.value, r.epoch))); }
  }

  lemma SetGameRecorded(r: Relay, running: bool)
    requires Recorded(r) && Nested(r)
    ensures Recorded(SetGameRunning(r, running))
  {
    if r.gameRunning != running {
      var set1 := r.(gameRunning := running);
      if !running { ClearGameExit(r); }
      var cleared := if !running then Clear(set1, true, GameExit) else set1;
      SendNeutral(cleared, cleared.owner, StatusFrame(running));
      if running { StartRecorded(Send(cleared, cleared.owner, StatusFrame(running))); }
    }
  }

  lemma ClearGameExit(r: Relay)
    requires Recorded(r) && Nested(r)
    ensures Recorded(Clear(r.(gameRunning := false), true, GameExit))
  {
    ClearRecorded(r, true, GameExit);
    assert Clear(r.(gameRunning := false), true, GameExit)
           == Clear(r, true, GameExit).(gameRunning := false);
  }

  /** A new owner is greeted before anything else can follow. */
  lemma OpenedRecorded(r: Relay, id: SocketId, socket: Socket, token: Option<string>)
    requires Recorded(r) && Nested(r) && socket in r.open
    ensures Recorded(Opened(r, id, socket, token))
  {
    if Admits(r, token) {
      var cleared := Clear(r, true, SocketReplaced);
      ClearRecorded(r, true, SocketReplaced);
      GreetRecorded(cleared.(owner := None), Owner(id, socket, token.value, cleared.epoch));
    }
  }

  lemma GreetRecorded(bare: Relay, owner: Owner)
    requires Recorded(bare) && bare.owner.None? && bare.binding.None? && owner.socket in bare.open
    ensures var owned := bare.(owner := Some(owner));
            var told := Send(owned, owned.owner, StatusFrame(owned.gameRunning));
            Recorded(Start(Send(told, told.owner, WatchFrame)))
  {
    var status, watch := Wire(owner.socket, StatusFrame(bare.gameRunning)), Wire(owner.socket, WatchFrame);
    PutNeutral(bare, status);
    PutNeutral(Put(bare, status), watch);
    var greeted := Put(Put(bare, status), watch);
    assert watch == greeted.log[|greeted.log| - 1];
    var owned := greeted.(owner := Some(owner));
    assert Mirrored(owned.log, owned.owner, owned.binding);
    StartRecorded(owned);
  }

  lemma SnapshotRecorded(r: Relay, h: Handle, s: Snapshot)
    requires Recorded(r) && Nested(r)
    ensures Recorded(OnSnapshot(r, h, s))
  {
    if IsCurrent(r, h) {
      if r.expected.None? || r.expected.value.key != Generation(s) {
        var quiet := Put(r, ToldInactive(h.owner.id)).(expected := None, binding := None);
        PutObserved(quiet, h, s);
      } else {
        PutObserved(r, h, s);
      }
    }
  }

  lemma PutObserved(r: Relay, h: Handle, s: Snapshot)
    requires Recorded(r) && r.owner == Some(h.owner)
    requires r.expected.Some? ==> r.expected.value.key == Generation(s)
    ensures var e := if r.expected.Some? then r.expected.value.(latestSequence := s.sequence) else FirstOf(s);
            Recorded(Send(Put(r, Observed(h, s)), Some(h.owner), ObserveFrame(s)).(expected := Some(e)))
  {
    var e := if r.expected.Some? then r.expected.value.(latestSequence := s.sequence) else FirstOf(s);
    PutSeen(r, h, s, e);
  }

  lemma PutSeen(r: Relay, h: Handle, s: Snapshot, e: Expected)
    requires Recorded(r) && r.owner == Some(h.owner)
    requires r.expected.Some? ==> r.expected.value.key == Generation(s)
    requires e == if r.expected.Some? then r.expected.value.(latestSequence := s.sequence) else FirstOf(s)
    ensures Recorded(Put(r, Observed(h, s)).(expected := Some(e)))
    ensures Greeted(Put(r, Observed(h, s)).log, h.owner.socket)
  {
  }

  lemma InactiveRecorded(r: Relay, h: Handle, reason: Reason)
    requires Recorded(r) && Nested(r)
    ensures Recorded(OnInactive(r, h, reason))
  {
    if IsCurrent(r, h) {
      SendNeutral(r, Some(h.owner), LeaveFrame(reason));
    }
  }

  lemma DeliverRecorded(r: Relay, id: SocketId, socket: Socket, f: Frame)
    requires Recorded(r) && Nested(r)
    ensures Recorded(Deliver(r, id, socket, f))
  {
    if Passes(r, id, socket, f) {
      if f.kind == BridgeState {
      } else {
        PutNeutral(r, Forwarded(id, socket, f));
      }
    }
  }

  lemma AuthRecorded(r: Relay, token: Option<string>)
    requires Recorded(r) && Nested(r)
    ensures Recorded(SetAuth(r, token))
  {
    if r.token != token {
      ClearRecorded(r, true, AccountChange);
    }
  }

  lemma StepRecorded(r: Relay, e: RelayEvent)
    requires Recorded(r) && Nested(r)
    ensures Recorded(StepRelay(r, e))
  {
    match e {
      case Auth(token) => AuthRecorded(r, token);
      case Game(running) => SetGameRecorded(r, running);
      case Up(id, socket, token) => OpenedRecorded(r.(open := r.open + {socket}), id, socket, token);
      case Down(gone) =>
      case Gone(id, socket) =>
        if OwnedBy(r, id, socket) {
          ClearRecorded(r, true, ExplicitInactive);
        }
      case Snap(h, s) => SnapshotRecorded(r, h, s);
      case Quiet(h, reason) => InactiveRecorded(r, h, reason);
      case Out(id, socket, m) =>
        var routed := Outgoing(r, id, socket, m);
        if routed.Some? { PutNeutral(r, Wire(socket, RendererFrame(routed.value))); }
      case In(id, socket, f) => DeliverRecorded(r, id, socket, f);
      case Quit =>
        ClearRecorded(r, true, AppQuit);
    }
  }

  /** Callbacks come only from watchers that were started. */
  predicate Possible(r: Relay, e: RelayEvent) {
    e.Snap? || e.Quiet? ==> Started(e.h) in r.log
  }

  lemma ClearBare(r: Relay, leave: bool, reason: Reason)
    ensures var next := Clear(r, leave, reason);
            && next.watcher.None? && next.expected.None? && next.binding.None?
            && next.environment == r.environment && next.token == r.token
            && next.gameRunning == r.gameRunning && next.owner == r.owner && next.epoch == r.epoch + 1
            && next.open == r.open
  {
  }

  lemma SendKeeps(r: Relay, to: Option<Owner>, m: WireMessage)
    ensures Send(r, to, m) == r.(log := Send(r, to, m).log)
  {
  }

  lemma StartNested(r: Relay)
    requires r.watcher.None? && r.expected.None? && r.binding.None?
    requires r.owner.Some? ==> Some(r.owner.value.token) == r.token && Usable(r.token)
    ensures Nested(Start(r))
  {
  }

  lemma OpenedNested(r: Relay, id: SocketId, socket: Socket, token: Option<string>)
    requires Nested(r)
    ensures Nested(Opened(r, id, socket, token))
  {
    if Admits(r, token) {
      var cleared := Clear(r, true, SocketReplaced);
      ClearBare(r, true, SocketReplaced);
      var owned := cleared.(owner := Some(Owner(id, socket, token.value, cleared.epoch)));
      SendKeeps(owned, owned.owner, StatusFrame(owned.gameRunning));
      var told := Send(owned, owned.owner, StatusFrame(owned.gameRunning));
      SendKeeps(told, told.owner, WatchFrame);
      StartNested(Send(told, told.owner, WatchFrame));
    }
  }

  lemma GameNested(r: Relay, running: bool)
    requires Nested(r)
    ensures Nested(SetGameRunning(r, running))
  {
    if r.gameRunning != running {
      var set1 := r.(gameRunning := running);
      if !running { ClearBare(set1, true, GameExit); }
      var cleared := if !running then Clear(set1, true, GameExit) else set1;
      SendKeeps(cleared, cleared.owner, StatusFrame(running));
      if running { StartNested(Send(cleared, cleared.owner, StatusFrame(running))); }
    }
  }

  /** The nesting is kept by every step. */
  lemma StepNested(r: Relay, e: RelayEvent)
    requires Nested(r) && Epochs(r.log, r.epoch, r.watcher) && Possible(r, e)
    ensures Nested(StepRelay(r, e))
  {
    match e {
      case Auth(token) => ClearBare(r, true, AccountChange);
      case Game(running) => GameNested(r, running);
      case Up(id, socket, token) => OpenedNested(r.(open := r.open + {socket}), id, socket, token);
      case Gone(id, socket) => ClearBare(r, true, ExplicitInactive);
      case Snap(h, s) => SnapNested(r, h, s);
      case Quiet(h, reason) => QuietNested(r, h, reason);
      case Quit => ClearBare(r, true, AppQuit);
      case _ =>
    }
  }

  lemma SnapNested(r: Relay, h: Handle, s: Snapshot)
    requires Nested(r) && (IsCurrent(r, h) ==> r.watcher.Some?)
    ensures Nested(OnSnapshot(r, h, s))
  {
  }

  lemma QuietNested(r: Relay, h: Handle, reason: Reason)
    requires Nested(r) && (IsCurrent(r, h) ==> r.watcher.Some?)
    ensures Nested(OnInactive(r, h, reason))
  {
  }

  lemma SendStarts(r: Relay, to: Option<Owner>, m: WireMessage, h: Handle)
    ensures Started(h) in Send(r, to, m).log <==> Started(h) in r.log
  {
  }

  lemma ClearStarts(r: Relay, leave: bool, reason: Reason, h: Handle)
    ensures Started(h) in Clear(r, leave, reason).log <==> Started(h) in r.log
  {
  }

  lemma ClearEpochs(r: Relay, leave: bool, reason: Reason)
    requires Epochs(r.log, r.epoch, r.watcher)
    ensures var next := Clear(r, leave, reason); Epochs(next.log, next.epoch, next.watcher)
  {
    forall h | Started(h) in Clear(r, leave, reason).log ensures Started(h) in r.log {
      ClearStarts(r, leave, reason, h);
    }
  }

  lemma SendEpochs(r: Relay, to: Option<Owner>, m: WireMessage)
    requires Epochs(r.log, r.epoch, r.watcher)
    ensures Epochs(Send(r, to, m).log, r.epoch, r.watcher)
  {
    forall h | Started(h) in Send(r, to, m).log ensures Started(h) in r.log {
      SendStarts(r, to, m, h);
    }
  }

  lemma StartEpochs(r: Relay)
    requires Epochs(r.log, r.epoch, r.watcher)
    ensures var next := Start(r); Epochs(next.log, next.epoch, next.watcher)
  {
  }

  lemma OpenedEpochs(r: Relay, id: SocketId, socket: Socket, token: Option<string>)
    requires Epochs(r.log, r.epoch, r.watcher)
    ensures var next := Opened(r, id, socket, token); Epochs(next.log, next.epoch, next.watcher)
  {
    if Admits(r, token) {
      var cleared := Clear(r, true, SocketReplaced);
      ClearEpochs(r, true, SocketReplaced);
      var owned := cleared.(owner := Some(Owner(id, socket, token.value, cleared.epoch)));
      SendEpochs(owned, owned.owner, StatusFrame(owned.gameRunning));
      var told := Send(owned, owned.owner, StatusFrame(owned.gameRunning));
      SendEpochs(told, told.owner, WatchFrame);
      StartEpochs(Send(told, told.owner, WatchFrame));
    }
  }

  lemma GameEpochs(r: Relay, running: bool)
    requires Epochs(r.log, r.epoch, r.watcher)
    ensures var next := SetGameRunning(r, running); Epochs(next.log, next.epoch, next.watcher)
  {
    if r.gameRunning != running {
      var set1 := r.(gameRunning := running);
      if !running { ClearEpochs(set1, true, GameExit); }
      var cleared := if !running then Clear(set1, true, GameExit) else set1;
      SendEpochs(cleared, cleared.owner, StatusFrame(running));
      StartEpochs(Send(cleared, cleared.owner, StatusFrame(running)));
    }
  }

  lemma SnapEpochs(r: Relay, h: Handle, s: Snapshot)
    requires Epochs(r.log, r.epoch, r.watcher)
    ensures Epochs(OnSnapshot(r, h, s).log, r.epoch, r.watcher)
  {
    forall g | Started(g) in OnSnapshot(r, h, s).log ensures Started(g) in r.log {
    }
  }

  lemma QuietEpochs(r: Relay, h: Handle, reason: Reason)
    requires Epochs(r.log, r.epoch, r.watcher)
    ensures Epochs(OnInactive(r, h, reason).log, r.epoch, r.watcher)
  {
    forall g | Started(g) in OnInactive(r, h, reason).log ensures Started(g) in r.log {
    }
  }

  lemma StepEpochs(r: Relay, e: RelayEvent)
    requires Epochs(r.log, r.epoch, r.watcher)
    ensures var next := StepRelay(r, e); Epochs(next.log, next.epoch, next.watcher)
  {
    match e {
      case Auth(token) => ClearEpochs(r, true, AccountChange);
      case Game(running) => GameEpochs(r, running);
      case Up(id, socket, token) => OpenedEpochs(r.(open := r.open + {socket}), id, socket, token);
      case Gone(id, socket) => ClearEpochs(r, true, ExplicitInactive);
      case Snap(h, s) => SnapEpochs(r, h, s);
      case Quiet(h, reason) => QuietEpochs(r, h, reason);
      case Quit => ClearEpochs(r, true, AppQuit);
      case _ =>
    }
  }

  // ----- runs -----

  /** Every callback of the run belongs to a watcher started before it. */
  predicate Legal(r: Relay, es: seq<RelayEvent>)
    decreases es
  {
    es != [] ==> Possible(r, es[0]) && Legal(StepRelay(r, es[0]), es[1..])
  }

  lemma StepOk(r: Relay, e: RelayEvent)
    requires RelayOk(r) && Possible(r, e)
    ensures RelayOk(StepRelay(r, e))
  {
    StepNested(r, e);
    StepRecorded(r, e);
    StepEpochs(r, e);
  }

  lemma {:induction false} RunOk(r: Relay, es: seq<RelayEvent>)
    requires RelayOk(r) && Legal(r, es)
    ensures RelayOk(RunRelay(r, es))
    decreases es
  {
    if es != [] {
      StepOk(r, es[0]);
      RunOk(StepRelay(r, es[0]), es[1..]);
    }
  }

  lemma Reachable(environment: Option<string>, es: seq<RelayEvent>)
    requires Legal(NewRelay(environment), es)
    ensures RelayOk(RunRelay(NewRelay(environment), es))
  {
    RunOk(NewRelay(environment), es);
  }

  // ----- what every run guarantees -----

  /** In every reachable state a binding needs an expected interval, that needs
      the watcher of this epoch, and a watcher runs exactly while there is an
      environment, a token, the game and an owner holding that very token. */
  lemma NestingAlwaysHolds(environment: Option<string>, es: seq<RelayEvent>)
    requires Legal(NewRelay(environment), es)
    ensures Nested(RunRelay(NewRelay(environment), es))
  {
    Reachable(environment, es);
  }

  /** A callback of any watcher but the current one changes nothing and sends
      nothing. */
  lemma StaleCallbacksAreMute(environment: Option<string>, es: seq<RelayEvent>, e: RelayEvent)
    requires Legal(NewRelay(environment), es) && (e.Snap? || e.Quiet?)
    requires Possible(RunRelay(NewRelay(environment), es), e)
    ensures var r := RunRelay(NewRelay(environment), es);
            r.watcher != Some(e.h) ==> StepRelay(r, e) == r
  {
    Reachable(environment, es);
  }

  /** What was last told to any renderer socket is exactly the binding held for
      it: ready with that binding if it is the owner's, not ready otherwise. */
  lemma RendererSeesTheState(environment: Option<string>, es: seq<RelayEvent>, id: SocketId)
    requires Legal(NewRelay(environment), es)
    ensures var r := RunRelay(NewRelay(environment), es);
            RendererView(r.log, id) == Expectation(r.owner, r.binding, id)
  {
    Reachable(environment, es);
  }

  /** The binding a chat frame names, if its two fields are texts. */
  function NamedBinding(f: Frame): Option<Binding> {
    var c, b := At(f, ChannelId), At(f, BridgeBindingId);
    if c.Some? && c.value.Str? && b.Some? && b.value.Str? then Some(Binding(b.value.s, c.value.s)) else None
  }

  /** A server-bound chat frame passes exactly when the last bridge:state told
      to its socket was ready with the binding the frame names. */
  lemma ChatPassesExactly(environment: Option<string>, es: seq<RelayEvent>, id: SocketId, socket: Socket, f: Frame)
    requires Legal(NewRelay(environment), es) && ServerBound(f)
    ensures var r := RunRelay(NewRelay(environment), es);
            Outgoing(r, id, socket, Framed(f)).Some?
            <==> NamedBinding(f).Some? && RendererView(r.log, id) == Ready(socket, NamedBinding(f).value)
  {
    Reachable(environment, es);
  }

  /** Entry k forwarded the ready frame for b on this very socket, it was inside
      the interval observed then, and nothing has been revoked since. */
  predicate AcknowledgedAt(log: seq<Effect>, k: nat, id: SocketId, socket: Socket, b: Binding) {
    && k < |log| && log[k].Forwarded? && log[k].id == id && log[k].socket == socket
    && SaysReady(log[k].frame) && HasBinding(log[k].frame) && BindingOf(log[k].frame) == b
    && WindowOf(log[..k]).Some? && Acknowledges(log[k].frame, WindowOf(log[..k]).value)
    && (forall j :: k < j < |log| ==> !IsStateTo(log[j]))
    && WindowOf(log).Some? && SameStart(WindowOf(log[..k]).value, WindowOf(log).value)
  }

  /** The interval may only have been extended inside its generation. */
  predicate SameStart(a: Expected, b: Expected) {
    b == a.(latestSequence := b.latestSequence)
  }

  ghost predicate Acknowledged(log: seq<Effect>, id: SocketId, socket: Socket, b: Binding) {
    exists k: nat :: AcknowledgedAt(log, k, id, socket, b)
  }

  lemma {:induction false} ReadyHasGround(log: seq<Effect>, id: SocketId, socket: Socket, b: Binding)
    requires LogOk(log) && RendererView(log, id) == Ready(socket, b)
    ensures Acknowledged(log, id, socket, b)
    decreases log
  {
    var before, e := log[..|log| - 1], log[|log| - 1];
    if IsStateTo(e) {
      assert AcknowledgedAt(log, |log| - 1, id, socket, b);
    } else {
      ReadyHasGround(before, id, socket, b);
      var k: nat :| AcknowledgedAt(before, k, id, socket, b);
      assert before[..k] == log[..k];
      assert AcknowledgedAt(log, k, id, socket, b);
    }
  }

  lemma GroundIsReady(log: seq<Effect>, k: nat, id: SocketId, socket: Socket, b: Binding)
    requires AcknowledgedAt(log, k, id, socket, b)
    ensures RendererView(log, id) == Ready(socket, b)
  {
    ViewSince(log, k, id);
  }

  lemma {:induction false} ViewSince(log: seq<Effect>, k: nat, id: SocketId)
    requires k < |log| && forall j :: k < j < |log| ==> !IsStateTo(log[j])
    ensures RendererView(log, id) == RendererView(log[..k + 1], id)
    decreases log
  {
    if k == |log| - 1 {
      assert log[..k + 1] == log;
    } else {
      var before := log[..|log| - 1];
      ViewSince(before, k, id);
      assert before[..k + 1] == log[..k + 1];
    }
  }

  /** Safety of the room chat: a server-bound chat frame passes exactly when it
      names the channel and binding of a ready frame the server sent on that same
      socket, accepted for a sequence inside the interval observed then, with no
      leave, inactivity, generation change or other bridge:state since. */
  lemma ChatPassesIffAcknowledged(environment: Option<string>, es: seq<RelayEvent>,
                                  id: SocketId, socket: Socket, f: Frame)
    requires Legal(NewRelay(environment), es) && ServerBound(f)
    ensures var r := RunRelay(NewRelay(environment), es);
            Outgoing(r, id, socket, Framed(f)).Some?
            <==> NamedBinding(f).Some? && Acknowledged(r.log, id, socket, NamedBinding(f).value)
  {
    Reachable(environment, es);
    ChatPassesExactly(environment, es, id, socket, f);
    var log := RunRelay(NewRelay(environment), es).log;
    if NamedBinding(f).Some? {
      var b := NamedBinding(f).value;
      if RendererView(log, id) == Ready(socket, b) {
        ReadyHasGround(log, id, socket, b);
      }
      if Acknowledged(log, id, socket, b) {
        var k: nat :| AcknowledgedAt(log, k, id, socket, b);
        GroundIsReady(log, k, id, socket, b);
      }
    }
  }

  // ----- observations on the wire -----

  /** Every observation on the wire is one of the pool. */
  ghost predicate DrawnFrom(log: seq<Effect>, pool: iset<Snapshot>) {
    forall i :: 0 <= i < |log| && log[i].Wire? && log[i].msg.ObserveFrame? ==> log[i].msg.s in pool
  }

  lemma ClearDraws(r: Relay, leave: bool, reason: Reason, pool: iset<Snapshot>)
    requires DrawnFrom(r.log, pool)
    ensures DrawnFrom(Clear(r, leave, reason).log, pool)
  {
  }

  lemma SendDraws(r: Relay, to: Option<Owner>, m: WireMessage, pool: iset<Snapshot>)
    requires DrawnFrom(r.log, pool) && (m.ObserveFrame? ==> m.s in pool)
    ensures DrawnFrom(Send(r, to, m).log, pool)
  {
  }

  lemma OpenedDraws(r: Relay, id: SocketId, socket: Socket, token: Option<string>, pool: iset<Snapshot>)
    requires DrawnFrom(r.log, pool)
    ensures DrawnFrom(Opened(r, id, socket, token).log, pool)
  {
    if Admits(r, token) {
      var cleared := Clear(r, true, SocketReplaced);
      ClearDraws(r, true, SocketReplaced, pool);
      var owned := cleared.(owner := Some(Owner(id, socket, token.value, cleared.epoch)));
      SendDraws(owned, owned.owner, StatusFrame(owned.gameRunning), pool);
      var told := Send(owned, owned.owner, StatusFrame(owned.gameRunning));
      SendDraws(told, told.owner, WatchFrame, pool);
    }
  }

  lemma GameDraws(r: Relay, running: bool, pool: iset<Snapshot>)
    requires DrawnFrom(r.log, pool)
    ensures DrawnFrom(SetGameRunning(r, running).log, pool)
  {
    if r.gameRunning != running {
      var set1 := r.(gameRunning := running);
      if !running { ClearDraws(set1, true, GameExit, pool); }
      var cleared := if !running then Clear(set1, true, GameExit) else set1;
      SendDraws(cleared, cleared.owner, StatusFrame(running), pool);
    }
  }

  /** Only a callback puts an observation on the wire, and it is its own. */
  lemma StepDraws(r: Relay, e: RelayEvent, pool: iset<Snapshot>)
    requires DrawnFrom(r.log, pool) && (e.Snap? ==> e.s in pool)
    ensures DrawnFrom(StepRelay(r, e).log, pool)
  {
    match e {
      case Auth(token) => ClearDraws(r, true, AccountChange, pool);
      case Game(running) => GameDraws(r, running, pool);
      case Up(id, socket, token) => OpenedDraws(r.(open := r.open + {socket}), id, socket, token, pool);
      case Gone(id, socket) => ClearDraws(r, true, ExplicitInactive, pool);
      case Quit => ClearDraws(r, true, AppQuit, pool);
      case _ =>
    }
  }

  /** A socket hears bridge:watch before its first observation. */
  lemma {:induction false} WatchComesFirst(log: seq<Effect>, k: nat)
    requires LogOk(log) && k < |log| && log[k].Wire? && log[k].msg.ObserveFrame?
    ensures exists j :: 0 <= j < k && log[j] == Wire(log[k].socket, WatchFrame)
    decreases log
  {
    var before := log[..|log| - 1];
    if k == |log| - 1 {
      assert Greeted(before, log[k].socket);
      var j :| 0 <= j < |before| && before[j] == Wire(log[k].socket, WatchFrame);
      assert log[j] == before[j];
    } else {
      assert before[k] == log[k];
      WatchComesFirst(before, k);
      var j :| 0 <= j < k && before[j] == Wire(log[k].socket, WatchFrame);
      assert log[j] == before[j];
    }
  }
}
