/** The relay with its real watchers: file reads, timers, sockets and account
    changes in any order. */
module BridgePipeline {
  import opened Texts
  import opened Snapshots
  import EC = ExportCursors
  import EW = ExportWatch
  import opened BridgeRelay
  import opened BridgeRuns

  /** Every watcher ever started is kept, stopped ones included: their timers and
      reads may still be under way. */
  datatype Pipeline = Pipeline(relay: Relay, watchers: map<Handle, EW.Watcher>)

  datatype PipeEvent =
    | Api(e: RelayEvent)                       // anything but a watcher's callback
    | Watching(h: Handle, w: EW.WatchEvent)    // a step of one watcher

  function NewPipeline(environment: Option<string>): Pipeline {
    Pipeline(NewRelay(environment), map[])
  }

  function Notify(r: Relay, h: Handle, calls: seq<EW.Output>): Relay {
    if calls == [] then r
    else match calls[0]
      case Publish(_, s, _) => StepRelay(r, Snap(h, s))
      case Quiet(reason, _) => StepRelay(r, RelayEvent.Quiet(h, reason))
  }

  /** clear stops the watcher it held; start makes a new one. */
  function Rewatch(ws: map<Handle, EW.Watcher>, before: Relay, after: Relay): map<Handle, EW.Watcher> {
    if before.watcher == after.watcher then ws else
    var halted := if before.watcher.Some? && before.watcher.value in ws
                  then ws[before.watcher.value := ws[before.watcher.value].(stopped := true)] else ws;
    if after.watcher.Some? && after.environment.Some?
    then halted[after.watcher.value := EW.NewWatcher(after.environment.value)] else halted
  }

  /** The calls a watcher's step makes: at most one. */
  function NewCalls(p: Pipeline, h: Handle, w: EW.WatchEvent): (calls: seq<EW.Output>)
    requires h in p.watchers
  {
    EW.OneCallPerStep(p.watchers[h], w);
    EW.Step(p.watchers[h], w).outputs[|p.watchers[h].outputs|..]
  }

  function StepPipe(p: Pipeline, e: PipeEvent): Pipeline {
    match e
    case Api(a) =>
      var next := StepRelay(p.relay, a);
      Pipeline(next, Rewatch(p.watchers, p.relay, next))
    case Watching(h, w) =>
      if h !in p.watchers then p else
      Pipeline(Notify(p.relay, h, NewCalls(p, h, w)), p.watchers[h := EW.Step(p.watchers[h], w)])
  }

  function RunPipe(p: Pipeline, es: seq<PipeEvent>): Pipeline
    decreases es
  {
    if es == [] then p else RunPipe(StepPipe(p, es[0]), es[1..])
  }

  predicate Fair(e: PipeEvent, now: real) {
    match e
    case Api(a) => !a.Snap? && !a.Quiet?
    case Watching(_, w) => now <= w.now && EW.Listed(w) && !w.Stop?   // only clear stops a watcher
  }

  function ClockAfter(e: PipeEvent, now: real): real {
    match e case Api(_) => now case Watching(_, w) => w.now
  }

  /** Time never goes back, and callbacks come only out of watchers. */
  predicate Plausible(es: seq<PipeEvent>, now: real)
    decreases es
  {
    es != [] ==> Fair(es[0], now) && Plausible(es[1..], ClockAfter(es[0], now))
  }

  // ----- what a watcher's calls mean to the relay -----

  /** The interval the relay should hold after these calls. */
  function Aimed(calls: seq<EW.Output>): Option<Expected> {
    if calls == [] then None else
    var before, o := Aimed(calls[..|calls| - 1]), calls[|calls| - 1];
    match o
    case Quiet(_, _) => None
    case Publish(_, s, _) =>
      if before.Some? && before.value.key == Generation(s)
      then Some(before.value.(latestSequence := s.sequence)) else Some(FirstOf(s))
  }

  /** Every publication comes from a candidate of the snapshot's own provider. */
  predicate Sourced(calls: seq<EW.Output>, cs: seq<EW.Candidate>) {
    forall i :: 0 <= i < |calls| && calls[i].Publish? ==> From(calls[i], cs)
  }

  predicate From(o: EW.Output, cs: seq<EW.Candidate>)
    requires o.Publish?
  {
    exists j :: 0 <= j < |cs| && cs[j].key == o.key && cs[j].provider == o.snapshot.provider
  }

  /** Everything any watcher published so far. */
  ghost function Published(ws: map<Handle, EW.Watcher>): iset<Snapshot> {
    iset s: Snapshot | WasPublished(ws, s)
  }

  ghost predicate WasPublished(ws: map<Handle, EW.Watcher>, s: Snapshot) {
    exists h, i :: PublishedAt(ws, h, i, s)
  }

  predicate PublishedAt(ws: map<Handle, EW.Watcher>, h: Handle, i: int, s: Snapshot) {
    && h in ws && 0 <= i < |ws[h].outputs|
    && ws[h].outputs[i].Publish? && ws[h].outputs[i].snapshot == s
  }

  predicate WatcherFine(w: EW.Watcher, now: real) {
    EW.WatcherOk(w, now) && Sourced(w.outputs, w.candidates)
  }

  predicate Watched(p: Pipeline, now: real) {
    && (forall h :: h in p.watchers ==> WatcherFine(p.watchers[h], now))
    && (forall h :: h in p.watchers && p.relay.watcher != Some(h) ==> p.watchers[h].stopped)
    && (p.relay.watcher.Some? ==>
          && p.relay.watcher.value in p.watchers
          && p.relay.expected == Aimed(p.watchers[p.relay.watcher.value].outputs))
  }

  ghost predicate PipeOk(p: Pipeline, now: real) {
    && RelayOk(p.relay) && DrawnFrom(p.relay.log, Published(p.watchers))
    && (forall h :: h in p.watchers <==> Started(h) in p.relay.log)
    && Watched(p, now)
  }

  // ----- one watcher's step -----

  lemma SettleSourced(w: EW.Watcher, rows: seq<EW.Row>, now: real)
    requires EW.WatcherOk(w, now) && w.phase == EW.Reading(rows) && Sourced(w.outputs, w.candidates)
    ensures Sourced(EW.Settle(w, rows, now).outputs, w.candidates)
  {
    var active := EW.Actives(w, rows, now, |rows|);
    EW.SoleExact(w, rows, now);
    if |active| == 1 {
      var i := active[0];
      var key := w.candidates[i].key;
      assert EW.RowOk(rows[i], w.cursors[key], now);
      var o := EW.Publish(key, EW.Aged(rows[i].snapshot.value, rows[i].started, now), now);
      assert w.candidates[i].key == o.key && w.candidates[i].provider == o.snapshot.provider;
    }
  }

  lemma StepSourced(w: EW.Watcher, e: EW.WatchEvent)
    requires WatcherFine(w, e.now)
    ensures Sourced(EW.Step(w, e).outputs, EW.Step(w, e).candidates)
  {
    if e.Discovered? && w.phase.Discovering? {
    } else if e.PassDone? && w.phase.Reading? {
      SettleSourced(w, w.phase.rows, e.now);
    }
  }

  lemma WatcherStepFine(w: EW.Watcher, e: EW.WatchEvent, now: real)
    requires WatcherFine(w, now) && now <= e.now && EW.Listed(e)
    ensures WatcherFine(EW.Step(w, e), e.now)
  {
    EW.TimePasses(w, now, e.now);
    StepSourced(w, e);
    EW.StepKeeps(w, e, now);
  }

  lemma NotifyCurrent(r: Relay, h: Handle, calls: seq<EW.Output>, o: EW.Output)
    requires Nested(r) && r.watcher == Some(h) && r.expected == Aimed(calls)
    ensures var next := Notify(r, h, [o]);
            next.watcher == r.watcher && next.expected == Aimed(calls + [o])
  {
  }

  lemma NotifyOk(r: Relay, h: Handle, calls: seq<EW.Output>, pool: iset<Snapshot>)
    requires RelayOk(r) && DrawnFrom(r.log, pool) && Started(h) in r.log && |calls| <= 1
    requires forall i :: 0 <= i < |calls| && calls[i].Publish? ==> calls[i].snapshot in pool
    ensures RelayOk(Notify(r, h, calls)) && DrawnFrom(Notify(r, h, calls).log, pool)
    ensures forall g :: Started(g) in Notify(r, h, calls).log <==> Started(g) in r.log
  {
    if calls != [] {
      var e := match calls[0]
        case Publish(_, s, _) => Snap(h, s)
        case Quiet(reason, _) => RelayEvent.Quiet(h, reason);
      StepOk(r, e);
      StepDraws(r, e, pool);
      CallbackStarts(r, e);
    }
  }

  lemma CallbackStarts(r: Relay, e: RelayEvent)
    requires e.Snap? || e.Quiet?
    ensures forall g :: Started(g) in StepRelay(r, e).log <==> Started(g) in r.log
  {
  }

  lemma NewCallsFine(p: Pipeline, h: Handle, w: EW.WatchEvent, now: real)
    requires h in p.watchers && WatcherFine(p.watchers[h], now) && now <= w.now && EW.Listed(w)
    ensures var calls := NewCalls(p, h, w);
            && |calls| <= 1 && EW.Step(p.watchers[h], w).outputs == p.watchers[h].outputs + calls
            && (p.watchers[h].stopped ==> calls == [])
  {
    var before, next, calls := p.watchers[h], EW.Step(p.watchers[h], w), NewCalls(p, h, w);
    EW.OneCallPerStep(before, w);
  }

  /** The relay holds the interval its current watcher's calls aim at. */
  lemma RelayFollows(p: Pipeline, h: Handle, w: EW.WatchEvent, now: real)
    requires Nested(p.relay) && Watched(p, now) && Fair(Watching(h, w), now) && h in p.watchers
    ensures var next := Notify(p.relay, h, NewCalls(p, h, w));
            && next.watcher == p.relay.watcher
            && (p.relay.watcher == Some(h) ==> next.expected == Aimed(EW.Step(p.watchers[h], w).outputs))
            && (p.relay.watcher != Some(h) ==> next == p.relay)
  {
    var calls := NewCalls(p, h, w);
    NewCallsFine(p, h, w, now);
    if p.relay.watcher == Some(h) {
      if calls != [] {
        assert calls == [calls[0]];
        NotifyCurrent(p.relay, h, p.watchers[h].outputs, calls[0]);
      } else {
        assert p.watchers[h].outputs + calls == p.watchers[h].outputs;
      }
    }
  }

  lemma WatchedLater(p: Pipeline, now: real, later: real)
    requires Watched(p, now) && now <= later
    ensures Watched(p, later)
  {
    forall g | g in p.watchers ensures WatcherFine(p.watchers[g], later) {
      EW.TimePasses(p.watchers[g], now, later);
    }
  }

  /** The watchers stay fine, and stopped unless the relay holds them. */
  predicate WatchersFine(ws: map<Handle, EW.Watcher>, current: Option<Handle>, now: real) {
    && (forall h :: h in ws ==> WatcherFine(ws[h], now))
    && (forall h :: h in ws && current != Some(h) ==> ws[h].stopped)
  }

  lemma WatchedAfter(p: Pipeline, h: Handle, w: EW.WatchEvent, now: real)
    requires Nested(p.relay) && Watched(p, now) && Fair(Watching(h, w), now) && h in p.watchers
    ensures Watched(StepPipe(p, Watching(h, w)), w.now)
  {
    RelayFollows(p, h, w, now);
    WatchedLater(p, now, w.now);
    WatcherStepFine(p.watchers[h], w, now);
  }

  /** A watcher's step adds its own calls to what was published. */
  lemma PoolMovesOn(p: Pipeline, h: Handle, w: EW.WatchEvent)
    requires h in p.watchers
    ensures var pool := Published(StepPipe(p, Watching(h, w)).watchers);
            && Published(p.watchers) <= pool
            && forall i :: 0 <= i < |NewCalls(p, h, w)| && NewCalls(p, h, w)[i].Publish? ==>
                 NewCalls(p, h, w)[i].snapshot in pool
  {
    var (ws, calls) := (StepPipe(p, Watching(h, w)).watchers, NewCalls(p, h, w));
    var (before, next) := (p.watchers[h].outputs, ws[h].outputs);
    EW.OneCallPerStep(p.watchers[h], w);
    forall s | s in Published(p.watchers) ensures s in Published(ws) {
      var g, i :| PublishedAt(p.watchers, g, i, s);
      assert g == h ==> next[i] == before[i];
      assert PublishedAt(ws, g, i, s);
    }
    forall i | 0 <= i < |calls| && calls[i].Publish? ensures calls[i].snapshot in Published(ws) {
      assert PublishedAt(ws, h, |before| + i, calls[i].snapshot);
    }
  }

  lemma WatchingKeeps(p: Pipeline, h: Handle, w: EW.WatchEvent, now: real)
    requires PipeOk(p, now) && Fair(Watching(h, w), now)
    ensures PipeOk(StepPipe(p, Watching(h, w)), w.now)
  {
    if h in p.watchers {
      NewCallsFine(p, h, w, now);
      PoolMovesOn(p, h, w);
      NotifyOk(p.relay, h, NewCalls(p, h, w), Published(StepPipe(p, Watching(h, w)).watchers));
      WatchedAfter(p, h, w, now);
    } else {
      WatchedLater(p, now, w.now);
    }
  }

  // ----- the relay's own methods -----

  /** A method either keeps the watcher and its interval or drops the interval. */
  lemma ApiTurns(r: Relay, a: RelayEvent)
    requires Nested(r) && !a.Snap? && !a.Quiet?
    ensures var next := StepRelay(r, a);
            && next.environment == r.environment
            && (next.watcher == r.watcher && r.watcher.Some? ==> next.expected == r.expected)
            && (next.watcher != r.watcher ==> next.expected.None?)
  {
    match a {
      case Auth(token) => ClearBare(r, true, EC.AccountChange);
      case Game(running) => GameTurns(r, running);
      case Up(id, socket, token) => OpenedTurns(r.(open := r.open + {socket}), id, socket, token);
      case Gone(id, socket) => ClearBare(r, true, EC.ExplicitInactive);
      case Quit => ClearBare(r, true, EC.AppQuit);
      case _ =>
    }
  }

  lemma OpenedTurns(r: Relay, id: SocketId, socket: Socket, token: Option<string>)
    requires Nested(r)
    ensures var next := Opened(r, id, socket, token);
            && next.environment == r.environment
            && (next == r || (next.expected.None? && (r.watcher.Some? ==> next.watcher != r.watcher)))
  {
    if Admits(r, token) {
      var cleared := Clear(r, true, EC.SocketReplaced);
      ClearBare(r, true, EC.SocketReplaced);
      var owned := cleared.(owner := Some(Owner(id, socket, token.value, cleared.epoch)));
      SendKeeps(owned, owned.owner, StatusFrame(owned.gameRunning));
      var told := Send(owned, owned.owner, StatusFrame(owned.gameRunning));
      SendKeeps(told, told.owner, WatchFrame);
    }
  }

  lemma GameTurns(r: Relay, running: bool)
    requires Nested(r)
    ensures var next := SetGameRunning(r, running);
            && next.environment == r.environment
            && (next == r || (next.expected.None? && (r.watcher.Some? ==> next.watcher != r.watcher)))
  {
    if r.gameRunning != running {
      var set1 := r.(gameRunning := running);
      if !running { ClearBare(set1, true, EC.GameExit); }
      var cleared := if !running then Clear(set1, true, EC.GameExit) else set1;
      SendKeeps(cleared, cleared.owner, StatusFrame(running));
    }
  }

  lemma StartStarts(r: Relay, g: Handle)
    ensures Started(g) in Start(r).log <==>
            Started(g) in r.log || (Start(r).watcher == Some(g) && r.watcher != Some(g))
  {
  }

  lemma OpenedStarts(r: Relay, id: SocketId, socket: Socket, token: Option<string>, g: Handle)
    requires Nested(r) && Epochs(r.log, r.epoch, r.watcher)
    ensures var next := Opened(r, id, socket, token);
            Started(g) in next.log <==> Started(g) in r.log || (next.watcher == Some(g) && r.watcher != Some(g))
  {
    if Admits(r, token) {
      var cleared := Clear(r, true, EC.SocketReplaced);
      ClearBare(r, true, EC.SocketReplaced);
      ClearStarts(r, true, EC.SocketReplaced, g);
      var owned := cleared.(owner := Some(Owner(id, socket, token.value, cleared.epoch)));
      SendStarts(owned, owned.owner, StatusFrame(owned.gameRunning), g);
      SendKeeps(owned, owned.owner, StatusFrame(owned.gameRunning));
      var told := Send(owned, owned.owner, StatusFrame(owned.gameRunning));
      SendStarts(told, told.owner, WatchFrame, g);
      SendKeeps(told, told.owner, WatchFrame);
      StartStarts(Send(told, told.owner, WatchFrame), g);
    }
  }

  lemma GameStarts(r: Relay, running: bool, g: Handle)
    requires Nested(r)
    ensures var next := SetGameRunning(r, running);
            Started(g) in next.log <==> Started(g) in r.log || (next.watcher == Some(g) && r.watcher != Some(g))
  {
    if r.gameRunning != running {
      var set1 := r.(gameRunning := running);
      if !running {
        ClearStarts(set1, true, EC.GameExit, g);
        ClearBare(set1, true, EC.GameExit);
      }
      var cleared := if !running then Clear(set1, true, EC.GameExit) else set1;
      SendStarts(cleared, cleared.owner, StatusFrame(running), g);
      SendKeeps(cleared, cleared.owner, StatusFrame(running));
      StartStarts(Send(cleared, cleared.owner, StatusFrame(running)), g);
    }
  }

  /** The watchers ever started are the old ones and the one just set. */
  lemma ApiStarts(r: Relay, a: RelayEvent, g: Handle)
    requires Nested(r) && Epochs(r.log, r.epoch, r.watcher) && !a.Snap? && !a.Quiet?
    ensures var next := StepRelay(r, a);
            Started(g) in next.log <==> Started(g) in r.log || (next.watcher == Some(g) && r.watcher != Some(g))
  {
    match a {
      case Auth(token) => ClearStarts(r, true, EC.AccountChange, g); ClearBare(r, true, EC.AccountChange);
      case Game(running) => GameStarts(r, running, g);
      case Up(id, socket, token) => OpenedStarts(r.(open := r.open + {socket}), id, socket, token, g);
      case Gone(id, socket) => ClearStarts(r, true, EC.ExplicitInactive, g); ClearBare(r, true, EC.ExplicitInactive);
      case Quit => ClearStarts(r, true, EC.AppQuit, g); ClearBare(r, true, EC.AppQuit);
      case _ =>
    }
  }

  lemma RewatchFine(p: Pipeline, next: Relay, now: real)
    requires Watched(p, now) && Nested(next) && next.environment == p.relay.environment
    requires next.watcher == p.relay.watcher && p.relay.watcher.Some? ==> next.expected == p.relay.expected
    requires next.watcher != p.relay.watcher ==> next.expected.None?
    ensures Watched(Pipeline(next, Rewatch(p.watchers, p.relay, next)), now)
  {
    RewatchersFine(p.watchers, p.relay, next, now);
  }

  lemma RewatchersFine(ws: map<Handle, EW.Watcher>, before: Relay, after: Relay, now: real)
    requires WatchersFine(ws, before.watcher, now)
    ensures WatchersFine(Rewatch(ws, before, after), after.watcher, now)
  {
    if after.environment.Some? { EW.NewWatcherOk(after.environment.value, now); }
  }

  /** A method starts only a watcher that was never started before. */
  lemma NewHandle(r: Relay, a: RelayEvent, g: Handle)
    requires Epochs(r.log, r.epoch, r.watcher) && Nested(StepRelay(r, a))
    requires StepRelay(r, a).watcher == Some(g) && r.watcher != Some(g)
    ensures Started(g) !in r.log
  {
  }

  /** A method forgets nothing that was published. */
  lemma PoolStays(p: Pipeline, next: Relay)
    requires next.watcher != p.relay.watcher && next.watcher.Some? ==> next.watcher.value !in p.watchers
    ensures Published(p.watchers) <= Published(Rewatch(p.watchers, p.relay, next))
  {
    var ws := Rewatch(p.watchers, p.relay, next);
    forall s | s in Published(p.watchers) ensures s in Published(ws) {
      var g, i :| PublishedAt(p.watchers, g, i, s);
      assert PublishedAt(ws, g, i, s);
    }
  }

  lemma ApiKeeps(p: Pipeline, a: RelayEvent, now: real)
    requires PipeOk(p, now) && Fair(Api(a), now)
    ensures PipeOk(StepPipe(p, Api(a)), now)
  {
    var next := StepRelay(p.relay, a);
    StepOk(p.relay, a);
    ApiDraws(p, a, now);
    ApiTurns(p.relay, a);
    RewatchFine(p, next, now);
    ApiKeys(p, a, now);
  }

  lemma ApiDraws(p: Pipeline, a: RelayEvent, now: real)
    requires PipeOk(p, now) && Fair(Api(a), now) && Nested(StepRelay(p.relay, a))
    ensures var next := StepRelay(p.relay, a);
            DrawnFrom(next.log, Published(Rewatch(p.watchers, p.relay, next)))
  {
    var next := StepRelay(p.relay, a);
    if next.watcher.Some? && next.watcher != p.relay.watcher { NewHandle(p.relay, a, next.watcher.value); }
    PoolStays(p, next);
    StepDraws(p.relay, a, Published(p.watchers));
  }

  lemma ApiKeys(p: Pipeline, a: RelayEvent, now: real)
    requires PipeOk(p, now) && Fair(Api(a), now) && Nested(StepRelay(p.relay, a))
    ensures var next := StepRelay(p.relay, a);
            forall g :: Started(g) in next.log <==> g in Rewatch(p.watchers, p.relay, next)
  {
    var next := StepRelay(p.relay, a);
    forall g ensures Started(g) in next.log <==> g in Rewatch(p.watchers, p.relay, next) {
      ApiStarts(p.relay, a, g);
    }
  }

  function EndClock(es: seq<PipeEvent>, now: real): real
    decreases es
  {
    if es == [] then now else EndClock(es[1..], ClockAfter(es[0], now))
  }

  lemma {:induction false} RunPipeOk(p: Pipeline, es: seq<PipeEvent>, now: real)
    requires PipeOk(p, now) && Plausible(es, now)
    ensures PipeOk(RunPipe(p, es), EndClock(es, now))
    decreases es
  {
    if es != [] {
      match es[0] {
        case Api(a) => ApiKeeps(p, a, now);
        case Watching(h, w) => WatchingKeeps(p, h, w, now);
      }
      RunPipeOk(StepPipe(p, es[0]), es[1..], ClockAfter(es[0], now));
    }
  }

  lemma PipelineReachable(environment: Option<string>, es: seq<PipeEvent>, now: real)
    requires Plausible(es, now)
    ensures PipeOk(RunPipe(NewPipeline(environment), es), EndClock(es, now))
  {
    RunPipeOk(NewPipeline(environment), es, now);
  }

  // ----- the observed interval -----

  /** Publications of one generation come from one file. */
  predicate OneFilePerGeneration(calls: seq<EW.Output>) {
    forall i, j :: 0 <= i < |calls| && 0 <= j < |calls| ==> SameFile(calls[i], calls[j])
  }

  predicate SameFile(a: EW.Output, b: EW.Output) {
    a.Publish? && b.Publish? && Generation(a.snapshot) == Generation(b.snapshot) ==> a.key == b.key
  }

  predicate DistinctProviders(cs: seq<EW.Candidate>) {
    forall i, j :: 0 <= i < j < |cs| ==> cs[i].provider != cs[j].provider
  }

  lemma ProvidersGiveFiles(calls: seq<EW.Output>, cs: seq<EW.Candidate>)
    requires Sourced(calls, cs) && DistinctProviders(cs)
    ensures OneFilePerGeneration(calls)
  {
    forall i, j | 0 <= i < |calls| && 0 <= j < |calls| ensures SameFile(calls[i], calls[j]) {
      if calls[i].Publish? && calls[j].Publish? && Generation(calls[i].snapshot) == Generation(calls[j].snapshot) {
        assert From(calls[i], cs) && From(calls[j], cs);
        var a :| 0 <= a < |cs| && cs[a].key == calls[i].key && cs[a].provider == calls[i].snapshot.provider;
        var b :| 0 <= b < |cs| && cs[b].key == calls[j].key && cs[b].provider == calls[j].snapshot.provider;
        assert a == b;
      }
    }
  }

  /** The interval's ends are the sequences of two publications of its generation,
      the later one being the last call. */
  predicate Ends(calls: seq<EW.Output>, i: nat, e: Expected) {
    && i < |calls| && calls[i].Publish? && Generation(calls[i].snapshot) == e.key
    && calls[i].snapshot.sequence == e.firstSequence
    && calls[|calls| - 1].Publish? && Generation(calls[|calls| - 1].snapshot) == e.key
    && calls[|calls| - 1].snapshot.sequence == e.latestSequence
  }

  lemma {:induction false} AimedEnds(calls: seq<EW.Output>)
    requires Aimed(calls).Some?
    ensures exists i: nat :: Ends(calls, i, Aimed(calls).value)
    decreases calls
  {
    var before, o := calls[..|calls| - 1], calls[|calls| - 1];
    if Aimed(before).Some? && Aimed(before).value.key == Generation(o.snapshot) {
      AimedEnds(before);
      var i: nat :| Ends(before, i, Aimed(before).value);
      assert calls[i] == before[i];
      assert Ends(calls, i, Aimed(calls).value);
    } else {
      assert Ends(calls, |calls| - 1, Aimed(calls).value);
    }
  }

  lemma AimedOrdered(calls: seq<EW.Output>)
    requires EW.Forward(calls) && OneFilePerGeneration(calls) && Aimed(calls).Some?
    ensures Aimed(calls).value.firstSequence <= Aimed(calls).value.latestSequence
  {
    AimedEnds(calls);
    var i: nat :| Ends(calls, i, Aimed(calls).value);
    var last := |calls| - 1;
    if i < last {
      assert EW.NoBackward(calls[i], calls[last]);
      assert SameFile(calls[i], calls[last]);
    }
  }

  /** A further call of the same generation keeps the start and moves the end on. */
  lemma AimedMovesOn(calls: seq<EW.Output>, o: EW.Output)
    requires EW.Forward(calls + [o]) && OneFilePerGeneration(calls + [o])
    requires Aimed(calls).Some? && Aimed(calls + [o]).Some?
    requires Aimed(calls).value.key == Aimed(calls + [o]).value.key
    ensures SameStart(Aimed(calls).value, Aimed(calls + [o]).value)
    ensures Aimed(calls).value.latestSequence <= Aimed(calls + [o]).value.latestSequence
  {
    AimedEnds(calls);
    var i: nat :| Ends(calls, i, Aimed(calls).value);
    var all, last := calls + [o], |calls| - 1;
    assert all[last] == calls[last] && all[|calls|] == o;
    assert EW.NoBackward(all[last], all[|calls|]);
    assert SameFile(all[last], all[|calls|]);
  }

  /** Composition: with at most one candidate file per provider, the interval the
      relay holds is never empty, in any run of reads, timers and sockets. */
  lemma IntervalIsOrdered(environment: Option<string>, es: seq<PipeEvent>, now: real)
    requires Plausible(es, now)
    ensures var p := RunPipe(NewPipeline(environment), es);
            p.relay.expected.Some? ==>
              && p.relay.watcher.Some? && p.relay.watcher.value in p.watchers
              && (DistinctProviders(p.watchers[p.relay.watcher.value].candidates) ==>
                    p.relay.expected.value.firstSequence <= p.relay.expected.value.latestSequence)
  {
    PipelineReachable(environment, es, now);
    var p := RunPipe(NewPipeline(environment), es);
    if p.relay.expected.Some? {
      var w := p.watchers[p.relay.watcher.value];
      if DistinctProviders(w.candidates) {
        ProvidersGiveFiles(w.outputs, w.candidates);
        AimedOrdered(w.outputs);
      }
    }
  }

  /** Within a generation the interval only grows: no step of any reachable
      pipeline moves its start or takes its end back. */
  lemma {:induction false} IntervalOnlyGrows(environment: Option<string>, es: seq<PipeEvent>, now: real, e: PipeEvent)
    requires Plausible(es, now) && Fair(e, EndClock(es, now))
    requires var p := RunPipe(NewPipeline(environment), es);
             var next := StepPipe(p, e);
             && p.relay.expected.Some? && next.relay.expected.Some?
             && p.relay.expected.value.key == next.relay.expected.value.key
             && p.relay.watcher.Some? && p.relay.watcher.value in p.watchers
             && DistinctProviders(p.watchers[p.relay.watcher.value].candidates)
    ensures var a := RunPipe(NewPipeline(environment), es).relay.expected.value;
            var b := StepPipe(RunPipe(NewPipeline(environment), es), e).relay.expected.value;
            SameStart(a, b) && a.latestSequence <= b.latestSequence
  {
    PipelineReachable(environment, es, now);
    var p := RunPipe(NewPipeline(environment), es);
    match e {
      case Api(a) => ApiTurns(p.relay, a);
      case Watching(h, w) =>
        if h in p.watchers {
          RelayFollows(p, h, w, EndClock(es, now));
          NewCallsFine(p, h, w, EndClock(es, now));
          if p.relay.watcher == Some(h) { WatcherMovesOn(p.watchers[h], w, EndClock(es, now)); }
        }
    }
  }

  lemma WatcherMovesOn(w: EW.Watcher, e: EW.WatchEvent, now: real)
    requires WatcherFine(w, now) && now <= e.now && EW.Listed(e) && DistinctProviders(w.candidates)
    requires var next := EW.Step(w, e);
             && Aimed(w.outputs).Some? && Aimed(next.outputs).Some?
             && Aimed(w.outputs).value.key == Aimed(next.outputs).value.key
    ensures var next := EW.Step(w, e);
            && SameStart(Aimed(w.outputs).value, Aimed(next.outputs).value)
            && Aimed(w.outputs).value.latestSequence <= Aimed(next.outputs).value.latestSequence
  {
    var next := EW.Step(w, e);
    EW.OneCallPerStep(w, e);
    if |next.outputs| > |w.outputs| {
      var o := next.outputs[|w.outputs|];
      assert next.outputs == w.outputs + [o];
      StepOrdered(w, e, now);
      AimedMovesOn(w.outputs, o);
    } else {
      assert next.outputs == w.outputs;
    }
  }

  lemma StepOrdered(w: EW.Watcher, e: EW.WatchEvent, now: real)
    requires WatcherFine(w, now) && now <= e.now && EW.Listed(e) && DistinctProviders(w.candidates)
    requires EW.Step(w, e).outputs != w.outputs
    ensures EW.Forward(EW.Step(w, e).outputs) && OneFilePerGeneration(EW.Step(w, e).outputs)
  {
    WatcherStepFine(w, e, now);
    CandidatesStay(w, e, now);
    ProvidersGiveFiles(EW.Step(w, e).outputs, EW.Step(w, e).candidates);
  }

  /** Once there are candidates they are fixed. */
  lemma CandidatesStay(w: EW.Watcher, e: EW.WatchEvent, now: real)
    requires EW.WatcherOk(w, now)
    ensures w.candidates == [] || EW.Step(w, e).candidates == w.candidates
    ensures EW.Step(w, e).outputs != w.outputs ==> EW.Step(w, e).candidates == w.candidates
  {
  }

  predicate YoungSnapshot(s: Snapshot) {
    0.0 <= s.observationAgeMs < OBSERVATION_MS
  }

  /** Every observation on the wire was published by a watcher of this relay, is
      younger than the observation limit, and follows the socket's bridge:watch. */
  lemma WireIsFresh(environment: Option<string>, es: seq<PipeEvent>, now: real)
    requires Plausible(es, now)
    ensures var p := RunPipe(NewPipeline(environment), es);
            var log := p.relay.log;
            forall k :: 0 <= k < |log| && log[k].Wire? && log[k].msg.ObserveFrame? ==>
              && WasPublished(p.watchers, log[k].msg.s)
              && YoungSnapshot(log[k].msg.s)
              && exists j :: 0 <= j < k && log[j] == Wire(log[k].socket, WatchFrame)
  {
    PipelineReachable(environment, es, now);
    var p := RunPipe(NewPipeline(environment), es);
    var log := p.relay.log;
    forall k | 0 <= k < |log| && log[k].Wire? && log[k].msg.ObserveFrame?
      ensures YoungSnapshot(log[k].msg.s)
      ensures WasPublished(p.watchers, log[k].msg.s)
      ensures exists j :: 0 <= j < k && log[j] == Wire(log[k].socket, WatchFrame)
    {
      WatchComesFirst(log, k);
      assert log[k].msg.s in Published(p.watchers);
      var h, i :| PublishedAt(p.watchers, h, i, log[k].msg.s);
      assert WatcherFine(p.watchers[h], EndClock(es, now));
    }
  }
}
