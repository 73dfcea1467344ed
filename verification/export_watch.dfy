/** Polling several export files with slow reads and publishing at most one. */
module ExportWatch {
  import opened Texts
  import opened Snapshots
  import opened ExportCursors

  const CANDIDATES_MAX: nat := 64
  const REDISCOVER_MS: real := 10000.0

  datatype Candidate = Candidate(key: string, provider: string)

  /** One file's part of a pass: the read is under way, or its outcome is in. */
  datatype Row = Pending(started: real) | Done(started: real, snapshot: Option<Snapshot>)

  datatype Phase = Idle | Discovering(asked: real) | Reading(rows: seq<Row>)

  datatype Marker = Marker(key: string, generation: WorldKey, sequence: nat)

  /** The text the code compares. */
  function SpellMarker(m: Marker): string {
    m.key + "/" + Spell(m.generation) + "/" + Decimal(m.sequence)
  }

  /** onSnapshot and onInactive calls, with the time they were made. */
  datatype Output =
    | Publish(key: string, snapshot: Snapshot, at: real)
    | Quiet(reason: Reason, at: real)

  datatype Watcher = Watcher(
    environment: string,
    stopped: bool,
    phase: Phase,
    candidates: seq<Candidate>,
    discoveredAt: Option<real>,
    cursors: map<string, Cursor>,
    selected: Option<string>,
    published: Option<Marker>,
    outputs: seq<Output>)

  function NewWatcher(environment: string): Watcher {
    Watcher(environment, false, Idle, [], None, map[], None, None, [])
  }

  /** What can happen between two awaits of the loop. */
  datatype WatchEvent =
    | Tick(now: real)
    | Discovered(found: seq<Candidate>, now: real)
    | DiscoveryFailed(now: real)
    | ReadDone(i: nat, raw: Option<Json>, now: real)
    | PassDone(now: real)
    | Expire(now: real)
    | Stop(now: real)

  // ----- specification -----

  function KeySet(cs: seq<Candidate>): set<string> {
    set c | c in cs :: c.key
  }

  function WithFresh(cursors: map<string, Cursor>, cs: seq<Candidate>): map<string, Cursor> {
    cursors + map k | k in KeySet(cs) - cursors.Keys :: FRESH
  }

  function StartReading(w: Watcher, now: real): Watcher {
    w.(phase := Reading(seq(|w.candidates|, _ => Pending(now))),
       cursors := WithFresh(w.cursors, w.candidates))
  }

  function StepTick(w: Watcher, now: real): Watcher {
    if w.stopped || !w.phase.Idle? then w
    else if w.candidates == [] && (w.discoveredAt.None? || now - w.discoveredAt.value >= REDISCOVER_MS) then
      w.(phase := Discovering(now))
    else StartReading(w, now)
  }

  function StepDiscovered(w: Watcher, found: seq<Candidate>, now: real): Watcher {
    if !w.phase.Discovering? then w else
    var kept := if |found| <= CANDIDATES_MAX then found else found[..CANDIDATES_MAX];
    StartReading(w.(candidates := kept, discoveredAt := Some(w.phase.asked)), now)
  }

  function StepDiscoveryFailed(w: Watcher, now: real): Watcher {
    if !w.phase.Discovering? then w else
    var outputs := if !w.stopped && w.selected.Some? then w.outputs + [Quiet(InvalidExport, now)] else w.outputs;
    w.(phase := Idle, selected := None, published := None, outputs := outputs)
  }

  predicate ReadOpen(w: Watcher, i: nat) {
    && w.phase.Reading? && i < |w.phase.rows| && w.phase.rows[i].Pending?
    && i < |w.candidates| && w.candidates[i].key in w.cursors
  }

  function StepReadDone(w: Watcher, i: nat, raw: Option<Json>, now: real): Watcher {
    if !ReadOpen(w, i) then w else
    var started, key := w.phase.rows[i].started, w.candidates[i].key;
    var next := Accept(w.cursors[key], ParseSnapshot(raw, w.environment, w.candidates[i].provider), started, now);
    w.(cursors := w.cursors[key := next],
       phase := Reading(w.phase.rows[i := Done(started, Current(next, now))]))
  }

  predicate RowActive(w: Watcher, rows: seq<Row>, now: real, i: nat) {
    && i < |rows| && i < |w.candidates|
    && rows[i].Done? && rows[i].snapshot.Some?
    && w.candidates[i].key in w.cursors && Current(w.cursors[w.candidates[i].key], now).Some?
  }

  /** The active rows among the first n, in order. */
  function Actives(w: Watcher, rows: seq<Row>, now: real, n: nat): seq<nat> {
    if n == 0 then []
    else Actives(w, rows, now, n - 1) + (if RowActive(w, rows, now, n - 1) then [n - 1] else [])
  }

  function ReasonFor(w: Watcher, now: real, otherwise: Reason): Reason {
    if w.selected.Some? && w.selected.value in w.cursors
    then InactiveReason(w.cursors[w.selected.value], now) else otherwise
  }

  function MaxReal(a: real, b: real): real {
    if a >= b then a else b
  }

  /** The published copy carries the age at publication. */
  function Aged(s: Snapshot, started: real, completed: real): Snapshot {
    s.(observationAgeMs := Min(MAX_AGE_MS, s.observationAgeMs + MaxReal(0.0, completed - started)))
  }

  function MarkerOf(key: string, s: Snapshot): Marker {
    Marker(key, Generation(s), s.sequence)
  }

  /** What the callbacks are told at the end of a pass. */
  function Settle(w: Watcher, rows: seq<Row>, now: real): Watcher {
    var active := Actives(w, rows, now, |rows|);
    SoleExact(w, rows, now);
    if |active| != 1 then
      var reason := if |active| > 1 then ProviderConflict else ReasonFor(w, now, InvalidExport);
      w.(selected := None, published := None,
         outputs := if w.selected.Some? then w.outputs + [Quiet(reason, now)] else w.outputs)
    else
      var row, key := rows[active[0]], w.candidates[active[0]].key;
      var marker := MarkerOf(key, row.snapshot.value);
      if w.published == Some(marker) then w
      else w.(selected := Some(key), published := Some(marker),
              outputs := w.outputs + [Publish(key, Aged(row.snapshot.value, row.started, now), now)])
  }

  function Known(w: Watcher): map<string, Cursor> {
    map k | k in w.cursors && k in KeySet(w.candidates) :: w.cursors[k]
  }

  function Finish(w: Watcher, rows: seq<Row>, now: real): Watcher {
    Settle(w, rows, now).(phase := Idle, cursors := Known(w))
  }

  predicate AllDone(rows: seq<Row>) {
    forall i :: 0 <= i < |rows| ==> rows[i].Done?
  }

  function StepPassDone(w: Watcher, now: real): Watcher {
    if !w.phase.Reading? || !AllDone(w.phase.rows) then w
    else if w.stopped then w.(phase := Idle)
    else Finish(w, w.phase.rows, now)
  }

  predicate Expired(w: Watcher, now: real) {
    && !w.stopped && w.selected.Some?
    && (w.selected.value !in w.cursors || Current(w.cursors[w.selected.value], now).None?)
  }

  function StepExpire(w: Watcher, now: real): Watcher {
    if !Expired(w, now) then w
    else w.(selected := None, published := None,
            outputs := w.outputs + [Quiet(ReasonFor(w, now, ObservationTimeout), now)])
  }

  function Step(w: Watcher, e: WatchEvent): Watcher {
    match e
    case Tick(now) => StepTick(w, now)
    case Discovered(found, now) => StepDiscovered(w, found, now)
    case DiscoveryFailed(now) => StepDiscoveryFailed(w, now)
    case ReadDone(i, raw, now) => StepReadDone(w, i, raw, now)
    case PassDone(now) => StepPassDone(w, now)
    case Expire(now) => StepExpire(w, now)
    case Stop(now) => w.(stopped := true)
  }

  function Run(w: Watcher, es: seq<WatchEvent>): Watcher
    decreases es
  {
    if es == [] then w else Run(Step(w, es[0]), es[1..])
  }

  /** Discovery lists every file once. */
  predicate Listed(e: WatchEvent) {
    e.Discovered? ==> Distinct(Files(e.found))
  }

  function Files(cs: seq<Candidate>): seq<string> {
    seq(|cs|, i requires 0 <= i < |cs| => cs[i].key)
  }

  /** Time never goes back over a run, and discovery is honest. */
  predicate Legal(es: seq<WatchEvent>, from: real)
    decreases es
  {
    es != [] ==> from <= es[0].now && Listed(es[0]) && Legal(es[1..], es[0].now)
  }

  // ----- invariant -----

  predicate CursorOk(c: Cursor, now: real) {
    && (c.snapshot.None? ==> !c.live && c.lastAdvance.None?)
    && (c.snapshot.Some? ==>
          && c.lastAdvance.Some? && c.lastAdvance.value <= now
          && c.deadline <= c.lastAdvance.value + OBSERVATION_MS - c.snapshot.value.observationAgeMs
          && 0.0 <= c.snapshot.value.observationAgeMs
          && Generation(c.snapshot.value) !in c.retired
          && SessionKey(c.snapshot.value.sessionId) !in c.retired)
  }

  predicate RowOk(r: Row, c: Cursor, now: real) {
    && r.started <= now
    && (c.lastAdvance.Some? ==> c.lastAdvance.value <= r.started)
    && (r.Done? && r.snapshot.Some? ==> c.snapshot == r.snapshot)
  }

  predicate CursorsOk(cursors: map<string, Cursor>, now: real) {
    forall k :: k in cursors ==> CursorOk(cursors[k], now)
  }

  predicate ProvidersOk(cs: seq<Candidate>, cursors: map<string, Cursor>) {
    forall i :: 0 <= i < |cs| && cs[i].key in cursors && cursors[cs[i].key].snapshot.Some? ==>
      cursors[cs[i].key].snapshot.value.provider == cs[i].provider
  }

  predicate RowsOk(phase: Phase, cs: seq<Candidate>, cursors: map<string, Cursor>, now: real) {
    phase.Reading? ==>
      && |phase.rows| == |cs|
      && forall i :: 0 <= i < |cs| ==> cs[i].key in cursors && RowOk(phase.rows[i], cursors[cs[i].key], now)
  }

  predicate OneCursorEach(cs: seq<Candidate>, cursors: map<string, Cursor>) {
    && (forall i, j :: 0 <= i < j < |cs| ==> cs[i].key != cs[j].key)
    && cursors.Keys <= KeySet(cs)
  }

  /** The cursor has moved on from s inside its session, or has left it. */
  predicate Past(c: Cursor, s: Snapshot) {
    && c.snapshot.Some?
    && (|| (c.snapshot.value.sessionId == s.sessionId && c.snapshot.value.sequence >= s.sequence)
        || SessionKey(s.sessionId) in c.retired)
  }

  predicate Tracked(outputs: seq<Output>, cursors: map<string, Cursor>) {
    forall i :: 0 <= i < |outputs| && outputs[i].Publish? ==>
      outputs[i].key in cursors && Past(cursors[outputs[i].key], outputs[i].snapshot)
  }

  /** onInactive only closes an open publication. */
  predicate Alternating(outputs: seq<Output>) {
    forall i :: 0 <= i < |outputs| && outputs[i].Quiet? ==> i > 0 && outputs[i - 1].Publish?
  }

  predicate Young(outputs: seq<Output>) {
    forall i :: 0 <= i < |outputs| && outputs[i].Publish? ==>
      0.0 <= outputs[i].snapshot.observationAgeMs < OBSERVATION_MS
  }

  predicate NoBackward(a: Output, b: Output) {
    a.Publish? && b.Publish? && a.key == b.key && a.snapshot.sessionId == b.snapshot.sessionId ==>
      a.snapshot.sequence <= b.snapshot.sequence
  }

  predicate Forward(outputs: seq<Output>) {
    forall i, j :: 0 <= i < j < |outputs| ==> NoBackward(outputs[i], outputs[j])
  }

  predicate Selection(selected: Option<string>, published: Option<Marker>, outputs: seq<Output>) {
    && (selected.Some? <==> outputs != [] && outputs[|outputs| - 1].Publish?)
    && (selected.None? ==> published.None?)
    && (selected.Some? ==>
          var last := outputs[|outputs| - 1];
          selected.value == last.key
          && published == Some(MarkerOf(last.key, last.snapshot)))
  }

  predicate WatcherOk(w: Watcher, now: real) {
    && OneCursorEach(w.candidates, w.cursors)
    && CursorsOk(w.cursors, now)
    && ProvidersOk(w.candidates, w.cursors)
    && RowsOk(w.phase, w.candidates, w.cursors, now)
    && OutputsOk(w)
    && (w.phase.Discovering? ==> w.candidates == [])
  }

  // ----- every step keeps it -----

  lemma AcceptOk(c: Cursor, doc: Option<Snapshot>, started: real, now: real)
    requires CursorOk(c, now) && started <= now
    requires c.lastAdvance.Some? ==> c.lastAdvance.value <= started
    requires doc.Some? ==> 0.0 <= doc.value.observationAgeMs
    ensures var next := Accept(c, doc, started, now);
            && CursorOk(next, now)
            && RowOk(Done(started, Current(next, now)), next, now)
            && next.snapshot in {c.snapshot, doc} && (next.snapshot.Some? || c.snapshot.None?)
  {
    if Judge(c, doc) == Stored { StoredFacts(c, doc.value); }
  }

  lemma AcceptPast(c: Cursor, doc: Option<Snapshot>, started: real, now: real, s: Snapshot)
    requires Past(c, s)
    ensures Past(Accept(c, doc, started, now), s)
  {
    if Judge(c, doc) == Stored { StoredFacts(c, doc.value); }
  }

  lemma StartReadingKeeps(w: Watcher, now: real)
    requires WatcherOk(w, now) && !w.phase.Reading?
    ensures WatcherOk(StartReading(w, now), now)
  {
    forall i | 0 <= i < |w.candidates| ensures w.candidates[i].key in KeySet(w.candidates) {
    }
  }

  lemma DiscoveredKeeps(w: Watcher, found: seq<Candidate>, now: real)
    requires WatcherOk(w, now) && Distinct(Files(found))
    ensures WatcherOk(StepDiscovered(w, found, now), now)
  {
    if w.phase.Discovering? {
      var kept := if |found| <= CANDIDATES_MAX then found else found[..CANDIDATES_MAX];
      forall i, j | 0 <= i < j < |kept| ensures kept[i].key != kept[j].key {
        assert Files(found)[i] != Files(found)[j];
      }
      assert w.cursors.Keys == {};
      var idle := w.(phase := Idle, candidates := kept, discoveredAt := Some(w.phase.asked));
      StartReadingKeeps(idle, now);
      assert StartReading(idle, now) == StepDiscovered(w, found, now);
    }
  }

  lemma CursorMovesPast(outputs: seq<Output>, cursors: map<string, Cursor>, key: string,
                        doc: Option<Snapshot>, started: real, now: real)
    requires Tracked(outputs, cursors) && key in cursors
    ensures Tracked(outputs, cursors[key := Accept(cursors[key], doc, started, now)])
  {
    forall j | 0 <= j < |outputs| && outputs[j].Publish? && outputs[j].key == key
      ensures Past(Accept(cursors[key], doc, started, now), outputs[j].snapshot)
    {
      AcceptPast(cursors[key], doc, started, now, outputs[j].snapshot);
    }
  }

  lemma ReadDoneKeeps(w: Watcher, i: nat, raw: Option<Json>, now: real)
    requires WatcherOk(w, now)
    ensures WatcherOk(StepReadDone(w, i, raw, now), now)
  {
    if ReadOpen(w, i) {
      var started, key := w.phase.rows[i].started, w.candidates[i].key;
      var doc := ParseSnapshot(raw, w.environment, w.candidates[i].provider);
      ReadMoves(w, i, doc, now);
      CursorMovesPast(w.outputs, w.cursors, key, doc, started, now);
    }
  }

  lemma ReadMoves(w: Watcher, i: nat, doc: Option<Snapshot>, now: real)
    requires OneCursorEach(w.candidates, w.cursors) && RowsOk(w.phase, w.candidates, w.cursors, now)
    requires CursorsOk(w.cursors, now) && ProvidersOk(w.candidates, w.cursors) && ReadOpen(w, i)
    requires doc.Some? ==> 0.0 <= doc.value.observationAgeMs && doc.value.provider == w.candidates[i].provider
    ensures var started, key := w.phase.rows[i].started, w.candidates[i].key;
            var next := Accept(w.cursors[key], doc, started, now);
            var cursors := w.cursors[key := next];
            && CursorsOk(cursors, now) && ProvidersOk(w.candidates, cursors)
            && RowsOk(Reading(w.phase.rows[i := Done(started, Current(next, now))]), w.candidates, cursors, now)
            && OneCursorEach(w.candidates, cursors)
  {
    var started, key := w.phase.rows[i].started, w.candidates[i].key;
    var next := Accept(w.cursors[key], doc, started, now);
    assert RowOk(w.phase.rows[i], w.cursors[key], now) && CursorOk(w.cursors[key], now);
    AcceptOk(w.cursors[key], doc, started, now);
  }

  lemma {:induction false} ActivesExact(w: Watcher, rows: seq<Row>, now: real, n: nat)
    ensures forall i: nat :: i in Actives(w, rows, now, n) <==> i < n && RowActive(w, rows, now, i)
    ensures Distinct(Actives(w, rows, now, n))
  {
    if n > 0 { ActivesExact(w, rows, now, n - 1); }
  }

  /** The only active row of a pass. */
  predicate Sole(w: Watcher, rows: seq<Row>, now: real, i: nat) {
    && RowActive(w, rows, now, i)
    && forall j :: 0 <= j < |rows| && RowActive(w, rows, now, j) ==> j == i
  }

  lemma AllSame(xs: seq<nat>, i: nat)
    requires Distinct(xs) && forall x :: x in xs ==> x == i
    ensures |xs| <= 1
  {
    SizeOfDistinct(xs);
    var all := set x | x in xs;
    assert all <= {i};
    if all != {} { assert all == {i}; }
  }

  lemma SoleExact(w: Watcher, rows: seq<Row>, now: real)
    ensures var active := Actives(w, rows, now, |rows|);
            |active| == 1 ==> Sole(w, rows, now, active[0])
    ensures forall i: nat :: Sole(w, rows, now, i) ==> Actives(w, rows, now, |rows|) == [i]
  {
    var active := Actives(w, rows, now, |rows|);
    ActivesExact(w, rows, now, |rows|);
    if |active| == 1 {
      assert active[0] in active;
      forall j | 0 <= j < |rows| && RowActive(w, rows, now, j) ensures j == active[0] {
        assert j in active;
      }
    }
    forall i: nat | Sole(w, rows, now, i) ensures active == [i] {
      assert i in active;
      AllSame(active, i);
    }
  }

  lemma KeptCursors(w: Watcher)
    requires w.cursors.Keys <= KeySet(w.candidates)
    ensures Known(w) == w.cursors
  {
  }

  /** A row that is still current was read within its evidence. */
  lemma ActiveIsYoung(c: Cursor, r: Row, now: real)
    requires CursorOk(c, now) && RowOk(r, c, now) && r.Done? && r.snapshot.Some? && Current(c, now).Some?
    ensures 0.0 <= Aged(r.snapshot.value, r.started, now).observationAgeMs < OBSERVATION_MS
    ensures c.snapshot == r.snapshot
  {
  }

  lemma PublishGrows(outputs: seq<Output>, cursors: map<string, Cursor>, key: string, s: Snapshot, o: Output)
    requires Tracked(outputs, cursors) && Alternating(outputs) && Young(outputs) && Forward(outputs)
    requires key in cursors && cursors[key].snapshot == Some(s)
    requires SessionKey(s.sessionId) !in cursors[key].retired
    requires o.Publish? && o.key == key && 0.0 <= o.snapshot.observationAgeMs < OBSERVATION_MS
    requires o.snapshot == s.(observationAgeMs := o.snapshot.observationAgeMs)
    ensures var next := outputs + [o];
            Tracked(next, cursors) && Alternating(next) && Young(next) && Forward(next)
  {
    var next := outputs + [o];
    forall i, j | 0 <= i < j < |next| ensures NoBackward(next[i], next[j]) {
      if j < |outputs| {
        assert NoBackward(outputs[i], outputs[j]);
      } else if next[i].Publish? && next[i].key == key {
        assert Past(cursors[key], outputs[i].snapshot);
      }
    }
  }

  lemma QuietGrows(outputs: seq<Output>, cursors: map<string, Cursor>, o: Output)
    requires Tracked(outputs, cursors) && Alternating(outputs) && Young(outputs) && Forward(outputs)
    requires o.Quiet? && outputs != [] && outputs[|outputs| - 1].Publish?
    ensures var next := outputs + [o];
            Tracked(next, cursors) && Alternating(next) && Young(next) && Forward(next)
  {
    var next := outputs + [o];
    forall i, j | 0 <= i < j < |next| ensures NoBackward(next[i], next[j]) {
      if j < |outputs| {
        assert NoBackward(outputs[i], outputs[j]);
      }
    }
  }

  lemma FinishPublishes(w: Watcher, rows: seq<Row>, now: real, i: nat)
    requires WatcherOk(w, now) && w.phase == Reading(rows) && RowActive(w, rows, now, i)
    ensures var row, key := rows[i], w.candidates[i].key;
            var next := w.outputs + [Publish(key, Aged(row.snapshot.value, row.started, now), now)];
            Tracked(next, w.cursors) && Alternating(next) && Young(next) && Forward(next)
  {
    var row, key := rows[i], w.candidates[i].key;
    assert RowOk(row, w.cursors[key], now) && CursorOk(w.cursors[key], now);
    ActiveIsYoung(w.cursors[key], row, now);
    PublishGrows(w.outputs, w.cursors, key, row.snapshot.value,
                 Publish(key, Aged(row.snapshot.value, row.started, now), now));
  }

  predicate OutputsOk(w: Watcher) {
    && Tracked(w.outputs, w.cursors) && Alternating(w.outputs) && Young(w.outputs) && Forward(w.outputs)
    && Selection(w.selected, w.published, w.outputs)
  }

  lemma SettleKeeps(w: Watcher, rows: seq<Row>, now: real)
    requires WatcherOk(w, now) && w.phase == Reading(rows)
    ensures OutputsOk(Settle(w, rows, now))
  {
    var active := Actives(w, rows, now, |rows|);
    SoleExact(w, rows, now);
    if |active| != 1 {
      if w.selected.Some? {
        var reason := if |active| > 1 then ProviderConflict else ReasonFor(w, now, InvalidExport);
        QuietGrows(w.outputs, w.cursors, Quiet(reason, now));
      }
    } else {
      FinishPublishes(w, rows, now, active[0]);
    }
  }

  lemma FinishKeeps(w: Watcher, rows: seq<Row>, now: real)
    requires WatcherOk(w, now) && w.phase == Reading(rows)
    ensures WatcherOk(Finish(w, rows, now), now)
  {
    KeptCursors(w);
    SettleKeeps(w, rows, now);
  }

  lemma ExpireKeeps(w: Watcher, now: real)
    requires WatcherOk(w, now)
    ensures WatcherOk(StepExpire(w, now), now)
  {
    if Expired(w, now) {
      QuietGrows(w.outputs, w.cursors, Quiet(ReasonFor(w, now, ObservationTimeout), now));
    }
  }

  lemma DiscoveryFailedKeeps(w: Watcher, now: real)
    requires WatcherOk(w, now)
    ensures WatcherOk(StepDiscoveryFailed(w, now), now)
  {
    if w.phase.Discovering? {
      assert forall k :: k !in w.cursors;
      assert w.selected.None?;
    }
  }

  lemma TimePasses(w: Watcher, now: real, later: real)
    requires WatcherOk(w, now) && now <= later
    ensures WatcherOk(w, later)
  {
  }

  lemma StepKeeps(w: Watcher, e: WatchEvent, now: real)
    requires WatcherOk(w, now) && now <= e.now && Listed(e)
    ensures WatcherOk(Step(w, e), e.now)
  {
    TimePasses(w, now, e.now);
    match e {
      case Tick(t) => if !w.phase.Reading? { StartReadingKeeps(w, t); }
      case Discovered(found, t) => DiscoveredKeeps(w, found, t);
      case DiscoveryFailed(t) => DiscoveryFailedKeeps(w, t);
      case ReadDone(i, raw, t) => ReadDoneKeeps(w, i, raw, t);
      case PassDone(t) => if w.phase.Reading? && AllDone(w.phase.rows) { FinishKeeps(w, w.phase.rows, t); }
      case Expire(t) => ExpireKeeps(w, t);
      case Stop(t) =>
    }
  }

  lemma {:induction false} RunKeeps(w: Watcher, es: seq<WatchEvent>, from: real)
    requires WatcherOk(w, from) && Legal(es, from)
    ensures WatcherOk(Run(w, es), if es == [] then from else es[|es| - 1].now)
    decreases es
  {
    if es != [] {
      StepKeeps(w, es[0], from);
      RunKeeps(Step(w, es[0]), es[1..], es[0].now);
    }
  }

  // ----- runs event by event -----

  /** When the last event happened. */
  function Clock(es: seq<WatchEvent>, from: real): real {
    if es == [] then from else es[|es| - 1].now
  }

  lemma {:induction false} RunAppend(w: Watcher, a: seq<WatchEvent>, b: seq<WatchEvent>)
    ensures Run(w, a + b) == Run(Run(w, a), b)
    decreases a
  {
    if a == [] {
      assert a + b == b;
    } else {
      assert (a + b)[0] == a[0] && (a + b)[1..] == a[1..] + b;
      RunAppend(Step(w, a[0]), a[1..], b);
    }
  }

  lemma RunLast(w: Watcher, es: seq<WatchEvent>)
    requires es != []
    ensures Run(w, es) == Step(Run(w, es[..|es| - 1]), es[|es| - 1])
  {
    var before, e := es[..|es| - 1], es[|es| - 1];
    assert es == before + [e];
    RunAppend(w, before, [e]);
    assert [e][1..] == [] && Run(Step(Run(w, before), e), []) == Step(Run(w, before), e);
  }

  lemma {:induction false} LegalPrefix(es: seq<WatchEvent>, from: real, n: nat)
    requires Legal(es, from) && n <= |es|
    ensures Legal(es[..n], from) && from <= Clock(es[..n], from)
    ensures n < |es| ==> Clock(es[..n], from) <= es[n].now && Listed(es[n])
    decreases n
  {
    if n > 0 {
      LegalPrefix(es[1..], es[0].now, n - 1);
      assert es[..n][0] == es[0] && es[..n][1..] == es[1..][..n - 1];
      assert Clock(es[..n], from) == Clock(es[1..][..n - 1], es[0].now);
    }
  }

  lemma {:induction false} LegalTimes(es: seq<WatchEvent>, from: real, i: nat, j: nat)
    requires Legal(es, from) && i <= j < |es|
    ensures es[i].now <= es[j].now
    decreases j
  {
    if i < j {
      LegalTimes(es, from, i, j - 1);
      LegalPrefix(es, from, j);
      assert es[..j][j - 1] == es[j - 1];
    }
  }

  lemma {:induction false} LegalAppend(es: seq<WatchEvent>, from: real, e: WatchEvent)
    requires Legal(es, from) && Clock(es, from) <= e.now && Listed(e)
    ensures Legal(es + [e], from) && Clock(es + [e], from) == e.now
    decreases es
  {
    if es == [] {
      assert es + [e] == [e] && [e][1..] == [];
    } else {
      assert (es + [e])[0] == es[0] && (es + [e])[1..] == es[1..] + [e];
      assert Clock(es[1..], es[0].now) == Clock(es, from);
      LegalAppend(es[1..], es[0].now, e);
    }
  }

  lemma ReachedOk(environment: string, es: seq<WatchEvent>, from: real)
    requires Legal(es, from)
    ensures WatcherOk(Run(NewWatcher(environment), es), Clock(es, from))
  {
    NewWatcherOk(environment, from);
    RunKeeps(NewWatcher(environment), es, from);
  }

  lemma NewWatcherOk(environment: string, from: real)
    ensures WatcherOk(NewWatcher(environment), from)
  {
  }

  // ----- what every interleaving guarantees -----

  /** onInactive never comes first or twice in a row, every published age is
      below the observation limit, and the sequences published for one file and
      session never go back. */
  lemma EveryInterleavingIsSafe(environment: string, es: seq<WatchEvent>, from: real)
    requires Legal(es, from)
    ensures var outputs := Run(NewWatcher(environment), es).outputs;
            Alternating(outputs) && Young(outputs) && Forward(outputs)
  {
    NewWatcherOk(environment, from);
    RunKeeps(NewWatcher(environment), es, from);
  }

  /** What the sole current export of a pass leads to: it is the open one, under its
      own generation and sequence, aged by the time since its read began. */
  predicate EndsOn(w: Watcher, next: Watcher, now: real, i: nat)
    requires w.phase.Reading? && RowActive(w, w.phase.rows, now, i)
  {
    var key := w.candidates[i].key;
    var s := Current(w.cursors[key], now).value;
    var age := s.observationAgeMs + (now - w.phase.rows[i].started);
    && next.phase.Idle? && next.cursors == w.cursors
    && next.selected == Some(key) && next.published == Some(MarkerOf(key, s))
    && next.outputs == (if w.published == next.published then w.outputs else
                        w.outputs + [Publish(key, s.(observationAgeMs := age), now)])
  }

  lemma SoleEnds(w: Watcher, now: real, i: nat)
    requires WatcherOk(w, now) && w.phase.Reading? && AllDone(w.phase.rows) && !w.stopped
    requires Sole(w, w.phase.rows, now, i)
    ensures EndsOn(w, StepPassDone(w, now), now, i)
  {
    KeptCursors(w);
    SoleExact(w, w.phase.rows, now);
    assert RowOk(w.phase.rows[i], w.cursors[w.candidates[i].key], now);
    assert CursorOk(w.cursors[w.candidates[i].key], now);
  }

  /** Why a pass without a sole current export closes what was open. */
  ghost function ClosingReason(w: Watcher, now: real): Reason
    requires w.phase.Reading? && w.selected.Some? && w.selected.value in w.cursors
  {
    if exists i: nat :: RowActive(w, w.phase.rows, now, i) then ProviderConflict
    else InactiveReason(w.cursors[w.selected.value], now)
  }

  ghost predicate EndsShut(w: Watcher, next: Watcher, now: real)
    requires w.phase.Reading? && (w.selected.Some? ==> w.selected.value in w.cursors)
  {
    && next.phase.Idle? && next.cursors == w.cursors
    && next.selected.None? && next.published.None?
    && next.outputs
       == (if w.selected.None? then w.outputs else w.outputs + [Quiet(ClosingReason(w, now), now)])
  }

  lemma ClosingIs(w: Watcher, now: real)
    requires WatcherOk(w, now) && w.phase.Reading? && forall i: nat :: !Sole(w, w.phase.rows, now, i)
    ensures var n := |Actives(w, w.phase.rows, now, |w.phase.rows|)|;
            && n != 1
            && (w.selected.Some? ==>
                  && w.selected.value in w.cursors
                  && ClosingReason(w, now)
                     == if n > 1 then ProviderConflict else InactiveReason(w.cursors[w.selected.value], now))
  {
    var rows := w.phase.rows;
    var active := Actives(w, rows, now, |rows|);
    SoleExact(w, rows, now);
    ActivesExact(w, rows, now, |rows|);
    if |active| > 0 {
      assert active[0] in active;
    } else {
      forall i: nat ensures !RowActive(w, rows, now, i) {
        assert i !in active;
      }
    }
  }

  lemma NoneEnds(w: Watcher, now: real)
    requires WatcherOk(w, now) && w.phase.Reading? && AllDone(w.phase.rows) && !w.stopped
    requires forall i: nat :: !Sole(w, w.phase.rows, now, i)
    ensures w.selected.Some? ==> w.selected.value in w.cursors
    ensures EndsShut(w, StepPassDone(w, now), now)
  {
    KeptCursors(w);
    ClosingIs(w, now);
  }

  /** A pass ends on exactly the sole current export; with none or several, nothing
      stays open and an open publication gets one closing call, for the conflict or
      for what its own cursor says. */
  lemma PassEndsOnTheSole(w: Watcher, now: real)
    requires WatcherOk(w, now) && w.phase.Reading? && AllDone(w.phase.rows) && !w.stopped
    ensures w.selected.Some? ==> w.selected.value in w.cursors
    ensures forall i: nat :: Sole(w, w.phase.rows, now, i) ==> EndsOn(w, StepPassDone(w, now), now, i)
    ensures (forall i: nat :: !Sole(w, w.phase.rows, now, i)) ==> EndsShut(w, StepPassDone(w, now), now)
  {
    forall i: nat | Sole(w, w.phase.rows, now, i) ensures EndsOn(w, StepPassDone(w, now), now, i) {
      SoleEnds(w, now, i);
    }
    if forall i: nat :: !Sole(w, w.phase.rows, now, i) {
      NoneEnds(w, now);
    } else {
      ClosingKnown(w);
    }
  }

  lemma ClosingKnown(w: Watcher)
    requires OutputsOk(w)
    ensures w.selected.Some? ==> w.selected.value in w.cursors
  {
  }

  /** An expiry check closes an open publication exactly when its cursor no
      longer offers anything, whatever the pass under way is waiting for. */
  lemma ExpiryClosesExactly(w: Watcher, now: real)
    requires WatcherOk(w, now) && !w.stopped && w.selected.Some?
    ensures w.selected.value in w.cursors
    ensures var (next, c) := (StepExpire(w, now), w.cursors[w.selected.value]);
            && (next.selected.None? <==> Current(c, now).None?)
            && (next.selected.None? ==> next.outputs == w.outputs + [Quiet(InactiveReason(c, now), now)])
            && (next.selected.Some? ==> next == w)
  {
    assert w.selected.value in w.cursors;
  }

  /** A stopped watcher never calls back, whatever reads are still under way. */
  lemma {:induction false} StoppedIsSilent(w: Watcher, es: seq<WatchEvent>)
    requires w.stopped
    ensures Run(w, es).outputs == w.outputs
    decreases es
  {
    if es != [] {
      StoppedIsSilent(Step(w, es[0]), es[1..]);
    }
  }

  /** Each step makes at most one call. */
  lemma OneCallPerStep(w: Watcher, e: WatchEvent)
    ensures var next := Step(w, e).outputs;
            |w.outputs| <= |next| <= |w.outputs| + 1 && w.outputs == next[..|w.outputs|]
  {
  }

  /** A file and a generation, cut at the separators from the back. */
  lemma SpelledCuts(a: string, g: WorldKey)
    requires g.GenerationKey?
    ensures a + "/" + Spell(g) == (((a + "/" + g.provider) + "/" + g.sessionId) + "/") + g.worldGeneration
  {
  }

  lemma SpelledFilesAgree(a: string, g: WorldKey, b: string, h: WorldKey)
    requires g.GenerationKey? && Spellable(g) && h.GenerationKey? && Spellable(h)
    requires a + "/" + Spell(g) == b + "/" + Spell(h)
    ensures a == b && g == h
  {
    SpelledCuts(a, g);
    SpelledCuts(b, h);
    PiecesAgree(a, g.provider, g.sessionId, g.worldGeneration, b, h.provider, h.sessionId, h.worldGeneration);
  }

  lemma ProviderNoSlash(s: string)
    requires KnownProvider(s)
    ensures '/' !in s
  {
  }

  lemma PiecesAgree(a: string, p: string, s: string, w: string, b: string, q: string, t: string, v: string)
    requires KnownProvider(p) && KnownProvider(q) && Nonce(s) && Nonce(t) && Nonce(w) && Nonce(v)
    requires (((a + "/" + p) + "/" + s) + "/") + w == (((b + "/" + q) + "/" + t) + "/") + v
    ensures a == b && p == q && s == t && w == v
  {
    NonceNoSlash(s); NonceNoSlash(t); NonceNoSlash(w); NonceNoSlash(v);
    ProviderNoSlash(p); ProviderNoSlash(q);
    LastSeparator((a + "/" + p) + "/" + s, w, (b + "/" + q) + "/" + t, v, '/');
    LastSeparator(a + "/" + p, s, b + "/" + q, t, '/');
    LastSeparator(a, p, b, q, '/');
  }

  /** Markers are equal exactly when their texts are. */
  lemma SpelledMarkersAgree(a: Marker, b: Marker)
    requires a.generation.GenerationKey? && Spellable(a.generation)
    requires b.generation.GenerationKey? && Spellable(b.generation)
    ensures SpellMarker(a) == SpellMarker(b) <==> a == b
  {
    if SpellMarker(a) == SpellMarker(b) {
      var (x, y) := (a.key + "/" + Spell(a.generation), b.key + "/" + Spell(b.generation));
      DecimalDigits(a.sequence);
      DecimalDigits(b.sequence);
      LastSeparator(x, Decimal(a.sequence), y, Decimal(b.sequence), '/');
      DecimalInjective(a.sequence, b.sequence);
      SpelledFilesAgree(a.key, a.generation, b.key, b.generation);
    }
  }

  // ----- the watcher itself -----

  class ExportWatcher {
    const environment: string
    var stopped: bool
    var phase: Phase
    var candidates: seq<Candidate>
    var discoveredAt: Option<real>
    var cursors: map<string, ExportCursor>
    var selected: Option<string>
    var published: Option<Marker>
    var outputs: seq<Output>

    ghost predicate Apart()
      reads this`cursors
    {
      forall a, b :: a in cursors && b in cursors && a != b ==> cursors[a] != cursors[b]
    }

    ghost function CursorViews(): map<string, Cursor>
      reads this`cursors, cursors.Values
    {
      map k | k in cursors :: cursors[k].View()
    }

    ghost function View(): Watcher
      reads this, cursors.Values
    {
      Watcher(environment, stopped, phase, candidates, discoveredAt, CursorViews(), selected, published, outputs)
    }

    constructor (environment: string)
      ensures View() == NewWatcher(environment) && Apart()
    {
      this.environment := environment;
      stopped, phase, candidates, discoveredAt := false, Idle, [], None;
      cursors, selected, published, outputs := map[], None, None, [];
    }

    method Tick(now: real)
      requires Apart()
      modifies this`cursors, this`phase
      ensures Apart() && View() == StepTick(old(View()), now)
      ensures fresh(cursors.Values - old(cursors.Values))
    {
      if stopped || !phase.Idle? { return; }
      if candidates == [] && (discoveredAt.None? || now - discoveredAt.value >= REDISCOVER_MS) {
        phase := Discovering(now);
        return;
      }
      BeginReads(now);
    }

    /** A file seen for the first time gets its own cursor. */
    method EnsureCursor(key: string)
      requires Apart()
      modifies this`cursors
      ensures Apart() && fresh(cursors.Values - old(cursors.Values))
      ensures View() == old(View()).(cursors :=
                if key in old(View()).cursors then old(View()).cursors else old(View()).cursors[key := FRESH])
    {
      if key !in cursors {
        var cursor := new ExportCursor();
        cursors := cursors[key := cursor];
      }
    }

    method EnsureCursors()
      requires Apart()
      modifies this`cursors
      ensures Apart() && fresh(cursors.Values - old(cursors.Values))
      ensures View() == old(View()).(cursors := WithFresh(old(View()).cursors, candidates))
    {
      var i := 0;
      ghost var before := View();
      WithFreshNone(before.cursors);
      while i < |candidates|
        invariant 0 <= i <= |candidates|
        invariant Apart() && fresh(cursors.Values - old(cursors.Values))
        invariant View() == before.(cursors := WithFresh(before.cursors, candidates[..i]))
      {
        WithFreshStep(before.cursors, candidates, i);
        EnsureCursor(candidates[i].key);
        i := i + 1;
      }
      assert candidates[..i] == candidates;
    }

    /** Starts one read per candidate. */
    method BeginReads(now: real)
      requires Apart()
      modifies this`cursors, this`phase
      ensures Apart() && View() == StartReading(old(View()), now)
      ensures fresh(cursors.Values - old(cursors.Values))
    {
      EnsureCursors();
      phase := Reading(seq(|candidates|, _ => Pending(now)));
    }

    method DiscoveryDone(found: seq<Candidate>, now: real)
      requires Apart()
      modifies this`cursors, this`phase, this`candidates, this`discoveredAt
      ensures Apart() && View() == StepDiscovered(old(View()), found, now)
      ensures fresh(cursors.Values - old(cursors.Values))
    {
      if !phase.Discovering? { return; }
      candidates := if |found| <= CANDIDATES_MAX then found else found[..CANDIDATES_MAX];
      discoveredAt := Some(phase.asked);
      BeginReads(now);
    }

    method DiscoveryThrew(now: real)
      requires Apart()
      modifies this`phase, this`selected, this`published, this`outputs
      ensures Apart() && cursors == old(cursors) && View() == StepDiscoveryFailed(old(View()), now)
    {
      if !phase.Discovering? { return; }
      if !stopped && selected.Some? { outputs := outputs + [Quiet(InvalidExport, now)]; }
      phase, selected, published := Idle, None, None;
    }

    /** Hands one read to its file's cursor; the others do not move. */
    method Feed(key: string, doc: Option<Snapshot>, now: real, started: real) returns (s: Option<Snapshot>)
      requires Apart() && key in cursors
      modifies cursors[key]
      ensures CursorViews() == old(CursorViews())[key := Accept(old(cursors[key].View()), doc, started, now)]
      ensures s == Current(cursors[key].View(), now)
    {
      s := cursors[key].AcceptRead(doc, now, started);
    }

    method ReadFinished(i: nat, raw: Option<Json>, now: real)
      requires Apart()
      modifies this`phase, cursors.Values
      ensures Apart() && cursors == old(cursors) && View() == StepReadDone(old(View()), i, raw, now)
    {
      if !phase.Reading? || i >= |phase.rows| || !phase.rows[i].Pending? { return; }
      if i >= |candidates| || candidates[i].key !in cursors { return; }
      var started, key := phase.rows[i].started, candidates[i].key;
      var snapshot := Feed(key, ParseSnapshot(raw, environment, candidates[i].provider), now, started);
      phase := Reading(phase.rows[i := Done(started, snapshot)]);
    }

    /** The rows whose snapshot still stands when the pass completes. */
    method ActiveRows(rows: seq<Row>, now: real) returns (active: seq<nat>)
      ensures active == Actives(View(), rows, now, |rows|)
    {
      active := [];
      var i := 0;
      while i < |rows|
        invariant 0 <= i <= |rows|
        invariant active == Actives(View(), rows, now, i)
      {
        if i < |candidates| && rows[i].Done? && rows[i].snapshot.Some? && candidates[i].key in cursors {
          var standing := cursors[candidates[i].key].CurrentAt(now);
          if standing.Some? { active := active + [i]; }
        }
        i := i + 1;
      }
    }

    method WhyQuiet(now: real, otherwise: Reason) returns (r: Reason)
      ensures r == ReasonFor(View(), now, otherwise)
    {
      if selected.Some? && selected.value in cursors {
        r := cursors[selected.value].WhyInactive(now);
      } else {
        r := otherwise;
      }
    }

    /** Nothing may stay published: none or several exports are current. */
    method Withdraw(conflict: bool, now: real)
      modifies this`selected, this`published, this`outputs
      ensures View() == old(View()).(selected := None, published := None,
                outputs := if old(selected).Some?
                           then old(outputs) + [Quiet(if conflict then ProviderConflict
                                                      else ReasonFor(old(View()), now, InvalidExport), now)]
                           else old(outputs))
    {
      if selected.Some? {
        var reason := ProviderConflict;
        if !conflict { reason := WhyQuiet(now, InvalidExport); }
        outputs := outputs + [Quiet(reason, now)];
      }
      selected, published := None, None;
    }

    /** Publishes the sole current export unless it is published already. */
    method Offer(key: string, s: Snapshot, started: real, now: real)
      modifies this`selected, this`published, this`outputs
      ensures var marker := Some(MarkerOf(key, s));
              View() == if old(published) == marker then old(View()) else
                old(View()).(selected := Some(key), published := marker,
                             outputs := old(outputs) + [Publish(key, Aged(s, started, now), now)])
    {
      var marker := MarkerOf(key, s);
      if published != Some(marker) {
        selected, published := Some(key), Some(marker);
        outputs := outputs + [Publish(key, Aged(s, started, now), now)];
      }
    }

    /** Forgets the cursors of files that are no candidates. */
    method Prune()
      requires Apart()
      modifies this`cursors
      ensures Apart() && cursors.Values <= old(cursors.Values)
      ensures View() == old(View()).(cursors := Known(old(View())))
    {
      var known := KeySet(candidates);
      cursors := map k | k in cursors && k in known :: cursors[k];
    }

    method Conclude(rows: seq<Row>, now: real)
      modifies this`selected, this`published, this`outputs
      ensures View() == Settle(old(View()), rows, now)
    {
      var active := ActiveRows(rows, now);
      SoleExact(View(), rows, now);
      if |active| != 1 {
        Withdraw(|active| > 1, now);
      } else {
        var row := rows[active[0]];
        Offer(candidates[active[0]].key, row.snapshot.value, row.started, now);
      }
    }

    method PassCompleted(now: real)
      requires Apart()
      modifies this`phase, this`cursors, this`selected, this`published, this`outputs
      ensures Apart() && cursors.Values <= old(cursors.Values) && View() == StepPassDone(old(View()), now)
    {
      if !phase.Reading? || !AllDone(phase.rows) { return; }
      if !stopped {
        Conclude(phase.rows, now);
        Prune();
      }
      phase := Idle;
    }

    method CheckExpiry(now: real)
      requires Apart()
      modifies this`selected, this`published, this`outputs
      ensures Apart() && cursors == old(cursors) && View() == StepExpire(old(View()), now)
    {
      if stopped || selected.None? { return; }
      if selected.value in cursors {
        var standing := cursors[selected.value].CurrentAt(now);
        if standing.Some? { return; }
      }
      var reason := WhyQuiet(now, ObservationTimeout);
      selected, published, outputs := None, None, outputs + [Quiet(reason, now)];
      assert CursorViews() == old(CursorViews());
    }

    method Halt()
      requires Apart()
      modifies this`stopped
      ensures Apart() && cursors == old(cursors) && View() == old(View()).(stopped := true)
    {
      stopped := true;
    }
  }

  lemma WithFreshNone(cursors: map<string, Cursor>)
    ensures WithFresh(cursors, []) == cursors
  {
  }

  lemma KeySetGrows(cs: seq<Candidate>, c: Candidate)
    ensures KeySet(cs + [c]) == KeySet(cs) + {c.key}
  {
    var more := cs + [c];
    assert more[|cs|] == c;
    forall k | k in KeySet(cs) ensures k in KeySet(more) {
      var d :| d in cs && d.key == k;
      assert d in more;
    }
    assert c in more;
  }

  lemma WithFreshStep(cursors: map<string, Cursor>, cs: seq<Candidate>, i: nat)
    requires i < |cs|
    ensures var sofar := WithFresh(cursors, cs[..i]);
            WithFresh(cursors, cs[..i + 1])
            == if cs[i].key in sofar then sofar else sofar[cs[i].key := FRESH]
  {
    assert cs[..i + 1] == cs[..i] + [cs[i]];
    KeySetGrows(cs[..i], cs[i]);
  }
}
