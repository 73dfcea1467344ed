/** When the observed interval can be trusted: exactly when no two candidate
    files share a provider. */
module IntervalLimits {
  import opened Texts
  import opened Snapshots
  import EC = ExportCursors
  import opened ExportWatch
  import opened BridgePipeline
  import BridgeRelay

  /** A run whose discovery finds these files. */
  predicate Finds(es: seq<WatchEvent>, found: seq<Candidate>) {
    forall i :: 0 <= i < |es| && es[i].Discovered? ==> es[i].found == found
  }

  predicate Ordered(calls: seq<Output>) {
    Aimed(calls).Some? ==> Aimed(calls).value.firstSequence <= Aimed(calls).value.latestSequence
  }

  predicate Usual(found: seq<Candidate>) {
    && Distinct(Files(found)) && |found| <= CANDIDATES_MAX
    && forall i :: 0 <= i < |found| ==> KnownProvider(found[i].provider)
  }

  // ----- with distinct providers -----

  lemma {:induction false} FinesAlong(w: Watcher, es: seq<WatchEvent>, found: seq<Candidate>, from: real)
    requires WatcherFine(w, from) && Legal(es, from) && Finds(es, found) && |found| <= CANDIDATES_MAX
    requires w.candidates == [] || w.candidates == found
    ensures exists later :: WatcherFine(Run(w, es), later)
    ensures Run(w, es).candidates == [] || Run(w, es).candidates == found
    decreases es
  {
    if es == [] {
      assert WatcherFine(Run(w, es), from);
    } else {
      WatcherStepFine(w, es[0], from);
      assert Step(w, es[0]).candidates == [] || Step(w, es[0]).candidates == found;
      FinesAlong(Step(w, es[0]), es[1..], found, es[0].now);
      var later :| WatcherFine(Run(Step(w, es[0]), es[1..]), later);
      assert WatcherFine(Run(w, es), later);
    }
  }

  lemma DistinctSuffices(environment: string, found: seq<Candidate>, es: seq<WatchEvent>, from: real)
    requires Usual(found) && DistinctProviders(found) && Legal(es, from) && Finds(es, found)
    ensures Ordered(Run(NewWatcher(environment), es).outputs)
  {
    NewWatcherOk(environment, from);
    FinesAlong(NewWatcher(environment), es, found, from);
    var w := Run(NewWatcher(environment), es);
    if Aimed(w.outputs).Some? {
      ProvidersGiveFiles(w.outputs, w.candidates);
      AimedOrdered(w.outputs);
    }
  }

  // ----- whole passes at one moment -----

  /** All reads from row k on finish at once with these documents. */
  function Reads(raws: seq<Option<Json>>, k: nat): seq<WatchEvent>
    requires k <= |raws|
    decreases |raws| - k
  {
    if k == |raws| then [] else [ReadDone(k, raws[k], 0.0)] + Reads(raws, k + 1)
  }

  function Taken(w: Watcher, raws: seq<Option<Json>>, m: nat): EC.Cursor
    requires m < |raws| && m < |w.candidates| && w.candidates[m].key in w.cursors
  {
    EC.Accept(w.cursors[w.candidates[m].key], ParseSnapshot(raws[m], w.environment, w.candidates[m].provider), 0.0, 0.0)
  }

  predicate MidPass(w: Watcher, raws: seq<Option<Json>>, k: nat) {
    && w.phase.Reading? && |w.phase.rows| == |w.candidates| == |raws| && k <= |raws|
    && Distinct(Files(w.candidates))
    && (forall m :: 0 <= m < |raws| ==> w.candidates[m].key in w.cursors)
    && (forall m :: k <= m < |raws| ==> w.phase.rows[m] == Pending(0.0))
  }

  predicate ReadsTaken(w: Watcher, next: Watcher, raws: seq<Option<Json>>, k: nat)
    requires MidPass(w, raws, k)
  {
    && next == w.(phase := next.phase, cursors := next.cursors)
    && next.phase.Reading? && |next.phase.rows| == |raws|
    && next.cursors.Keys == w.cursors.Keys
    && (forall m :: 0 <= m < k ==>
          && next.phase.rows[m] == w.phase.rows[m]
          && next.cursors[w.candidates[m].key] == w.cursors[w.candidates[m].key])
    && (forall m :: k <= m < |raws| ==>
          && next.cursors[w.candidates[m].key] == Taken(w, raws, m)
          && next.phase.rows[m] == Done(0.0, EC.Current(Taken(w, raws, m), 0.0)))
  }

  lemma OtherKey(cs: seq<Candidate>, i: nat, j: nat)
    requires Distinct(Files(cs)) && i < |cs| && j < |cs| && i != j
    ensures cs[i].key != cs[j].key
  {
    assert Files(cs)[i] == cs[i].key && Files(cs)[j] == cs[j].key;
    if i < j { assert Files(cs)[i] != Files(cs)[j]; } else { assert Files(cs)[j] != Files(cs)[i]; }
  }

  lemma OneRead(w: Watcher, raws: seq<Option<Json>>, k: nat)
    requires MidPass(w, raws, k) && k < |raws|
    ensures var next := Step(w, ReadDone(k, raws[k], 0.0));
            && MidPass(next, raws, k + 1)
            && next == w.(phase := Reading(w.phase.rows[k := Done(0.0, EC.Current(Taken(w, raws, k), 0.0))]),
                          cursors := w.cursors[w.candidates[k].key := Taken(w, raws, k)])
            && (forall m :: 0 <= m < |raws| && m != k ==>
                  next.cursors[w.candidates[m].key] == w.cursors[w.candidates[m].key])
  {
    forall m: nat | m < |raws| && m != k ensures w.candidates[m].key != w.candidates[k].key {
      OtherKey(w.candidates, m, k);
    }
  }

  lemma {:induction false} ReadsRun(w: Watcher, raws: seq<Option<Json>>, k: nat)
    requires MidPass(w, raws, k)
    ensures ReadsTaken(w, Run(w, Reads(raws, k)), raws, k)
    decreases |raws| - k
  {
    if k < |raws| {
      var e := ReadDone(k, raws[k], 0.0);
      var next := Step(w, e);
      OneRead(w, raws, k);
      ReadsRun(next, raws, k + 1);
      assert Reads(raws, k)[0] == e && Reads(raws, k)[1..] == Reads(raws, k + 1);
      assert Run(w, Reads(raws, k)) == Run(next, Reads(raws, k + 1));
    }
  }

  /** Documents for two files; the others cannot be read. */
  function Pair(n: nat, i: nat, a: Option<Json>, j: nat, b: Option<Json>): seq<Option<Json>> {
    seq(n, m requires 0 <= m < n => if m == i then a else if m == j then b else None)
  }

  /** Between passes, with nothing ever read but files i and j. */
  predicate Resting(w: Watcher, found: seq<Candidate>, i: nat, j: nat) {
    && w.phase.Idle? && !w.stopped && w.candidates == found && Distinct(Files(found)) && found != []
    && i < |found| && j < |found| && i != j
    && w.cursors.Keys == KeySet(found)
    && (forall m :: 0 <= m < |found| ==> found[m].key in w.cursors)
    && (forall m :: 0 <= m < |found| && m != i && m != j ==> w.cursors[found[m].key] == EC.FRESH)
  }

  function Pass(raws: seq<Option<Json>>): seq<WatchEvent> {
    Reads(raws, 0) + [PassDone(0.0)]
  }

  /** The state in which a pass over found has its reads under way. */
  predicate Underway(w: Watcher, found: seq<Candidate>, i: nat, j: nat) {
    && Resting(w.(phase := Idle), found, i, j)
    && w.phase == Reading(seq(|found|, _ => Pending(0.0)))
  }

  /** What a pass leaves behind when exactly one of the two files is current. */
  predicate PassLeaves(w: Watcher, next: Watcher, found: seq<Candidate>, i: nat, ci: EC.Cursor, j: nat, cj: EC.Cursor) {
    && Resting(next, found, i, j)
    && next.environment == w.environment
    && next.cursors[found[i].key] == ci && next.cursors[found[j].key] == cj
    && (EC.Current(ci, 0.0).Some? && EC.Current(cj, 0.0).None? ==>
          Shown(w, next, found[i].key, EC.Current(ci, 0.0).value))
    && (EC.Current(ci, 0.0).None? && EC.Current(cj, 0.0).Some? ==>
          Shown(w, next, found[j].key, EC.Current(cj, 0.0).value))
    && (EC.Current(ci, 0.0).None? && EC.Current(cj, 0.0).None? && w.selected.None? ==>
          next.outputs == w.outputs && next.published.None? && next.selected.None?)
  }

  predicate Shown(w: Watcher, next: Watcher, key: string, s: Snapshot) {
    && next.published == Some(MarkerOf(key, s))
    && (w.published != next.published ==> next.outputs == w.outputs + [Publish(key, Aged(s, 0.0, 0.0), 0.0)])
  }

  lemma SettleOnOne(w: Watcher, rows: seq<Row>, x: nat)
    requires RowActive(w, rows, 0.0, x) && rows[x].started == 0.0
    requires forall m: nat :: m < |rows| && m != x ==> !RowActive(w, rows, 0.0, m)
    ensures Shown(w, Settle(w, rows, 0.0), w.candidates[x].key, rows[x].snapshot.value)
  {
    assert Sole(w, rows, 0.0, x);
    SoleExact(w, rows, 0.0);
  }

  lemma SettleOnNone(w: Watcher, rows: seq<Row>)
    requires forall m: nat :: m < |rows| ==> !RowActive(w, rows, 0.0, m)
    requires w.selected.None?
    ensures Settle(w, rows, 0.0) == w.(selected := None, published := None)
  {
    NoneActive(w, rows, |rows|);
  }

  lemma {:induction false} NoneActive(w: Watcher, rows: seq<Row>, n: nat)
    requires n <= |rows| && forall m: nat :: m < |rows| ==> !RowActive(w, rows, 0.0, m)
    ensures Actives(w, rows, 0.0, n) == []
  {
    if n > 0 { NoneActive(w, rows, n - 1); }
  }

  /** After the reads, exactly the files whose cursor offers something are active. */
  lemma PassRows(w: Watcher, mid: Watcher, found: seq<Candidate>, i: nat, j: nat, raws: seq<Option<Json>>)
    requires Underway(w, found, i, j) && MidPass(w, raws, 0) && ReadsTaken(w, mid, raws, 0)
    requires forall m :: 0 <= m < |raws| && m != i && m != j ==> raws[m].None?
    ensures AllDone(mid.phase.rows)
    ensures forall m: nat :: m < |raws| ==>
              && mid.phase.rows[m] == Done(0.0, EC.Current(Taken(w, raws, m), 0.0))
              && (RowActive(mid, mid.phase.rows, 0.0, m) <==> EC.Current(Taken(w, raws, m), 0.0).Some?)
    ensures forall m: nat :: m < |raws| && m != i && m != j ==> Taken(w, raws, m) == EC.FRESH
  {
  }

  lemma PassShows(w: Watcher, mid: Watcher, found: seq<Candidate>, i: nat, j: nat, raws: seq<Option<Json>>)
    requires Underway(w, found, i, j) && MidPass(w, raws, 0) && ReadsTaken(w, mid, raws, 0)
    requires forall m :: 0 <= m < |raws| && m != i && m != j ==> raws[m].None?
    requires EC.Current(Taken(w, raws, i), 0.0).Some? && EC.Current(Taken(w, raws, j), 0.0).None?
    ensures Shown(w, Settle(mid, mid.phase.rows, 0.0), found[i].key, EC.Current(Taken(w, raws, i), 0.0).value)
  {
    PassRows(w, mid, found, i, j, raws);
    SettleOnOne(mid, mid.phase.rows, i);
  }

  lemma PassSettles(w: Watcher, mid: Watcher, found: seq<Candidate>, i: nat, j: nat, raws: seq<Option<Json>>)
    requires Underway(w, found, i, j) && MidPass(w, raws, 0) && ReadsTaken(w, mid, raws, 0)
    requires forall m :: 0 <= m < |raws| && m != i && m != j ==> raws[m].None?
    ensures PassLeaves(w, Step(mid, PassDone(0.0)), found, i, Taken(w, raws, i), j, Taken(w, raws, j))
  {
    PassRows(w, mid, found, i, j, raws);
    KeptCursors(mid);
    var rows := mid.phase.rows;
    assert Step(mid, PassDone(0.0)) == Settle(mid, rows, 0.0).(phase := Idle, cursors := mid.cursors);
    var (oi, oj) := (EC.Current(Taken(w, raws, i), 0.0), EC.Current(Taken(w, raws, j), 0.0));
    if oi.Some? && oj.None? { PassShows(w, mid, found, i, j, raws); }
    if oi.None? && oj.Some? { PassShows(w, mid, found, j, i, raws); }
    if oi.None? && oj.None? && w.selected.None? { SettleOnNone(mid, rows); }
  }

  lemma PassRuns(w: Watcher, found: seq<Candidate>, i: nat, a: Option<Json>, j: nat, b: Option<Json>)
    requires Underway(w, found, i, j)
    ensures var raws := Pair(|found|, i, a, j, b);
            PassLeaves(w, Run(w, Pass(raws)), found, i, Taken(w, raws, i), j, Taken(w, raws, j))
  {
    var raws := Pair(|found|, i, a, j, b);
    var mid := Run(w, Reads(raws, 0));
    ReadsRun(w, raws, 0);
    RunAppend(w, Reads(raws, 0), [PassDone(0.0)]);
    var next := Step(mid, PassDone(0.0));
    assert Run(mid, [PassDone(0.0)]) == next by { assert Run(next, []) == next; }
    PassSettles(w, mid, found, i, j, raws);
  }

  // ----- the run that goes wrong -----

  const LAYOUT: seq<Key> := [SchemaVersion, Environment, Provider, Build, SessionId, WorldGeneration,
                             Sequence, ObservationSequence, ObservationAgeMs, State, OwnName, Names]

  function Sample(environment: string, provider: string, sequence: nat, state: Activity): Snapshot {
    Snapshot(environment, provider, "b", "s", "w", sequence, 1, 0.0, state, "n", [], LAYOUT,
             Evidence(provider, "n", []))
  }

  lemma LayoutSample()
    ensures Layout(LAYOUT)
  {
  }

  lemma SampleWellFormed(environment: string, provider: string, sequence: nat, state: Activity)
    requires KnownEnvironment(environment) && KnownProvider(provider) && 0 < sequence < 10
    ensures WellFormed(Sample(environment, provider, sequence, state), environment, provider)
  {
    LayoutSample();
    assert Nonce("s") && Nonce("w");
  }

  lemma SampleNamed(environment: string, provider: string, sequence: nat, state: Activity)
    requires WellFormed(Sample(environment, provider, sequence, state), environment, provider)
    ensures Named(Sample(environment, provider, sequence, state))
  {
    TrimKeeps("n");
    NamedMeans(Sample(environment, provider, sequence, state), environment, provider);
  }

  lemma SampleParses(environment: string, provider: string, sequence: nat, state: Activity)
    requires KnownEnvironment(environment) && KnownProvider(provider) && 0 < sequence < 10
    ensures var s := Sample(environment, provider, sequence, state);
            Layout(s.layout) && ParseSnapshot(Some(Render(s)), environment, provider) == Some(s) && Named(s)
  {
    var s := Sample(environment, provider, sequence, state);
    LayoutSample();
    SampleWellFormed(environment, provider, sequence, state);
    ParseExactly(Render(s), s, environment, provider);
    SampleNamed(environment, provider, sequence, state);
  }

  /** The two files' cursors through the three passes. */
  lemma CursorsGoWrong(environment: string, provider: string)
    requires KnownEnvironment(environment) && KnownProvider(provider)
    ensures var a := (n: nat) => Sample(environment, provider, n, Active);
            var c1 := EC.Accept(EC.FRESH, Some(a(2)), 0.0, 0.0);
            var c2 := EC.Accept(c1, Some(a(3)), 0.0, 0.0);
            var c3 := EC.Accept(c2, Some(Sample(environment, provider, 4, Inactive)), 0.0, 0.0);
            var d1 := EC.Accept(EC.FRESH, Some(a(1)), 0.0, 0.0);
            var d2 := EC.Accept(d1, Some(a(2)), 0.0, 0.0);
            && EC.Current(c1, 0.0).None? && EC.Current(d1, 0.0).None?
            && EC.Current(c2, 0.0) == Some(a(3))
            && EC.Current(c3, 0.0).None? && EC.Current(d2, 0.0) == Some(a(2))
  {
    forall n: nat | 0 < n < 10 ensures Named(Sample(environment, provider, n, Active)) {
      SampleParses(environment, provider, n, Active);
    }
    var a2, a3 := Sample(environment, provider, 2, Active), Sample(environment, provider, 3, Active);
    var c1 := EC.Store(EC.FRESH, a2, 0.0, 0.0);
    var c2 := EC.Store(c1, a3, 0.0, 0.0);
    assert EC.Judge(c2, Some(Sample(environment, provider, 4, Inactive))) == EC.Stored;
  }

  /** What a file says in one pass. */
  function Doc(environment: string, provider: string, sequence: nat, state: Activity): Option<Json> {
    LayoutSample();
    Some(Render(Sample(environment, provider, sequence, state)))
  }

  function PassOne(environment: string, found: seq<Candidate>, i: nat, j: nat): seq<Option<Json>>
    requires i < |found|
  {
    Pair(|found|, i, Doc(environment, found[i].provider, 2, Active), j, None)
  }

  function PassTwo(environment: string, found: seq<Candidate>, i: nat, j: nat): seq<Option<Json>>
    requires i < |found|
  {
    Pair(|found|, i, Doc(environment, found[i].provider, 3, Active), j, Doc(environment, found[i].provider, 1, Active))
  }

  function PassThree(environment: string, found: seq<Candidate>, i: nat, j: nat): seq<Option<Json>>
    requires i < |found|
  {
    Pair(|found|, i, Doc(environment, found[i].provider, 4, Inactive),
         j, Doc(environment, found[i].provider, 2, Active))
  }

  /** Discovery, then three passes: file i attaches and speaks, then says it is
      inactive in the very pass in which file j, further back in the same
      generation, attaches. */
  function WrongRun(environment: string, found: seq<Candidate>, i: nat, j: nat): seq<WatchEvent>
    requires i < |found|
  {
    [Tick(0.0), Discovered(found, 0.0)]
    + (Pass(PassOne(environment, found, i, j))
    + ([Tick(0.0)] + (Pass(PassTwo(environment, found, i, j))
    + ([Tick(0.0)] + Pass(PassThree(environment, found, i, j))))))
  }

  lemma FirstTick(environment: string, found: seq<Candidate>, i: nat, j: nat)
    requires Usual(found) && i < |found| && j < |found| && i != j
    ensures var w := Run(NewWatcher(environment), [Tick(0.0), Discovered(found, 0.0)]);
            && Underway(w, found, i, j) && w.environment == environment
            && w.outputs == [] && w.selected.None? && w.published.None?
            && w.cursors[found[i].key] == EC.FRESH && w.cursors[found[j].key] == EC.FRESH
  {
    var w0 := NewWatcher(environment);
    var w1 := Step(w0, Tick(0.0));
    var w2 := Step(w1, Discovered(found, 0.0));
    assert Run(w0, [Tick(0.0), Discovered(found, 0.0)]) == w2 by {
      assert Run(w2, []) == w2;
      assert Run(w1, [Discovered(found, 0.0)]) == w2;
      assert [Tick(0.0), Discovered(found, 0.0)][1..] == [Discovered(found, 0.0)];
    }
    assert forall m: nat :: m < |found| ==> found[m] in found;
    assert w1.phase == Discovering(0.0);
    assert w2.cursors.Keys == KeySet(found);
  }

  lemma NextTick(w: Watcher, found: seq<Candidate>, i: nat, j: nat)
    requires Resting(w, found, i, j)
    ensures var next := Run(w, [Tick(0.0)]);
            Underway(next, found, i, j) && next == w.(phase := next.phase)
  {
    assert Run(w, [Tick(0.0)]) == Step(w, Tick(0.0)) by { assert Run(Step(w, Tick(0.0)), []) == Step(w, Tick(0.0)); }
    assert WithFresh(w.cursors, found) == w.cursors;
  }

  /** Every event at the one moment, and none but the given discovery. */
  predicate Still(es: seq<WatchEvent>, found: seq<Candidate>) {
    forall k :: 0 <= k < |es| ==> es[k].now == 0.0 && (es[k].Discovered? ==> es[k].found == found)
  }

  lemma {:induction false} StillIsLegal(es: seq<WatchEvent>, found: seq<Candidate>)
    requires Still(es, found) && Distinct(Files(found))
    ensures Legal(es, 0.0) && Finds(es, found)
    decreases es
  {
    if es != [] {
      assert Still([es[0]] + es[1..], found);
      assert Still(es[1..], found);
      StillIsLegal(es[1..], found);
    }
  }

  lemma {:induction false} ReadsStill(raws: seq<Option<Json>>, k: nat, found: seq<Candidate>)
    requires k <= |raws|
    ensures Still(Reads(raws, k), found)
    decreases |raws| - k
  {
    if k < |raws| { ReadsStill(raws, k + 1, found); }
  }

  lemma StillJoins(a: seq<WatchEvent>, b: seq<WatchEvent>, found: seq<Candidate>)
    requires Still(a, found) && Still(b, found)
    ensures Still(a + b, found)
  {
  }

  lemma PassStill(raws: seq<Option<Json>>, found: seq<Candidate>)
    ensures Still(Pass(raws), found)
  {
    ReadsStill(raws, 0, found);
    StillJoins(Reads(raws, 0), [PassDone(0.0)], found);
  }

  lemma WrongRunStill(environment: string, found: seq<Candidate>, i: nat, j: nat)
    requires i < |found|
    ensures Still(WrongRun(environment, found, i, j), found)
  {
    var (p1, p2, p3) := (Pass(PassOne(environment, found, i, j)), Pass(PassTwo(environment, found, i, j)),
                         Pass(PassThree(environment, found, i, j)));
    PassStill(PassOne(environment, found, i, j), found);
    PassStill(PassTwo(environment, found, i, j), found);
    PassStill(PassThree(environment, found, i, j), found);
    StillJoins([Tick(0.0)], p3, found);
    StillJoins(p2, [Tick(0.0)] + p3, found);
    StillJoins([Tick(0.0)], p2 + ([Tick(0.0)] + p3), found);
    StillJoins(p1, [Tick(0.0)] + (p2 + ([Tick(0.0)] + p3)), found);
    StillJoins([Tick(0.0), Discovered(found, 0.0)], p1 + ([Tick(0.0)] + (p2 + ([Tick(0.0)] + p3))), found);
  }

  /** The watcher between the passes of the run. */
  function AfterOne(environment: string, found: seq<Candidate>, i: nat, j: nat): Watcher
    requires i < |found|
  {
    Run(Run(NewWatcher(environment), [Tick(0.0), Discovered(found, 0.0)]), Pass(PassOne(environment, found, i, j)))
  }

  function AfterTwo(environment: string, found: seq<Candidate>, i: nat, j: nat): Watcher
    requires i < |found|
  {
    Run(Run(AfterOne(environment, found, i, j), [Tick(0.0)]), Pass(PassTwo(environment, found, i, j)))
  }

  function AfterThree(environment: string, found: seq<Candidate>, i: nat, j: nat): Watcher
    requires i < |found|
  {
    Run(Run(AfterTwo(environment, found, i, j), [Tick(0.0)]), Pass(PassThree(environment, found, i, j)))
  }

  lemma WrongRunEnds(environment: string, found: seq<Candidate>, i: nat, j: nat)
    requires i < |found|
    ensures Run(NewWatcher(environment), WrongRun(environment, found, i, j)) == AfterThree(environment, found, i, j)
  {
    var (p1, p2, p3) := (Pass(PassOne(environment, found, i, j)), Pass(PassTwo(environment, found, i, j)),
                         Pass(PassThree(environment, found, i, j)));
    var t := [Tick(0.0)];
    var w0, w1, w2 := NewWatcher(environment), AfterOne(environment, found, i, j), AfterTwo(environment, found, i, j);
    var first := [Tick(0.0), Discovered(found, 0.0)];
    RunAppend(w0, first, p1 + (t + (p2 + (t + p3))));
    RunAppend(Run(w0, first), p1, t + (p2 + (t + p3)));
    RunAppend(w1, t, p2 + (t + p3));
    RunAppend(Run(w1, t), p2, t + p3);
    RunAppend(w2, t, p3);
  }

  /** Some(s) as a read gives it, and nothing. */
  lemma DocParses(environment: string, provider: string, sequence: nat, state: Activity)
    requires KnownEnvironment(environment) && KnownProvider(provider) && 0 < sequence < 10
    ensures ParseSnapshot(Doc(environment, provider, sequence, state), environment, provider)
            == Some(Sample(environment, provider, sequence, state))
  {
    LayoutSample();
    SampleParses(environment, provider, sequence, state);
  }

  predicate Twins(found: seq<Candidate>, i: nat, j: nat) {
    Usual(found) && i < |found| && j < |found| && i != j && found[i].provider == found[j].provider
  }

  predicate Unheard(w: Watcher, environment: string, found: seq<Candidate>, i: nat, j: nat) {
    && Resting(w, found, i, j) && w.environment == environment
    && w.outputs == [] && w.published.None? && w.selected.None?
  }

  /** The cursor of a file after it said these things. */
  function Said1(environment: string, provider: string, n: nat): EC.Cursor {
    EC.Accept(EC.FRESH, Some(Sample(environment, provider, n, Active)), 0.0, 0.0)
  }

  function Said2(environment: string, provider: string, n: nat): EC.Cursor {
    EC.Accept(Said1(environment, provider, n), Some(Sample(environment, provider, n + 1, Active)), 0.0, 0.0)
  }

  function Said3(environment: string, provider: string, n: nat): EC.Cursor {
    EC.Accept(Said2(environment, provider, n), Some(Sample(environment, provider, n + 2, Inactive)), 0.0, 0.0)
  }

  lemma PassOneLeaves(environment: string, found: seq<Candidate>, i: nat, j: nat)
    requires Twins(found, i, j) && KnownEnvironment(environment)
    ensures var w := AfterOne(environment, found, i, j);
            && Unheard(w, environment, found, i, j)
            && w.cursors[found[i].key] == Said1(environment, found[i].provider, 2)
            && w.cursors[found[j].key] == EC.FRESH
  {
    var w := Run(NewWatcher(environment), [Tick(0.0), Discovered(found, 0.0)]);
    var provider := found[i].provider;
    FirstTick(environment, found, i, j);
    DocParses(environment, provider, 2, Active);
    PassRuns(w, found, i, Doc(environment, provider, 2, Active), j, None);
    CursorsGoWrong(environment, provider);
  }

  lemma PassTwoRuns(w: Watcher, environment: string, found: seq<Candidate>, i: nat, j: nat)
    requires Twins(found, i, j) && KnownEnvironment(environment)
    requires Underway(w, found, i, j) && w.environment == environment
    requires w.cursors[found[i].key] == Said1(environment, found[i].provider, 2)
    requires w.cursors[found[j].key] == EC.FRESH
    ensures var (next, provider) := (Run(w, Pass(PassTwo(environment, found, i, j))), found[i].provider);
            && Resting(next, found, i, j) && next.environment == environment
            && Shown(w, next, found[i].key, Sample(environment, provider, 3, Active))
            && next.cursors[found[i].key] == Said2(environment, provider, 2)
            && next.cursors[found[j].key] == Said1(environment, provider, 1)
  {
    var provider := found[i].provider;
    var raws := PassTwo(environment, found, i, j);
    DocParses(environment, provider, 3, Active);
    DocParses(environment, provider, 1, Active);
    assert Taken(w, raws, i) == Said2(environment, provider, 2);
    assert Taken(w, raws, j) == Said1(environment, provider, 1);
    PassRuns(w, found, i, raws[i], j, raws[j]);
    CursorsGoWrong(environment, provider);
  }

  lemma PassTwoLeaves(environment: string, found: seq<Candidate>, i: nat, j: nat)
    requires Twins(found, i, j) && KnownEnvironment(environment)
    ensures var (w, s) := (AfterTwo(environment, found, i, j), Sample(environment, found[i].provider, 3, Active));
            && Resting(w, found, i, j) && w.environment == environment
            && w.outputs == [Publish(found[i].key, Aged(s, 0.0, 0.0), 0.0)]
            && w.published == Some(MarkerOf(found[i].key, s))
            && w.cursors[found[i].key] == Said2(environment, found[i].provider, 2)
            && w.cursors[found[j].key] == Said1(environment, found[i].provider, 1)
  {
    var w := AfterOne(environment, found, i, j);
    PassOneLeaves(environment, found, i, j);
    NextTick(w, found, i, j);
    PassTwoRuns(Run(w, [Tick(0.0)]), environment, found, i, j);
  }

  /** Said3 and Said2 as the third pass leaves them. */
  lemma ThirdCursors(environment: string, provider: string)
    requires KnownEnvironment(environment) && KnownProvider(provider)
    ensures EC.Current(Said3(environment, provider, 2), 0.0).None?
    ensures EC.Current(Said2(environment, provider, 1), 0.0) == Some(Sample(environment, provider, 2, Active))
  {
    CursorsGoWrong(environment, provider);
  }

  lemma PassThreeRuns(w: Watcher, environment: string, found: seq<Candidate>, i: nat, j: nat)
    requires Twins(found, i, j) && KnownEnvironment(environment)
    requires Underway(w, found, i, j) && w.environment == environment
    requires w.cursors[found[i].key] == Said2(environment, found[i].provider, 2)
    requires w.cursors[found[j].key] == Said1(environment, found[i].provider, 1)
    ensures var next := Run(w, Pass(PassThree(environment, found, i, j)));
            var b := Sample(environment, found[i].provider, 2, Active);
            Shown(w, next, found[j].key, b)
  {
    var provider := found[i].provider;
    var raws := PassThree(environment, found, i, j);
    DocParses(environment, provider, 4, Inactive);
    DocParses(environment, provider, 2, Active);
    assert Taken(w, raws, i) == Said3(environment, provider, 2);
    assert Taken(w, raws, j) == Said2(environment, provider, 1);
    PassRuns(w, found, i, raws[i], j, raws[j]);
    ThirdCursors(environment, provider);
  }

  lemma PassThreeLeaves(environment: string, found: seq<Candidate>, i: nat, j: nat)
    requires Twins(found, i, j) && KnownEnvironment(environment)
    ensures var provider := found[i].provider;
            var (a, b) := (Sample(environment, provider, 3, Active), Sample(environment, provider, 2, Active));
            AfterThree(environment, found, i, j).outputs
            == [Publish(found[i].key, Aged(a, 0.0, 0.0), 0.0), Publish(found[j].key, Aged(b, 0.0, 0.0), 0.0)]
  {
    var w := AfterTwo(environment, found, i, j);
    PassTwoLeaves(environment, found, i, j);
    NextTick(w, found, i, j);
    OtherKey(found, i, j);
    PassThreeRuns(Run(w, [Tick(0.0)]), environment, found, i, j);
  }

  /** Two files of one provider: the run's last interval is empty. */
  lemma WrongRunDisorders(environment: string, found: seq<Candidate>, i: nat, j: nat)
    requires Twins(found, i, j) && KnownEnvironment(environment)
    ensures var es := WrongRun(environment, found, i, j);
            && Legal(es, 0.0) && Finds(es, found)
            && !Ordered(Run(NewWatcher(environment), es).outputs)
  {
    WrongRunStill(environment, found, i, j);
    StillIsLegal(WrongRun(environment, found, i, j), found);
    WrongRunEnds(environment, found, i, j);
    PassThreeLeaves(environment, found, i, j);
    var calls := AfterThree(environment, found, i, j).outputs;
    assert calls[..1] == [calls[0]] && calls[..1][..0] == [];
    assert Aimed(calls[..1]) == Some(BridgeRelay.FirstOf(calls[0].snapshot));
  }

  ghost predicate AlwaysOrdered(environment: string, found: seq<Candidate>) {
    forall es, from :: Legal(es, from) && Finds(es, found) ==> Ordered(Run(NewWatcher(environment), es).outputs)
  }

  /** The observed interval is never empty, whatever the files say and however the
      reads and timers fall, exactly when no two candidate files share a provider. */
  lemma OrderedExactly(environment: string, found: seq<Candidate>)
    requires Usual(found) && KnownEnvironment(environment)
    ensures AlwaysOrdered(environment, found) <==> DistinctProviders(found)
  {
    if DistinctProviders(found) {
      forall es, from | Legal(es, from) && Finds(es, found)
        ensures Ordered(Run(NewWatcher(environment), es).outputs)
      {
        DistinctSuffices(environment, found, es, from);
      }
    } else {
      var i: nat, j: nat :| i < j < |found| && found[i].provider == found[j].provider;
      WrongRunDisorders(environment, found, i, j);
    }
  }
}
