/** A run in which a published copy looks younger than its document is. */
module AgeLag {
  import opened Texts
  import opened Snapshots
  import EC = ExportCursors
  import opened ExportWatch
  import opened IntervalLimits

  /** Two reads end and the pass with them. */
  function PassAt(t: real, f: Option<Json>, g: Option<Json>, rest: seq<WatchEvent>): seq<WatchEvent> {
    [ReadDone(0, f, t)] + ([ReadDone(1, g, t)] + ([PassDone(t)] + rest))
  }

  /** Two files attach together and are in conflict; at the next pass one says it is
      inactive and the other cannot be read. */
  function LagRun(environment: string, cs: seq<Candidate>): seq<WatchEvent>
    requires |cs| == 2
  {
    var p := cs[0].provider;
    var q := cs[1].provider;
    [Tick(0.0)] + ([Discovered(cs, 0.0)]
      + PassAt(0.0, Doc(environment, p, 1, Active), Doc(environment, q, 1, Active), [Tick(1000.0)]
      + PassAt(1000.0, Doc(environment, p, 2, Active), Doc(environment, q, 2, Active), [Tick(2000.0)]
      + PassAt(2000.0, None, Doc(environment, q, 3, Inactive), []))))
  }

  function Held(environment: string, cs: seq<Candidate>, f: EC.Cursor, g: EC.Cursor, phase: Phase): Watcher
    requires |cs| == 2
  {
    Watcher(environment, false, phase, cs, Some(0.0), map[cs[0].key := f, cs[1].key := g], None, None, [])
  }

  function BothPending(t: real): Phase { Reading([Pending(t), Pending(t)]) }

  lemma Unroll(w: Watcher, e: WatchEvent, rest: seq<WatchEvent>)
    ensures Run(w, [e] + rest) == Run(Step(w, e), rest)
  {
    assert ([e] + rest)[0] == e && ([e] + rest)[1..] == rest;
  }

  predicate TwoFiles(cs: seq<Candidate>) {
    |cs| == 2 && cs[0].key != cs[1].key
  }

  lemma KeysOfTwo(cs: seq<Candidate>)
    requires TwoFiles(cs)
    ensures KeySet(cs) == {cs[0].key, cs[1].key}
  {
  }

  /** What the pass leaves when the two cursors end as f and g. */
  function Left(environment: string, cs: seq<Candidate>, f: EC.Cursor, g: EC.Cursor, t: real): Watcher
    requires |cs| == 2
  {
    Step(Held(environment, cs, f, g, Reading([Done(t, EC.Current(f, t)), Done(t, EC.Current(g, t))])), PassDone(t))
  }

  lemma MapOfTwo(a: string, b: string, f: EC.Cursor, g: EC.Cursor, f2: EC.Cursor, g2: EC.Cursor)
    requires a != b
    ensures map[a := f, b := g][a := f2] == map[a := f2, b := g]
    ensures map[a := f2, b := g][b := g2] == map[a := f2, b := g2]
  {
  }

  lemma ReadF(environment: string, cs: seq<Candidate>, f: EC.Cursor, g: EC.Cursor, t: real, d: Option<Json>)
    requires TwoFiles(cs)
    ensures var f2 := EC.Accept(f, ParseSnapshot(d, environment, cs[0].provider), t, t);
            Step(Held(environment, cs, f, g, BothPending(t)), ReadDone(0, d, t))
            == Held(environment, cs, f2, g, Reading([Done(t, EC.Current(f2, t)), Pending(t)]))
  {
    var f2 := EC.Accept(f, ParseSnapshot(d, environment, cs[0].provider), t, t);
    var w := Held(environment, cs, f, g, BothPending(t));
    assert ReadOpen(w, 0) && w.cursors[cs[0].key] == f && w.phase.rows[0].started == t;
    MapOfTwo(cs[0].key, cs[1].key, f, g, f2, g);
    assert [Pending(t), Pending(t)][0 := Done(t, EC.Current(f2, t))] == [Done(t, EC.Current(f2, t)), Pending(t)];
  }

  lemma ReadG(environment: string, cs: seq<Candidate>, f: EC.Cursor, g: EC.Cursor, t: real, d: Option<Json>, row: Row)
    requires TwoFiles(cs)
    ensures var g2 := EC.Accept(g, ParseSnapshot(d, environment, cs[1].provider), t, t);
            Step(Held(environment, cs, f, g, Reading([row, Pending(t)])), ReadDone(1, d, t))
            == Held(environment, cs, f, g2, Reading([row, Done(t, EC.Current(g2, t))]))
  {
    var g2 := EC.Accept(g, ParseSnapshot(d, environment, cs[1].provider), t, t);
    MapOfTwo(cs[0].key, cs[1].key, f, g, f, g2);
    assert [row, Pending(t)][1 := Done(t, EC.Current(g2, t))] == [row, Done(t, EC.Current(g2, t))];
  }

  lemma PassGoes(environment: string, cs: seq<Candidate>, f: EC.Cursor, g: EC.Cursor, t: real,
                  df: Option<Json>, dg: Option<Json>, rest: seq<WatchEvent>)
    requires TwoFiles(cs)
    ensures var f2 := EC.Accept(f, ParseSnapshot(df, environment, cs[0].provider), t, t);
            var g2 := EC.Accept(g, ParseSnapshot(dg, environment, cs[1].provider), t, t);
            Run(Held(environment, cs, f, g, BothPending(t)), PassAt(t, df, dg, rest))
            == Run(Left(environment, cs, f2, g2, t), rest)
  {
    var f2 := EC.Accept(f, ParseSnapshot(df, environment, cs[0].provider), t, t);
    var g2 := EC.Accept(g, ParseSnapshot(dg, environment, cs[1].provider), t, t);
    var (x, y) := (Done(t, EC.Current(f2, t)), Done(t, EC.Current(g2, t)));
    ReadF(environment, cs, f, g, t, df);
    ReadG(environment, cs, f2, g, t, dg, x);
    Unroll(Held(environment, cs, f, g, BothPending(t)), ReadDone(0, df, t),
           [ReadDone(1, dg, t)] + ([PassDone(t)] + rest));
    Unroll(Held(environment, cs, f2, g, Reading([x, Pending(t)])), ReadDone(1, dg, t), [PassDone(t)] + rest);
    Unroll(Held(environment, cs, f2, g2, Reading([x, y])), PassDone(t), rest);
  }

  /** With both files current, or neither, nothing is published. */
  lemma LeftQuiet(environment: string, cs: seq<Candidate>, f: EC.Cursor, g: EC.Cursor, t: real)
    requires TwoFiles(cs) && EC.Current(f, t).Some? == EC.Current(g, t).Some?
    ensures Left(environment, cs, f, g, t) == Held(environment, cs, f, g, Idle)
  {
    var rows := [Done(t, EC.Current(f, t)), Done(t, EC.Current(g, t))];
    var w := Held(environment, cs, f, g, Reading(rows));
    KeysOfTwo(cs);
    KeptCursors(w);
    assert Actives(w, rows, t, 0) == [];
    assert Actives(w, rows, t, 1) == if RowActive(w, rows, t, 0) then [0] else [];
  }

  lemma LeftOne(environment: string, cs: seq<Candidate>, f: EC.Cursor, g: EC.Cursor, t: real)
    requires TwoFiles(cs) && EC.Current(f, t).Some? && EC.Current(g, t).None?
    ensures Left(environment, cs, f, g, t).outputs == [Publish(cs[0].key, Aged(EC.Current(f, t).value, t, t), t)]
  {
    var rows := [Done(t, EC.Current(f, t)), Done(t, EC.Current(g, t))];
    var w := Held(environment, cs, f, g, Reading(rows));
    assert Sole(w, rows, t, 0);
    SoleExact(w, rows, t);
  }

  lemma NextPass(environment: string, cs: seq<Candidate>, f: EC.Cursor, g: EC.Cursor, t: real)
    requires TwoFiles(cs)
    ensures Step(Held(environment, cs, f, g, Idle), Tick(t)) == Held(environment, cs, f, g, BothPending(t))
  {
    KeysOfTwo(cs);
    var w := Held(environment, cs, f, g, Idle);
    assert WithFresh(w.cursors, cs) == w.cursors;
    assert seq(2, _ => Pending(t)) == [Pending(t), Pending(t)];
  }

  /** The cursor after one, two and three documents. */
  function Told1(environment: string, provider: string): EC.Cursor {
    EC.Accept(EC.FRESH, Some(Sample(environment, provider, 1, Active)), 0.0, 0.0)
  }

  function Told2(environment: string, provider: string): EC.Cursor {
    EC.Accept(Told1(environment, provider), Some(Sample(environment, provider, 2, Active)), 1000.0, 1000.0)
  }

  function Told3(environment: string, provider: string): EC.Cursor {
    EC.Accept(Told2(environment, provider), Some(Sample(environment, provider, 3, Inactive)), 2000.0, 2000.0)
  }

  predicate GoodSample(s: Snapshot) {
    Named(s) && s.observationAgeMs == 0.0 && s.sessionId == "s" && s.observationSequence == 1
  }

  lemma SampleGood(environment: string, provider: string, n: nat, state: Activity)
    requires KnownEnvironment(environment) && KnownProvider(provider) && 0 < n < 10
    ensures GoodSample(Sample(environment, provider, n, state))
  {
    SampleParses(environment, provider, n, state);
  }

  /** Attach, and stay current for a second. */
  lemma SecondAttaches(a: Snapshot, b: Snapshot)
    requires GoodSample(a) && GoodSample(b) && a.sequence < b.sequence && b.state == Active
    requires EC.SameEvidence(a, b)
    ensures var c1 := EC.Accept(EC.FRESH, Some(a), 0.0, 0.0);
            var c2 := EC.Accept(c1, Some(b), 1000.0, 1000.0);
            && EC.Current(c1, 0.0).None? && c2.snapshot == Some(b) && c2.retired == {}
            && EC.Current(c2, 1000.0) == Some(b) && EC.Current(c2, 2000.0) == Some(b)
  {
    var c1 := EC.Store(EC.FRESH, a, 0.0, 0.0);
    assert EC.Accept(EC.FRESH, Some(a), 0.0, 0.0) == c1;
    assert EC.Accept(c1, Some(b), 1000.0, 1000.0) == EC.Store(c1, b, 1000.0, 1000.0);
  }

  lemma InactiveEnds(c: EC.Cursor, b: Snapshot, d: Snapshot)
    requires c.snapshot == Some(b) && c.retired == {} && GoodSample(b) && GoodSample(d)
    requires b.sequence < d.sequence && d.state == Inactive
    ensures EC.Current(EC.Accept(c, Some(d), 2000.0, 2000.0), 2000.0).None?
  {
    assert EC.Judge(c, Some(d)) == EC.Stored;
  }

  lemma ToldAre(environment: string, provider: string)
    requires KnownEnvironment(environment) && KnownProvider(provider)
    ensures EC.Current(Told1(environment, provider), 0.0).None?
    ensures EC.Current(Told2(environment, provider), 1000.0) == Some(Sample(environment, provider, 2, Active))
    ensures EC.Current(Told2(environment, provider), 2000.0) == Some(Sample(environment, provider, 2, Active))
    ensures EC.Current(Told3(environment, provider), 2000.0).None?
  {
    SampleGood(environment, provider, 1, Active);
    SampleGood(environment, provider, 2, Active);
    SampleGood(environment, provider, 3, Inactive);
    var (a, b) := (Sample(environment, provider, 1, Active), Sample(environment, provider, 2, Active));
    SecondAttaches(a, b);
    InactiveEnds(Told2(environment, provider), b, Sample(environment, provider, 3, Inactive));
  }

  function Tail2(environment: string, cs: seq<Candidate>): seq<WatchEvent>
    requires |cs| == 2
  {
    PassAt(2000.0, None, Doc(environment, cs[1].provider, 3, Inactive), [])
  }

  function Tail1(environment: string, cs: seq<Candidate>): seq<WatchEvent>
    requires |cs| == 2
  {
    PassAt(1000.0, Doc(environment, cs[0].provider, 2, Active), Doc(environment, cs[1].provider, 2, Active),
           [Tick(2000.0)] + Tail2(environment, cs))
  }

  lemma LagStart(environment: string, cs: seq<Candidate>)
    requires TwoFiles(cs)
    ensures var first := PassAt(0.0, Doc(environment, cs[0].provider, 1, Active),
                                Doc(environment, cs[1].provider, 1, Active), [Tick(1000.0)] + Tail1(environment, cs));
            Run(NewWatcher(environment), LagRun(environment, cs))
            == Run(Held(environment, cs, EC.FRESH, EC.FRESH, BothPending(0.0)), first)
  {
    var first := PassAt(0.0, Doc(environment, cs[0].provider, 1, Active),
                        Doc(environment, cs[1].provider, 1, Active), [Tick(1000.0)] + Tail1(environment, cs));
    var w0 := NewWatcher(environment);
    var w1 := Step(w0, Tick(0.0));
    Unroll(w0, Tick(0.0), [Discovered(cs, 0.0)] + first);
    Unroll(w1, Discovered(cs, 0.0), first);
    KeysOfTwo(cs);
    assert seq(2, _ => Pending(0.0)) == [Pending(0.0), Pending(0.0)];
    assert Step(w1, Discovered(cs, 0.0)).cursors == map[cs[0].key := EC.FRESH, cs[1].key := EC.FRESH];
  }

  lemma LagFirst(environment: string, cs: seq<Candidate>)
    requires TwoFiles(cs) && KnownEnvironment(environment)
    requires KnownProvider(cs[0].provider) && KnownProvider(cs[1].provider)
    ensures var (p, q) := (cs[0].provider, cs[1].provider);
            Run(Held(environment, cs, EC.FRESH, EC.FRESH, BothPending(0.0)),
                PassAt(0.0, Doc(environment, p, 1, Active), Doc(environment, q, 1, Active),
                       [Tick(1000.0)] + Tail1(environment, cs)))
            == Run(Held(environment, cs, Told1(environment, p), Told1(environment, q), BothPending(1000.0)),
                   Tail1(environment, cs))
  {
    var (p, q) := (cs[0].provider, cs[1].provider);
    DocParses(environment, p, 1, Active);
    DocParses(environment, q, 1, Active);
    ToldAre(environment, p);
    ToldAre(environment, q);
    PassGoes(environment, cs, EC.FRESH, EC.FRESH, 0.0, Doc(environment, p, 1, Active),
              Doc(environment, q, 1, Active), [Tick(1000.0)] + Tail1(environment, cs));
    LeftQuiet(environment, cs, Told1(environment, p), Told1(environment, q), 0.0);
    Unroll(Held(environment, cs, Told1(environment, p), Told1(environment, q), Idle), Tick(1000.0),
           Tail1(environment, cs));
    NextPass(environment, cs, Told1(environment, p), Told1(environment, q), 1000.0);
  }

  lemma LagSecond(environment: string, cs: seq<Candidate>)
    requires TwoFiles(cs) && KnownEnvironment(environment)
    requires KnownProvider(cs[0].provider) && KnownProvider(cs[1].provider)
    ensures var (p, q) := (cs[0].provider, cs[1].provider);
            Run(Held(environment, cs, Told1(environment, p), Told1(environment, q), BothPending(1000.0)),
                Tail1(environment, cs))
            == Run(Held(environment, cs, Told2(environment, p), Told2(environment, q), BothPending(2000.0)),
                   Tail2(environment, cs))
  {
    var (p, q) := (cs[0].provider, cs[1].provider);
    DocParses(environment, p, 2, Active);
    DocParses(environment, q, 2, Active);
    ToldAre(environment, p);
    ToldAre(environment, q);
    PassGoes(environment, cs, Told1(environment, p), Told1(environment, q), 1000.0,
              Doc(environment, p, 2, Active), Doc(environment, q, 2, Active), [Tick(2000.0)] + Tail2(environment, cs));
    LeftQuiet(environment, cs, Told2(environment, p), Told2(environment, q), 1000.0);
    Unroll(Held(environment, cs, Told2(environment, p), Told2(environment, q), Idle), Tick(2000.0),
           Tail2(environment, cs));
    NextPass(environment, cs, Told2(environment, p), Told2(environment, q), 2000.0);
  }

  lemma LagThird(environment: string, cs: seq<Candidate>)
    requires TwoFiles(cs) && KnownEnvironment(environment)
    requires KnownProvider(cs[0].provider) && KnownProvider(cs[1].provider)
    ensures var (p, q) := (cs[0].provider, cs[1].provider);
            Run(Held(environment, cs, Told2(environment, p), Told2(environment, q), BothPending(2000.0)),
                Tail2(environment, cs)).outputs
            == [Publish(cs[0].key, Sample(environment, p, 2, Active), 2000.0)]
  {
    var (p, q) := (cs[0].provider, cs[1].provider);
    DocParses(environment, q, 3, Inactive);
    ToldAre(environment, p);
    ToldAre(environment, q);
    PassGoes(environment, cs, Told2(environment, p), Told2(environment, q), 2000.0,
              None, Doc(environment, q, 3, Inactive), []);
    LeftOne(environment, cs, Told2(environment, p), Told3(environment, q), 2000.0);
  }

  lemma Later(e: WatchEvent, rest: seq<WatchEvent>, from: real)
    requires from <= e.now && Listed(e) && Legal(rest, e.now)
    ensures Legal([e] + rest, from)
  {
    assert ([e] + rest)[0] == e && ([e] + rest)[1..] == rest;
  }

  lemma PassLegal(t: real, f: Option<Json>, g: Option<Json>, rest: seq<WatchEvent>, from: real)
    requires from <= t && Legal(rest, t)
    ensures Legal(PassAt(t, f, g, rest), from)
  {
    Later(PassDone(t), rest, t);
    Later(ReadDone(1, g, t), [PassDone(t)] + rest, t);
    Later(ReadDone(0, f, t), [ReadDone(1, g, t)] + ([PassDone(t)] + rest), from);
  }

  lemma LagIsLegal(environment: string, cs: seq<Candidate>)
    requires TwoFiles(cs)
    ensures Legal(LagRun(environment, cs), 0.0)
  {
    var (p, q) := (cs[0].provider, cs[1].provider);
    PassLegal(2000.0, None, Doc(environment, q, 3, Inactive), [], 2000.0);
    Later(Tick(2000.0), Tail2(environment, cs), 1000.0);
    PassLegal(1000.0, Doc(environment, p, 2, Active), Doc(environment, q, 2, Active),
              [Tick(2000.0)] + Tail2(environment, cs), 1000.0);
    Later(Tick(1000.0), Tail1(environment, cs), 0.0);
    var first := PassAt(0.0, Doc(environment, p, 1, Active), Doc(environment, q, 1, Active),
                        [Tick(1000.0)] + Tail1(environment, cs));
    PassLegal(0.0, Doc(environment, p, 1, Active), Doc(environment, q, 1, Active),
              [Tick(1000.0)] + Tail1(environment, cs), 0.0);
    assert Listed(Discovered(cs, 0.0));
    Later(Discovered(cs, 0.0), first, 0.0);
    Later(Tick(0.0), [Discovered(cs, 0.0)] + first, 0.0);
  }

  /** The published age says no time has passed; the document was read a second
      before. */
  lemma AgeCanLag(environment: string, cs: seq<Candidate>)
    requires TwoFiles(cs) && KnownEnvironment(environment)
    requires KnownProvider(cs[0].provider) && KnownProvider(cs[1].provider)
    ensures Legal(LagRun(environment, cs), 0.0)
    ensures var s := Sample(environment, cs[0].provider, 2, Active);
            && Run(NewWatcher(environment), LagRun(environment, cs)).outputs == [Publish(cs[0].key, s, 2000.0)]
            && s.observationAgeMs == 0.0
  {
    LagStart(environment, cs);
    LagFirst(environment, cs);
    LagSecond(environment, cs);
    LagThird(environment, cs);
    LagIsLegal(environment, cs);
  }
}
