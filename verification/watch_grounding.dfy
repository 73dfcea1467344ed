/** What stands behind a publication: the reads that the events of the run itself
    delivered to the file, and so everything proved of such reads. */
module WatchGrounding {
  import opened Texts
  import opened Snapshots
  import EC = ExportCursors
  import opened ExportWatch
  import BR = BridgeRelay
  import BridgeRuns
  import BP = BridgePipeline

  // ----- the reads of one file -----

  /** The read that this event ends for the file. */
  function ReadBy(w: Watcher, e: WatchEvent, key: string): seq<EC.Read> {
    if e.ReadDone? && ReadOpen(w, e.i) && w.candidates[e.i].key == key
    then [EC.Read(ParseSnapshot(e.raw, w.environment, w.candidates[e.i].provider), w.phase.rows[e.i].started, e.now)]
    else []
  }

  /** Everything the events delivered to the file: document, start and end. */
  function ReadsOf(environment: string, es: seq<WatchEvent>, key: string): seq<EC.Read> {
    if es == [] then [] else
    var before, e := es[..|es| - 1], es[|es| - 1];
    ReadsOf(environment, before, key) + ReadBy(Run(NewWatcher(environment), before), e, key)
  }

  /** The rows of the pass under way fit the reads that ended. */
  predicate RowsSince(phase: Phase, cs: seq<Candidate>, key: string, rs: seq<EC.Read>, from: real) {
    phase.Reading? ==> forall i :: 0 <= i < |cs| && i < |phase.rows| ==> RowSince(phase.rows[i], cs[i], key, rs, from)
  }

  /** A read still pending for the file began after those that ended; a row that is
      done holds what the last of them offered when it ended. */
  predicate RowSince(r: Row, c: Candidate, key: string, rs: seq<EC.Read>, from: real) {
    c.key == key ==>
      match r
      case Pending(started) => EC.EndTime(rs, from) <= started
      case Done(started, snapshot) =>
        && rs != [] && rs[|rs| - 1].started == started
        && snapshot == EC.Current(EC.Run(rs).cursor, rs[|rs| - 1].finished)
  }

  predicate CursorOf(cursors: map<string, EC.Cursor>, key: string, rs: seq<EC.Read>) {
    if key in cursors then cursors[key] == EC.Run(rs).cursor else rs == []
  }

  predicate Follows(w: Watcher, rs: seq<EC.Read>, key: string, from: real, now: real) {
    && EC.WellTimed(rs, from) && EC.EndTime(rs, from) <= now
    && CursorOf(w.cursors, key, rs)
    && RowsSince(w.phase, w.candidates, key, rs, from)
  }

  /** The file's own read: one more, begun after the last ended. */
  lemma OwnReadFollows(w: Watcher, i: nat, raw: Option<Json>, rs: seq<EC.Read>, from: real, now: real)
    requires ReadOpen(w, i) && Follows(w, rs, w.candidates[i].key, from, now)
    requires OneCursorEach(w.candidates, w.cursors) && w.phase.rows[i].started <= now
    ensures var key := w.candidates[i].key;
            Follows(StepReadDone(w, i, raw, now), rs + ReadBy(w, ReadDone(i, raw, now), key), key, from, now)
  {
    var key := w.candidates[i].key;
    var r := ReadBy(w, ReadDone(i, raw, now), key)[0];
    assert RowSince(w.phase.rows[i], w.candidates[i], key, rs, from);
    EC.WellTimedAppend(rs, from, r);
    EC.RunAppend(EC.History(EC.FRESH, []), rs, r);
    var next := StepReadDone(w, i, raw, now);
    forall j: nat | j < |next.candidates| && j < |next.phase.rows|
      ensures RowSince(next.phase.rows[j], next.candidates[j], key, rs + [r], from)
    {
    }
  }

  lemma RowsKept(rows: seq<Row>, cs: seq<Candidate>, key: string, rs: seq<EC.Read>, from: real, i: nat, row: Row)
    requires RowsSince(Reading(rows), cs, key, rs, from) && i < |rows| && i < |cs| && cs[i].key != key
    ensures RowsSince(Reading(rows[i := row]), cs, key, rs, from)
  {
    forall j: nat | j < |cs| && j < |rows| ensures RowSince(rows[i := row][j], cs[j], key, rs, from) {
      assert RowSince(rows[j], cs[j], key, rs, from);
    }
  }

  /** Another file's cursor and row move. */
  lemma OtherMoves(w: Watcher, i: nat, next: EC.Cursor, row: Row, rs: seq<EC.Read>, key: string, from: real, now: real)
    requires Follows(w, rs, key, from, now) && w.phase.Reading? && i < |w.phase.rows| && i < |w.candidates|
    requires w.candidates[i].key != key
    ensures Follows(w.(cursors := w.cursors[w.candidates[i].key := next], phase := Reading(w.phase.rows[i := row])),
                    rs, key, from, now)
  {
    RowsKept(w.phase.rows, w.candidates, key, rs, from, i, row);
  }

  lemma OtherReadFollows(w: Watcher, i: nat, raw: Option<Json>, rs: seq<EC.Read>, key: string, from: real, now: real)
    requires Follows(w, rs, key, from, now) && (ReadOpen(w, i) ==> w.candidates[i].key != key)
    ensures Follows(StepReadDone(w, i, raw, now), rs, key, from, now)
  {
    if ReadOpen(w, i) {
      var started, own := w.phase.rows[i].started, w.candidates[i].key;
      var next := EC.Accept(w.cursors[own], ParseSnapshot(raw, w.environment, w.candidates[i].provider), started, now);
      OtherMoves(w, i, next, Done(started, EC.Current(next, now)), rs, key, from, now);
    }
  }

  lemma ReadFollows(w: Watcher, e: WatchEvent, rs: seq<EC.Read>, key: string, from: real)
    requires WatcherOk(w, e.now) && Follows(w, rs, key, from, e.now) && e.ReadDone?
    ensures Follows(Step(w, e), rs + ReadBy(w, e, key), key, from, e.now)
  {
    if ReadOpen(w, e.i) && w.candidates[e.i].key == key {
      assert RowOk(w.phase.rows[e.i], w.cursors[key], e.now);
      OwnReadFollows(w, e.i, e.raw, rs, from, e.now);
    } else {
      assert rs + [] == rs;
      OtherReadFollows(w, e.i, e.raw, rs, key, from, e.now);
    }
  }

  lemma BeginFollows(w: Watcher, rs: seq<EC.Read>, key: string, from: real, now: real)
    requires Follows(w, rs, key, from, now)
    ensures Follows(StartReading(w, now), rs, key, from, now)
  {
  }

  lemma FoundFollows(w: Watcher, found: seq<Candidate>, rs: seq<EC.Read>, key: string, from: real, now: real)
    requires Follows(w, rs, key, from, now)
    ensures Follows(StepDiscovered(w, found, now), rs, key, from, now)
  {
    if w.phase.Discovering? {
      var kept := if |found| <= CANDIDATES_MAX then found else found[..CANDIDATES_MAX];
      BeginFollows(w.(candidates := kept, discoveredAt := Some(w.phase.asked)), rs, key, from, now);
    }
  }

  lemma PassFollows(w: Watcher, rs: seq<EC.Read>, key: string, from: real, now: real)
    requires WatcherOk(w, now) && Follows(w, rs, key, from, now)
    ensures Follows(StepPassDone(w, now), rs, key, from, now)
  {
    KeptCursors(w);
  }

  lemma StepFollows(w: Watcher, e: WatchEvent, rs: seq<EC.Read>, key: string, from: real)
    requires WatcherOk(w, e.now) && Follows(w, rs, key, from, e.now)
    ensures Follows(Step(w, e), rs + ReadBy(w, e, key), key, from, e.now)
  {
    assert rs + [] == rs;
    match e {
      case ReadDone(_, _, _) => ReadFollows(w, e, rs, key, from);
      case PassDone(now) => PassFollows(w, rs, key, from, now);
      case Tick(now) => BeginFollows(w, rs, key, from, now);
      case Discovered(found, now) => FoundFollows(w, found, rs, key, from, now);
      case _ =>
    }
  }

  /** Every cursor is the outcome of the reads its file was delivered, which
      follow each other in time; a file without a cursor was delivered none. */
  lemma {:induction false} CursorIsItsReads(environment: string, es: seq<WatchEvent>, from: real, key: string)
    requires Legal(es, from)
    ensures var w := Run(NewWatcher(environment), es);
            Follows(w, ReadsOf(environment, es, key), key, from, Clock(es, from))
    decreases |es|
  {
    if es != [] {
      var before, e := es[..|es| - 1], es[|es| - 1];
      LegalPrefix(es, from, |es| - 1);
      CursorIsItsReads(environment, before, from, key);
      ReachedOk(environment, before, from);
      RunLast(NewWatcher(environment), es);
      var w := Run(NewWatcher(environment), before);
      TimePasses(w, Clock(before, from), e.now);
      StepFollows(w, e, ReadsOf(environment, before, key), key, from);
    }
  }

  // ----- publications -----

  /** The reads show the published snapshot, current at the time of publication: it
      differs from what they show only in its age, which has grown by the time since
      the last of them began and is within the evidence. */
  predicate ShownBy(o: Output, rs: seq<EC.Read>)
    requires o.Publish?
  {
    && rs != [] && EC.Current(EC.Run(rs).cursor, o.at).Some?
    && var d := EC.Current(EC.Run(rs).cursor, o.at).value;
       && o.snapshot == d.(observationAgeMs := d.observationAgeMs + (o.at - rs[|rs| - 1].started))
       && d.observationAgeMs <= o.snapshot.observationAgeMs < 30000.0
  }

  function CallsAfter(environment: string, es: seq<WatchEvent>, n: nat): seq<Output>
    requires n <= |es|
  {
    Run(NewWatcher(environment), es[..n]).outputs
  }

  /** Event n - 1 made call i, and that is o. */
  predicate MadeBy(environment: string, es: seq<WatchEvent>, i: nat, n: nat, o: Output) {
    && 0 < n <= |es| && |CallsAfter(environment, es, n - 1)| == i
    && |CallsAfter(environment, es, n)| == i + 1 && CallsAfter(environment, es, n)[i] == o
    && o.at == es[n - 1].now
  }

  /** And the file's reads up to that event show it. */
  predicate EarnedAt(environment: string, es: seq<WatchEvent>, from: real, i: nat, n: nat, o: Output)
    requires o.Publish?
  {
    && MadeBy(environment, es, i, n, o)
    && EC.WellTimed(ReadsOf(environment, es[..n], o.key), from)
    && EC.EndTime(ReadsOf(environment, es[..n], o.key), from) <= o.at
    && ShownBy(o, ReadsOf(environment, es[..n], o.key))
  }

  /** Row i of the pass published o: aged by the time since its read began. */
  predicate MadeOfRow(w: Watcher, o: Output, i: nat)
    requires o.Publish?
  {
    && w.phase.Reading? && i < |w.phase.rows| && i < |w.candidates| && w.candidates[i].key == o.key
    && w.phase.rows[i].Done? && o.key in w.cursors && EC.Current(w.cursors[o.key], o.at).Some?
    && var d := EC.Current(w.cursors[o.key], o.at).value;
       && o.snapshot == d.(observationAgeMs := d.observationAgeMs + (o.at - w.phase.rows[i].started))
       && d.observationAgeMs <= o.snapshot.observationAgeMs < 30000.0
  }

  lemma ActiveRowMakes(w: Watcher, now: real, i: nat)
    requires WatcherOk(w, now) && w.phase.Reading? && RowActive(w, w.phase.rows, now, i)
    ensures var r := w.phase.rows[i];
            MadeOfRow(w, Publish(w.candidates[i].key, Aged(r.snapshot.value, r.started, now), now), i)
  {
    var c := w.cursors[w.candidates[i].key];
    assert RowOk(w.phase.rows[i], c, now) && CursorOk(c, now);
  }

  /** A step's new publication is of a snapshot its file's cursor offers then. */
  lemma NewCallIsOffered(w: Watcher, e: WatchEvent)
    requires WatcherOk(w, e.now) && |Step(w, e).outputs| > |w.outputs|
    ensures var o := Step(w, e).outputs[|w.outputs|];
            o.at == e.now && (o.Publish? ==> e.PassDone? && exists i: nat :: MadeOfRow(w, o, i))
  {
    if e.PassDone? && w.phase.Reading? {
      var active := Actives(w, w.phase.rows, e.now, |w.phase.rows|);
      SoleExact(w, w.phase.rows, e.now);
      if |active| == 1 { ActiveRowMakes(w, e.now, active[0]); }
    }
  }

  lemma RowShows(w: Watcher, o: Output, i: nat, rs: seq<EC.Read>, from: real)
    requires o.Publish? && MadeOfRow(w, o, i) && Follows(w, rs, o.key, from, o.at)
    ensures ShownBy(o, rs)
  {
    assert RowSince(w.phase.rows[i], w.candidates[i], o.key, rs, from);
  }

  /** A pass publishes what the reads before it show. */
  lemma CallIsShown(environment: string, before: seq<WatchEvent>, from: real, e: WatchEvent)
    requires Legal(before, from) && Clock(before, from) <= e.now
    requires var w := Run(NewWatcher(environment), before);
             |Step(w, e).outputs| > |w.outputs| && Step(w, e).outputs[|w.outputs|].Publish?
    ensures var w := Run(NewWatcher(environment), before);
            var o := Step(w, e).outputs[|w.outputs|];
            var rs := ReadsOf(environment, before, o.key);
            && e.PassDone? && o.at == e.now
            && EC.WellTimed(rs, from) && EC.EndTime(rs, from) <= o.at && ShownBy(o, rs)
  {
    var w := Run(NewWatcher(environment), before);
    ReachedOk(environment, before, from);
    TimePasses(w, Clock(before, from), e.now);
    NewCallIsOffered(w, e);
    var o := Step(w, e).outputs[|w.outputs|];
    var row: nat :| MadeOfRow(w, o, row);
    CursorIsItsReads(environment, before, from, o.key);
    RowShows(w, o, row, ReadsOf(environment, before, o.key), from);
  }

  /** The last event's own call. */
  lemma LastCallEarned(environment: string, es: seq<WatchEvent>, from: real, i: nat)
    requires Legal(es, from) && es != []
    requires |CallsAfter(environment, es, |es| - 1)| <= i < |CallsAfter(environment, es, |es|)|
    requires CallsAfter(environment, es, |es|)[i].Publish?
    ensures EarnedAt(environment, es, from, i, |es|, CallsAfter(environment, es, |es|)[i])
  {
    var before, e := es[..|es| - 1], es[|es| - 1];
    assert es[..|es|] == es;
    RunLast(NewWatcher(environment), es);
    OneCallPerStep(Run(NewWatcher(environment), before), e);
    LegalPrefix(es, from, |es| - 1);
    CallIsShown(environment, before, from, e);
    var key := CallsAfter(environment, es, |es|)[i].key;
    assert ReadsOf(environment, es, key) == ReadsOf(environment, before, key);
  }

  lemma Shorter(environment: string, es: seq<WatchEvent>, from: real, m: nat, i: nat, n: nat, o: Output)
    requires o.Publish? && m <= |es| && EarnedAt(environment, es[..m], from, i, n, o)
    ensures EarnedAt(environment, es, from, i, n, o)
  {
    assert es[..m][..n] == es[..n] && es[..m][..n - 1] == es[..n - 1];
  }

  /** Every publication of every run was made by one event, and the reads that the
      events up to it delivered to its file show it. */
  lemma {:induction false} PublishedIsEarned(environment: string, es: seq<WatchEvent>, from: real, i: nat)
    requires Legal(es, from) && i < |Run(NewWatcher(environment), es).outputs|
    requires Run(NewWatcher(environment), es).outputs[i].Publish?
    ensures exists n: nat :: EarnedAt(environment, es, from, i, n, Run(NewWatcher(environment), es).outputs[i])
    decreases |es|
  {
    var o := Run(NewWatcher(environment), es).outputs[i];
    assert es[..|es|] == es;
    var before := es[..|es| - 1];
    RunLast(NewWatcher(environment), es);
    OneCallPerStep(Run(NewWatcher(environment), before), es[|es| - 1]);
    if i < |Run(NewWatcher(environment), before).outputs| {
      LegalPrefix(es, from, |es| - 1);
      PublishedIsEarned(environment, before, from, i);
      var n: nat :| EarnedAt(environment, before, from, i, n, o);
      Shorter(environment, es, from, |es| - 1, i, n, o);
    } else {
      LastCallEarned(environment, es, from, i);
    }
  }

  /** The reads behind a publication: two strictly advancing snapshots of one
      session, an unbroken chain back to an active one, and time left on every
      read of the observation. */
  ghost predicate WellFounded(o: Output, es: seq<EC.Entry>)
    requires o.Publish?
  {
    && |es| >= 2
    && o.snapshot == es[|es| - 1].snap.(observationAgeMs := o.snapshot.observationAgeMs)
    && es[|es| - 2].snap.sessionId == o.snapshot.sessionId
    && es[|es| - 2].snap.sequence < o.snapshot.sequence
    && EC.Rooted(es, |es| - 1)
    && forall i :: 0 <= i < |es| && EC.SameObservation(Some(o.snapshot), es[i].snap) ==>
         o.at < es[i].started + 30000.0 - es[i].snap.observationAgeMs
  }

  lemma EarnedMeans(o: Output, rs: seq<EC.Read>, from: real)
    requires o.Publish? && EC.WellTimed(rs, from) && ShownBy(o, rs)
    ensures WellFounded(o, EC.Run(rs).entries)
  {
    var c, es := EC.Run(rs).cursor, EC.Run(rs).entries;
    EC.LivenessIsEarned(rs, from);
    EC.DeadlinesBind(rs, from, o.at, c.snapshot.value);
    forall i | 0 <= i < |es| && EC.SameObservation(Some(o.snapshot), es[i].snap)
      ensures o.at < es[i].started + 30000.0 - es[i].snap.observationAgeMs
    {
      assert EC.SameObservation(Some(c.snapshot.value), es[i].snap);
    }
  }

  lemma {:induction false} LastStoredBegan(rs: seq<EC.Read>, from: real)
    requires EC.WellTimed(rs, from) && EC.Run(rs).entries != []
    ensures rs != [] && var es := EC.Run(rs).entries; es[|es| - 1].started <= rs[|rs| - 1].started
  {
    if rs != [] {
      EC.TimedPrefix(rs, from, |rs| - 1);
      EC.NextRead(rs, |rs| - 1);
      assert rs[..|rs|] == rs;
      EC.RunKeeps(rs[..|rs| - 1], from);
    }
  }

  /** The published age against the time that really passed since the document was
      read: never above it, and equal to it exactly when the last read of the file
      was the one that brought the document. A missing or unchanged read in between
      makes the copy look younger, but the true age too is within the evidence. */
  lemma PublishedAge(o: Output, rs: seq<EC.Read>, from: real)
    requires o.Publish? && EC.WellTimed(rs, from) && ShownBy(o, rs)
    ensures EC.Run(rs).entries != []
    ensures var es := EC.Run(rs).entries;
            var last := es[|es| - 1];
            var sinceRead := last.snap.observationAgeMs + (o.at - last.started);
            && o.snapshot.observationAgeMs <= sinceRead < 30000.0
            && (o.snapshot.observationAgeMs == sinceRead <==> rs[|rs| - 1].started == last.started)
  {
    EC.RunKeeps(rs, from);
    LastStoredBegan(rs, from);
    EC.DeadlinesBind(rs, from, o.at, EC.Run(rs).cursor.snapshot.value);
  }

  // ----- no revival, in the watcher -----

  /** What the file's cursor offers at a time. */
  function Offered(w: Watcher, key: string, t: real): Option<Snapshot> {
    if key in w.cursors then EC.Current(w.cursors[key], t) else None
  }

  /** Time t falls after the first n events and before the next. */
  predicate Between(es: seq<WatchEvent>, from: real, n: nat, t: real) {
    n <= |es| && Clock(es[..n], from) <= t && (n < |es| ==> t <= es[n].now)
  }

  lemma OfferedByReads(environment: string, es: seq<WatchEvent>, from: real, key: string, t: real)
    requires Legal(es, from)
    ensures Offered(Run(NewWatcher(environment), es), key, t)
            == EC.Current(EC.Run(ReadsOf(environment, es, key)).cursor, t)
  {
    CursorIsItsReads(environment, es, from, key);
  }

  lemma ReadsEnded(environment: string, es: seq<WatchEvent>, from: real, key: string)
    requires Legal(es, from)
    ensures EC.EndTime(ReadsOf(environment, es, key), from) <= Clock(es, from)
  {
    CursorIsItsReads(environment, es, from, key);
  }

  /** The reads that ended by then are a first part of all the reads. */
  lemma {:induction false} ReadsAsOf(environment: string, es: seq<WatchEvent>, from: real, key: string, n: nat, t: real)
    requires Legal(es, from) && Between(es, from, n, t)
    ensures var (some, all) := (ReadsOf(environment, es[..n], key), ReadsOf(environment, es, key));
            some <= all && EC.AsOf(all, from, |some|, t)
    decreases |es| - n
  {
    if n == |es| {
      assert es[..n] == es;
      ReadsEnded(environment, es, from, key);
      var all := ReadsOf(environment, es, key);
      assert all[..|all|] == all;
    } else {
      var before := es[..|es| - 1];
      assert before[..n] == es[..n];
      LegalPrefix(es, from, |es| - 1);
      ReadsAsOf(environment, before, from, key, n, t);
      LegalTimes(es, from, n, |es| - 1);
      OneMoreAsOf(ReadsOf(environment, before, key),
                  ReadBy(Run(NewWatcher(environment), before), es[|es| - 1], key),
                  from, |ReadsOf(environment, es[..n], key)|, t);
    }
  }

  lemma OneMoreAsOf(rs: seq<EC.Read>, more: seq<EC.Read>, from: real, n: nat, t: real)
    requires EC.AsOf(rs, from, n, t) && (more != [] ==> t <= more[0].finished)
    ensures EC.AsOf(rs + more, from, n, t) && (rs + more)[..n] == rs[..n]
  {
    assert (rs + more)[..n] == rs[..n];
  }

  /** What is offered after the first a events, in terms of all the reads. */
  lemma OfferedAsOf(environment: string, es: seq<WatchEvent>, from: real, key: string, a: nat, t: real)
    requires Legal(es, from) && Between(es, from, a, t)
    ensures var (n, rs) := (|ReadsOf(environment, es[..a], key)|, ReadsOf(environment, es, key));
            && EC.AsOf(rs, from, n, t)
            && Offered(Run(NewWatcher(environment), es[..a]), key, t) == EC.Current(EC.Run(rs[..n]).cursor, t)
  {
    LegalPrefix(es, from, a);
    OfferedByReads(environment, es[..a], from, key, t);
    ReadsAsOf(environment, es, from, key, a, t);
    var (some, all) := (ReadsOf(environment, es[..a], key), ReadsOf(environment, es, key));
    assert all[..|some|] == some;
  }

  /** Once a file's observation is offered at one time and no longer at a later
      one, it is never offered again, whatever reads were under way. */
  lemma {:induction false} NoRevivalInTheWatcher(environment: string, es: seq<WatchEvent>, from: real, key: string,
                                                 s: Snapshot, a: nat, t1: real, b: nat, t2: real, c: nat, t3: real)
    requires Legal(es, from) && a <= b <= c && t2 <= t3
    requires Between(es, from, a, t1) && Between(es, from, b, t2) && Between(es, from, c, t3)
    requires Offered(Run(NewWatcher(environment), es[..a]), key, t1) == Some(s)
    requires !EC.SameObservation(Offered(Run(NewWatcher(environment), es[..b]), key, t2), s)
    ensures !EC.SameObservation(Offered(Run(NewWatcher(environment), es[..c]), key, t3), s)
  {
    var (i, j, k) := (|ReadsOf(environment, es[..a], key)|, |ReadsOf(environment, es[..b], key)|,
                      |ReadsOf(environment, es[..c], key)|);
    OfferedAsOf(environment, es, from, key, a, t1);
    OfferedAsOf(environment, es, from, key, b, t2);
    OfferedAsOf(environment, es, from, key, c, t3);
    ReadsGrow(environment, es, from, key, a, b);
    ReadsGrow(environment, es, from, key, b, c);
    CursorIsItsReads(environment, es, from, key);
    EC.NoRevival(ReadsOf(environment, es, key), from, s, i, t1, j, t2, k, t3);
  }

  lemma {:induction false} ReadsGrow(environment: string, es: seq<WatchEvent>, from: real, key: string, a: nat, b: nat)
    requires a <= b <= |es|
    ensures |ReadsOf(environment, es[..a], key)| <= |ReadsOf(environment, es[..b], key)|
    decreases b
  {
    if a < b {
      ReadsGrow(environment, es, from, key, a, b - 1);
      assert es[..b][..b - 1] == es[..b - 1];
    }
  }

  /** So a published observation whose file has fallen silent on it since is never
      published from that file again. */
  lemma {:induction false} NoRepublication(environment: string, es: seq<WatchEvent>, from: real,
                                           i: nat, n: nat, o: Output,
                                           b: nat, t2: real, j: nat, m: nat, later: Output)
    requires Legal(es, from) && o.Publish? && later.Publish? && o.key == later.key && n <= b < m
    requires EarnedAt(environment, es, from, i, n, o) && EarnedAt(environment, es, from, j, m, later)
    requires Between(es, from, b, t2)
    requires !EC.SameObservation(Offered(Run(NewWatcher(environment), es[..b]), o.key, t2), o.snapshot)
    ensures !EC.SameObservation(Some(later.snapshot), o.snapshot)
  {
    var key := o.key;
    LegalPrefix(es, from, n);
    LegalPrefix(es, from, m);
    OfferedByReads(environment, es[..n], from, key, o.at);
    OfferedByReads(environment, es[..m], from, key, later.at);
    assert es[..n][n - 1] == es[n - 1] && es[..m][m - 1] == es[m - 1];
    LegalTimes(es, from, b, m - 1);
    var s := Offered(Run(NewWatcher(environment), es[..n]), key, o.at).value;
    NoRevivalInTheWatcher(environment, es, from, key, s, n, o.at, b, t2, m, later.at);
  }

  // ----- the pipeline -----

  /** What one event of the pipeline is to the watcher: a step of its own, or the
      relay's clear that stops it. */
  function TraceBy(p: BP.Pipeline, e: BP.PipeEvent, clock: real, h: BR.Handle): seq<WatchEvent> {
    match e
    case Watching(g, w) => if g == h && h in p.watchers then [w] else []
    case Api(a) =>
      if h in p.watchers && p.relay.watcher == Some(h) && BridgeRuns.StepRelay(p.relay, a).watcher != Some(h)
      then [Stop(clock)] else []
  }

  /** The watcher's own events in a run of the pipeline. */
  function TraceOf(environment: Option<string>, es: seq<BP.PipeEvent>, start: real, h: BR.Handle): seq<WatchEvent> {
    if es == [] then [] else
    var before, e := es[..|es| - 1], es[|es| - 1];
    TraceOf(environment, before, start, h)
    + TraceBy(BP.RunPipe(BP.NewPipeline(environment), before), e, BP.EndClock(before, start), h)
  }

  /** The watcher is where its own events lead. */
  predicate Traced(p: BP.Pipeline, environment: Option<string>, tr: seq<WatchEvent>, h: BR.Handle,
                   start: real, now: real) {
    if h in p.watchers then
      && environment.Some? && p.watchers[h] == Run(NewWatcher(environment.value), tr)
      && Legal(tr, start) && Clock(tr, start) <= now
    else tr == []
  }

  lemma OneMoreEvent(w: Watcher, tr: seq<WatchEvent>, start: real, e: WatchEvent)
    requires Legal(tr, start) && Clock(tr, start) <= e.now && Listed(e)
    ensures Run(w, tr + [e]) == Step(Run(w, tr), e) && Legal(tr + [e], start) && Clock(tr + [e], start) == e.now
  {
    LegalAppend(tr, start, e);
    RunLast(w, tr + [e]);
    assert (tr + [e])[..|tr|] == tr;
  }

  lemma WatchingTraced(p: BP.Pipeline, environment: Option<string>, tr: seq<WatchEvent>, h: BR.Handle,
                       start: real, now: real, g: BR.Handle, w: WatchEvent)
    requires Traced(p, environment, tr, h, start, now) && BP.Fair(BP.Watching(g, w), now)
    ensures var e := BP.Watching(g, w);
            Traced(BP.StepPipe(p, e), environment, tr + TraceBy(p, e, now, h), h, start, w.now)
  {
    assert tr + [] == tr;
    if g == h && h in p.watchers { OneMoreEvent(NewWatcher(environment.value), tr, start, w); }
  }

  /** A method of the relay stops the watcher it lets go and makes a new one. */
  lemma RewatchAt(ws: map<BR.Handle, Watcher>, before: BR.Relay, after: BR.Relay, h: BR.Handle)
    requires before.watcher != after.watcher && after.watcher.Some? ==> after.watcher.value !in ws
    ensures var next := BP.Rewatch(ws, before, after);
            if h in ws then
              && h in next
              && next[h] == (if before.watcher == Some(h) && after.watcher != Some(h)
                             then ws[h].(stopped := true) else ws[h])
            else h in next ==> after.environment.Some? && next[h] == NewWatcher(after.environment.value)
  {
  }

  lemma ApiTraced(p: BP.Pipeline, environment: Option<string>, tr: seq<WatchEvent>, h: BR.Handle,
                  start: real, now: real, a: BridgeRuns.RelayEvent)
    requires Traced(p, environment, tr, h, start, now) && start <= now
    requires p.relay.environment == environment
    requires var next := BridgeRuns.StepRelay(p.relay, a);
             && next.environment == environment
             && (p.relay.watcher != next.watcher && next.watcher.Some? ==> next.watcher.value !in p.watchers)
    ensures var e := BP.Api(a);
            Traced(BP.StepPipe(p, e), environment, tr + TraceBy(p, e, now, h), h, start, now)
  {
    var next := BridgeRuns.StepRelay(p.relay, a);
    assert tr + [] == tr;
    RewatchAt(p.watchers, p.relay, next, h);
    if h in p.watchers && p.relay.watcher == Some(h) && next.watcher != Some(h) {
      OneMoreEvent(NewWatcher(environment.value), tr, start, Stop(now));
    }
  }

  lemma ApiIsFresh(p: BP.Pipeline, a: BridgeRuns.RelayEvent, now: real)
    requires BP.PipeOk(p, now) && BP.Fair(BP.Api(a), now)
    ensures var next := BridgeRuns.StepRelay(p.relay, a);
            p.relay.watcher != next.watcher && next.watcher.Some? ==> next.watcher.value !in p.watchers
  {
    var next := BridgeRuns.StepRelay(p.relay, a);
    BridgeRuns.StepOk(p.relay, a);
    if next.watcher.Some? && next.watcher != p.relay.watcher { BP.NewHandle(p.relay, a, next.watcher.value); }
  }

  lemma NotifyEnvironment(r: BR.Relay, h: BR.Handle, calls: seq<Output>)
    ensures BP.Notify(r, h, calls).environment == r.environment
  {
  }

  lemma StepEnvironment(p: BP.Pipeline, e: BP.PipeEvent, now: real)
    requires BP.PipeOk(p, now) && BP.Fair(e, now)
    ensures BP.StepPipe(p, e).relay.environment == p.relay.environment
  {
    match e {
      case Api(a) => BP.ApiTurns(p.relay, a);
      case Watching(h, w) => if h in p.watchers { NotifyEnvironment(p.relay, h, BP.NewCalls(p, h, w)); }
    }
  }

  lemma {:induction false} RunPipeLast(p: BP.Pipeline, es: seq<BP.PipeEvent>, now: real)
    requires es != [] && BP.Plausible(es, now)
    ensures var before := es[..|es| - 1];
            && BP.RunPipe(p, es) == BP.StepPipe(BP.RunPipe(p, before), es[|es| - 1])
            && BP.Plausible(before, now) && BP.Fair(es[|es| - 1], BP.EndClock(before, now))
            && BP.EndClock(es, now) == BP.ClockAfter(es[|es| - 1], BP.EndClock(before, now))
            && now <= BP.EndClock(before, now)
    decreases es
  {
    var before, next := es[..|es| - 1], BP.StepPipe(p, es[0]);
    if |es| == 1 {
      assert before == [] && es[1..] == [];
    } else {
      RunPipeLast(next, es[1..], BP.ClockAfter(es[0], now));
      assert before[0] == es[0] && before[1..] == es[1..][..|es| - 2];
    }
  }

  /** Every watcher of the pipeline is a run of the watcher model over its own
      events, from the moment the pipeline began. */
  lemma {:induction false} WatchersAreTraced(environment: Option<string>, es: seq<BP.PipeEvent>,
                                             now: real, h: BR.Handle)
    requires BP.Plausible(es, now)
    ensures var p := BP.RunPipe(BP.NewPipeline(environment), es);
            && p.relay.environment == environment
            && Traced(p, environment, TraceOf(environment, es, now, h), h, now, BP.EndClock(es, now))
    decreases |es|
  {
    if es != [] {
      var before, e := es[..|es| - 1], es[|es| - 1];
      RunPipeLast(BP.NewPipeline(environment), es, now);
      WatchersAreTraced(environment, before, now, h);
      BP.PipelineReachable(environment, before, now);
      var p, clock := BP.RunPipe(BP.NewPipeline(environment), before), BP.EndClock(before, now);
      StepEnvironment(p, e, clock);
      match e {
        case Api(a) =>
          ApiIsFresh(p, a, clock);
          ApiTraced(p, environment, TraceOf(environment, before, now, h), h, now, clock, a);
        case Watching(g, w) =>
          WatchingTraced(p, environment, TraceOf(environment, before, now, h), h, now, clock, g, w);
      }
    }
  }

  /** Call i of watcher h published s; event n - 1 of that watcher made it; and the
      reads its events delivered to the file by then earn it. */
  ghost predicate WireGround(environment: Option<string>, es: seq<BP.PipeEvent>, start: real, s: Snapshot,
                             h: BR.Handle, i: nat, n: nat) {
    var p, tr := BP.RunPipe(BP.NewPipeline(environment), es), TraceOf(environment, es, start, h);
    && environment.Some? && BP.PublishedAt(p.watchers, h, i, s)
    && Legal(tr, start) && p.watchers[h] == Run(NewWatcher(environment.value), tr)
    && var o := p.watchers[h].outputs[i];
       && EarnedAt(environment.value, tr, start, i, n, o)
       && WellFounded(o, EC.Run(ReadsOf(environment.value, tr[..n], o.key)).entries)
  }

  lemma PublishedHasGround(environment: Option<string>, es: seq<BP.PipeEvent>, now: real, s: Snapshot,
                           h: BR.Handle, i: nat)
    requires BP.Plausible(es, now)
    requires BP.PublishedAt(BP.RunPipe(BP.NewPipeline(environment), es).watchers, h, i, s)
    ensures exists n: nat :: WireGround(environment, es, now, s, h, i, n)
  {
    WatchersAreTraced(environment, es, now, h);
    var p, tr := BP.RunPipe(BP.NewPipeline(environment), es), TraceOf(environment, es, now, h);
    PublishedIsEarned(environment.value, tr, now, i);
    var o := p.watchers[h].outputs[i];
    var n: nat :| EarnedAt(environment.value, tr, now, i, n, o);
    EarnedMeans(o, ReadsOf(environment.value, tr[..n], o.key), now);
    assert WireGround(environment, es, now, s, h, i, n);
  }

  /** Through the whole bridge: whatever the timers, reads, sockets and accounts
      do, every observation on the wire is a call some watcher of this relay made,
      earned by the reads that this very run delivered to one file before it. */
  lemma {:induction false} WireIsEarned(environment: Option<string>, es: seq<BP.PipeEvent>, now: real, k: nat)
    requires BP.Plausible(es, now)
    requires var log := BP.RunPipe(BP.NewPipeline(environment), es).relay.log;
             k < |log| && log[k].Wire? && log[k].msg.ObserveFrame?
    ensures var s := BP.RunPipe(BP.NewPipeline(environment), es).relay.log[k].msg.s;
            exists h, i: nat, n: nat :: WireGround(environment, es, now, s, h, i, n)
  {
    BP.WireIsFresh(environment, es, now);
    var p := BP.RunPipe(BP.NewPipeline(environment), es);
    var s := p.relay.log[k].msg.s;
    var h, i: nat :| BP.PublishedAt(p.watchers, h, i, s);
    PublishedHasGround(environment, es, now, s, h, i);
  }
}
