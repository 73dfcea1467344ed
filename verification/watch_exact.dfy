/** What each step of the watcher does, in terms of the reads and calls so far. */
module WatchExact {
  import opened Texts
  import opened Snapshots
  import EC = ExportCursors
  import opened ExportWatch
  import opened WatchGrounding

  // ----- the end of a pass -----

  /** What file i offers at a time. */
  predicate Offers(w: Watcher, t: real, i: nat) {
    i < |w.candidates| && Offered(w, w.candidates[i].key, t).Some?
  }

  ghost predicate OnlyOffer(w: Watcher, t: real, i: nat) {
    Offers(w, t, i) && forall j: nat :: Offers(w, t, j) ==> j == i
  }

  /** The publication the calls leave open. */
  function Open(outputs: seq<Output>): Option<Output> {
    if outputs != [] && outputs[|outputs| - 1].Publish? then Some(outputs[|outputs| - 1]) else None
  }

  predicate SameSample(o: Output, key: string, s: Snapshot)
    requires o.Publish?
  {
    o.key == key && Generation(o.snapshot) == Generation(s) && o.snapshot.sequence == s.sequence
  }

  /** A file that no longer offers anything when its read ends does not later. */
  lemma RowsAreOffers(environment: string, es: seq<WatchEvent>, from: real, now: real, i: nat)
    requires Legal(es, from) && Clock(es, from) <= now
    requires var w := Run(NewWatcher(environment), es); w.phase.Reading? && AllDone(w.phase.rows)
    ensures var w := Run(NewWatcher(environment), es);
            && (RowActive(w, w.phase.rows, now, i) <==> Offers(w, now, i))
            && (Offers(w, now, i) ==>
                  var rs := ReadsOf(environment, es, w.candidates[i].key);
                  i < |w.phase.rows| && rs != [] && w.phase.rows[i].started == rs[|rs| - 1].started)
  {
    var w := Run(NewWatcher(environment), es);
    ReachedOk(environment, es, from);
    if Offers(w, now, i) {
      var key := w.candidates[i].key;
      CursorIsItsReads(environment, es, from, key);
      assert RowSince(w.phase.rows[i], w.candidates[i], key, ReadsOf(environment, es, key), from);
    }
  }

  predicate Settled(w: Watcher, outputs: seq<Output>, now: real, i: nat, rs: seq<EC.Read>) {
    && Offers(w, now, i) && rs != []
    && var (key, s) := (w.candidates[i].key, Offered(w, w.candidates[i].key, now).value);
       var age := s.observationAgeMs + (now - rs[|rs| - 1].started);
       outputs == w.outputs
         + (if Open(w.outputs).Some? && SameSample(Open(w.outputs).value, key, s) then []
            else [Publish(key, s.(observationAgeMs := age), now)])
  }

  ghost function WhyClosed(w: Watcher, now: real): EC.Reason
    requires Open(w.outputs).Some?
  {
    var key := Open(w.outputs).value.key;
    if exists i: nat :: Offers(w, now, i) then EC.ProviderConflict
    else if key in w.cursors then EC.InactiveReason(w.cursors[key], now) else EC.InvalidExport
  }

  ghost predicate Closed(w: Watcher, outputs: seq<Output>, now: real) {
    outputs == w.outputs + (if Open(w.outputs).None? then [] else [Quiet(WhyClosed(w, now), now)])
  }

  lemma SoleIsOnly(w: Watcher, now: real)
    requires w.phase.Reading? && forall i: nat :: RowActive(w, w.phase.rows, now, i) <==> Offers(w, now, i)
    ensures forall i: nat :: Sole(w, w.phase.rows, now, i) <==> OnlyOffer(w, now, i)
  {
    forall i: nat ensures Sole(w, w.phase.rows, now, i) <==> OnlyOffer(w, now, i) {
      if Sole(w, w.phase.rows, now, i) {
        forall j: nat | Offers(w, now, j) ensures j == i {
          assert RowActive(w, w.phase.rows, now, j);
        }
      }
    }
  }

  /** The rows of the pass agree with what the files offer. */
  ghost predicate RowsOffer(w: Watcher, now: real) {
    w.phase.Reading? && forall i: nat :: RowActive(w, w.phase.rows, now, i) <==> Offers(w, now, i)
  }

  /** The marker of the open call stands for its sample. */
  lemma MarkerSettles(w: Watcher, outputs: seq<Output>, now: real, i: nat, rs: seq<EC.Read>)
    requires Offers(w, now, i) && rs != [] && Selection(w.selected, w.published, w.outputs)
    requires var (key, s) := (w.candidates[i].key, Offered(w, w.candidates[i].key, now).value);
             var age := s.observationAgeMs + (now - rs[|rs| - 1].started);
             outputs == (if w.published == Some(MarkerOf(key, s)) then w.outputs else
                         w.outputs + [Publish(key, s.(observationAgeMs := age), now)])
    ensures Settled(w, outputs, now, i, rs)
  {
    assert w.outputs + [] == w.outputs;
  }

  lemma ReasonCloses(w: Watcher, outputs: seq<Output>, now: real)
    requires RowsOffer(w, now) && Selection(w.selected, w.published, w.outputs)
    requires w.selected.Some? ==> w.selected.value in w.cursors
    requires outputs == (if w.selected.None? then w.outputs else w.outputs + [Quiet(ClosingReason(w, now), now)])
    ensures Closed(w, outputs, now)
  {
    assert w.outputs + [] == w.outputs;
    if w.selected.Some? && exists i: nat :: RowActive(w, w.phase.rows, now, i) {
      var i: nat :| RowActive(w, w.phase.rows, now, i);
      assert Offers(w, now, i);
    }
  }

  lemma PassSettles(w: Watcher, now: real, i: nat, rs: seq<EC.Read>)
    requires WatcherOk(w, now) && w.phase.Reading? && AllDone(w.phase.rows) && !w.stopped
    requires Sole(w, w.phase.rows, now, i) && Offers(w, now, i)
    requires rs != [] && w.phase.rows[i].started == rs[|rs| - 1].started
    ensures Settled(w, StepPassDone(w, now).outputs, now, i, rs)
  {
    SoleEnds(w, now, i);
    MarkerSettles(w, StepPassDone(w, now).outputs, now, i, rs);
  }

  lemma PassCloses(w: Watcher, now: real)
    requires WatcherOk(w, now) && RowsOffer(w, now) && AllDone(w.phase.rows) && !w.stopped
    requires forall i: nat :: !Sole(w, w.phase.rows, now, i)
    ensures Closed(w, StepPassDone(w, now).outputs, now)
  {
    NoneEnds(w, now);
    ReasonCloses(w, StepPassDone(w, now).outputs, now);
  }

  /** The end of a pass, from the reads alone. If exactly one file still offers a
      snapshot, the callbacks are left with that sample open: newly published, at
      the age it has reached since its last read began, unless the open call was
      for that very sample. Otherwise an open call is closed, for the conflict or
      for what its own file says. */
  lemma PassExactly(environment: string, es: seq<WatchEvent>, from: real, now: real)
    requires Legal(es, from) && Clock(es, from) <= now
    requires var w := Run(NewWatcher(environment), es);
             w.phase.Reading? && AllDone(w.phase.rows) && !w.stopped
    ensures var w := Run(NewWatcher(environment), es);
            var next := StepPassDone(w, now).outputs;
            && (forall i: nat :: OnlyOffer(w, now, i) ==>
                  Settled(w, next, now, i, ReadsOf(environment, es, w.candidates[i].key)))
            && ((forall i: nat :: !OnlyOffer(w, now, i)) ==> Closed(w, next, now))
  {
    var w := Run(NewWatcher(environment), es);
    ReachedOk(environment, es, from);
    TimePasses(w, Clock(es, from), now);
    forall i: nat ensures RowActive(w, w.phase.rows, now, i) <==> Offers(w, now, i) {
      RowsAreOffers(environment, es, from, now, i);
    }
    SoleIsOnly(w, now);
    forall i: nat | OnlyOffer(w, now, i)
      ensures Settled(w, StepPassDone(w, now).outputs, now, i, ReadsOf(environment, es, w.candidates[i].key))
    {
      RowsAreOffers(environment, es, from, now, i);
      assert Sole(w, w.phase.rows, now, i);
      PassSettles(w, now, i, ReadsOf(environment, es, w.candidates[i].key));
    }
    if forall i: nat :: !OnlyOffer(w, now, i) { PassCloses(w, now); }
  }

  // ----- ticks and discovery -----

  /** Every read of a pass began with the pass: with the tick or the discovery that
      started it, never with a later tick. */
  lemma ReadsBeginTogether(w: Watcher, e: WatchEvent)
    ensures var next := Step(w, e);
            next.phase.Reading? ==>
              if w.phase.Reading? then
                && |next.phase.rows| == |w.phase.rows| && next.candidates == w.candidates
                && forall i :: 0 <= i < |w.phase.rows| ==> next.phase.rows[i].started == w.phase.rows[i].started
              else
                && (e.Tick? || e.Discovered?) && |next.phase.rows| == |next.candidates|
                && forall i :: 0 <= i < |next.candidates| ==> next.phase.rows[i] == Pending(e.now)
  {
  }

  /** The last completed discovery: when it was asked for, and what it found. */
  function LastFound(environment: string, es: seq<WatchEvent>): Option<(real, seq<Candidate>)> {
    if es == [] then None else
    var before, e := es[..|es| - 1], es[|es| - 1];
    var w := Run(NewWatcher(environment), before);
    if e.Discovered? && w.phase.Discovering? then Some((w.phase.asked, e.found)) else LastFound(environment, before)
  }

  predicate FirstOnes(kept: seq<Candidate>, found: seq<Candidate>) {
    kept <= found && |kept| == (if |found| < 64 then |found| else 64)
  }

  lemma OnlyDiscoveryFinds(w: Watcher, e: WatchEvent)
    ensures var next := Step(w, e);
            if e.Discovered? && w.phase.Discovering?
            then next.discoveredAt == Some(w.phase.asked) && FirstOnes(next.candidates, e.found)
            else next.discoveredAt == w.discoveredAt && next.candidates == w.candidates
  {
  }

  lemma {:induction false} DiscoveryIsLast(environment: string, es: seq<WatchEvent>)
    ensures var (w, last) := (Run(NewWatcher(environment), es), LastFound(environment, es));
            if last.None? then w.discoveredAt.None? && w.candidates == []
            else w.discoveredAt == Some(last.value.0) && FirstOnes(w.candidates, last.value.1)
    decreases |es|
  {
    if es != [] {
      var before := es[..|es| - 1];
      DiscoveryIsLast(environment, before);
      RunLast(NewWatcher(environment), es);
      OnlyDiscoveryFinds(Run(NewWatcher(environment), before), es[|es| - 1]);
    }
  }

  /** Discovery: the files read are the first 64 of the last discovery that ended;
      a tick that finds the loop idle asks again exactly when that found nothing
      and was asked for ten seconds ago or more, and otherwise reads; and a tick
      that finds it busy or stopped does nothing. */
  lemma DiscoveryExactly(environment: string, es: seq<WatchEvent>, now: real)
    ensures var (w, last) := (Run(NewWatcher(environment), es), LastFound(environment, es));
            var next := Step(w, Tick(now));
            && (if last.None? then w.candidates == [] else FirstOnes(w.candidates, last.value.1))
            && (if w.stopped || !w.phase.Idle? then next == w
                else if last.None? || (last.value.1 == [] && now - last.value.0 >= 10000.0)
                then next == w.(phase := Discovering(now))
                else next.phase.Reading? && next.candidates == w.candidates)
  {
    DiscoveryIsLast(environment, es);
  }

  /** A failed discovery costs nothing: nothing was published, and the next tick may
      ask again at once. */
  lemma FailedDiscovery(environment: string, es: seq<WatchEvent>, from: real, now: real)
    requires Legal(es, from) && Run(NewWatcher(environment), es).phase.Discovering?
    ensures var w := Run(NewWatcher(environment), es); Step(w, DiscoveryFailed(now)) == w.(phase := Idle)
  {
    ReachedOk(environment, es, from);
    NothingHeld(Run(NewWatcher(environment), es), Clock(es, from));
  }

  lemma NothingHeld(w: Watcher, now: real)
    requires WatcherOk(w, now) && w.phase.Discovering?
    ensures w.selected.None? && w.published.None?
  {
    assert forall k :: k !in w.cursors;
  }

  /** What was found once is polled for good. */
  lemma {:induction false} FilesStay(w: Watcher, es: seq<WatchEvent>, from: real)
    requires WatcherOk(w, from) && w.candidates != [] && Legal(es, from)
    ensures Run(w, es).candidates == w.candidates && !Run(w, es).phase.Discovering?
    decreases es
  {
    if es != [] {
      StepKeeps(w, es[0], from);
      FilesStay(Step(w, es[0]), es[1..], es[0].now);
    }
  }
}
