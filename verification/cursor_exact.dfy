/** When exactly one export file is believed: every outcome of a read in terms of
    the reads before it. */
module CursorExact {
  import opened Texts
  import opened Snapshots
  import opened ExportCursors

  /** The evidence clock of a stored read, and the clock of its writer. */
  predicate Within(e: Entry, now: real) {
    now < e.started + 30000.0 - e.snap.observationAgeMs
  }

  /** Neither the writer's clock of the last stored read nor the evidence clock of
      any stored read of its observation has run out. */
  ghost predicate ClocksRun(es: seq<Entry>, now: real)
    requires es != []
  {
    var last := es[|es| - 1];
    && now < last.started + 30000.0
    && forall i :: 0 <= i < |es| && SameObservation(Some(last.snap), es[i].snap) ==> Within(es[i], now)
  }

  /** Some stored read of the current observation sets the deadline. */
  ghost predicate Attained(c: Cursor, es: seq<Entry>) {
    es != [] ==> exists i: nat :: i < |es| && Sets(c, es, i)
  }

  predicate Sets(c: Cursor, es: seq<Entry>, i: nat)
    requires i < |es|
  {
    SameObservation(c.snapshot, es[i].snap)
    && c.deadline == es[i].started + 30000.0 - es[i].snap.observationAgeMs
  }

  lemma AttainedGrows(h: History, r: Read, now: real)
    requires Shape(h, now) && Attained(h.cursor, h.entries)
    ensures Attained(After(h, r).cursor, After(h, r).entries)
  {
    var es, next := h.entries, After(h, r);
    if Judge(h.cursor, r.doc) == Stored {
      if es != [] && SameObservation(h.cursor.snapshot, r.doc.value) {
        var i: nat :| i < |es| && Sets(h.cursor, es, i);
        assert next.entries[i] == es[i];
        assert Sets(next.cursor, next.entries, i) || Sets(next.cursor, next.entries, |es|);
      } else {
        assert Sets(next.cursor, next.entries, |es|);
      }
    } else if es != [] {
      var i: nat :| i < |es| && Sets(h.cursor, es, i);
      assert Sets(next.cursor, next.entries, i);
    }
  }

  lemma {:induction false} RunAttained(h: History, rs: seq<Read>, from: real)
    requires HistoryOk(h, from) && Attained(h.cursor, h.entries) && WellTimed(rs, from)
    ensures Attained(RunFrom(h, rs).cursor, RunFrom(h, rs).entries)
    decreases rs
  {
    if rs != [] {
      AttainedGrows(h, rs[0], from);
      StepKeeps(h, rs[0], from);
      RunAttained(After(h, rs[0]), rs[1..], rs[0].finished);
    }
  }

  lemma ClocksAgree(h: History, from: real, now: real)
    requires Shape(h, from) && h.entries != []
    requires Expiry(h.cursor.snapshot, h.cursor.deadline, h.entries) && Attained(h.cursor, h.entries)
    ensures InTime(h.cursor, now) <==> ClocksRun(h.entries, now)
  {
    var c, es := h.cursor, h.entries;
    var i: nat :| i < |es| && Sets(c, es, i);
    if ClocksRun(es, now) { assert Within(es[i], now); }
  }

  /** The clocks, exactly: a cursor is in time while all of them run. */
  lemma InTimeExactly(rs: seq<Read>, from: real, now: real)
    requires WellTimed(rs, from) && Run(rs).entries != []
    ensures InTime(Run(rs).cursor, now) <==> ClocksRun(Run(rs).entries, now)
  {
    RunKeeps(rs, from);
    RunAttained(History(FRESH, []), rs, from);
    ClocksAgree(Run(rs), EndTime(rs, from), now);
  }

  // ----- one more read -----

  /** The document may follow the stored reads: it neither returns to a left
      generation or session nor steps back in its own, and it keeps the evidence
      of an observation it continues. */
  ghost predicate Follows(es: seq<Entry>, s: Snapshot) {
    && !LeftKey(es, Generation(s)) && !LeftKey(es, SessionKey(s.sessionId))
    && (es != [] && es[|es| - 1].snap.sessionId == s.sessionId ==>
          var last := es[|es| - 1].snap;
          && last.sequence < s.sequence && last.observationSequence <= s.observationSequence
          && (last.observationSequence == s.observationSequence && s.state != Inactive ==> SameEvidence(last, s)))
  }

  /** The read shows nothing new: no document, or the very one stored last. */
  predicate Unchanged(h: History, r: Read) {
    || r.doc.None?
    || (r.doc == h.cursor.snapshot && |h.cursor.retired| < 512)
  }

  /** The same, in terms of what the cursor keeps. */
  predicate Accepted(c: Cursor, s: Snapshot) {
    && Generation(s) !in c.retired && SessionKey(s.sessionId) !in c.retired
    && (SameSession(c.snapshot, s) ==>
          var last := c.snapshot.value;
          && last.sequence < s.sequence && last.observationSequence <= s.observationSequence
          && (last.observationSequence == s.observationSequence && s.state != Inactive ==> SameEvidence(last, s)))
  }

  lemma FollowsMeans(h: History, s: Snapshot, now: real)
    requires Shape(h, now)
    requires Generation(s) in h.cursor.retired <==> LeftKey(h.entries, Generation(s))
    requires SessionKey(s.sessionId) in h.cursor.retired <==> LeftKey(h.entries, SessionKey(s.sessionId))
    ensures Follows(h.entries, s) <==> Accepted(h.cursor, s)
  {
  }

  lemma AfterExactly(h: History, r: Read)
    requires h.cursor.snapshot.Some? ==>
               Generation(h.cursor.snapshot.value) !in h.cursor.retired
               && SessionKey(h.cursor.snapshot.value.sessionId) !in h.cursor.retired
    ensures var next := After(h, r);
            if r.doc.Some? && |h.cursor.retired| < 512 && Accepted(h.cursor, r.doc.value)
            then && next.entries == h.entries + [NewEntry(h.cursor, r)]
                 && next.cursor.snapshot == r.doc
                 && next.cursor.failure
                    == (if r.doc.value.state == Inactive then Some(ExplicitInactive) else None)
            else if Unchanged(h, r) then next == h
            else && next.entries == h.entries && next.cursor.snapshot == h.cursor.snapshot
                 && !next.cursor.live && next.cursor.failure == Some(InvalidExport)
  {
  }

  /** What a read does, exactly: a document that follows is stored, a missing or
      unchanged one leaves the cursor as it is, and any other silences it. */
  lemma ReadExactly(rs: seq<Read>, from: real, r: Read)
    requires WellTimed(rs, from)
    ensures var h, next := Run(rs), Run(rs + [r]);
            if r.doc.Some? && |h.cursor.retired| < 512 && Follows(h.entries, r.doc.value)
            then && |next.entries| == |h.entries| + 1 && next.entries[..|h.entries|] == h.entries
                 && next.entries[|h.entries|].snap == r.doc.value
                 && next.entries[|h.entries|].started == r.started
                 && next.cursor.snapshot == r.doc
                 && next.cursor.failure
                    == (if r.doc.value.state == Inactive then Some(ExplicitInactive) else None)
            else if Unchanged(h, r) then next == h
            else && next.entries == h.entries && next.cursor.snapshot == h.cursor.snapshot
                 && !next.cursor.live && next.cursor.failure == Some(InvalidExport)
  {
    RunAppend(History(FRESH, []), rs, r);
    RunKeeps(rs, from);
    if r.doc.Some? {
      RetirementIsExact(rs, from);
      FollowsMeans(Run(rs), r.doc.value, EndTime(rs, from));
    }
    AfterExactly(Run(rs), r);
  }

  /** An unchanged file stays current: while reads bring nothing, or the snapshot
      offered before, it is offered exactly as long as every clock runs. */
  lemma {:induction false} UnchangedStaysCurrent(rs: seq<Read>, more: seq<Read>, from: real, t: real, t2: real,
                                                 s: Snapshot)
    requires WellTimed(rs, from) && Current(Run(rs).cursor, t) == Some(s)
    requires forall i :: 0 <= i < |more| ==> Unchanged(Run(rs), more[i])
    ensures Run(rs + more) == Run(rs) && Run(rs).entries != []
    ensures Current(Run(rs + more).cursor, t2)
            == if ClocksRun(Run(rs).entries, t2) then Some(s) else None
    decreases more
  {
    RunKeeps(rs, from);
    RunLonger(History(FRESH, []), rs, more);
    StaysAsItIs(rs, from, more);
    InTimeExactly(rs, from, t2);
  }

  lemma {:induction false} RunLonger(h: History, rs: seq<Read>, more: seq<Read>)
    ensures RunFrom(h, rs + more) == RunFrom(RunFrom(h, rs), more)
    decreases rs
  {
    if rs == [] {
      assert rs + more == more;
    } else {
      assert (rs + more)[0] == rs[0] && (rs + more)[1..] == rs[1..] + more;
      RunLonger(After(h, rs[0]), rs[1..], more);
    }
  }

  lemma {:induction false} StaysAsItIs(rs: seq<Read>, from: real, more: seq<Read>)
    requires WellTimed(rs, from) && HistoryOk(Run(rs), EndTime(rs, from)) && Run(rs).cursor.snapshot.Some?
    requires forall i :: 0 <= i < |more| ==> Unchanged(Run(rs), more[i])
    ensures RunFrom(Run(rs), more) == Run(rs)
    decreases more
  {
    if more != [] {
      ReadExactly(rs, from, more[0]);
      RunAppend(History(FRESH, []), rs, more[0]);
      NothingFollowsItself(Run(rs), EndTime(rs, from));
      StaysAsItIs(rs, from, more[1..]);
    }
  }

  lemma NothingFollowsItself(h: History, now: real)
    requires Shape(h, now) && h.cursor.snapshot.Some?
    ensures !Follows(h.entries, h.cursor.snapshot.value)
  {
  }

  /** The last stored snapshot is the first of its session: only a baseline. */
  predicate OnlyBaseline(es: seq<Entry>)
    requires es != []
  {
    |es| == 1 || es[|es| - 2].snap.sessionId != es[|es| - 1].snap.sessionId
  }

  /** What makes a snapshot that follows believed: it has an owner and goes on in
      its session, and it is active and new evidence or the second of its session,
      or it continues, active or holding, what was current when it was read. */
  predicate Believed(h: History, r: Read)
    requires h.entries != [] && r.doc.Some?
  {
    var last, s := h.entries[|h.entries| - 1].snap, r.doc.value;
    && last.sessionId == s.sessionId && Named(s) && s.state != Inactive
    && (|| (s.state == Active && last.observationSequence < s.observationSequence)
        || (s.state == Active && OnlyBaseline(h.entries))
        || (last.observationSequence == s.observationSequence && Current(h.cursor, r.finished) == Some(last)))
  }

  lemma LiveWhenBelieved(h: History, r: Read, now: real)
    requires Shape(h, now) && r.doc.Some?
    requires |h.cursor.retired| < 512 && Accepted(h.cursor, r.doc.value)
    ensures After(h, r).cursor.live <==> h.entries != [] && Believed(h, r)
  {
  }

  /** A newly stored snapshot is offered exactly when it is believed and while every
      clock runs: that of its own read and those of its observation before. */
  lemma NewlyStoredIsCurrent(rs: seq<Read>, from: real, r: Read, t2: real)
    requires WellTimed(rs + [r], from) && WellTimed(rs, from) && r.doc.Some?
    requires |Run(rs).cursor.retired| < 512 && Follows(Run(rs).entries, r.doc.value)
    ensures Run(rs + [r]).entries != []
    ensures Current(Run(rs + [r]).cursor, t2)
            == if Run(rs).entries != [] && Believed(Run(rs), r) && ClocksRun(Run(rs + [r]).entries, t2)
               then r.doc else None
  {
    RunAppend(History(FRESH, []), rs, r);
    RunKeeps(rs, from);
    RetirementIsExact(rs, from);
    FollowsMeans(Run(rs), r.doc.value, EndTime(rs, from));
    AfterExactly(Run(rs), r);
    LiveWhenBelieved(Run(rs), r, EndTime(rs, from));
    InTimeExactly(rs + [r], from, t2);
  }

  lemma {:induction false} LiveIsNamed(h: History, rs: seq<Read>)
    requires h.cursor.live ==> h.cursor.snapshot.Some? && Named(h.cursor.snapshot.value)
    ensures var c := RunFrom(h, rs).cursor; c.live ==> c.snapshot.Some? && Named(c.snapshot.value)
    decreases rs
  {
    if rs != [] {
      LiveIsNamed(After(h, rs[0]), rs[1..]);
    }
  }

  /** Live evidence is prolonged: a strictly newer snapshot of the same evidence,
      active or holding, read while its predecessor is current, takes its place. */
  lemma NewerStaysCurrent(rs: seq<Read>, from: real, r: Read, t2: real, a: Snapshot)
    requires WellTimed(rs + [r], from) && WellTimed(rs, from) && r.doc.Some?
    requires |Run(rs).cursor.retired| < 512 && Current(Run(rs).cursor, r.finished) == Some(a)
    requires SameEvidence(a, r.doc.value) && a.sequence < r.doc.value.sequence && r.doc.value.state != Inactive
    ensures Run(rs + [r]).entries != []
    ensures Current(Run(rs + [r]).cursor, t2)
            == if ClocksRun(Run(rs + [r]).entries, t2) then r.doc else None
  {
    var h, s := Run(rs), r.doc.value;
    RunKeeps(rs, from);
    LiveIsNamed(History(FRESH, []), rs);
    RetirementIsExact(rs, from);
    FollowsMeans(h, s, EndTime(rs, from));
    NewlyStoredIsCurrent(rs, from, r, t2);
  }

  /** What the renderer is told about the silence: that the mod said so, that the
      evidence or its writer timed out, or that the export was not acceptable. A
      missing or unchanged read changes nothing about it. */
  lemma ReasonExactly(rs: seq<Read>, from: real, r: Read, t: real)
    requires WellTimed(rs, from) && WellTimed(rs + [r], from)
    ensures var h, next := Run(rs), Run(rs + [r]);
            InactiveReason(next.cursor, t)
            == if r.doc.Some? && |h.cursor.retired| < 512 && Follows(h.entries, r.doc.value)
               then if r.doc.value.state == Inactive then ExplicitInactive
                    else if next.entries == [] || ClocksRun(next.entries, t) then InvalidExport
                    else ObservationTimeout
               else if Unchanged(h, r) then InactiveReason(h.cursor, t) else InvalidExport
  {
    ReadExactly(rs, from, r);
    if Run(rs + [r]).entries != [] { InTimeExactly(rs + [r], from, t); }
  }
}
