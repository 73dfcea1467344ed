/** One export file's watermark: which reads are believed, and for how long. */
module ExportCursors {
  import opened Texts
  import opened Snapshots

  datatype Reason =
    | ObservationTimeout | ProviderConflict | InvalidExport | ExplicitInactive
    | AccountChange | GameExit | SocketReplaced | AppQuit

  const RETIRED_MAX: nat := 512

  // ----- specification -----

  /** lastAdvance None is the initial minus infinity. atBaseline says that the
      stored snapshot is the object kept as the session's baseline. */
  datatype Cursor = Cursor(
    snapshot: Option<Snapshot>,
    retired: set<WorldKey>,
    lastAdvance: Option<real>,
    deadline: real,
    live: bool,
    failure: Option<Reason>,
    atBaseline: bool)

  const FRESH: Cursor := Cursor(None, {}, None, 0.0, false, None, false)

  predicate InTime(c: Cursor, now: real) {
    c.lastAdvance.Some? && now - c.lastAdvance.value < ADVANCE_MS && now < c.deadline
  }

  function Current(c: Cursor, now: real): Option<Snapshot> {
    if c.live && InTime(c, now) then c.snapshot else None
  }

  function InactiveReason(c: Cursor, now: real): Reason {
    if c.failure.Some? then c.failure.value
    else if !InTime(c, now) then ObservationTimeout
    else InvalidExport
  }

  datatype Verdict = Absent | Refused | Repeated | Stored

  predicate SameSession(prior: Option<Snapshot>, s: Snapshot) {
    prior.Some? && prior.value.sessionId == s.sessionId
  }

  predicate SameObservation(prior: Option<Snapshot>, s: Snapshot) {
    SameSession(prior, s) && prior.value.observationSequence == s.observationSequence
  }

  /** What becomes of one parsed read. */
  function Judge(c: Cursor, doc: Option<Snapshot>): Verdict {
    if doc.None? then Absent else
    var s, prior := doc.value, c.snapshot;
    if Generation(s) in c.retired || SessionKey(s.sessionId) in c.retired || |c.retired| >= RETIRED_MAX then Refused
    else if SameSession(prior, s) && (s.sequence < prior.value.sequence
                                    || s.observationSequence < prior.value.observationSequence) then Refused
    else if SameSession(prior, s) && s.sequence == prior.value.sequence then
      if s == prior.value then Repeated else Refused
    else if SameObservation(prior, s) && s.state != Inactive
            && (Generation(prior.value) != Generation(s) || prior.value.evidence != s.evidence) then Refused
    else Stored
  }

  function Leaving(prior: Option<Snapshot>, s: Snapshot): set<WorldKey> {
    if prior.None? then {} else
    (if Generation(prior.value) != Generation(s) then {Generation(prior.value)} else {})
    + (if prior.value.sessionId != s.sessionId then {SessionKey(prior.value.sessionId)} else {})
  }

  function Min(a: real, b: real): real {
    if a <= b then a else b
  }

  function Store(c: Cursor, s: Snapshot, started: real, finished: real): Cursor {
    var prior := c.snapshot;
    var wasLive := Current(c, finished).Some?;
    var sameObservation := SameObservation(prior, s);
    var expiry := started + OBSERVATION_MS - s.observationAgeMs;
    Cursor(
      Some(s),
      c.retired + Leaving(prior, s),
      Some(started),
      if sameObservation then Min(c.deadline, expiry) else expiry,
      SameSession(prior, s) && s.state != Inactive && Named(s)
      && (s.state != Holding || (sameObservation && wasLive))
      && (!sameObservation || wasLive || c.atBaseline),
      if s.state == Inactive then Some(ExplicitInactive) else None,
      !SameSession(prior, s))
  }

  function Accept(c: Cursor, doc: Option<Snapshot>, started: real, finished: real): Cursor {
    match Judge(c, doc)
    case Absent => c
    case Repeated => c
    case Refused => c.(live := false, failure := Some(InvalidExport))
    case Stored => Store(c, doc.value, started, finished)
  }

  // ----- the object the watcher keeps per file -----

  class ExportCursor {
    var snapshot: Option<Snapshot>
    var retired: set<WorldKey>
    var lastAdvance: Option<real>
    var deadline: real
    var live: bool
    var failure: Option<Reason>
    var atBaseline: bool

    ghost function View(): Cursor
      reads this
    {
      Cursor(snapshot, retired, lastAdvance, deadline, live, failure, atBaseline)
    }

    constructor ()
      ensures View() == FRESH
    {
      snapshot, retired, lastAdvance, deadline := None, {}, None, 0.0;
      live, failure, atBaseline := false, None, false;
    }

    method CurrentAt(now: real) returns (s: Option<Snapshot>)
      ensures s == Current(View(), now)
    {
      if live && lastAdvance.Some? && now - lastAdvance.value < ADVANCE_MS && now < deadline {
        return snapshot;
      }
      return None;
    }

    method WhyInactive(now: real) returns (r: Reason)
      ensures r == InactiveReason(View(), now)
    {
      if failure.Some? { return failure.value; }
      if now >= deadline || lastAdvance.None? || now - lastAdvance.value >= ADVANCE_MS {
        return ObservationTimeout;
      }
      return InvalidExport;
    }

    method Refuse()
      modifies this
      ensures View() == old(View()).(live := false, failure := Some(InvalidExport))
    {
      live, failure := false, Some(InvalidExport);
    }

    /** Replaces the stored snapshot by one that passed every check. */
    method Replace(next: Snapshot, now: real, started: real)
      modifies this
      ensures View() == Store(old(View()), next, started, now)
    {
      var prior := snapshot;
      var changedSession := prior.Some? && prior.value.sessionId != next.sessionId;
      var sameObservation := prior.Some? && !changedSession
                             && prior.value.observationSequence == next.observationSequence;
      var before := CurrentAt(now);
      var wasLive := before.Some?;
      if prior.Some? && Generation(prior.value) != Generation(next) {
        retired := retired + {Generation(prior.value)};
      }
      if changedSession {
        retired := retired + {SessionKey(prior.value.sessionId)};
      }
      assert retired == old(retired) + Leaving(prior, next);
      deadline := if sameObservation then Min(deadline, started + OBSERVATION_MS - next.observationAgeMs)
                  else started + OBSERVATION_MS - next.observationAgeMs;
      snapshot, lastAdvance := Some(next), Some(started);
      failure := if next.state == Inactive then Some(ExplicitInactive) else None;
      // The first snapshot of a session is never live, and a holding one only
      // when it prolongs what was.
      live := prior.Some? && !changedSession && next.state != Inactive && Named(next)
              && (next.state != Holding || (sameObservation && wasLive))
              && (!sameObservation || wasLive || atBaseline);
      atBaseline := prior.None? || changedSession;
    }

    /** Takes one parsed read that began at started and ended at now. */
    method AcceptRead(doc: Option<Snapshot>, now: real, started: real) returns (s: Option<Snapshot>)
      modifies this
      ensures View() == Accept(old(View()), doc, started, now)
      ensures s == Current(View(), now)
    {
      if doc.None? {
        s := CurrentAt(now);
        return;
      }
      var next, prior := doc.value, snapshot;
      if Generation(next) in retired || SessionKey(next.sessionId) in retired || |retired| >= RETIRED_MAX {
        Refuse();
        return None;
      }
      if prior.Some? && prior.value.sessionId == next.sessionId {
        if next.sequence < prior.value.sequence || next.observationSequence < prior.value.observationSequence {
          Refuse();
          return None;
        }
        if next.sequence == prior.value.sequence {
          if next != prior.value { Refuse(); }
          s := CurrentAt(now);
          return;
        }
        if prior.value.observationSequence == next.observationSequence && next.state != Inactive
           && (Generation(prior.value) != Generation(next) || prior.value.evidence != next.evidence) {
          Refuse();
          return None;
        }
      }
      Replace(next, now, started);
      s := CurrentAt(now);
    }
  }

  // ----- runs -----

  datatype Read = Read(doc: Option<Snapshot>, started: real, finished: real)

  /** One stored snapshot: when it was read, whether the cursor was live just
      before, and whether storing it left the cursor live. */
  datatype Entry = Entry(snap: Snapshot, started: real, finished: real, wasLive: bool, live: bool)

  datatype History = History(cursor: Cursor, entries: seq<Entry>)

  function NewEntry(c: Cursor, r: Read): Entry
    requires r.doc.Some?
  {
    Entry(r.doc.value, r.started, r.finished, Current(c, r.finished).Some?,
          Store(c, r.doc.value, r.started, r.finished).live)
  }

  function After(h: History, r: Read): History {
    History(Accept(h.cursor, r.doc, r.started, r.finished),
            if Judge(h.cursor, r.doc) == Stored then h.entries + [NewEntry(h.cursor, r)] else h.entries)
  }

  function RunFrom(h: History, rs: seq<Read>): History
    decreases rs
  {
    if rs == [] then h else RunFrom(After(h, rs[0]), rs[1..])
  }

  function Run(rs: seq<Read>): History {
    RunFrom(History(FRESH, []), rs)
  }

  /** The reads of one file follow each other, and the parser let them through. */
  predicate WellTimed(rs: seq<Read>, from: real)
    decreases rs
  {
    rs != [] ==>
      && from <= rs[0].started <= rs[0].finished
      && (rs[0].doc.Some? ==> Keyed(rs[0].doc.value))
      && WellTimed(rs[1..], rs[0].finished)
  }

  predicate Advances(a: Snapshot, b: Snapshot) {
    a.sessionId == b.sessionId ==> a.sequence < b.sequence && a.observationSequence <= b.observationSequence
  }

  predicate SameEvidence(a: Snapshot, b: Snapshot) {
    && a.sessionId == b.sessionId && a.observationSequence == b.observationSequence
    && Generation(a) == Generation(b) && a.evidence == b.evidence
  }

  /** b was stored while live, stayed live and shows what a shows. */
  predicate Link(a: Entry, b: Entry) {
    b.wasLive && b.live && SameEvidence(a.snap, b.snap)
  }

  /** Entry j stands on entry i: i is active and live, and every later one up
      to j was stored while live, stayed live and shows the same evidence. */
  ghost predicate Chain(entries: seq<Entry>, i: nat, j: nat) {
    && i <= j < |entries|
    && entries[i].snap.state == Active && entries[i].live
    && forall k :: i < k <= j ==> Link(entries[k - 1], entries[k])
  }

  ghost predicate LeftKey(entries: seq<Entry>, key: WorldKey) {
    exists i: nat :: i < |entries| && LeftBy(entries, i, key)
  }

  predicate LeftBy(entries: seq<Entry>, i: nat, key: WorldKey)
    requires i < |entries|
  {
    var last := entries[|entries| - 1].snap;
    || (Generation(entries[i].snap) == key && key != Generation(last))
    || (SessionKey(entries[i].snap.sessionId) == key && entries[i].snap.sessionId != last.sessionId)
  }

  predicate Shape(h: History, now: real) {
    var c, es := h.cursor, h.entries;
    && (c.snapshot.None? <==> es == [])
    && (forall i :: 0 <= i < |es| ==> Keyed(es[i].snap) && es[i].started <= es[i].finished <= now)
    && (es == [] ==> c == FRESH.(live := false, failure := c.failure) && c.retired == {})
    && (es != [] ==>
          var last := es[|es| - 1];
          && c.snapshot == Some(last.snap) && c.lastAdvance == Some(last.started)
          && (c.atBaseline <==> |es| == 1 || es[|es| - 2].snap.sessionId != last.snap.sessionId))
  }

  predicate Ordered(es: seq<Entry>) {
    forall i, j :: 0 <= i < j < |es| ==> Advances(es[i].snap, es[j].snap)
  }

  /** Every stored generation and session is the current one or retired. */
  predicate Retired(current: Snapshot, retired: set<WorldKey>, es: seq<Entry>) {
    && (forall i :: 0 <= i < |es| ==>
          && (Generation(es[i].snap) in retired || Generation(es[i].snap) == Generation(current))
          && (SessionKey(es[i].snap.sessionId) in retired || es[i].snap.sessionId == current.sessionId))
    && Generation(current) !in retired && SessionKey(current.sessionId) !in retired
    && |retired| <= RETIRED_MAX + 1
  }

  predicate Expiry(current: Option<Snapshot>, deadline: real, es: seq<Entry>) {
    forall i :: 0 <= i < |es| && SameObservation(current, es[i].snap) ==>
      deadline <= es[i].started + OBSERVATION_MS - es[i].snap.observationAgeMs
  }

  predicate LiveEntry(es: seq<Entry>, j: nat)
    requires j < |es|
  {
    es[j].live ==> 0 < j && es[j].snap.sessionId == es[j - 1].snap.sessionId
  }

  ghost predicate Rooted(es: seq<Entry>, j: nat) {
    exists i: nat :: Chain(es, i, j)
  }

  ghost predicate Liveness(c: Cursor, es: seq<Entry>) {
    && (c.live ==> es != [] && es[|es| - 1].live && !c.atBaseline)
    && (forall j: nat :: j < |es| && es[j].live ==> LiveEntry(es, j) && Rooted(es, j))
  }

  /** A generation or session that comes up again is still the current one. */
  predicate NoReturn(es: seq<Entry>) {
    forall i, k :: 0 <= i < k < |es| ==> Kept(es[i].snap, es[k - 1].snap, es[k].snap)
  }

  predicate Kept(a: Snapshot, b: Snapshot, c: Snapshot) {
    && (Generation(a) == Generation(c) ==> Generation(b) == Generation(c))
    && (a.sessionId == c.sessionId ==> b.sessionId == c.sessionId)
  }

  ghost predicate OnlyLeft(retired: set<WorldKey>, es: seq<Entry>) {
    forall key :: key in retired ==> LeftKey(es, key)
  }

  ghost predicate Keys(h: History) {
    && (h.cursor.snapshot.Some? ==> Retired(h.cursor.snapshot.value, h.cursor.retired, h.entries))
    && OnlyLeft(h.cursor.retired, h.entries)
  }

  ghost predicate HistoryOk(h: History, now: real) {
    && Shape(h, now)
    && Keys(h)
    && NoReturn(h.entries)
    && Ordered(h.entries)
    && Expiry(h.cursor.snapshot, h.cursor.deadline, h.entries)
    && Liveness(h.cursor, h.entries)
  }

  // ----- the invariant over every run -----

  /** What makes a stored snapshot different from the one before. */
  lemma StoredFacts(c: Cursor, s: Snapshot)
    requires Judge(c, Some(s)) == Stored
    ensures Generation(s) !in c.retired && SessionKey(s.sessionId) !in c.retired && |c.retired| < RETIRED_MAX
    ensures SameSession(c.snapshot, s) ==> Advances(c.snapshot.value, s)
    ensures SameObservation(c.snapshot, s) && s.state != Inactive ==> SameEvidence(c.snapshot.value, s)
  {
  }

  lemma ShapeGrows(h: History, r: Read, now: real, next: History)
    requires Shape(h, now) && r.doc.Some? && Keyed(r.doc.value) && now <= r.started <= r.finished
    requires next.cursor == Store(h.cursor, r.doc.value, r.started, r.finished)
    requires next.entries == h.entries + [NewEntry(h.cursor, r)]
    ensures Shape(next, r.finished)
  {
  }

  lemma RetiredGrows(prior: Snapshot, retired: set<WorldKey>, es: seq<Entry>, e: Entry)
    requires Retired(prior, retired, es) && |retired| < RETIRED_MAX
    requires Generation(e.snap) !in retired && SessionKey(e.snap.sessionId) !in retired
    ensures Retired(e.snap, retired + Leaving(Some(prior), e.snap), es + [e])
  {
    var leaving := Leaving(Some(prior), e.snap);
    assert |leaving| <= 2;
    var next := es + [e];
    forall i | 0 <= i < |next|
      ensures Generation(next[i].snap) in retired + leaving || Generation(next[i].snap) == Generation(e.snap)
      ensures SessionKey(next[i].snap.sessionId) in retired + leaving || next[i].snap.sessionId == e.snap.sessionId
    {
    }
  }

  lemma OnlyLeftGrows(retired: set<WorldKey>, es: seq<Entry>, e: Entry)
    requires OnlyLeft(retired, es) && es != []
    requires Generation(e.snap) !in retired && SessionKey(e.snap.sessionId) !in retired
    ensures OnlyLeft(retired + Leaving(Some(es[|es| - 1].snap), e.snap), es + [e])
  {
    var next := es + [e];
    forall key | key in retired + Leaving(Some(es[|es| - 1].snap), e.snap) ensures LeftKey(next, key) {
      if key in retired {
        assert LeftKey(es, key);
        var i: nat :| i < |es| && LeftBy(es, i, key);
        assert next[i] == es[i];
        assert LeftBy(next, i, key);
      } else {
        assert LeftBy(next, |es| - 1, key);
      }
    }
  }

  lemma NoReturnGrows(retired: set<WorldKey>, es: seq<Entry>, e: Entry)
    requires NoReturn(es) && (es != [] ==> Retired(es[|es| - 1].snap, retired, es))
    requires Generation(e.snap) !in retired && SessionKey(e.snap.sessionId) !in retired
    ensures NoReturn(es + [e])
  {
    var next := es + [e];
    forall i, k | 0 <= i < k < |next| ensures Kept(next[i].snap, next[k - 1].snap, next[k].snap) {
      if k < |es| {
        assert Kept(es[i].snap, es[k - 1].snap, es[k].snap);
      }
    }
  }

  lemma OrderedGrows(retired: set<WorldKey>, es: seq<Entry>, e: Entry)
    requires Ordered(es)
    requires es != [] ==> Retired(es[|es| - 1].snap, retired, es) && Advances(es[|es| - 1].snap, e.snap)
    requires SessionKey(e.snap.sessionId) !in retired
    ensures Ordered(es + [e])
  {
    var next := es + [e];
    forall i, j | 0 <= i < j < |next| ensures Advances(next[i].snap, next[j].snap) {
    }
  }

  lemma ChainKept(es: seq<Entry>, e: Entry, i: nat, j: nat)
    requires Chain(es, i, j)
    ensures Chain(es + [e], i, j)
  {
    var next := es + [e];
    forall k | i < k <= j
      ensures Link(next[k - 1], next[k])
    {
      assert next[k] == es[k] && next[k - 1] == es[k - 1];
    }
  }

  lemma ChainGrows(es: seq<Entry>, e: Entry, i: nat)
    requires es != [] && Chain(es, i, |es| - 1)
    requires Link(es[|es| - 1], e)
    ensures Chain(es + [e], i, |es|)
  {
    var next := es + [e];
    forall k | i < k <= |es|
      ensures Link(next[k - 1], next[k])
    {
      assert next[k - 1] == es[k - 1];
      if k < |es| { assert next[k] == es[k]; }
    }
  }

  lemma LivenessGrows(c: Cursor, es: seq<Entry>, e: Entry)
    requires Liveness(c, es)
    requires e.live ==> es != [] && es[|es| - 1].snap.sessionId == e.snap.sessionId
    requires e.live && e.snap.state != Active ==>
               es[|es| - 1].live && Link(es[|es| - 1], e)
    ensures forall j: nat :: j < |es + [e]| && (es + [e])[j].live ==> LiveEntry(es + [e], j) && Rooted(es + [e], j)
  {
    var next := es + [e];
    forall j: nat | j < |next| && next[j].live
      ensures LiveEntry(next, j) && Rooted(next, j)
    {
      if j < |es| {
        assert next[j] == es[j];
        assert LiveEntry(es, j) && Rooted(es, j);
        var i: nat :| Chain(es, i, j);
        ChainKept(es, e, i, j);
      } else if e.snap.state == Active {
        assert Chain(next, j, j);
      } else {
        assert Rooted(es, |es| - 1);
        var i: nat :| Chain(es, i, |es| - 1);
        ChainGrows(es, e, i);
      }
    }
  }

  /** The same entries, and a cursor that is the same or fell silent. */
  predicate Hushed(h: History, next: History) {
    && next.entries == h.entries
    && next.cursor == h.cursor.(live := next.cursor.live, failure := next.cursor.failure)
    && (next.cursor.live ==> h.cursor.live)
  }

  lemma ShapeFrame(h: History, next: History, now: real, later: real)
    requires Shape(h, now) && now <= later && Hushed(h, next)
    requires h.entries == [] ==> !next.cursor.live
    ensures Shape(next, later)
  {
  }

  /** The invariant does not look at when the last read ended, and a cursor may
      fall silent. */
  lemma HistoryFrame(h: History, next: History, now: real, later: real)
    requires HistoryOk(h, now) && now <= later && Hushed(h, next)
    ensures HistoryOk(next, later)
  {
    assert h.entries == [] ==> !h.cursor.live;
    ShapeFrame(h, next, now, later);
  }

  lemma StoredKeeps(h: History, r: Read, now: real)
    requires HistoryOk(h, now) && Judge(h.cursor, r.doc) == Stored
    requires now <= r.started <= r.finished && Keyed(r.doc.value)
    ensures HistoryOk(After(h, r), r.finished)
  {
    ShapeGrows(h, r, now, After(h, r));
    StoredKeepsKeys(h, r, now);
    StoredKeepsOrder(h, r, now);
    StoredKeepsLiveness(h, r, now);
  }

  lemma StoredKeepsOrder(h: History, r: Read, now: real)
    requires Shape(h, now) && Ordered(h.entries)
    requires h.cursor.snapshot.Some? ==> Retired(h.cursor.snapshot.value, h.cursor.retired, h.entries)
    requires Expiry(h.cursor.snapshot, h.cursor.deadline, h.entries) && Judge(h.cursor, r.doc) == Stored
    ensures Ordered(After(h, r).entries)
    ensures Expiry(After(h, r).cursor.snapshot, After(h, r).cursor.deadline, After(h, r).entries)
  {
    StoredFacts(h.cursor, r.doc.value);
    OrderedGrows(h.cursor.retired, h.entries, NewEntry(h.cursor, r));
  }

  lemma StoredKeepsKeys(h: History, r: Read, now: real)
    requires Shape(h, now) && Keys(h) && NoReturn(h.entries) && Judge(h.cursor, r.doc) == Stored
    ensures Keys(After(h, r)) && NoReturn(After(h, r).entries)
  {
    var c, es, e := h.cursor, h.entries, NewEntry(h.cursor, r);
    StoredFacts(c, r.doc.value);
    if es != [] {
      RetiredGrows(c.snapshot.value, c.retired, es, e);
      OnlyLeftGrows(c.retired, es, e);
    }
    NoReturnGrows(c.retired, es, e);
  }

  lemma StoredKeepsLiveness(h: History, r: Read, now: real)
    requires Shape(h, now) && Liveness(h.cursor, h.entries) && Judge(h.cursor, r.doc) == Stored
    ensures Liveness(After(h, r).cursor, After(h, r).entries)
  {
    StoredFacts(h.cursor, r.doc.value);
    LivenessGrows(h.cursor, h.entries, NewEntry(h.cursor, r));
  }

  lemma StepKeeps(h: History, r: Read, now: real)
    requires HistoryOk(h, now)
    requires now <= r.started <= r.finished
    requires r.doc.Some? ==> Keyed(r.doc.value)
    ensures HistoryOk(After(h, r), r.finished)
  {
    if Judge(h.cursor, r.doc) == Stored {
      StoredKeeps(h, r, now);
    } else {
      HistoryFrame(h, After(h, r), now, r.finished);
    }
  }

  function EndTime(rs: seq<Read>, from: real): real {
    if rs == [] then from else rs[|rs| - 1].finished
  }

  lemma {:induction false} RunFromKeeps(h: History, rs: seq<Read>, from: real)
    requires HistoryOk(h, from) && WellTimed(rs, from)
    ensures HistoryOk(RunFrom(h, rs), EndTime(rs, from))
    decreases rs
  {
    if rs != [] {
      StepKeeps(h, rs[0], from);
      RunFromKeeps(After(h, rs[0]), rs[1..], rs[0].finished);
    }
  }

  lemma RunKeeps(rs: seq<Read>, from: real)
    requires WellTimed(rs, from)
    ensures HistoryOk(Run(rs), EndTime(rs, from))
  {
    RunFromKeeps(History(FRESH, []), rs, from);
  }

  // ----- what a run guarantees -----

  /** A live cursor stands on two stored, strictly advancing snapshots of one
      session; a live holding snapshot stands on an unbroken chain of live
      snapshots of the same observation and evidence that starts active. */
  lemma LivenessIsEarned(rs: seq<Read>, from: real)
    requires WellTimed(rs, from) && Run(rs).cursor.live
    ensures var es := Run(rs).entries;
            && |es| >= 2 && Run(rs).cursor.snapshot == Some(es[|es| - 1].snap)
            && es[|es| - 2].snap.sessionId == es[|es| - 1].snap.sessionId
            && es[|es| - 2].snap.sequence < es[|es| - 1].snap.sequence
            && Rooted(es, |es| - 1)
  {
    RunKeeps(rs, from);
    var es := Run(rs).entries;
    assert LiveEntry(es, |es| - 1);
    assert Advances(es[|es| - 2].snap, es[|es| - 1].snap);
  }

  /** While a snapshot is offered, neither its writer's clock nor the evidence
      clock of any stored read of that observation has run out. */
  lemma DeadlinesBind(rs: seq<Read>, from: real, now: real, s: Snapshot)
    requires WellTimed(rs, from) && Current(Run(rs).cursor, now) == Some(s)
    ensures var es := Run(rs).entries;
            && es != [] && now < es[|es| - 1].started + ADVANCE_MS
            && forall i :: 0 <= i < |es| && SameObservation(Some(s), es[i].snap) ==>
                 now < es[i].started + OBSERVATION_MS - es[i].snap.observationAgeMs
  {
    RunKeeps(rs, from);
  }

  /** A missing, refused or repeated read moves neither clock, and never turns a
      silent cursor into a speaking one. */
  lemma UnstoredMovesNothing(c: Cursor, r: Read, now: real)
    requires Judge(c, r.doc) != Stored
    ensures var next := Accept(c, r.doc, r.started, r.finished);
            && next.snapshot == c.snapshot && next.deadline == c.deadline
            && next.lastAdvance == c.lastAdvance && next.retired == c.retired
            && (Current(next, now).Some? ==> Current(c, now).Some?)
  {
  }

  /** The observation of s is over for this cursor: expired or refused while it
      is still the stored one, superseded, or left with its session. */
  predicate Over(c: Cursor, s: Snapshot, now: real) {
    && c.snapshot.Some?
    && (var cur := c.snapshot.value;
        || (cur.sessionId == s.sessionId && cur.observationSequence == s.observationSequence
            && !c.atBaseline && Current(c, now).None?)
        || (cur.sessionId == s.sessionId && cur.observationSequence > s.observationSequence)
        || (cur.sessionId != s.sessionId && SessionKey(s.sessionId) in c.retired))
  }

  /** The read may have begun before the silence. */
  lemma OverLasts(c: Cursor, s: Snapshot, now: real, r: Read)
    requires Over(c, s, now) && now <= r.finished
    ensures Over(Accept(c, r.doc, r.started, r.finished), s, r.finished)
  {
    if Judge(c, r.doc) == Stored {
      StoredFacts(c, r.doc.value);
    } else {
      UnstoredMovesNothing(c, r, r.finished);
    }
  }

  /** From a state that offers s on, the observation of s is either still the
      stored one, past its baseline, or over. */
  predicate Tracked(c: Cursor, s: Snapshot) {
    && c.snapshot.Some?
    && (var cur := c.snapshot.value;
        || (cur.sessionId == s.sessionId && cur.observationSequence >= s.observationSequence && !c.atBaseline)
        || (cur.sessionId != s.sessionId && SessionKey(s.sessionId) in c.retired))
  }

  // ----- reads one by one -----

  lemma {:induction false} RunAppend(h: History, rs: seq<Read>, r: Read)
    ensures RunFrom(h, rs + [r]) == After(RunFrom(h, rs), r)
    decreases rs
  {
    if rs == [] {
      assert rs + [r] == [r] && [r][1..] == [];
      assert RunFrom(After(h, r), []) == After(h, r);
    } else {
      RunAppend(After(h, rs[0]), rs[1..], r);
      assert (rs + [r])[0] == rs[0] && (rs + [r])[1..] == rs[1..] + [r];
    }
  }

  lemma {:induction false} WellTimedAppend(rs: seq<Read>, from: real, r: Read)
    requires WellTimed(rs, from) && EndTime(rs, from) <= r.started <= r.finished
    requires r.doc.Some? ==> Keyed(r.doc.value)
    ensures WellTimed(rs + [r], from) && EndTime(rs + [r], from) == r.finished
    decreases rs
  {
    if rs == [] {
      assert rs + [r] == [r] && [r][1..] == [];
    } else {
      WellTimedAppend(rs[1..], rs[0].finished, r);
      assert (rs + [r])[0] == rs[0] && (rs + [r])[1..] == rs[1..] + [r];
    }
  }

  lemma NextRead(rs: seq<Read>, n: nat)
    requires n < |rs|
    ensures Run(rs[..n + 1]) == After(Run(rs[..n]), rs[n])
  {
    assert rs[..n + 1] == rs[..n] + [rs[n]];
    RunAppend(History(FRESH, []), rs[..n], rs[n]);
  }

  /** Reads follow each other, so they also finish in order. */
  lemma {:induction false} TimedPrefix(rs: seq<Read>, from: real, n: nat)
    requires WellTimed(rs, from) && n <= |rs|
    ensures WellTimed(rs[..n], from) && from <= EndTime(rs[..n], from)
    ensures n < |rs| ==> EndTime(rs[..n], from) <= rs[n].started <= rs[n].finished
    decreases n
  {
    if n > 0 {
      TimedPrefix(rs[1..], rs[0].finished, n - 1);
      assert rs[..n][0] == rs[0] && rs[..n][1..] == rs[1..][..n - 1];
      assert EndTime(rs[..n], from) == EndTime(rs[1..][..n - 1], rs[0].finished);
    }
  }

  /** At time t the first n reads have finished and no other; the next may be
      under way. */
  predicate AsOf(rs: seq<Read>, from: real, n: nat, t: real) {
    n <= |rs| && EndTime(rs[..n], from) <= t && (n < |rs| ==> t <= rs[n].finished)
  }

  lemma {:induction false} TrackedForever(rs: seq<Read>, s: Snapshot, i: nat, n: nat)
    requires i <= n <= |rs| && Tracked(Run(rs[..i]).cursor, s)
    ensures Tracked(Run(rs[..n]).cursor, s)
    decreases n
  {
    if i < n {
      TrackedForever(rs, s, i, n - 1);
      NextRead(rs, n - 1);
      var c := Run(rs[..n - 1]).cursor;
      if Judge(c, rs[n - 1].doc) == Stored { StoredFacts(c, rs[n - 1].doc.value); }
    }
  }

  lemma {:induction false} OverForever(rs: seq<Read>, from: real, s: Snapshot, j: nat, t: real, n: nat)
    requires WellTimed(rs, from) && AsOf(rs, from, j, t) && j <= n <= |rs|
    requires Over(Run(rs[..j]).cursor, s, t)
    ensures Over(Run(rs[..n]).cursor, s, if n == j then t else rs[n - 1].finished)
    decreases n
  {
    if j < n {
      OverForever(rs, from, s, j, t, n - 1);
      NextRead(rs, n - 1);
      TimedPrefix(rs, from, n - 1);
      OverLasts(Run(rs[..n - 1]).cursor, s, if n - 1 == j then t else rs[n - 2].finished, rs[n - 1]);
    }
  }

  /** No revival: at t1 the cursor offers s, at t2 it no longer offers that
      observation; then it does not at any t3 after. A read may be under way at
      each of the three times. */
  lemma {:induction false} NoRevival(rs: seq<Read>, from: real, s: Snapshot,
                                     i: nat, t1: real, j: nat, t2: real, k: nat, t3: real)
    requires WellTimed(rs, from) && i <= j <= k && t2 <= t3
    requires AsOf(rs, from, i, t1) && AsOf(rs, from, j, t2) && AsOf(rs, from, k, t3)
    requires Current(Run(rs[..i]).cursor, t1) == Some(s)
    requires !SameObservation(Current(Run(rs[..j]).cursor, t2), s)
    ensures !SameObservation(Current(Run(rs[..k]).cursor, t3), s)
  {
    TimedPrefix(rs, from, i);
    OfferedIsTracked(rs[..i], from, s, t1);
    TrackedForever(rs, s, i, j);
    OverForever(rs, from, s, j, t2, k);
  }

  lemma OfferedIsTracked(rs: seq<Read>, from: real, s: Snapshot, now: real)
    requires WellTimed(rs, from) && Current(Run(rs).cursor, now) == Some(s)
    ensures Tracked(Run(rs).cursor, s)
  {
    RunKeeps(rs, from);
  }

  /** Retirement is exact and permanent: the retired keys are the generations and
      sessions that were left, none of them is stored again, and the set stays
      within one step of its limit. */
  lemma RetirementIsExact(rs: seq<Read>, from: real)
    requires WellTimed(rs, from)
    ensures forall key :: key in Run(rs).cursor.retired <==> LeftKey(Run(rs).entries, key)
    ensures forall i, j, k :: 0 <= i < j < k < |Run(rs).entries| ==>
              Kept(Run(rs).entries[i].snap, Run(rs).entries[j].snap, Run(rs).entries[k].snap)
    ensures |Run(rs).cursor.retired| <= 513
  {
    RunKeeps(rs, from);
    var h := Run(rs);
    forall key | LeftKey(h.entries, key) ensures key in h.cursor.retired {
      var i: nat :| i < |h.entries| && LeftBy(h.entries, i, key);
    }
    forall i, j, k | 0 <= i < j < k < |h.entries|
      ensures Kept(h.entries[i].snap, h.entries[j].snap, h.entries[k].snap)
    {
      KeptThroughout(h.entries, i, j, k);
    }
  }

  lemma {:induction false} KeptThroughout(es: seq<Entry>, i: nat, j: nat, k: nat)
    requires NoReturn(es) && i < j < k < |es|
    ensures Kept(es[i].snap, es[j].snap, es[k].snap)
    decreases k
  {
    assert Kept(es[i].snap, es[k - 1].snap, es[k].snap);
    if j < k - 1 {
      KeptThroughout(es, i, j, k - 1);
    }
  }

  predicate Spent(c: Cursor) {
    |c.retired| >= RETIRED_MAX && !c.live
  }

  lemma {:induction false} SpentForever(h: History, rs: seq<Read>)
    requires Spent(h.cursor)
    ensures Spent(RunFrom(h, rs).cursor)
    decreases rs
  {
    if rs != [] {
      SpentForever(After(h, rs[0]), rs[1..]);
    }
  }

  /** With a full retirement set the first further snapshot ends liveness for good. */
  lemma {:induction false} FullRetirementEndsLiveness(h: History, r: Read, rs: seq<Read>, now: real)
    requires |h.cursor.retired| >= RETIRED_MAX && r.doc.Some?
    ensures Current(RunFrom(After(h, r), rs).cursor, now).None?
  {
    SpentForever(After(h, r), rs);
  }

  /** Attaching works from any state: a session that was never left goes live on
      its second, strictly newer, active and named snapshot, as long as that
      read ends before the evidence of the pair runs out. */
  lemma AttachGoesLive(c: Cursor, first: Read, second: Read)
    requires first.doc.Some? && second.doc.Some?
    requires var a, b := first.doc.value, second.doc.value;
             && !SameSession(c.snapshot, a) && |c.retired| + 2 < RETIRED_MAX
             && Generation(a) !in c.retired && SessionKey(a.sessionId) !in c.retired
             && Generation(b) == Generation(a) && a.sequence < b.sequence
             && b.state == Active && Named(b)
             && (a.observationSequence < b.observationSequence || SameEvidence(a, b))
             && second.finished < second.started + OBSERVATION_MS - b.observationAgeMs
             && second.finished < second.started + ADVANCE_MS
             && (a.observationSequence == b.observationSequence ==>
                   second.finished < first.started + OBSERVATION_MS - a.observationAgeMs)
    ensures var c1 := Accept(c, first.doc, first.started, first.finished);
            && Current(c1, first.finished).None?
            && Current(Accept(c1, second.doc, second.started, second.finished), second.finished) == second.doc
  {
    var a := first.doc.value;
    assert |Leaving(c.snapshot, a)| <= 2;
    var c1 := Accept(c, first.doc, first.started, first.finished);
    assert c1 == Store(c, a, first.started, first.finished);
  }

}
