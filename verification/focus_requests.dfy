/** What becomes of every request, and of the output of helpers already given up. */
module FocusRequests {
  import opened Texts
  import opened FocusWorker

  // ----- every request is accounted for -----

  /** Answered by its own helper under its own number, or ended by a stop. */
  ghost predicate Resolved(acts: seq<Act>, i: nat) {
    exists k :: i < k < |acts| && Resolves(acts, i, k)
  }

  predicate Resolves(acts: seq<Act>, i: nat, k: nat) {
    && i < |acts| && k < |acts| && acts[i].Made?
    && (acts[k] == Answered(acts[i].child, acts[i].id) || acts[k].Stopped?)
  }

  /** Every request made is the pending one or resolved. */
  ghost predicate AllResolved(acts: seq<Act>, pending: Option<Pending>) {
    forall i: nat :: i < |acts| && acts[i].Made? ==> IsPending(acts[i], pending) || Resolved(acts, i)
  }

  predicate IsPending(a: Act, pending: Option<Pending>)
    requires a.Made?
  {
    pending.Some? && pending.value.id == a.id
  }

  /** Only requests that were made of a helper are answered by it. */
  predicate AnswersOwn(acts: seq<Act>) {
    forall i :: 0 <= i < |acts| && acts[i].Answered? ==> Made(acts[i].child, acts[i].id) in acts[..i]
  }

  /** Requests and helpers are numbered upwards. */
  predicate Counted(acts: seq<Act>, serial: nat, next: Child) {
    && (forall i :: 0 <= i < |acts| && acts[i].Made? ==> acts[i].id <= serial)
    && (forall i :: 0 <= i < |acts| && acts[i].Spawned? ==> acts[i].child < next)
  }

  /** The pending request was made of the helper at hand, and of no other. */
  predicate PendingHere(acts: seq<Act>, child: Option<Child>, pending: Option<Pending>) {
    pending.Some? ==>
      && child.Some? && Made(child.value, pending.value.id) in acts
      && forall i :: 0 <= i < |acts| && acts[i].Made? && acts[i].id == pending.value.id ==> acts[i].child == child.value
  }

  ghost predicate Accounted(w: Worker) {
    && AllResolved(w.acts, w.pending) && AnswersOwn(w.acts)
    && Counted(w.acts, w.serial, w.next) && PendingHere(w.acts, w.child, w.pending)
  }

  // ----- one more act -----

  lemma ResolvedStays(acts: seq<Act>, a: Act, i: nat)
    requires i < |acts| && Resolved(acts, i)
    ensures Resolved(acts + [a], i)
  {
    var k :| i < k < |acts| && Resolves(acts, i, k);
    assert Resolves(acts + [a], i, k);
  }

  lemma AnswersGrow(acts: seq<Act>, a: Act)
    requires AnswersOwn(acts) && (a.Answered? ==> Made(a.child, a.id) in acts)
    ensures AnswersOwn(acts + [a])
  {
    var more := acts + [a];
    forall i | 0 <= i < |more| && more[i].Answered? ensures Made(more[i].child, more[i].id) in more[..i] {
      if i < |acts| { assert more[..i] == acts[..i]; } else { assert more[..i] == acts; }
    }
  }

  /** An act that is no request resolves what it ends and unsettles nothing. */
  lemma ResolveGrows(acts: seq<Act>, a: Act, before: Option<Pending>, after: Option<Pending>)
    requires AllResolved(acts, before) && !a.Made?
    requires a.Stopped? || IdOf(after) == IdOf(before)
             || (a.Answered? && forall i: nat :: i < |acts| && acts[i].Made? && IsPending(acts[i], before) ==>
                                  a == Answered(acts[i].child, acts[i].id))
    ensures AllResolved(acts + [a], after)
  {
    var more := acts + [a];
    forall i: nat | i < |more| && more[i].Made? ensures IsPending(more[i], after) || Resolved(more, i) {
      if Resolved(acts, i) {
        ResolvedStays(acts, a, i);
      } else if a.Stopped? || IdOf(after) != IdOf(before) {
        assert Resolves(more, i, |acts|);
      }
    }
  }

  function IdOf(p: Option<Pending>): Option<nat> {
    if p.Some? then Some(p.value.id) else None
  }

  lemma RequestGrows(acts: seq<Act>, c: Child, p: Pending)
    requires AllResolved(acts, None)
    ensures AllResolved(acts + [Made(c, p.id)], Some(p))
  {
    var more := acts + [Made(c, p.id)];
    forall i: nat | i < |more| && more[i].Made? ensures IsPending(more[i], Some(p)) || Resolved(more, i) {
      if i < |acts| {
        assert acts[i].Made? && !IsPending(acts[i], None);
        ResolvedStays(acts, Made(c, p.id), i);
      }
    }
  }

  // ----- every step -----

  lemma StopAccounts(w: Worker, now: real, backoff: bool)
    requires Accounted(w)
    ensures Accounted(Stop(w, now, backoff))
  {
    ResolveGrows(w.acts, Stopped(now, backoff), w.pending, None);
    AnswersGrow(w.acts, Stopped(now, backoff));
  }

  lemma StartAccounts(w: Worker, spawns: bool, now: real)
    requires Accounted(w) && w.pending == None
    ensures Accounted(StartIt(w, spawns, now)) && StartIt(w, spawns, now).pending == None
  {
    var a := if spawns then Spawned(w.next, now) else SpawnFailed(now);
    ResolveGrows(w.acts, a, None, None);
    AnswersGrow(w.acts, a);
  }

  lemma WriteAccounts(w: Worker)
    requires Accounted(w) && w.child.Some? && w.pending.Some?
    ensures Accounted(Put(w, Wrote(w.child.value, w.pending.value.id))
                      .(pending := Some(w.pending.value.(sent := true))))
  {
    var a := Wrote(w.child.value, w.pending.value.id);
    ResolveGrows(w.acts, a, w.pending, Some(w.pending.value.(sent := true)));
    AnswersGrow(w.acts, a);
  }

  lemma FlushAccounts(w: Worker, writes: bool, now: real)
    requires Accounted(w)
    ensures Accounted(Flush(w, writes, now))
  {
    if w.ready && w.pending.Some? && !w.pending.value.sent && w.child.Some? {
      if writes { WriteAccounts(w); } else { StopAccounts(w, now, true); }
    }
  }

  lemma AskedAccounts(w: Worker, now: real)
    requires Accounted(w) && w.pending == None && w.child.Some?
    ensures Accounted(Asked(w, now))
  {
    var p := Pending(w.serial + 1, now, false);
    RequestGrows(w.acts, w.child.value, p);
    AnswersGrow(w.acts, Made(w.child.value, p.id));
    assert Asked(w, now).acts[|w.acts|] == Made(w.child.value, p.id);
  }

  lemma CancelAccounts(w: Worker, now: real)
    requires Accounted(w)
    ensures Accounted(CancelIt(w, now)) && CancelIt(w, now).pending == None
  {
    if w.pending.Some? { StopAccounts(w, now, false); }
  }

  lemma RequestAccounts(w: Worker, spawns: bool, writes: bool, now: real)
    requires Accounted(w)
    ensures Accounted(RequestIt(w, spawns, writes, now))
  {
    if !w.closed {
      CancelAccounts(w, now);
      StartAccounts(CancelIt(w, now), spawns, now);
      var started := StartIt(CancelIt(w, now), spawns, now);
      if started.child.Some? {
        AskedAccounts(started, now);
        FlushAccounts(Asked(started, now), writes, now);
      }
    }
  }

  lemma AnswerAccounts(w: Worker, c: Child)
    requires Accounted(w) && w.pending.Some? && w.child == Some(c)
    ensures Accounted(Put(w, Answered(c, w.pending.value.id)).(pending := None))
  {
    var a := Answered(c, w.pending.value.id);
    ResolveGrows(w.acts, a, w.pending, None);
    AnswersGrow(w.acts, a);
  }

  lemma LineAccounts(w: Worker, c: Child, l: Line, writes: bool, now: real)
    requires Accounted(w) && (w.child.Some? ==> w.child == Some(c))
    ensures var next := OnLine(w, c, l, writes, now);
            Accounted(next) && (next.child.Some? ==> next.child == Some(c))
  {
    match l {
      case Ready => FlushAccounts(w.(ready := true), writes, now);
      case Done(id) => if w.pending.Some? && w.pending.value.id == id { AnswerAccounts(w, c); }
      case Noise =>
    }
  }

  lemma {:induction false} LinesAccount(w: Worker, c: Child, ls: seq<Line>, writes: bool, now: real)
    requires Accounted(w) && (w.child.Some? ==> w.child == Some(c))
    ensures Accounted(OnLines(w, c, ls, writes, now))
    decreases ls
  {
    if ls != [] {
      LineAccounts(w, c, ls[0], writes, now);
      LinesAccount(OnLine(w, c, ls[0], writes, now), c, ls[1..], writes, now);
    }
  }

  lemma StartAnywhereAccounts(w: Worker, spawns: bool, now: real)
    requires Accounted(w)
    ensures Accounted(StartIt(w, spawns, now))
  {
    if w.child.None? {
      assert w.pending == None;
      StartAccounts(w, spawns, now);
    }
  }

  lemma StepAccounts(w: Worker, e: WorkEvent)
    requires Accounted(w)
    ensures Accounted(StepWorker(w, e))
  {
    match e {
      case Start(spawns, t) => StartAnywhereAccounts(w, spawns, t);
      case Request(spawns, writes, t) => RequestAccounts(w, spawns, writes, t);
      case Data(c, tooLong, ls, writes, t) =>
        if w.child == Some(c) {
          StopAccounts(w, t, true);
          LinesAccount(w, c, ls, writes, t);
        }
      case Dispose(t) =>
        ResolveGrows(w.acts, Disposed, w.pending, w.pending);
        AnswersGrow(w.acts, Disposed);
        StopAccounts(Put(w, Disposed).(closed := true), t, false);
      case Cancel(t) => CancelAccounts(w, t);
      case _ => StopAccounts(w, e.now, true);
    }
  }

  lemma {:induction false} RunAccounts(w: Worker, es: seq<WorkEvent>)
    requires Accounted(w)
    ensures Accounted(RunWorker(w, es))
    decreases es
  {
    if es != [] {
      StepAccounts(w, es[0]);
      RunAccounts(StepWorker(w, es[0]), es[1..]);
    }
  }

  /** Over every run each request ends only by an answer of its own helper under
      its own number or by a stop, and until then it is the pending one; a helper
      answers nothing that was not asked of it. */
  lemma {:induction false} RequestsAreAccounted(es: seq<WorkEvent>)
    ensures var w := RunWorker(NEW, es);
            AllResolved(w.acts, w.pending) && AnswersOwn(w.acts)
  {
    RunAccounts(NEW, es);
  }

  // ----- helpers given up -----

  /** The event comes from helper c. */
  predicate ComesFrom(e: WorkEvent, c: Child) {
    match e
    case Data(child, _, _, _, _) => child == c
    case StartupTimeout(child, _) => child == c
    case Ended(child, _) => child == c
    case _ => false
  }

  function Without(es: seq<WorkEvent>, c: Child): seq<WorkEvent> {
    if es == [] then []
    else (if ComesFrom(es[0], c) then [] else [es[0]]) + Without(es[1..], c)
  }

  /** Helper c is one of the past. */
  predicate Former(w: Worker, c: Child) {
    c < w.next && w.child != Some(c)
  }

  lemma {:induction false} LinesKeepFormer(w: Worker, d: Child, ls: seq<Line>, writes: bool, now: real, c: Child)
    requires Former(w, c)
    ensures Former(OnLines(w, d, ls, writes, now), c)
    decreases ls
  {
    if ls != [] { LinesKeepFormer(OnLine(w, d, ls[0], writes, now), d, ls[1..], writes, now, c); }
  }

  lemma StepKeepsFormer(w: Worker, e: WorkEvent, c: Child)
    requires Former(w, c)
    ensures Former(StepWorker(w, e), c)
  {
    if e.Data? { LinesKeepFormer(w, e.child, e.lines, e.writes, e.now, c); }
  }

  lemma {:induction false} FormerRunsAlike(w: Worker, es: seq<WorkEvent>, c: Child)
    requires Former(w, c)
    ensures RunWorker(w, es) == RunWorker(w, Without(es, c))
    decreases es
  {
    if es != [] {
      var rest := Without(es[1..], c);
      StepKeepsFormer(w, es[0], c);
      FormerRunsAlike(StepWorker(w, es[0]), es[1..], c);
      if ComesFrom(es[0], c) {
        assert Without(es, c) == rest;
      } else {
        assert Without(es, c)[0] == es[0] && Without(es, c)[1..] == rest;
      }
    }
  }

  /** Once a helper was given up, nothing it prints, and neither its start-up
      timer nor its end, makes any difference to the rest of any run: the run goes
      as if they had never come. */
  lemma {:induction false} FormerHelpersAreMute(first: seq<WorkEvent>, es: seq<WorkEvent>, c: Child, at: real)
    requires Spawned(c, at) in RunWorker(NEW, first).acts && RunWorker(NEW, first).child != Some(c)
    ensures RunWorker(RunWorker(NEW, first), es) == RunWorker(RunWorker(NEW, first), Without(es, c))
  {
    RunAccounts(NEW, first);
    FormerRunsAlike(RunWorker(NEW, first), es, c);
  }
}
