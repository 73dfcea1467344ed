/** When a focus request is served: which helper takes it, when it is written, and
    what puts the helper away. */
module FocusExact {
  import opened Texts
  import opened FocusWorker

  predicate Failure(a: Act) {
    a.SpawnFailed? || (a.Stopped? && a.backoff)
  }

  /** No failure is younger than the back-off. */
  predicate Rested(acts: seq<Act>, now: real) {
    forall i :: 0 <= i < |acts| ==> Old(acts[i], now)
  }

  predicate Old(a: Act, now: real) {
    Failure(a) ==> a.at + 5000.0 <= now
  }

  /** The back-off is that of some failure, or there was none. */
  predicate BackedBy(acts: seq<Act>, retryAt: real) {
    retryAt == 0.0 || exists i :: 0 <= i < |acts| && Backs(acts[i], retryAt)
  }

  predicate Backs(a: Act, retryAt: real) {
    Failure(a) && a.at + 5000.0 == retryAt
  }

  /** A helper that is ready has been sent what is pending, and what was sent was
      written to it. */
  predicate Prompt(w: Worker) {
    w.pending.Some? ==>
      && (w.ready ==> w.pending.value.sent)
      && (w.pending.value.sent ==> w.child.Some? && Wrote(w.child.value, w.pending.value.id) in w.acts)
  }

  predicate Kept(w: Worker) {
    && Prompt(w) && BackedBy(w.acts, w.retryAt)
    && (w.closed <==> Disposed in w.acts)
    && (w.pending.Some? ==> w.child.Some?)
  }

  lemma BackedGrows(acts: seq<Act>, a: Act, before: real, after: real)
    requires BackedBy(acts, before)
    requires after == before || Backs(a, after)
    ensures BackedBy(acts + [a], after)
  {
    var more := acts + [a];
    if after == before && before != 0.0 {
      var i :| 0 <= i < |acts| && Backs(acts[i], before);
      assert Backs(more[i], after);
    } else if after != 0.0 {
      assert Backs(more[|acts|], after);
    }
  }

  lemma StopKept(w: Worker, now: real, backoff: bool)
    requires Kept(w)
    ensures Kept(Stop(w, now, backoff))
  {
    BackedGrows(w.acts, Stopped(now, backoff), w.retryAt, Stop(w, now, backoff).retryAt);
  }

  lemma StartKept(w: Worker, spawns: bool, now: real)
    requires Kept(w) && w.pending.None?
    ensures Kept(StartIt(w, spawns, now)) && StartIt(w, spawns, now).pending.None?
  {
    BackedGrows(w.acts, Spawned(w.next, now), w.retryAt, w.retryAt);
    BackedGrows(w.acts, SpawnFailed(now), w.retryAt, now + BACKOFF_MS);
  }

  lemma FlushKept(w: Worker, writes: bool, now: real)
    requires BackedBy(w.acts, w.retryAt) && (w.closed <==> Disposed in w.acts)
    requires w.pending.Some? ==> w.child.Some?
    requires w.pending.Some? && w.pending.value.sent ==> Wrote(w.child.value, w.pending.value.id) in w.acts
    ensures Kept(Flush(w, writes, now))
  {
    if w.pending.Some? && w.child.Some? {
      BackedGrows(w.acts, Wrote(w.child.value, w.pending.value.id), w.retryAt, w.retryAt);
      BackedGrows(w.acts, Stopped(now, true), w.retryAt, now + BACKOFF_MS);
    }
  }

  lemma AskKept(w: Worker, writes: bool, now: real)
    requires Kept(w) && w.pending.None?
    ensures Kept(AskIt(w, writes, now))
  {
    if w.child.Some? {
      BackedGrows(w.acts, Made(w.child.value, w.serial + 1), w.retryAt, w.retryAt);
      FlushKept(Asked(w, now), writes, now);
    }
  }

  lemma LineKept(w: Worker, c: Child, l: Line, writes: bool, now: real)
    requires Kept(w)
    ensures Kept(OnLine(w, c, l, writes, now))
  {
    match l {
      case Ready => FlushKept(w.(ready := true), writes, now);
      case Done(id) => BackedGrows(w.acts, Answered(c, id), w.retryAt, w.retryAt);
      case Noise =>
    }
  }

  lemma {:induction false} LinesKept(w: Worker, c: Child, ls: seq<Line>, writes: bool, now: real)
    requires Kept(w)
    ensures Kept(OnLines(w, c, ls, writes, now))
    decreases ls
  {
    if ls != [] {
      LineKept(w, c, ls[0], writes, now);
      LinesKept(OnLine(w, c, ls[0], writes, now), c, ls[1..], writes, now);
    }
  }

  lemma RequestKept(w: Worker, spawns: bool, writes: bool, now: real)
    requires Kept(w)
    ensures Kept(RequestIt(w, spawns, writes, now))
  {
    StopKept(w, now, false);
    StartKept(CancelIt(w, now), spawns, now);
    AskKept(StartIt(CancelIt(w, now), spawns, now), writes, now);
  }

  lemma DisposeKept(w: Worker, now: real)
    requires Kept(w)
    ensures Kept(StepWorker(w, Dispose(now)))
  {
    var said := Put(w, Disposed);
    BackedGrows(w.acts, Disposed, w.retryAt, w.retryAt);
    BackedGrows(said.acts, Stopped(now, false), w.retryAt, w.retryAt);
    assert Disposed == said.acts[|w.acts|] && Disposed == (said.acts + [Stopped(now, false)])[|w.acts|];
  }

  lemma SpareStartKept(w: Worker, spawns: bool, now: real)
    requires Kept(w)
    ensures Kept(StartIt(w, spawns, now))
  {
    if w.child.None? { StartKept(w, spawns, now); }
  }

  lemma StepKept(w: Worker, e: WorkEvent)
    requires Kept(w)
    ensures Kept(StepWorker(w, e))
  {
    match e {
      case Start(spawns, now) => SpareStartKept(w, spawns, now);
      case Request(spawns, writes, now) => RequestKept(w, spawns, writes, now);
      case Data(c, _, ls, writes, now) =>
        StopKept(w, now, true);
        LinesKept(w, c, ls, writes, now);
      case StartupTimeout(_, now) => StopKept(w, now, true);
      case Ended(_, now) => StopKept(w, now, true);
      case RequestTimeout(_, now) => StopKept(w, now, true);
      case Cancel(now) => StopKept(w, now, false);
      case Dispose(now) => DisposeKept(w, now);
    }
  }

  lemma {:induction false} RunKept(w: Worker, es: seq<WorkEvent>)
    requires Kept(w)
    ensures Kept(RunWorker(w, es))
    decreases es
  {
    if es != [] {
      StepKept(w, es[0]);
      RunKept(StepWorker(w, es[0]), es[1..]);
    }
  }

  /** In every run a helper that has said it is ready was at once sent the request
      pending, and what counts as sent was written to it. */
  lemma ReadyMeansSent(es: seq<WorkEvent>)
    ensures Prompt(RunWorker(NEW, es))
  {
    RunKept(NEW, es);
  }

  lemma {:induction false} RunTimely(w: Worker, es: seq<WorkEvent>, from: real)
    requires WorkerOk(w, from) && Timely(es, from)
    ensures WorkerOk(RunWorker(w, es), EndOf(es, from)) && from <= EndOf(es, from)
    decreases es
  {
    if es != [] {
      StepWorkerKeeps(w, es[0], from);
      RunTimely(StepWorker(w, es[0]), es[1..], es[0].now);
    }
  }

  function EndOf(es: seq<WorkEvent>, from: real): real {
    if es == [] then from else es[|es| - 1].now
  }

  /** The helper a request finds or starts: the one at hand unless it still owes an
      answer, else a new one if it can be spawned and no failure is too young. */
  predicate Servable(w: Worker, spawns: bool, now: real) {
    && Disposed !in w.acts
    && ((w.child.Some? && w.pending.None?) || (spawns && Rested(w.acts, now)))
  }

  /** What a request leads to with helper c: written at once exactly if c is ready. */
  predicate Served(w: Worker, next: Worker, c: Child, writes: bool, now: real) {
    var id := w.serial + 1;
    if w.child == Some(c) && w.ready then
      if writes
      then && next.child == Some(c) && next.pending == Some(Pending(id, now, true))
           && next.acts == w.acts + [Made(c, id), Wrote(c, id)]
      else next.child.None? && next.acts == w.acts + [Made(c, id), Stopped(now, true)]
    else
      && next.child == Some(c) && next.pending == Some(Pending(id, now, false))
      && next.acts != [] && next.acts[|next.acts| - 1] == Made(c, id)
  }

  lemma RestedMeans(w: Worker, now: real)
    requires Kept(w) && WorkerOk(w, now) && 0.0 <= now
    ensures w.retryAt <= now <==> Rested(w.acts, now)
  {
    if w.retryAt <= now {
      forall i | 0 <= i < |w.acts| ensures Old(w.acts[i], now) { }
    } else {
      var i :| 0 <= i < |w.acts| && Backs(w.acts[i], w.retryAt);
      assert !Old(w.acts[i], now);
    }
  }

  lemma HandServes(w: Worker, spawns: bool, writes: bool, now: real)
    requires !w.closed && w.child.Some? && w.pending.None?
    ensures Served(w, RequestIt(w, spawns, writes, now), w.child.value, writes, now)
  {
  }

  lemma NewServes(w: Worker, writes: bool, now: real)
    requires !w.closed && (w.child.None? || w.pending.Some?) && w.retryAt <= now && Kept(w)
    requires w.child.Some? ==> w.child.value < w.next
    ensures Served(w, RequestIt(w, true, writes, now), w.next, writes, now)
  {
    var free := CancelIt(w, now);
    var started := StartIt(free, true, now);
    assert free.child.None? && started.child == Some(w.next) && !started.ready && started.serial == w.serial;
    assert AskIt(started, writes, now) == Asked(started, now);
  }

  lemma NoneServes(w: Worker, spawns: bool, writes: bool, now: real)
    requires w.closed || ((w.child.None? || w.pending.Some?) && !(spawns && w.retryAt <= now))
    ensures var next := RequestIt(w, spawns, writes, now);
            next.serial == w.serial && forall a :: a in next.acts && a.Made? ==> a in w.acts
  {
  }

  /** A request is made of a helper exactly when there is one or can be one. It goes
      to the helper at hand if that owes nothing, and to a new one otherwise; it is
      written at once exactly to a helper that is ready. */
  lemma RequestServedExactly(es: seq<WorkEvent>, from: real, spawns: bool, writes: bool, now: real)
    requires Timely(es, from) && 0.0 <= from && EndOf(es, from) <= now
    ensures var (w, next) := (RunWorker(NEW, es), RequestIt(RunWorker(NEW, es), spawns, writes, now));
            var c := if w.child.Some? && w.pending.None? then w.child.value else w.next;
            && (Servable(w, spawns, now) ==> Served(w, next, c, writes, now))
            && (!Servable(w, spawns, now) ==> forall a :: a in next.acts && a.Made? ==> a in w.acts)
  {
    var w := RunWorker(NEW, es);
    RunKept(NEW, es);
    assert WorkerOk(NEW, from);
    RunTimely(NEW, es, from);
    LaterOk(w, EndOf(es, from), now);
    RestedMeans(w, now);
    if !Servable(w, spawns, now) {
      NoneServes(w, spawns, writes, now);
    } else if w.child.Some? && w.pending.None? {
      HandServes(w, spawns, writes, now);
    } else {
      NewServes(w, writes, now);
    }
  }

  lemma LaterOk(w: Worker, now: real, later: real)
    requires WorkerOk(w, now) && now <= later
    ensures WorkerOk(w, later)
  {
  }

  /** What puts a helper away: it does not get ready, ends, talks too much or leaves
      a request unanswered. Then nothing is pending and the back-off begins. A
      newer request or a cancellation puts away only a helper that owes an answer,
      without a back-off. */
  lemma PutAwayExactly(w: Worker, e: WorkEvent)
    requires e.StartupTimeout? || e.Ended? || e.RequestTimeout? || e.Cancel? || (e.Data? && e.tooLong)
    ensures var next := StepWorker(w, e);
            var strikes := match e
              case StartupTimeout(c, _) => w.child == Some(c) && !w.ready
              case Ended(c, _) => w.child == Some(c)
              case Data(c, _, _, _, _) => w.child == Some(c)
              case RequestTimeout(id, _) => w.pending.Some? && w.pending.value.id == id
              case _ => w.pending.Some?;
            if strikes
            then && next.child.None? && next.pending.None?
                 && next.acts == w.acts + [Stopped(e.now, !e.Cancel?)]
            else next == w
  {
  }

  /** An answer under the pending number ends the request and leaves the helper
      where it is; any other line but the first greeting changes nothing. */
  lemma AnswerEnds(w: Worker, c: Child, l: Line, writes: bool, now: real)
    requires w.child == Some(c) && !l.Ready?
    ensures var next := StepWorker(w, Data(c, false, [l], writes, now));
            if l.Done? && w.pending.Some? && w.pending.value.id == l.id
            then && next.child == w.child && next.ready == w.ready && next.pending.None?
                 && next.acts == w.acts + [Answered(c, l.id)]
            else next == w
  {
    assert [l][1..] == [];
    assert OnLines(OnLine(w, c, l, writes, now), c, [], writes, now) == OnLine(w, c, l, writes, now);
  }
}
