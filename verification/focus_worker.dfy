/** One helper process that takes focus commands: who may be spawned when, and
    which command may go to which process. */
module FocusWorker {
  import opened Texts

  const BACKOFF_MS: real := 5000.0

  type Child = nat

  datatype Pending = Pending(id: nat, at: real, sent: bool)

  /** One line of the helper's output. */
  datatype Line = Ready | Done(id: nat) | Noise

  /** Everything the worker does, in order. */
  datatype Act =
    | Spawned(child: Child, at: real)
    | SpawnFailed(at: real)
    | Made(child: Child, id: nat)        // a request, for this helper
    | Wrote(child: Child, id: nat)
    | Answered(child: Child, id: nat)
    | Stopped(at: real, backoff: bool)
    | Disposed

  datatype Worker = Worker(
    child: Option<Child>,
    ready: bool,
    pending: Option<Pending>,
    serial: nat,
    closed: bool,
    retryAt: real,
    next: Child,               // the number of the next helper
    acts: seq<Act>)

  const NEW: Worker := Worker(None, false, None, 0, false, 0.0, 0, [])

  datatype WorkEvent =
    | Start(spawns: bool, now: real)
    | Request(spawns: bool, writes: bool, now: real)
    | Data(child: Child, tooLong: bool, lines: seq<Line>, writes: bool, now: real)
    | StartupTimeout(child: Child, now: real)
    | Ended(child: Child, now: real)             // exit, error, or a broken pipe
    | RequestTimeout(id: nat, now: real)
    | Cancel(now: real)
    | Dispose(now: real)

  // ----- specification -----

  function Put(w: Worker, a: Act): Worker {
    w.(acts := w.acts + [a])
  }

  function Stop(w: Worker, now: real, backoff: bool): Worker {
    Put(w, Stopped(now, backoff)).(pending := None, ready := false, child := None,
                                   retryAt := if backoff then now + BACKOFF_MS else w.retryAt)
  }

  function StartIt(w: Worker, spawns: bool, now: real): Worker {
    if w.closed || w.child.Some? || now < w.retryAt then w
    else if !spawns then Put(w, SpawnFailed(now)).(retryAt := now + BACKOFF_MS)
    else Put(w, Spawned(w.next, now)).(child := Some(w.next), ready := false, next := w.next + 1)
  }

  function Flush(w: Worker, writes: bool, now: real): Worker {
    if !w.ready || w.pending.None? || w.pending.value.sent || w.child.None? then w
    else if writes then
      Put(w, Wrote(w.child.value, w.pending.value.id)).(pending := Some(w.pending.value.(sent := true)))
    else Stop(w, now, true)
  }

  function CancelIt(w: Worker, now: real): Worker {
    if w.pending.None? then w else Stop(w, now, false)
  }

  /** The request as it is before any write. */
  function Asked(w: Worker, now: real): Worker
    requires w.child.Some?
  {
    var id := w.serial + 1;
    Put(w, Made(w.child.value, id)).(serial := id, pending := Some(Pending(id, now, false)))
  }

  /** A new request for the helper at hand. */
  function AskIt(w: Worker, writes: bool, now: real): Worker {
    if w.child.None? then w else Flush(Asked(w, now), writes, now)
  }

  function RequestIt(w: Worker, spawns: bool, writes: bool, now: real): Worker {
    if w.closed then w else AskIt(StartIt(CancelIt(w, now), spawns, now), writes, now)
  }

  /** A line of helper c's output. */
  function OnLine(w: Worker, c: Child, l: Line, writes: bool, now: real): Worker {
    match l
    case Ready => Flush(w.(ready := true), writes, now)
    case Done(id) =>
      if w.pending.Some? && w.pending.value.id == id then Put(w, Answered(c, id)).(pending := None) else w
    case Noise => w
  }

  /** The loop goes on over the chunk even if a line stopped the worker. */
  function OnLines(w: Worker, c: Child, ls: seq<Line>, writes: bool, now: real): Worker
    decreases ls
  {
    if ls == [] then w else OnLines(OnLine(w, c, ls[0], writes, now), c, ls[1..], writes, now)
  }

  function StepWorker(w: Worker, e: WorkEvent): Worker {
    match e
    case Start(spawns, now) => StartIt(w, spawns, now)
    case Request(spawns, writes, now) => RequestIt(w, spawns, writes, now)
    case Data(c, tooLong, ls, writes, now) =>
      if w.child != Some(c) then w else if tooLong then Stop(w, now, true) else OnLines(w, c, ls, writes, now)
    case StartupTimeout(c, now) => if w.child == Some(c) && !w.ready then Stop(w, now, true) else w
    case Ended(c, now) => if w.child == Some(c) then Stop(w, now, true) else w
    case RequestTimeout(id, now) =>
      if w.pending.Some? && w.pending.value.id == id then Stop(w, now, true) else w
    case Cancel(now) => CancelIt(w, now)
    case Dispose(now) => Stop(Put(w, Disposed).(closed := true), now, false)
  }

  function RunWorker(w: Worker, es: seq<WorkEvent>): Worker
    decreases es
  {
    if es == [] then w else RunWorker(StepWorker(w, es[0]), es[1..])
  }

  predicate Timely(es: seq<WorkEvent>, from: real)
    decreases es
  {
    es != [] ==> from <= es[0].now && Timely(es[1..], es[0].now)
  }

  // ----- what the acts must show -----

  /** A spawn comes no sooner than the back-off after any earlier failure. */
  predicate SpawnsWait(acts: seq<Act>) {
    forall i, j :: 0 <= i < j < |acts| ==> WaitOk(acts[i], acts[j])
  }

  predicate WaitOk(a: Act, b: Act) {
    b.Spawned? && ((a.SpawnFailed?) || (a.Stopped? && a.backoff)) ==> a.at + BACKOFF_MS <= b.at
  }

  /** Nothing is spawned, requested or written after disposal. */
  predicate DisposedIsFinal(acts: seq<Act>) {
    forall i, j :: 0 <= i < j < |acts| && acts[i].Disposed? ==> !(acts[j].Spawned? || acts[j].Made? || acts[j].Wrote?)
  }

  /** A command goes only to the helper its request was made for, and is written
      at most once. */
  predicate WritesOwn(acts: seq<Act>) {
    && (forall j :: 0 <= j < |acts| && acts[j].Wrote? ==> Made(acts[j].child, acts[j].id) in acts[..j])
    && (forall i, j :: 0 <= i < j < |acts| && acts[i].Wrote? && acts[j].Wrote? ==> acts[i].id != acts[j].id)
  }

  /** A second command goes to a helper only after the first was answered. */
  predicate OneAtATime(acts: seq<Act>) {
    forall i, j :: 0 <= i < j < |acts| && acts[i].Wrote? && acts[j].Wrote? && acts[i].child == acts[j].child ==>
      Answered(acts[i].child, acts[i].id) in acts[..j]
  }

  predicate ActsOk(acts: seq<Act>) {
    SpawnsWait(acts) && DisposedIsFinal(acts) && WritesOwn(acts) && OneAtATime(acts)
  }

  // ----- the invariant -----

  /** Failures up to now are covered by the back-off time. */
  predicate Covered(acts: seq<Act>, retryAt: real, now: real) {
    && retryAt <= now + BACKOFF_MS
    && forall i :: 0 <= i < |acts| && (acts[i].SpawnFailed? || (acts[i].Stopped? && acts[i].backoff)) ==>
         acts[i].at + BACKOFF_MS <= retryAt
  }

  /** What was written to helper c is answered, or is the request pending. */
  predicate Outstanding(acts: seq<Act>, c: Child, pending: Option<Pending>) {
    forall i :: 0 <= i < |acts| && acts[i].Wrote? && acts[i].child == c ==>
      || Answered(c, acts[i].id) in acts
      || (pending.Some? && pending.value.sent && pending.value.id == acts[i].id)
  }

  predicate Numbered(acts: seq<Act>, serial: nat, next: Child) {
    forall i :: 0 <= i < |acts| && acts[i].Wrote? ==> acts[i].id <= serial && acts[i].child < next
  }

  predicate Undisposed(acts: seq<Act>) {
    forall i :: 0 <= i < |acts| ==> !acts[i].Disposed?
  }

  predicate WorkerOk(w: Worker, now: real) {
    && ActsOk(w.acts)
    && Covered(w.acts, w.retryAt, now)
    && Numbered(w.acts, w.serial, w.next)
    && (!w.closed ==> Undisposed(w.acts))
    && (w.closed ==> w.child.None?)
    && (w.child.Some? ==> w.child.value < w.next && Outstanding(w.acts, w.child.value, w.pending))
    && (w.pending.Some? ==> w.child.Some? && PendingOk(w.acts, w.child.value, w.pending.value, w.serial))
  }

  predicate PendingOk(acts: seq<Act>, c: Child, p: Pending, serial: nat) {
    && p.id <= serial && Made(c, p.id) in acts
    && (!p.sent ==> forall i :: 0 <= i < |acts| && acts[i].Wrote? ==> acts[i].id != p.id)
  }

  // ----- one more act -----

  predicate Harmless(a: Act) {
    a.SpawnFailed? || a.Answered? || a.Stopped? || a.Disposed?
  }

  lemma HarmlessGrows(acts: seq<Act>, a: Act)
    requires ActsOk(acts) && Harmless(a)
    ensures ActsOk(acts + [a])
  {
    KeptPrefixes(acts, a);
  }

  lemma KeptPrefixes(acts: seq<Act>, a: Act)
    ensures forall j :: 0 <= j <= |acts| ==> (acts + [a])[..j] == acts[..j]
  {
  }

  lemma SpawnGrows(acts: seq<Act>, c: Child, retryAt: real, now: real)
    requires ActsOk(acts) && Covered(acts, retryAt, now) && retryAt <= now
    requires Undisposed(acts)
    ensures ActsOk(acts + [Spawned(c, now)])
  {
    KeptPrefixes(acts, Spawned(c, now));
  }

  lemma MadeGrows(acts: seq<Act>, c: Child, id: nat)
    requires ActsOk(acts) && Undisposed(acts)
    ensures ActsOk(acts + [Made(c, id)])
  {
    KeptPrefixes(acts, Made(c, id));
  }

  lemma WroteGrows(acts: seq<Act>, c: Child, p: Pending, serial: nat)
    requires ActsOk(acts) && PendingOk(acts, c, p, serial) && !p.sent && Outstanding(acts, c, Some(p))
    requires Undisposed(acts)
    ensures ActsOk(acts + [Wrote(c, p.id)])
  {
    var more := acts + [Wrote(c, p.id)];
    KeptPrefixes(acts, Wrote(c, p.id));
    assert more[..|acts|] == acts;
    forall i, j | 0 <= i < j < |more| && more[i].Wrote? && more[j].Wrote? && more[i].child == more[j].child
      ensures Answered(more[i].child, more[i].id) in more[..j]
    {
      if j < |acts| { assert Answered(acts[i].child, acts[i].id) in acts[..j]; }
    }
  }

  // ----- every step keeps it -----

  lemma StopKeeps(w: Worker, now: real, later: real, backoff: bool)
    requires WorkerOk(w, now) && now <= later
    ensures WorkerOk(Stop(w, later, backoff), later)
  {
    HarmlessGrows(w.acts, Stopped(later, backoff));
  }

  lemma SpawnKeeps(w: Worker, now: real)
    requires WorkerOk(w, now) && !w.closed && w.child.None? && w.retryAt <= now
    ensures WorkerOk(Put(w, Spawned(w.next, now)).(child := Some(w.next), ready := false, next := w.next + 1), now)
  {
    SpawnGrows(w.acts, w.next, w.retryAt, now);
  }

  lemma StartKeeps(w: Worker, spawns: bool, now: real, later: real)
    requires WorkerOk(w, now) && now <= later
    ensures WorkerOk(StartIt(w, spawns, later), later)
    ensures w.pending.None? ==> StartIt(w, spawns, later).pending.None?
  {
    if !w.closed && w.child.None? && later >= w.retryAt {
      if spawns { SpawnKeeps(w, later); } else { HarmlessGrows(w.acts, SpawnFailed(later)); }
    }
  }

  lemma FlushKeeps(w: Worker, writes: bool, now: real)
    requires WorkerOk(w, now)
    ensures WorkerOk(Flush(w, writes, now), now)
  {
    if w.ready && w.pending.Some? && !w.pending.value.sent && w.child.Some? {
      if writes {
        WroteGrows(w.acts, w.child.value, w.pending.value, w.serial);
      } else {
        StopKeeps(w, now, now, true);
      }
    }
  }

  lemma MadeFrames(acts: seq<Act>, c: Child, serial: nat, next: Child, retryAt: real, now: real)
    requires Numbered(acts, serial, next) && Outstanding(acts, c, None)
    requires Covered(acts, retryAt, now) && Undisposed(acts)
    ensures var more := acts + [Made(c, serial + 1)];
            && Numbered(more, serial + 1, next) && Outstanding(more, c, None)
            && Covered(more, retryAt, now) && Undisposed(more)
            && PendingOk(more, c, Pending(serial + 1, now, false), serial + 1)
  {
    var more := acts + [Made(c, serial + 1)];
    assert more[|acts|] == Made(c, serial + 1);
    forall i | 0 <= i < |more| && more[i].Wrote? && more[i].child == c ensures Answered(c, more[i].id) in more {
      assert Answered(c, acts[i].id) in acts;
    }
  }

  lemma MadeKeeps(w: Worker, now: real)
    requires WorkerOk(w, now) && w.child.Some? && w.pending == None && !w.closed
    ensures WorkerOk(Asked(w, now), now)
  {
    var c, id := w.child.value, w.serial + 1;
    MadeGrows(w.acts, c, id);
    MadeFrames(w.acts, c, w.serial, w.next, w.retryAt, now);
  }

  lemma CancelKeeps(w: Worker, now: real, later: real)
    requires WorkerOk(w, now) && now <= later
    ensures WorkerOk(CancelIt(w, later), later) && CancelIt(w, later).pending.None?
  {
    StopKeeps(w, now, later, false);
  }

  lemma RequestKeeps(w: Worker, spawns: bool, writes: bool, now: real, later: real)
    requires WorkerOk(w, now) && now <= later
    ensures WorkerOk(RequestIt(w, spawns, writes, later), later)
  {
    if w.closed {
    } else {
      var free := CancelIt(w, later);
      CancelKeeps(w, now, later);
      StartKeeps(free, spawns, later, later);
      AskKeeps(StartIt(free, spawns, later), writes, later);
    }
  }

  lemma AskKeeps(w: Worker, writes: bool, now: real)
    requires WorkerOk(w, now) && w.pending.None?
    ensures WorkerOk(AskIt(w, writes, now), now)
  {
    if w.child.Some? {
      MadeKeeps(w, now);
      FlushKeeps(Asked(w, now), writes, now);
    }
  }

  lemma LineKeeps(w: Worker, c: Child, l: Line, writes: bool, now: real)
    requires WorkerOk(w, now) && (w.child.Some? ==> w.child == Some(c))
    ensures var next := OnLine(w, c, l, writes, now);
            WorkerOk(next, now) && (next.child.Some? ==> next.child == Some(c))
  {
    match l {
      case Ready => FlushKeeps(w.(ready := true), writes, now);
      case Done(id) => HarmlessGrows(w.acts, Answered(c, id));
      case Noise =>
    }
  }

  lemma {:induction false} LinesKeep(w: Worker, c: Child, ls: seq<Line>, writes: bool, now: real)
    requires WorkerOk(w, now) && (w.child.Some? ==> w.child == Some(c))
    ensures WorkerOk(OnLines(w, c, ls, writes, now), now)
    decreases ls
  {
    if ls != [] {
      LineKeeps(w, c, ls[0], writes, now);
      LinesKeep(OnLine(w, c, ls[0], writes, now), c, ls[1..], writes, now);
    }
  }

  lemma DisposeKeeps(w: Worker, now: real, later: real)
    requires WorkerOk(w, now) && now <= later
    ensures WorkerOk(StepWorker(w, Dispose(later)), later)
  {
    HarmlessGrows(w.acts, Disposed);
    HarmlessGrows(w.acts + [Disposed], Stopped(later, false));
  }

  lemma StepWorkerKeeps(w: Worker, e: WorkEvent, now: real)
    requires WorkerOk(w, now) && now <= e.now
    ensures WorkerOk(StepWorker(w, e), e.now)
  {
    match e {
      case Start(spawns, t) => StartKeeps(w, spawns, now, t);
      case Request(spawns, writes, t) => RequestKeeps(w, spawns, writes, now, t);
      case Data(c, tooLong, ls, writes, t) =>
        if w.child == Some(c) {
          StopKeeps(w, now, t, true);
          LinesKeep(w, c, ls, writes, t);
        }
      case Dispose(t) => DisposeKeeps(w, now, t);
      case Cancel(t) => StopKeeps(w, now, t, false);
      case StartupTimeout(c, t) => StopKeeps(w, now, t, true);
      case Ended(c, t) => StopKeeps(w, now, t, true);
      case RequestTimeout(id, t) => StopKeeps(w, now, t, true);
    }
  }

  lemma {:induction false} RunWorkerKeeps(w: Worker, es: seq<WorkEvent>, from: real)
    requires WorkerOk(w, from) && Timely(es, from)
    ensures exists end :: WorkerOk(RunWorker(w, es), end)
    decreases es
  {
    if es == [] {
      assert WorkerOk(RunWorker(w, es), from);
    } else {
      StepWorkerKeeps(w, es[0], from);
      RunWorkerKeeps(StepWorker(w, es[0]), es[1..], es[0].now);
      var end :| WorkerOk(RunWorker(StepWorker(w, es[0]), es[1..]), end);
      assert WorkerOk(RunWorker(w, es), end);
    }
  }

  // ----- what every run guarantees -----

  /** Over every run of requests, helper output, exits, timers and disposal: no
      spawn before its back-off or after disposal, each command written at most
      once and only to the helper its request was made for, no second command to
      a helper that has not answered the first, and a pending request always has
      its helper. */
  lemma CommandsAreSafe(es: seq<WorkEvent>, from: real)
    requires Timely(es, from) && 0.0 <= from
    ensures var w := RunWorker(NEW, es);
            && SpawnsWait(w.acts) && DisposedIsFinal(w.acts) && WritesOwn(w.acts) && OneAtATime(w.acts)
            && (w.pending.Some? ==> w.child.Some? && Made(w.child.value, w.pending.value.id) in w.acts)
  {
    assert WorkerOk(NEW, from);
    RunWorkerKeeps(NEW, es, from);
  }

  // ----- the object itself -----

  class WindowsFocusWorker {
    var child: Option<Child>
    var ready: bool
    var pending: Option<Pending>
    var serial: nat
    var closed: bool
    var retryAt: real
    var next: Child
    ghost var acts: seq<Act>

    ghost function View(): Worker
      reads this
    {
      Worker(child, ready, pending, serial, closed, retryAt, next, acts)
    }

    constructor ()
      ensures View() == NEW
    {
      child, ready, pending, serial, closed, retryAt, next, acts := None, false, None, 0, false, 0.0, 0, [];
    }

    method StopHelper(now: real, backoff: bool)
      modifies this
      ensures View() == Stop(old(View()), now, backoff)
    {
      pending, ready, child := None, false, None;
      if backoff { retryAt := now + BACKOFF_MS; }
      acts := acts + [Stopped(now, backoff)];
    }

    method StartHelper(spawns: bool, now: real)
      modifies this
      ensures View() == StartIt(old(View()), spawns, now)
    {
      if closed || child.Some? || now < retryAt { return; }
      if !spawns {
        retryAt, acts := now + BACKOFF_MS, acts + [SpawnFailed(now)];
        return;
      }
      acts := acts + [Spawned(next, now)];
      child, ready, next := Some(next), false, next + 1;
    }

    method FlushRequest(writes: bool, now: real)
      modifies this
      ensures View() == Flush(old(View()), writes, now)
    {
      if !ready || pending.None? || pending.value.sent || child.None? { return; }
      if writes {
        acts := acts + [Wrote(child.value, pending.value.id)];
        pending := Some(pending.value.(sent := true));
      } else {
        StopHelper(now, true);
      }
    }

    method CancelRequest(now: real)
      modifies this
      ensures View() == CancelIt(old(View()), now)
    {
      // The exact helper is retired: no queued command may act later.
      if pending.Some? { StopHelper(now, false); }
    }

    method MakeRequest(spawns: bool, writes: bool, now: real) returns (made: bool)
      modifies this
      ensures View() == RequestIt(old(View()), spawns, writes, now)
      ensures made ==> !old(closed)
    {
      if closed { return false; }
      CancelRequest(now);
      StartHelper(spawns, now);
      if child.None? { return false; }
      serial := serial + 1;
      pending := Some(Pending(serial, now, false));
      acts := acts + [Made(child.value, serial)];
      FlushRequest(writes, now);
      return true;
    }

    method OnOutput(c: Child, tooLong: bool, lines: seq<Line>, writes: bool, now: real)
      modifies this
      ensures View() == StepWorker(old(View()), Data(c, tooLong, lines, writes, now))
    {
      if child != Some(c) { return; }
      if tooLong { StopHelper(now, true); return; }
      var k := 0;
      while k < |lines|
        invariant k <= |lines|
        invariant OnLines(View(), c, lines[k..], writes, now) == OnLines(old(View()), c, lines, writes, now)
      {
        match lines[k] {
          case Ready =>
            ready := true;
            FlushRequest(writes, now);
          case Done(id) =>
            if pending.Some? && pending.value.id == id {
              pending, acts := None, acts + [Answered(c, id)];
            }
          case Noise =>
        }
        k := k + 1;
      }
    }

    method OnStartupTimeout(c: Child, now: real)
      modifies this
      ensures View() == StepWorker(old(View()), StartupTimeout(c, now))
    {
      if child == Some(c) && !ready { StopHelper(now, true); }
    }

    method OnEnded(c: Child, now: real)
      modifies this
      ensures View() == StepWorker(old(View()), Ended(c, now))
    {
      if child == Some(c) { StopHelper(now, true); }
    }

    method OnRequestTimeout(id: nat, now: real)
      modifies this
      ensures View() == StepWorker(old(View()), RequestTimeout(id, now))
    {
      if pending.Some? && pending.value.id == id { StopHelper(now, true); }
    }

    method DisposeHelper(now: real)
      modifies this
      ensures View() == StepWorker(old(View()), Dispose(now))
    {
      closed, acts := true, acts + [Disposed];
      StopHelper(now, false);
    }
  }
}
