/** Bringing a compositor rule to the desired state with one helper at a time,
    a queued recheck and a backed-off retry. */
module Reconcile {
  import opened Texts

  const RETRY_DELAYS_MS: seq<nat> := [2500, 5000, 10000, 30000, 60000]

  /** What the protocol does to the outside. */
  datatype Act = Launch(target: bool) | Schedule(target: bool, delay: nat) | Cancel

  /** flight and retry hold what the helper in flight attempts and what the
      retry timer is for. */
  datatype Sync = Sync(
    desired: Option<bool>,
    applied: Option<bool>,
    flight: Option<bool>,
    queued: bool,
    retry: Option<bool>,
    failures: nat,
    acts: seq<Act>)

  const START: Sync := Sync(None, None, None, false, None, 0, [])

  // ----- specification -----

  function ClearRetry(s: Sync): Sync {
    s.(retry := None, failures := 0, acts := s.acts + [Cancel])
  }

  function DelayFor(failures: nat): nat {
    RETRY_DELAYS_MS[if failures < 5 then failures else 4]
  }

  function ScheduleRetry(s: Sync, attempted: bool): Sync {
    if s.retry.Some? || s.desired != Some(attempted) then s else
    s.(failures := s.failures + 1, retry := Some(attempted),
       acts := s.acts + [Schedule(attempted, DelayFor(s.failures))])
  }

  /** A request. want is what the inputs of the moment ask for: the game runs and
      the overlay is known to share its display. */
  function Ask(s: Sync, want: bool): Sync {
    var d := s.(desired := Some(want));
    if d.flight.Some? then d.(queued := true)
    else if d.applied == Some(want) then ClearRetry(d)
    else
      // A timer set for the other state is of no use any more.
      var p := if d.retry.Some? && d.retry != Some(want) then ClearRetry(d) else d;
      if p.retry.Some? then p
      else p.(flight := Some(want), acts := p.acts + [Launch(want)])
  }

  /** The helper in flight ends; want is what a recheck would derive now. */
  function Done(s: Sync, success: bool, want: bool): Sync {
    if s.flight.None? then s else
    var attempted := s.flight.value;
    var f := s.(applied := if success then Some(attempted) else s.applied, flight := None);
    if s.desired != Some(attempted) || s.queued then Ask(f.(queued := false), want)
    else if success then ClearRetry(f)
    else ScheduleRetry(f, attempted)
  }

  function TimerFires(s: Sync, want: bool): Sync {
    if s.retry.None? then s else Ask(s.(retry := None), want)
  }

  datatype SyncEvent = Asked(want: bool) | Finished(success: bool, want: bool) | Timer(want: bool)

  function StepSync(s: Sync, e: SyncEvent): Sync {
    match e
    case Asked(want) => Ask(s, want)
    case Finished(success, want) => Done(s, success, want)
    case Timer(want) => TimerFires(s, want)
  }

  function RunSync(s: Sync, es: seq<SyncEvent>): Sync
    decreases es
  {
    if es == [] then s else RunSync(StepSync(s, es[0]), es[1..])
  }

  // ----- the invariant -----

  /** Retries scheduled among the first n acts, since the last cancellation. */
  function ScheduledBefore(acts: seq<Act>, n: nat): nat
    requires n <= |acts|
  {
    if n == 0 || acts[n - 1].Cancel? then 0
    else ScheduledBefore(acts, n - 1) + (if acts[n - 1].Schedule? then 1 else 0)
  }

  /** Every delay is the one due after that many retries in a row. */
  predicate BacksOff(acts: seq<Act>) {
    forall i :: 0 <= i < |acts| ==> DelayOk(acts, i)
  }

  predicate DelayOk(acts: seq<Act>, i: nat)
    requires i < |acts|
  {
    acts[i].Schedule? ==> acts[i].delay == DueAfter(ScheduledBefore(acts, i))
  }

  /** What the next attempt waits for after that many retries in a row. */
  function DueAfter(retries: nat): nat {
    match retries
    case 0 => 2500
    case 1 => 5000
    case 2 => 10000
    case 3 => 30000
    case _ => 60000
  }

  predicate Logged(acts: seq<Act>, failures: nat) {
    failures == ScheduledBefore(acts, |acts|) && BacksOff(acts)
  }

  /** Flight, queue, retry and agreement fit together. */
  predicate SyncOk(s: Sync) {
    && (s.flight.Some? ==> s.retry.None? && s.desired.Some? && s.applied != s.flight)
    && (s.retry.Some? ==> s.retry == s.desired && s.applied != s.desired)
    && (s.queued ==> s.flight.Some?)
    && (s.flight.None? && s.retry.None? ==> s.applied == s.desired)
    && (s.flight.Some? && s.desired != s.flight ==> s.queued)
  }

  lemma {:induction false} RunSyncKeeps(s: Sync, es: seq<SyncEvent>)
    requires SyncOk(s)
    ensures SyncOk(RunSync(s, es))
    decreases es
  {
    if es != [] {
      RunSyncKeeps(StepSync(s, es[0]), es[1..]);
    }
  }

  // ----- the delays -----

  lemma {:induction false} CountKept(acts: seq<Act>, a: Act, n: nat)
    requires n <= |acts|
    ensures ScheduledBefore(acts + [a], n) == ScheduledBefore(acts, n)
    decreases n
  {
    if n > 0 { CountKept(acts, a, n - 1); }
  }

  lemma ActGrows(acts: seq<Act>, failures: nat, a: Act)
    requires Logged(acts, failures) && (a.Schedule? ==> a.delay == DueAfter(failures))
    ensures Logged(acts + [a], if a.Cancel? then 0 else failures + (if a.Schedule? then 1 else 0))
  {
    var more := acts + [a];
    CountKept(acts, a, |acts|);
    forall i: nat | i < |more| ensures DelayOk(more, i) {
      CountKept(acts, a, i);
      if i < |acts| { assert DelayOk(acts, i); }
    }
  }

  lemma AskLogged(s: Sync, want: bool)
    requires Logged(s.acts, s.failures)
    ensures Logged(Ask(s, want).acts, Ask(s, want).failures)
  {
    ActGrows(s.acts, s.failures, Cancel);
    ActGrows(s.acts, s.failures, Launch(want));
    ActGrows(s.acts + [Cancel], 0, Launch(want));
  }

  lemma ScheduleLogged(s: Sync, attempted: bool)
    requires Logged(s.acts, s.failures)
    ensures Logged(ScheduleRetry(s, attempted).acts, ScheduleRetry(s, attempted).failures)
  {
    ActGrows(s.acts, s.failures, Schedule(attempted, DelayFor(s.failures)));
  }

  lemma ClearLogged(s: Sync)
    requires Logged(s.acts, s.failures)
    ensures Logged(ClearRetry(s).acts, ClearRetry(s).failures)
  {
    ActGrows(s.acts, s.failures, Cancel);
  }

  lemma DoneLogged(s: Sync, success: bool, want: bool)
    requires Logged(s.acts, s.failures)
    ensures Logged(Done(s, success, want).acts, Done(s, success, want).failures)
  {
    if s.flight.Some? {
      var f := s.(applied := if success then s.flight else s.applied, flight := None);
      if s.desired != s.flight || s.queued {
        AskLogged(f.(queued := false), want);
      } else if success {
        ClearLogged(f);
      } else {
        ScheduleLogged(f, s.flight.value);
      }
    }
  }

  lemma {:induction false} RunLogged(s: Sync, es: seq<SyncEvent>)
    requires Logged(s.acts, s.failures)
    ensures BacksOff(RunSync(s, es).acts)
    decreases es
  {
    if es != [] {
      match es[0] {
        case Asked(want) => AskLogged(s, want);
        case Finished(success, want) => DoneLogged(s, success, want);
        case Timer(want) => AskLogged(s.(retry := None), want);
      }
      RunLogged(StepSync(s, es[0]), es[1..]);
    }
  }

  // ----- what every run guarantees -----

  /** At most one of helper and retry is under way, a pending retry is for the
      desired state, with neither the applied state is the desired one, and the
      delays back off. */
  lemma ReconcileIsSound(es: seq<SyncEvent>)
    ensures var s := RunSync(START, es);
            && (s.flight.None? || s.retry.None?)
            && (s.retry.Some? ==> s.retry == s.desired && s.applied != s.desired)
            && (s.flight.None? && s.retry.None? ==> s.applied == s.desired)
            && BacksOff(s.acts)
  {
    RunSyncKeeps(START, es);
    RunLogged(START, es);
  }

  /** The applied state changes only to what a successful helper attempted. */
  lemma AppliedIsConfirmed(s: Sync, e: SyncEvent)
    ensures StepSync(s, e).applied
            == if e.Finished? && e.success && s.flight.Some? then s.flight else s.applied
  {
  }

  /** The comparison of desired and attempted never decides a recheck alone: a
      desired state that moved on during the flight was always queued. */
  lemma RecheckMeansQueued(es: seq<SyncEvent>)
    ensures var s := RunSync(START, es);
            s.flight.Some? && s.desired != s.flight ==> s.queued
  {
    RunSyncKeeps(START, es);
  }

  // ----- convergence -----

  predicate Settled(s: Sync, want: bool) {
    s.applied == Some(want) && s.desired == Some(want) && s.flight.None? && s.retry.None?
  }

  /** From here on every input says want and every helper succeeds. */
  predicate Steady(es: seq<SyncEvent>, want: bool) {
    forall i :: 0 <= i < |es| ==> es[i].want == want && (es[i].Finished? ==> es[i].success)
  }

  /** Completions of helpers that were in flight. */
  function Completions(s: Sync, es: seq<SyncEvent>): nat
    decreases es
  {
    if es == [] then 0 else
    (if es[0].Finished? && s.flight.Some? then 1 else 0) + Completions(StepSync(s, es[0]), es[1..])
  }

  /** How many successful completions are still missing. */
  function Missing(s: Sync, want: bool): nat {
    if Settled(s, want) then 0 else if s.flight == Some(!want) then 2 else 1
  }

  lemma SteadyStep(s: Sync, e: SyncEvent, want: bool)
    requires SyncOk(s) && s.desired == Some(want) && Steady([e], want)
    ensures var next := StepSync(s, e);
            && next.desired == Some(want)
            && Missing(next, want) <= Missing(s, want)
            && (e.Finished? && s.flight.Some? ==> Missing(next, want) == Missing(s, want) - 1)
  {
    assert [e][0] == e;
  }

  lemma {:induction false} SteadyRun(s: Sync, es: seq<SyncEvent>, want: bool)
    requires SyncOk(s) && s.desired == Some(want) && Steady(es, want)
    ensures Completions(s, es) <= Missing(s, want)
    ensures Missing(RunSync(s, es), want) <= Missing(s, want) - Completions(s, es)
    decreases es
  {
    if es != [] {
      assert Steady([es[0]], want);
      SteadyStep(s, es[0], want);
      SteadyRun(StepSync(s, es[0]), es[1..], want);
    }
  }

  /** Convergence: once a request has seen the final inputs and helpers succeed,
      two completions bring agreement, no run ever needs a third, and until there
      is agreement a helper or a retry is always under way. */
  lemma TwoCompletionsAgree(first: seq<SyncEvent>, want: bool, es: seq<SyncEvent>)
    requires Steady(es, want)
    ensures var s := StepSync(RunSync(START, first), Asked(want));
            var end := RunSync(s, es);
            && Completions(s, es) <= 2
            && (Completions(s, es) == 2 ==> Settled(end, want))
            && (end.flight.None? && end.retry.None? ==> Settled(end, want))
  {
    RunSyncKeeps(START, first);
    var s := StepSync(RunSync(START, first), Asked(want));
    SteadyRun(s, es, want);
    RunSyncKeeps(s, es);
    DesiredStays(s, es, want);
  }

  lemma {:induction false} DesiredStays(s: Sync, es: seq<SyncEvent>, want: bool)
    requires Steady(es, want) && s.desired == Some(want)
    ensures RunSync(s, es).desired == Some(want)
    decreases es
  {
    if es != [] {
      assert es[0].want == want;
      DesiredStays(StepSync(s, es[0]), es[1..], want);
    }
  }

  /** The bound is exact: a helper sent for the other state costs one more. */
  lemma TwoCanBeNeeded(want: bool)
    ensures var s := RunSync(START, [Asked(!want), Asked(want)]);
            && !Settled(RunSync(s, [Finished(true, want)]), want)
            && Settled(RunSync(s, [Finished(true, want), Finished(true, want)]), want)
  {
    var s1 := StepSync(START, Asked(!want));
    var s2 := StepSync(s1, Asked(want));
    assert RunSync(START, [Asked(!want), Asked(want)]) == s2 by {
      assert [Asked(!want), Asked(want)][1..] == [Asked(want)];
      assert RunSync(s2, []) == s2;
      assert RunSync(s1, [Asked(want)]) == s2;
    }
    var f := Finished(true, want);
    var s3 := StepSync(s2, f);
    assert RunSync(s3, []) == s3 && [f][1..] == [] && [f, f][1..] == [f];
    assert RunSync(StepSync(s3, f), []) == StepSync(s3, f);
    assert RunSync(s3, [f]) == StepSync(s3, f);
  }

  // ----- the variables and functions themselves -----

  class StackSync {
    var desired: Option<bool>
    var applied: Option<bool>
    var inFlight: bool
    var attempted: bool           // what the helper in flight captured
    var queued: bool
    var retryTimer: bool
    var retryTarget: Option<bool>
    var failureCount: nat
    ghost var acts: seq<Act>

    ghost predicate Valid()
      reads this
    {
      retryTimer <==> retryTarget.Some?
    }

    ghost function View(): Sync
      reads this
    {
      Sync(desired, applied, if inFlight then Some(attempted) else None, queued, retryTarget, failureCount, acts)
    }

    constructor ()
      ensures Valid() && View() == START
    {
      desired, applied, inFlight, attempted, queued := None, None, false, false, false;
      retryTimer, retryTarget, failureCount, acts := false, None, 0, [];
    }

    method Clear()
      requires Valid()
      modifies this
      ensures Valid() && View() == ClearRetry(old(View()))
    {
      retryTimer, retryTarget, failureCount := false, None, 0;
      acts := acts + [Cancel];
    }

    method ScheduleAgain(tried: bool)
      requires Valid()
      modifies this
      ensures Valid() && View() == ScheduleRetry(old(View()), tried)
    {
      if retryTimer || desired != Some(tried) { return; }
      var last := |RETRY_DELAYS_MS| - 1;
      var delay := RETRY_DELAYS_MS[if failureCount < last then failureCount else last];
      failureCount := failureCount + 1;
      retryTarget, retryTimer := Some(tried), true;
      acts := acts + [Schedule(tried, delay)];
    }

    method Prepare(want: bool) returns (free: bool)
      requires Valid()
      modifies this
      ensures Valid()
      ensures View() == var v := old(View()); if v.retry.Some? && v.retry != Some(want) then ClearRetry(v) else v
      ensures free == View().retry.None?
    {
      if retryTimer && Some(want) != retryTarget { Clear(); }
      return !retryTimer;
    }

    method Synchronise(want: bool)
      requires Valid()
      modifies this
      ensures Valid() && View() == Ask(old(View()), want)
    {
      desired := Some(want);
      if inFlight { queued := true; return; }
      if applied == Some(want) { Clear(); return; }
      var free := Prepare(want);
      if !free { return; }
      attempted, inFlight := want, true;
      acts := acts + [Launch(want)];
    }

    method OnDone(success: bool, want: bool)
      requires Valid() && inFlight
      modifies this
      ensures Valid() && View() == Done(old(View()), success, want)
    {
      var reconcile := desired != Some(attempted);
      if success { applied := Some(attempted); }
      inFlight := false;
      if reconcile || queued {
        queued := false;
        Synchronise(want);
      } else if success {
        Clear();
      } else {
        ScheduleAgain(attempted);
      }
    }

    method OnTimer(want: bool)
      requires Valid() && retryTimer
      modifies this
      ensures Valid() && View() == TimerFires(old(View()), want)
    {
      retryTimer, retryTarget := false, None;
      Synchronise(want);
    }
  }
}
