/** The helpers of the reconciliation, told from the outside: what was launched,
    how each helper ended, and what the inputs asked for. */
module ReconcileHistory {
  import opened Texts
  import opened Reconcile

  /** What the helpers launched so far were launched for, in order. */
  function Targets(acts: seq<Act>): seq<bool> {
    if acts == [] then [] else
    var before, last := Targets(acts[..|acts| - 1]), acts[|acts| - 1];
    if last.Launch? then before + [last.target] else before
  }

  /** How the helpers ended, in order: an end counts while one is out. */
  function Answers(s: Sync, es: seq<SyncEvent>, told: seq<bool>): seq<bool>
    decreases es
  {
    if es == [] then told else
    var e := es[0];
    var more := if e.Finished? && |Targets(s.acts)| > |told| then told + [e.success] else told;
    Answers(StepSync(s, e), es[1..], more)
  }

  /** The target of the last helper that ended well. */
  function LastGood(targets: seq<bool>, told: seq<bool>): Option<bool>
    requires |told| <= |targets|
  {
    if told == [] then None
    else if told[|told| - 1] then Some(targets[|told| - 1])
    else LastGood(targets, told[..|told| - 1])
  }

  /** Flight, applied state and the last act agree with what was launched and told. */
  predicate Fits(s: Sync, told: seq<bool>) {
    var targets := Targets(s.acts);
    && |targets| == |told| + (if s.flight.Some? then 1 else 0)
    && (s.flight.Some? ==> targets[|told|] == s.flight.value)
    && s.applied == LastGood(targets, told)
  }

  /** The last act shows what is under way: a launch, a scheduled retry, or
      neither and then no failure is remembered. */
  predicate Shows(s: Sync) {
    && (s.acts == [] ==> s == START)
    && (s.acts != [] ==>
          match s.acts[|s.acts| - 1]
          case Launch(target) => s.flight == Some(target)
          case Schedule(target, _) => s.flight.None? && s.retry == Some(target) && s.failures > 0
          case Cancel => s.flight.None? && s.retry.None? && s.failures == 0)
  }

  lemma TargetsGrow(acts: seq<Act>, a: Act)
    ensures Targets(acts + [a]) == Targets(acts) + (if a.Launch? then [a.target] else [])
  {
    assert (acts + [a])[..|acts|] == acts;
  }

  lemma {:induction false} LastGoodKept(targets: seq<bool>, target: bool, told: seq<bool>)
    requires |told| <= |targets|
    ensures LastGood(targets + [target], told) == LastGood(targets, told)
    decreases told
  {
    if told != [] { LastGoodKept(targets, target, told[..|told| - 1]); }
  }

  /** The acts of a step: none, or a cancellation, a launch for the desired state
      of the moment, or both, or a scheduled retry. */
  lemma AskFits(s: Sync, want: bool, told: seq<bool>)
    requires Fits(s, told)
    ensures Fits(Ask(s, want), told)
  {
    TargetsGrow(s.acts, Cancel);
    TargetsGrow(s.acts, Launch(want));
    TargetsGrow(s.acts + [Cancel], Launch(want));
    LastGoodKept(Targets(s.acts), want, told);
  }

  lemma StepFits(s: Sync, e: SyncEvent, told: seq<bool>)
    requires Fits(s, told)
    ensures Fits(StepSync(s, e), if e.Finished? && s.flight.Some? then told + [e.success] else told)
  {
    match e {
      case Asked(want) => AskFits(s, want, told);
      case Timer(want) => if s.retry.Some? { AskFits(s.(retry := None), want, told); }
      case Finished(success, want) =>
        if s.flight.Some? {
          var more := told + [success];
          assert more[..|told|] == told;
          var f := s.(applied := if success then s.flight else s.applied, flight := None);
          assert Fits(f, more);
          AskFits(f.(queued := false), want, more);
          TargetsGrow(s.acts, Cancel);
          TargetsGrow(s.acts, Schedule(s.flight.value, DelayFor(s.failures)));
        }
    }
  }

  lemma {:induction false} RunFits(s: Sync, es: seq<SyncEvent>, told: seq<bool>)
    requires Fits(s, told)
    ensures Fits(RunSync(s, es), Answers(s, es, told))
    decreases es
  {
    if es != [] {
      var e := es[0];
      StepFits(s, e, told);
      RunFits(StepSync(s, e), es[1..], if e.Finished? && s.flight.Some? then told + [e.success] else told);
    }
  }

  lemma StepShows(s: Sync, e: SyncEvent)
    requires SyncOk(s) && Shows(s)
    ensures Shows(StepSync(s, e))
  {
  }

  lemma {:induction false} RunShows(s: Sync, es: seq<SyncEvent>)
    requires SyncOk(s) && Shows(s)
    ensures Shows(RunSync(s, es))
    decreases es
  {
    if es != [] {
      StepShows(s, es[0]);
      RunSyncKeeps(s, [es[0]]);
      assert [es[0]][1..] == [];
      assert RunSync(s, [es[0]]) == RunSync(StepSync(s, es[0]), []);
      RunShows(StepSync(s, es[0]), es[1..]);
    }
  }

  // ----- what every run guarantees -----

  /** In every run the helpers launched are the ones that ended and, while there is
      a flight, one more, for what the flight says; the applied state is the target
      of the last helper that ended well; and the last act tells which of helper,
      retry and rest it is. */
  lemma HelpersAreAccounted(es: seq<SyncEvent>)
    ensures var s := RunSync(START, es);
            var targets, told := Targets(s.acts), Answers(START, es, []);
            && |targets| == |told| + (if s.flight.Some? then 1 else 0)
            && (s.flight.Some? ==> targets[|targets| - 1] == s.flight.value)
            && s.applied == LastGood(targets, told)
            && Shows(s)
  {
    RunFits(START, es, []);
    RunShows(START, es);
  }

  /** Nothing was launched, or one helper for the state now desired and not applied. */
  predicate LaunchesOnly(before: Sync, after: Sync, want: bool) {
    || Targets(after.acts) == Targets(before.acts)
    || (&& Targets(after.acts) == Targets(before.acts) + [want]
        && after.desired == Some(want) && after.applied != Some(want))
  }

  lemma AskLaunches(s: Sync, want: bool)
    ensures LaunchesOnly(s, Ask(s, want), want)
    ensures s.flight.Some? ==> Targets(Ask(s, want).acts) == Targets(s.acts)
  {
    if s.flight.None? {
      TargetsGrow(s.acts, Cancel);
      TargetsGrow(s.acts, Launch(want));
      TargetsGrow(s.acts + [Cancel], Launch(want));
    }
  }

  lemma EndLaunches(s: Sync, success: bool, want: bool)
    requires s.flight.Some?
    ensures LaunchesOnly(s, Done(s, success, want), want)
  {
    var f := s.(applied := if success then s.flight else s.applied, flight := None);
    if s.desired != s.flight || s.queued {
      AskLaunches(f.(queued := false), want);
    } else {
      TargetsGrow(s.acts, Cancel);
      TargetsGrow(s.acts, Schedule(s.flight.value, DelayFor(s.failures)));
    }
  }

  /** A helper is launched only for the desired state of that moment, which is what
      the inputs ask for then, and only with none out. */
  lemma LaunchesAreWanted(s: Sync, e: SyncEvent)
    ensures LaunchesOnly(s, StepSync(s, e), e.want)
    ensures s.flight.Some? && !e.Finished? ==> Targets(StepSync(s, e).acts) == Targets(s.acts)
  {
    match e {
      case Asked(want) => AskLaunches(s, want);
      case Timer(want) => if s.retry.Some? { AskLaunches(s.(retry := None), want); }
      case Finished(success, want) => if s.flight.Some? { EndLaunches(s, success, want); }
    }
  }

  /** A scheduled retry is waited for: until its timer fires, any number of
      requests for that same state leave everything as it is. */
  lemma {:induction false} RetriesAreWaitedFor(first: seq<SyncEvent>, es: seq<SyncEvent>, want: bool)
    requires RunSync(START, first).retry == Some(want)
    requires forall i :: 0 <= i < |es| ==> es[i] == Asked(want)
    ensures RunSync(RunSync(START, first), es) == RunSync(START, first)
    decreases es
  {
    RunSyncKeeps(START, first);
    if es != [] {
      assert es[0] == Asked(want);
      RetriesAreWaitedFor(first, es[1..], want);
    }
  }

  /** And when it fires, the retry is over: the inputs of that moment become the
      desired state, and a helper goes out for it unless it is applied. */
  lemma RetriesFire(first: seq<SyncEvent>, want: bool)
    requires RunSync(START, first).retry.Some?
    ensures var (s, next) := (RunSync(START, first), StepSync(RunSync(START, first), Timer(want)));
            && next.retry.None? && next.desired == Some(want)
            && (if s.applied == Some(want) then next.flight.None? && next.failures == 0
                else next.flight == Some(want) && Targets(next.acts) == Targets(s.acts) + [want])
  {
    RunSyncKeeps(START, first);
    var s := RunSync(START, first);
    TargetsGrow(s.acts, Launch(want));
  }

  /** No helper ends in it. */
  predicate NoEnd(es: seq<SyncEvent>) {
    forall i :: 0 <= i < |es| ==> !es[i].Finished?
  }

  lemma {:induction false} QueueStays(s: Sync, es: seq<SyncEvent>)
    requires s.flight.Some? && s.retry.None? && s.queued && NoEnd(es)
    ensures var t := RunSync(s, es); t.queued && t.flight == s.flight && t.retry.None?
    decreases es
  {
    if es != [] {
      assert !es[0].Finished?;
      QueueStays(StepSync(s, es[0]), es[1..]);
    }
  }

  /** A request made during a flight is never lost: when the helper ends, whichever
      way, the inputs of that moment become the desired state, and the helper the
      rest of the run begins with, if any, is for it. */
  lemma RequestsInFlightAreHonoured(first: seq<SyncEvent>, asked: bool, es: seq<SyncEvent>, end: SyncEvent)
    requires RunSync(START, first).flight.Some? && NoEnd(es) && end.Finished?
    ensures var waiting := RunSync(StepSync(RunSync(START, first), Asked(asked)), es);
            var next := StepSync(waiting, end);
            && waiting.flight == RunSync(START, first).flight
            && next.desired == Some(end.want)
            && (next.applied != Some(end.want) ==> next.flight == Some(end.want))
  {
    RunSyncKeeps(START, first);
    QueueStays(StepSync(RunSync(START, first), Asked(asked)), es);
  }
}
