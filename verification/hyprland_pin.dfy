/** The Hyprland helper: look the window up, toggle its pin, look again. The
    toggle has no target of its own, so the protocol must know the state. */
module HyprlandPin {
  import opened Texts
  import opened Reconcile

  /** What a look at the clients yields: nothing usable, or the overlay's window
      with its pin, if that is a boolean, and whether its address is a plain
      hexadecimal number. */
  datatype Look = Nothing | Window(pinned: Option<bool>, hex: bool)

  /** Where the helper of the flight is; want is what it captured. */
  datatype Phase = Resting | Looking(want: bool) | Toggling(want: bool) | Verifying(want: bool)

  datatype Report = Saw(look: Look) | Dispatched(want: bool) | Took(want: bool) | Ended(want: bool, success: bool)

  datatype Pin = Pin(sync: Sync, phase: Phase, reports: seq<Report>)

  const UNPINNED: Pin := Pin(START, Resting, [])

  datatype PinEvent =
    | Wanted(want: bool)
    | Looked(look: Look, want: bool)          // want is what a recheck would derive
    | DispatchEnded(ok: bool, want: bool)
    | Verified(look: Look, want: bool)
    | Retried(want: bool)

  /** The look showed the pin, and it was so. */
  predicate Shows(l: Look, pinned: bool) {
    l.Window? && l.pinned.Some? && l.pinned.value == pinned
  }

  /** A flight launched by the protocol starts with a look. */
  function Follow(p: Pin, sync: Sync): Pin {
    Pin(sync, if sync.flight.Some? then (if p.phase.Resting? then Looking(sync.flight.value) else p.phase)
              else Resting, p.reports)
  }

  function End(p: Pin, success: bool, want: bool): Pin
    requires !p.phase.Resting?
  {
    var ended := p.(phase := Resting, reports := p.reports + [Ended(p.phase.want, success)]);
    Follow(ended, Done(p.sync, success, want))
  }

  function See(p: Pin, l: Look): Pin {
    p.(reports := p.reports + [Saw(l)])
  }

  function OnLooked(p: Pin, l: Look, want: bool): Pin {
    if !p.phase.Looking? then p else
    var seen := See(p, l);
    if Shows(l, p.phase.want) then End(seen, true, want)
    else if !Shows(l, !p.phase.want) || !l.hex then End(seen, false, want)
    else seen.(phase := Toggling(p.phase.want), reports := seen.reports + [Dispatched(p.phase.want)])
  }

  function OnDispatchEnded(p: Pin, ok: bool, want: bool): Pin {
    if !p.phase.Toggling? then p
    else if !ok then End(p, false, want)
    else p.(phase := Verifying(p.phase.want), reports := p.reports + [Took(p.phase.want)])
  }

  function OnVerified(p: Pin, l: Look, want: bool): Pin {
    if !p.phase.Verifying? then p
    else End(See(p, l), Shows(l, p.phase.want), want)
  }

  function StepPin(p: Pin, e: PinEvent): Pin {
    match e
    case Wanted(want) => Follow(p, Ask(p.sync, want))
    case Looked(l, want) => OnLooked(p, l, want)
    case DispatchEnded(ok, want) => OnDispatchEnded(p, ok, want)
    case Verified(l, want) => OnVerified(p, l, want)
    case Retried(want) => Follow(p, TimerFires(p.sync, want))
  }

  function RunPin(p: Pin, es: seq<PinEvent>): Pin
    decreases es
  {
    if es == [] then p else RunPin(StepPin(p, es[0]), es[1..])
  }

  // ----- invariant -----

  /** Report i follows a look that showed this pin. */
  predicate FollowsLook(rs: seq<Report>, i: nat, pinned: bool)
    requires i < |rs|
  {
    i > 0 && rs[i - 1].Saw? && Shows(rs[i - 1].look, pinned)
  }

  predicate ReportOk(rs: seq<Report>, i: nat)
    requires i < |rs|
  {
    && (rs[i].Dispatched? ==> FollowsLook(rs, i, !rs[i].want))
    && (rs[i].Ended? && rs[i].success ==> FollowsLook(rs, i, rs[i].want))
  }

  /** A toggle goes out only right after a look that knew the opposite state, and
      success is claimed only right after a look that showed the wanted one. */
  predicate ReportsOk(rs: seq<Report>) {
    forall i: nat :: i < |rs| ==> ReportOk(rs, i)
  }

  predicate PinOk(p: Pin) {
    && SyncOk(p.sync)
    && (if p.phase.Resting? then p.sync.flight.None? else p.sync.flight == Some(p.phase.want))
    && ReportsOk(p.reports)
  }

  /** One more report, with what it needs just before it. */
  lemma ReportGrows(rs: seq<Report>, r: Report)
    requires ReportsOk(rs)
    requires r.Dispatched? || (r.Ended? && r.success) ==>
      rs != [] && rs[|rs| - 1].Saw?
      && Shows(rs[|rs| - 1].look, if r.Dispatched? then !r.want else r.want)
    ensures ReportsOk(rs + [r])
  {
    forall i: nat | i < |rs + [r]| ensures ReportOk(rs + [r], i) {
      if i < |rs| { assert ReportOk(rs, i); }
    }
  }

  lemma EndKeeps(p: Pin, success: bool, want: bool)
    requires PinOk(p) && !p.phase.Resting?
    requires success ==> p.reports != [] && p.reports[|p.reports| - 1].Saw?
                         && Shows(p.reports[|p.reports| - 1].look, p.phase.want)
    ensures PinOk(End(p, success, want))
  {
    ReportGrows(p.reports, Ended(p.phase.want, success));
  }

  lemma LookedKeeps(p: Pin, l: Look, want: bool)
    requires PinOk(p)
    ensures PinOk(OnLooked(p, l, want))
  {
    if p.phase.Looking? {
      ReportGrows(p.reports, Saw(l));
      if !Shows(l, !p.phase.want) || !l.hex {
        EndKeeps(See(p, l), Shows(l, p.phase.want), want);
      } else {
        DispatchKeeps(See(p, l), l);
      }
    }
  }

  lemma DispatchKeeps(p: Pin, l: Look)
    requires PinOk(p) && p.phase.Looking? && Shows(l, !p.phase.want)
    requires p.reports != [] && p.reports[|p.reports| - 1] == Saw(l)
    ensures PinOk(p.(phase := Toggling(p.phase.want), reports := p.reports + [Dispatched(p.phase.want)]))
  {
    ReportGrows(p.reports, Dispatched(p.phase.want));
  }

  lemma StepPinKeeps(p: Pin, e: PinEvent)
    requires PinOk(p)
    ensures PinOk(StepPin(p, e))
  {
    match e {
      case Looked(l, want) => LookedKeeps(p, l, want);
      case DispatchEnded(ok, want) =>
        if p.phase.Toggling? {
          ReportGrows(p.reports, Took(p.phase.want));
          EndKeeps(p, false, want);
        }
      case Verified(l, want) =>
        if p.phase.Verifying? {
          ReportGrows(p.reports, Saw(l));
          EndKeeps(See(p, l), Shows(l, p.phase.want), want);
        }
      case _ =>
    }
  }

  lemma {:induction false} RunPinKeeps(p: Pin, es: seq<PinEvent>)
    requires PinOk(p)
    ensures PinOk(RunPin(p, es))
    decreases es
  {
    if es != [] {
      StepPinKeeps(p, es[0]);
      RunPinKeeps(StepPin(p, es[0]), es[1..]);
    }
  }

  // ----- what every run guarantees -----

  /** In every run the toggle is dispatched only from a known opposite state, and
      success is claimed only for a state that was seen. */
  lemma ToggleOnlyFromOpposite(es: seq<PinEvent>)
    ensures ReportsOk(RunPin(UNPINNED, es).reports)
  {
    RunPinKeeps(UNPINNED, es);
  }

  /** The reconcile event a step of the helper amounts to, if any. */
  function AsSync(p: Pin, e: PinEvent): Option<SyncEvent> {
    match e
    case Wanted(want) => Some(Asked(want))
    case Retried(want) => Some(Timer(want))
    case Looked(l, want) =>
      if p.phase.Looking? && (!Shows(l, !p.phase.want) || !l.hex)
      then Some(Finished(Shows(l, p.phase.want), want)) else None
    case DispatchEnded(ok, want) => if p.phase.Toggling? && !ok then Some(Finished(false, want)) else None
    case Verified(l, want) =>
      if p.phase.Verifying? then Some(Finished(Shows(l, p.phase.want), want)) else None
  }

  function SyncRun(p: Pin, es: seq<PinEvent>): seq<SyncEvent>
    decreases es
  {
    if es == [] then [] else
    (if AsSync(p, es[0]).Some? then [AsSync(p, es[0]).value] else []) + SyncRun(StepPin(p, es[0]), es[1..])
  }

  /** Refinement: seen from the protocol, the three-stage helper is one helper
      that succeeds or fails, so all that holds of the protocol holds of it. */
  lemma {:induction false} PinRefinesSync(p: Pin, es: seq<PinEvent>)
    requires PinOk(p)
    ensures RunPin(p, es).sync == RunSync(p.sync, SyncRun(p, es))
    decreases es
  {
    if es != [] {
      StepPinKeeps(p, es[0]);
      PinRefinesSync(StepPin(p, es[0]), es[1..]);
      var s, rest := AsSync(p, es[0]), SyncRun(StepPin(p, es[0]), es[1..]);
      if s.Some? {
        assert SyncRun(p, es)[0] == s.value && SyncRun(p, es)[1..] == rest;
      } else {
        assert SyncRun(p, es) == rest;
      }
    }
  }

  // ----- the helper's callbacks -----

  class HyprlandHelper {
    const sync: StackSync
    var phase: Phase
    ghost var reports: seq<Report>

    ghost predicate Valid()
      reads this, sync
    {
      sync.Valid() && (phase.Resting? <==> !sync.inFlight)
    }

    ghost function View(): Pin
      reads this, sync
    {
      Pin(sync.View(), phase, reports)
    }

    constructor ()
      ensures Valid() && View() == UNPINNED && fresh(sync)
    {
      sync := new StackSync();
      phase, reports := Resting, [];
    }

    /** A flight launched by the protocol starts with a look. */
    method Begin()
      requires sync.Valid()
      modifies this`phase
      ensures Valid() && View() == Follow(old(View()), sync.View())
    {
      if !sync.inFlight { phase := Resting; }
      else if phase.Resting? { phase := Looking(sync.attempted); }
    }

    method Request(want: bool)
      requires Valid()
      modifies this`phase, sync
      ensures Valid() && View() == StepPin(old(View()), Wanted(want))
    {
      sync.Synchronise(want);
      Begin();
    }

    method OnRetry(want: bool)
      requires Valid() && sync.retryTimer
      modifies this`phase, sync
      ensures Valid() && View() == StepPin(old(View()), Retried(want))
    {
      sync.OnTimer(want);
      Begin();
    }

    method Finish(success: bool, want: bool)
      requires Valid() && !phase.Resting?
      modifies this, sync
      ensures Valid() && View() == End(old(View()), success, want)
    {
      reports := reports + [Ended(phase.want, success)];
      phase := Resting;
      sync.OnDone(success, want);
      Begin();
    }

    method LookupAnswered(l: Look, want: bool)
      requires Valid() && phase.Looking?
      modifies this, sync
      ensures Valid() && View() == OnLooked(old(View()), l, want)
    {
      reports := reports + [Saw(l)];
      if l.Nothing? || l.pinned.None? {
        // Unknown: a toggle could go either way.
        Finish(false, want);
      } else if l.pinned.value == phase.want {
        Finish(true, want);
      } else if !l.hex {
        Finish(false, want);
      } else {
        reports := reports + [Dispatched(phase.want)];
        phase := Toggling(phase.want);
      }
    }

    method DispatchAnswered(ok: bool, want: bool)
      requires Valid() && phase.Toggling?
      modifies this, sync
      ensures Valid() && View() == OnDispatchEnded(old(View()), ok, want)
    {
      if !ok {
        Finish(false, want);
      } else {
        reports := reports + [Took(phase.want)];
        phase := Verifying(phase.want);
      }
    }

    method VerifyAnswered(l: Look, want: bool)
      requires Valid() && phase.Verifying?
      modifies this, sync
      ensures Valid() && View() == OnVerified(old(View()), l, want)
    {
      reports := reports + [Saw(l)];
      Finish(Shows(l, phase.want), want);
    }
  }
}
