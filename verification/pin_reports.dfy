/** The course of every flight of the Hyprland helper, report by report. */
module PinReports {
  import opened Texts
  import opened Reconcile
  import opened HyprlandPin

  /** The look of report i came after a dispatch that was taken. */
  predicate Second(rs: seq<Report>, i: nat)
    requires i < |rs|
  {
    i > 0 && rs[i - 1].Took?
  }

  /** What follows report i. A first look that shows the wanted pin ends the flight
      well; one that shows the other, of a window that can be named, is answered by
      a toggle; any other ends it badly. A refused toggle ends it badly, a taken one
      is looked at again, and the second look alone decides. */
  predicate Continues(rs: seq<Report>, i: nat)
    requires i + 1 < |rs|
  {
    match rs[i]
    case Saw(l) =>
      (match rs[i + 1]
       case Dispatched(w) => !Second(rs, i) && Shows(l, !w) && l.hex
       case Ended(w, ok) =>
         && (ok <==> Shows(l, w))
         && (if Second(rs, i) then rs[i - 1].want == w else !(Shows(l, !w) && l.hex))
       case _ => false)
    case Dispatched(w) => rs[i + 1] == Took(w) || rs[i + 1] == Ended(w, false)
    case Took(_) => rs[i + 1].Saw?
    case Ended(_, _) => rs[i + 1].Saw?
  }

  predicate AllContinue(rs: seq<Report>) {
    forall i: nat :: i + 1 < |rs| ==> Continues(rs, i)
  }

  /** The last report tells where the helper is. */
  predicate Standing(phase: Phase, rs: seq<Report>) {
    match phase
    case Toggling(w) => rs != [] && rs[|rs| - 1] == Dispatched(w)
    case Verifying(w) => rs != [] && rs[|rs| - 1] == Took(w)
    case _ => rs == [] || rs[|rs| - 1].Ended?
  }

  lemma Grows(rs: seq<Report>, r: Report)
    requires AllContinue(rs) && (rs != [] ==> Continues(rs + [r], |rs| - 1))
    ensures AllContinue(rs + [r])
  {
    var more := rs + [r];
    forall i: nat | i + 1 < |more| ensures Continues(more, i) {
      if i + 1 < |rs| { assert Continues(rs, i); }
    }
  }

  lemma LookContinues(p: Pin, l: Look, want: bool)
    requires PinOk(p) && AllContinue(p.reports) && Standing(p.phase, p.reports)
    ensures AllContinue(OnLooked(p, l, want).reports)
    ensures Standing(OnLooked(p, l, want).phase, OnLooked(p, l, want).reports)
  {
    if p.phase.Looking? {
      var (w, seen) := (p.phase.want, p.reports + [Saw(l)]);
      Grows(p.reports, Saw(l));
      if Shows(l, w) {
        Grows(seen, Ended(w, true));
      } else if Shows(l, !w) && l.hex {
        Grows(seen, Dispatched(w));
      } else {
        Grows(seen, Ended(w, false));
      }
    }
  }

  lemma VerifyContinues(p: Pin, l: Look, want: bool)
    requires PinOk(p) && AllContinue(p.reports) && Standing(p.phase, p.reports)
    ensures AllContinue(OnVerified(p, l, want).reports)
    ensures Standing(OnVerified(p, l, want).phase, OnVerified(p, l, want).reports)
  {
    if p.phase.Verifying? {
      Grows(p.reports, Saw(l));
      Grows(p.reports + [Saw(l)], Ended(p.phase.want, Shows(l, p.phase.want)));
    }
  }

  lemma StepContinues(p: Pin, e: PinEvent)
    requires PinOk(p) && AllContinue(p.reports) && Standing(p.phase, p.reports)
    ensures AllContinue(StepPin(p, e).reports) && Standing(StepPin(p, e).phase, StepPin(p, e).reports)
  {
    match e {
      case Wanted(_) =>
      case Retried(_) =>
      case Looked(l, want) => LookContinues(p, l, want);
      case Verified(l, want) => VerifyContinues(p, l, want);
      case DispatchEnded(ok, want) =>
        if p.phase.Toggling? {
          if ok { Grows(p.reports, Took(p.phase.want)); } else { Grows(p.reports, Ended(p.phase.want, false)); }
        }
    }
  }

  lemma {:induction false} RunContinues(p: Pin, es: seq<PinEvent>)
    requires PinOk(p) && AllContinue(p.reports) && Standing(p.phase, p.reports)
    ensures AllContinue(RunPin(p, es).reports) && Standing(RunPin(p, es).phase, RunPin(p, es).reports)
    decreases es
  {
    if es != [] {
      StepContinues(p, es[0]);
      StepPinKeeps(p, es[0]);
      RunContinues(StepPin(p, es[0]), es[1..]);
    }
  }

  /** In every run every flight takes its whole course: looks, toggles and ends as
      what was seen demands, and is where its last report says. */
  lemma FlightsRunTheirCourse(es: seq<PinEvent>)
    ensures var p := RunPin(UNPINNED, es); AllContinue(p.reports) && Standing(p.phase, p.reports)
  {
    RunContinues(UNPINNED, es);
  }
}
