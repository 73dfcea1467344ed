/** The window's real pin beside what the helper observes: when the protocol can
    be trusted at rest. */
module PinWorld {
  import opened Texts
  import opened Reconcile
  import opened HyprlandPin

  /** A run as the helper sees it. */
  function Seen(es: seq<PinEvent>): Pin {
    RunPin(UNPINNED, es)
  }

  predicate Answers(p: Pin, e: PinEvent) {
    e.DispatchEnded? && p.phase.Toggling?
  }

  /** The real pin: effects says, event by event, whether an answered dispatch
      moved it. Nothing else moves it, and no event shows effects itself. */
  function PinnedAfter(pinned: bool, es: seq<PinEvent>, effects: seq<bool>): bool
    requires |effects| == |es|
  {
    if es == [] then pinned else
    var n := |es| - 1;
    var was := PinnedAfter(pinned, es[..n], effects[..n]);
    if Answers(Seen(es[..n]), es[n]) && effects[n] then !was else was
  }

  /** A look shows the real pin or nothing. A dispatch reported as done has moved
      it, one reported as failed may have. */
  predicate Truthful(p: Pin, pinned: bool, e: PinEvent, effect: bool) {
    match e
    case Looked(l, _) => p.phase.Looking? ==> !Shows(l, !pinned)
    case Verified(l, _) => p.phase.Verifying? ==> !Shows(l, !pinned)
    case DispatchEnded(ok, _) => p.phase.Toggling? && ok ==> effect
    case _ => true
  }

  /** The hidden effects fit what was observed. */
  predicate Fits(pinned: bool, es: seq<PinEvent>, effects: seq<bool>) {
    && |effects| == |es|
    && (es != [] ==>
          var n := |es| - 1;
          && Fits(pinned, es[..n], effects[..n])
          && Truthful(Seen(es[..n]), PinnedAfter(pinned, es[..n], effects[..n]), es[n], effects[n]))
  }

  /** What the reports leave open: nothing, or a dispatch that no later look has
      shown, answered as done or not. */
  datatype Unseen = AllSeen | Sent(want: bool) | Confirmed(want: bool)

  predicate ShowsPin(l: Look) {
    l.Window? && l.pinned.Some?
  }

  function LastDispatch(rs: seq<Report>): Unseen {
    if rs == [] then AllSeen else
    var r := rs[|rs| - 1];
    if r.Dispatched? then Sent(r.want)
    else if r.Took? then Confirmed(r.want)
    else if r.Saw? && ShowsPin(r.look) then AllSeen
    else LastDispatch(rs[..|rs| - 1])
  }

  // ----- invariant -----

  predicate Standing(p: Pin, pinned: bool) {
    && PinOk(p)
    && (p.phase.Toggling? ==> pinned == !p.phase.want && LastDispatch(p.reports) == Sent(p.phase.want))
    && (p.phase.Verifying? ==> LastDispatch(p.reports) == Confirmed(p.phase.want))
    && AppliedFits(p.sync.applied, LastDispatch(p.reports), pinned)
  }

  /** The applied state is the real pin, or the one before an unseen dispatch. */
  predicate AppliedFits(applied: Option<bool>, u: Unseen, pinned: bool) {
    match u
    case AllSeen => applied.Some? ==> applied.value == pinned
    case Sent(want) => applied.Some? ==> applied.value == !want
    case Confirmed(want) => pinned == want && (applied.Some? ==> applied.value == !want)
  }

  predicate EndFits(p: Pin, success: bool, pinned: bool) {
    AppliedFits(if success then p.sync.flight else p.sync.applied, LastDispatch(p.reports), pinned)
  }

  lemma EndStands(p: Pin, success: bool, want: bool, pinned: bool)
    requires PinOk(p) && !p.phase.Resting? && EndFits(p, success, pinned)
    requires success ==> p.reports != [] && p.reports[|p.reports| - 1].Saw?
                         && Shows(p.reports[|p.reports| - 1].look, p.phase.want)
    ensures Standing(End(p, success, want), pinned)
  {
    EndKeeps(p, success, want);
    AppliedIsConfirmed(p.sync, Finished(success, want));
    assert End(p, success, want).phase.Resting? || End(p, success, want).phase.Looking?;
  }

  lemma SeeStands(p: Pin, l: Look)
    requires PinOk(p)
    ensures PinOk(See(p, l))
    ensures LastDispatch(See(p, l).reports) == if ShowsPin(l) then AllSeen else LastDispatch(p.reports)
  {
    ReportGrows(p.reports, Saw(l));
  }

  lemma LookStands(p: Pin, l: Look, want: bool, pinned: bool)
    requires Standing(p, pinned) && (p.phase.Looking? ==> !Shows(l, !pinned))
    ensures Standing(OnLooked(p, l, want), pinned)
  {
    if p.phase.Looking? {
      SeeStands(p, l);
      if !Shows(l, !p.phase.want) || !l.hex {
        EndStands(See(p, l), Shows(l, p.phase.want), want, pinned);
      } else {
        DispatchKeeps(See(p, l), l);
      }
    }
  }

  lemma VerifyStands(p: Pin, l: Look, want: bool, pinned: bool)
    requires Standing(p, pinned) && (p.phase.Verifying? ==> !Shows(l, !pinned))
    ensures Standing(OnVerified(p, l, want), pinned)
  {
    if p.phase.Verifying? {
      SeeStands(p, l);
      EndStands(See(p, l), Shows(l, p.phase.want), want, pinned);
    }
  }

  lemma AnswerStands(p: Pin, ok: bool, want: bool, pinned: bool, effect: bool)
    requires Standing(p, pinned) && p.phase.Toggling? && (ok ==> effect)
    ensures Standing(OnDispatchEnded(p, ok, want), if effect then !pinned else pinned)
  {
    if ok {
      ReportGrows(p.reports, Took(p.phase.want));
    } else {
      EndStands(p, false, want, if effect then !pinned else pinned);
    }
  }

  lemma StepStands(p: Pin, pinned: bool, e: PinEvent, effect: bool)
    requires Standing(p, pinned) && Truthful(p, pinned, e, effect)
    ensures Standing(StepPin(p, e), if Answers(p, e) && effect then !pinned else pinned)
  {
    match e {
      case Looked(l, want) => LookStands(p, l, want, pinned);
      case Verified(l, want) => VerifyStands(p, l, want, pinned);
      case DispatchEnded(ok, want) => if p.phase.Toggling? { AnswerStands(p, ok, want, pinned, effect); }
      case Wanted(want) => StepPinKeeps(p, e);
      case Retried(want) => StepPinKeeps(p, e);
    }
  }

  lemma {:induction false} SeenAppend(p: Pin, es: seq<PinEvent>, e: PinEvent)
    ensures RunPin(p, es + [e]) == StepPin(RunPin(p, es), e)
    decreases es
  {
    if es == [] {
      assert es + [e] == [e] && [e][1..] == [];
      assert RunPin(StepPin(p, e), []) == StepPin(p, e);
    } else {
      SeenAppend(StepPin(p, es[0]), es[1..], e);
      assert (es + [e])[0] == es[0] && (es + [e])[1..] == es[1..] + [e];
    }
  }

  lemma SeenLast(es: seq<PinEvent>)
    requires es != []
    ensures Seen(es) == StepPin(Seen(es[..|es| - 1]), es[|es| - 1])
  {
    assert es == es[..|es| - 1] + [es[|es| - 1]];
    SeenAppend(UNPINNED, es[..|es| - 1], es[|es| - 1]);
  }

  lemma {:induction false} RunStands(pinned: bool, es: seq<PinEvent>, effects: seq<bool>)
    requires Fits(pinned, es, effects)
    ensures Standing(Seen(es), PinnedAfter(pinned, es, effects))
    decreases |es|
  {
    if es != [] {
      var n := |es| - 1;
      RunStands(pinned, es[..n], effects[..n]);
      SeenLast(es);
      StepStands(Seen(es[..n]), PinnedAfter(pinned, es[..n], effects[..n]), es[n], effects[n]);
    }
  }

  // ----- the other effects that fit -----

  lemma ExtendFits(pinned: bool, es: seq<PinEvent>, effects: seq<bool>, last: bool)
    requires es != [] && Fits(pinned, es[..|es| - 1], effects)
    requires Truthful(Seen(es[..|es| - 1]), PinnedAfter(pinned, es[..|es| - 1], effects), es[|es| - 1], last)
    ensures var (was, more) := (PinnedAfter(pinned, es[..|es| - 1], effects), effects + [last]);
            && Fits(pinned, es, more)
            && PinnedAfter(pinned, es, more)
               == (if Answers(Seen(es[..|es| - 1]), es[|es| - 1]) && last then !was else was)
  {
    assert (effects + [last])[..|es| - 1] == effects;
  }

  /** A step that leaves a failed dispatch unseen, other than its own answer, shows
      nothing and did not answer. */
  lemma StillSent(p: Pin, e: PinEvent, pinned: bool)
    requires Standing(p, pinned) && !Answers(p, e)
    requires LastDispatch(StepPin(p, e).reports).Sent? && !StepPin(p, e).phase.Toggling?
    ensures LastDispatch(p.reports) == LastDispatch(StepPin(p, e).reports) && !p.phase.Toggling?
    ensures forall truly, effect :: Truthful(p, truly, e, effect)
  {
    match e {
      case Looked(l, want) => assert ShowsPin(l) ==> !p.phase.Looking?;
      case Verified(l, want) => assert ShowsPin(l) ==> !p.phase.Verifying?;
      case _ =>
    }
  }

  /** Some hidden effects that fit the observations end with this pin. */
  ghost predicate CouldBe(pinned: bool, es: seq<PinEvent>, b: bool) {
    exists effects: seq<bool> :: Fits(pinned, es, effects) && PinnedAfter(pinned, es, effects) == b
  }

  /** After a dispatch that was answered as failed and not seen since, the same
      observations fit either pin. */
  lemma {:induction false} EitherFits(pinned: bool, es: seq<PinEvent>, effects: seq<bool>, b: bool)
    requires Fits(pinned, es, effects)
    requires LastDispatch(Seen(es).reports).Sent? && !Seen(es).phase.Toggling?
    ensures CouldBe(pinned, es, b)
    decreases |es|
  {
    var n := |es| - 1;
    SeenLast(es);
    var p, e, was := Seen(es[..n]), es[n], PinnedAfter(pinned, es[..n], effects[..n]);
    RunStands(pinned, es[..n], effects[..n]);
    if Answers(p, e) {
      ExtendFits(pinned, es, effects[..n], b == p.phase.want);
      assert Fits(pinned, es, effects[..n] + [b == p.phase.want]);
    } else {
      StillSent(p, e, was);
      EitherFits(pinned, es[..n], effects[..n], b);
      var others: seq<bool> :| Fits(pinned, es[..n], others) && PinnedAfter(pinned, es[..n], others) == b;
      ExtendFits(pinned, es, others, effects[n]);
      assert Fits(pinned, es, others + [effects[n]]);
    }
  }

  // ----- what rest means -----

  predicate AtRest(p: Pin) {
    p.sync.desired.Some? && p.sync.flight.None? && p.sync.retry.None?
  }

  /** Whatever the hidden effects, the real pin is the desired one. */
  ghost predicate Trusted(pinned: bool, es: seq<PinEvent>) {
    forall effects: seq<bool> :: Fits(pinned, es, effects) ==>
      Seen(es).sync.desired == Some(PinnedAfter(pinned, es, effects))
  }

  /** At rest the window's real pin is the desired one, whatever the hidden effects
      of the dispatches were, exactly when every dispatch has been followed by a
      look that showed the pin: what the helper itself can check. */
  lemma {:induction false} RestAgreesExactly(pinned: bool, es: seq<PinEvent>, effects: seq<bool>)
    requires Fits(pinned, es, effects) && AtRest(Seen(es))
    ensures Trusted(pinned, es) <==> LastDispatch(Seen(es).reports).AllSeen?
  {
    var p := Seen(es);
    RunStands(pinned, es, effects);
    match LastDispatch(p.reports) {
      case AllSeen =>
        forall others: seq<bool> | Fits(pinned, es, others)
          ensures p.sync.desired == Some(PinnedAfter(pinned, es, others))
        {
          RunStands(pinned, es, others);
        }
      case Sent(want) =>
        EitherFits(pinned, es, effects, want);
        var others: seq<bool> :| Fits(pinned, es, others) && PinnedAfter(pinned, es, others) == want;
        assert p.sync.desired != Some(PinnedAfter(pinned, es, others));
      case Confirmed(want) =>
        assert p.sync.desired != Some(PinnedAfter(pinned, es, effects));
    }
  }

  /** An unseen dispatch leaves the window stranded for certain if it was answered
      as done, and possibly, but not surely, if it was answered as failed. */
  lemma {:induction false} UnseenStrands(pinned: bool, es: seq<PinEvent>, effects: seq<bool>)
    requires Fits(pinned, es, effects) && AtRest(Seen(es)) && !LastDispatch(Seen(es).reports).AllSeen?
    ensures LastDispatch(Seen(es).reports).Confirmed? ==>
              Seen(es).sync.desired == Some(!PinnedAfter(pinned, es, effects))
    ensures LastDispatch(Seen(es).reports).Sent? ==> CouldBe(pinned, es, true) && CouldBe(pinned, es, false)
  {
    RunStands(pinned, es, effects);
    if LastDispatch(Seen(es).reports).Sent? {
      EitherFits(pinned, es, effects, true);
      EitherFits(pinned, es, effects, false);
    }
  }

  // ----- a run that strands the window -----

  const UNPINNED_WINDOW: Look := Window(Some(false), true)

  /** Seen unpinned, then toggled. */
  function Opening(): seq<PinEvent> {
    [] + [Wanted(false)] + [Looked(UNPINNED_WINDOW, false)] + [Wanted(true)] + [Looked(UNPINNED_WINDOW, true)]
  }

  /** Answered as done, not shown since, and then wanted unpinned again. */
  function StrandingRun(): seq<PinEvent> {
    Opening() + [DispatchEnded(true, true)] + [Verified(Nothing, true)] + [Wanted(false)]
  }

  function Effects(es: seq<PinEvent>): seq<bool> {
    seq(|es|, i requires 0 <= i < |es| => es[i].DispatchEnded?)
  }

  lemma EffectsFit(es: seq<PinEvent>, e: PinEvent)
    requires Fits(false, es, Effects(es))
    requires Truthful(Seen(es), PinnedAfter(false, es, Effects(es)), e, e.DispatchEnded?)
    ensures var (was, more) := (PinnedAfter(false, es, Effects(es)), es + [e]);
            && Fits(false, more, Effects(more)) && Seen(more) == StepPin(Seen(es), e)
            && PinnedAfter(false, more, Effects(more)) == if Answers(Seen(es), e) then !was else was
  {
    var more := es + [e];
    assert more[..|es|] == es && Effects(more) == Effects(es) + [e.DispatchEnded?];
    SeenLast(more);
    ExtendFits(false, more, Effects(es), e.DispatchEnded?);
  }

  lemma OpeningToggles()
    ensures var es := Opening();
            && Fits(false, es, Effects(es)) && !PinnedAfter(false, es, Effects(es))
            && Seen(es).phase == Toggling(true) && Seen(es).sync.applied == Some(false)
            && Seen(es).sync == Seen(es).sync.(desired := Some(true), flight := Some(true),
                                               queued := false, retry := None)
  {
    var e0: seq<PinEvent> := [];
    assert Fits(false, e0, Effects(e0));
    EffectsFit(e0, Wanted(false));
    var e1 := e0 + [Wanted(false)];
    EffectsFit(e1, Looked(UNPINNED_WINDOW, false));
    var e2 := e1 + [Looked(UNPINNED_WINDOW, false)];
    EffectsFit(e2, Wanted(true));
    EffectsFit(e2 + [Wanted(true)], Looked(UNPINNED_WINDOW, true));
  }

  lemma PinCanBeStranded()
    ensures var es := StrandingRun();
            && Fits(false, es, Effects(es)) && AtRest(Seen(es))
            && Seen(es).sync.desired == Some(false) && PinnedAfter(false, es, Effects(es))
  {
    var e4 := Opening();
    OpeningToggles();
    EffectsFit(e4, DispatchEnded(true, true));
    var e5 := e4 + [DispatchEnded(true, true)];
    EffectsFit(e5, Verified(Nothing, true));
    EffectsFit(e5 + [Verified(Nothing, true)], Wanted(false));
  }
}
