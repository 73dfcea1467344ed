/** Hiding and restoring the panels from the first step to the last. */
module PanelRoutines {
  import opened Texts
  import opened PanelModes

  /** A game that is shown and then left: the events of one hiding, and of one
      restoring, that meet no obstacle. */
  function Touches(ps: seq<PanelId>, away: bool): seq<DeskEvent> {
    if ps == [] then [] else
    [if away then HideTouches(ps[0]) else RestoreTouches(ps[0])] + Touches(ps[1..], away)
  }

  function HideEvents(ps: seq<PanelId>): seq<DeskEvent> {
    [Sync(true)] + ([ModesAnswered(true)] + ([Written] + (Touches(ps, true) + [HideAnswered(true)])))
  }

  function RestoreEvents(ps: seq<PanelId>): seq<DeskEvent> {
    [Sync(false)] + (Touches(ps, false) + ([RestoreAnswered(Ok)] + [Cleared]))
  }

  predicate Reaches(ps: seq<PanelId>, panels: map<PanelId, Mode>) {
    forall p :: p in panels ==> p in ps
  }

  predicate AllKnown(panels: map<PanelId, Mode>) {
    forall p :: p in panels ==> Listed(panels[p])
  }

  lemma {:induction false} RunJoins(d: Desk, a: seq<DeskEvent>, b: seq<DeskEvent>)
    ensures RunDesk(d, a + b) == RunDesk(RunDesk(d, a), b)
    decreases a
  {
    if a == [] {
      assert a + b == b;
    } else {
      assert (a + b)[0] == a[0] && (a + b)[1..] == a[1..] + b;
      RunJoins(StepDesk(d, a[0]), a[1..], b);
    }
  }

  lemma OneStep(d: Desk, e: DeskEvent)
    ensures RunDesk(d, [e]) == StepDesk(d, e)
  {
    assert [e][1..] == [] && RunDesk(StepDesk(d, e), []) == StepDesk(d, e);
  }

  /** The panels a script has reached are in its mode, the others as they were. */
  predicate HidTo(before: map<PanelId, Mode>, after: map<PanelId, Mode>, ps: seq<PanelId>) {
    && after.Keys == before.Keys
    && forall p :: p in before ==> after[p] == if p in ps then Autohide else before[p]
  }

  lemma {:induction false} HideTouchesAll(d: Desk, ps: seq<PanelId>)
    requires d.at.Hiding?
    ensures var t := RunDesk(d, Touches(ps, true));
            t == d.(panels := t.panels) && HidTo(d.panels, t.panels, ps)
    decreases ps
  {
    if ps != [] {
      var e := HideTouches(ps[0]);
      Unroll(d, e, Touches(ps[1..], true));
      HideTouchesAll(StepDesk(d, e), ps[1..]);
    }
  }

  predicate PutBack(before: map<PanelId, Mode>, after: map<PanelId, Mode>, saved: map<PanelId, Mode>,
                    ps: seq<PanelId>) {
    && after.Keys == before.Keys
    && forall p :: p in before ==> after[p] == if p in ps && p in saved then saved[p] else before[p]
  }

  lemma {:induction false} RestoreTouchesAll(d: Desk, saved: map<PanelId, Mode>, ps: seq<PanelId>)
    requires d.at == Restoring(saved)
    ensures var t := RunDesk(d, Touches(ps, false));
            t == d.(panels := t.panels) && PutBack(d.panels, t.panels, saved, ps)
    decreases ps
  {
    if ps != [] {
      var e := RestoreTouches(ps[0]);
      Unroll(d, e, Touches(ps[1..], false));
      RestoreTouchesAll(StepDesk(d, e), saved, ps[1..]);
    }
  }

  lemma {:induction false} EachIsRun(d: Desk, ps: seq<PanelId>)
    ensures HideEach(d, ps) == RunDesk(d, Touches(ps, true))
    ensures RestoreEach(d, ps) == RunDesk(d, Touches(ps, false))
    decreases ps
  {
    if ps != [] {
      Unroll(d, HideTouches(ps[0]), Touches(ps[1..], true));
      Unroll(d, RestoreTouches(ps[0]), Touches(ps[1..], false));
      EachIsRun(StepDesk(d, HideTouches(ps[0])), ps[1..]);
      EachIsRun(StepDesk(d, RestoreTouches(ps[0])), ps[1..]);
    }
  }

  /** The routine that hides is the run of its events, whatever is answered on the
      way: what is proved of runs is proved of it. */
  lemma HideIsRun(d: Desk, asked: bool, write: DeskEvent, reached: seq<PanelId>, ok: bool)
    requires d.at.Idle?
    ensures HideAll(d, asked, write, reached, ok)
            == RunDesk(d, [Sync(true)] + ([ModesAnswered(asked)] + ([write]
                          + (Touches(reached, true) + [HideAnswered(ok)]))))
  {
    var begun := BeginHide(d);
    var written := StepDesk(StepDesk(begun, ModesAnswered(asked)), write);
    Unroll(d, Sync(true), [ModesAnswered(asked)] + ([write] + (Touches(reached, true) + [HideAnswered(ok)])));
    Unroll(begun, ModesAnswered(asked), [write] + (Touches(reached, true) + [HideAnswered(ok)]));
    Unroll(StepDesk(begun, ModesAnswered(asked)), write, Touches(reached, true) + [HideAnswered(ok)]);
    RunJoins(written, Touches(reached, true), [HideAnswered(ok)]);
    EachIsRun(written, reached);
    OneStep(HideEach(written, reached), HideAnswered(ok));
  }

  lemma RestoreIsRun(d: Desk, reached: seq<PanelId>, answer: Answer)
    requires d.at.Idle?
    ensures RestoreAll(d, reached, answer)
            == RunDesk(d, [RestoreNow] + (Touches(reached, false) + ([RestoreAnswered(answer)] + [Cleared])))
  {
    var begun := BeginRestore(d);
    Unroll(d, RestoreNow, Touches(reached, false) + ([RestoreAnswered(answer)] + [Cleared]));
    RunJoins(begun, Touches(reached, false), [RestoreAnswered(answer)] + [Cleared]);
    EachIsRun(begun, reached);
    Unroll(RestoreEach(begun, reached), RestoreAnswered(answer), [Cleared]);
    OneStep(StepDesk(RestoreEach(begun, reached), RestoreAnswered(answer)), Cleared);
  }

  /** While the game is shown every panel is out of the way, and what the code knows
      of the user's modes is on the disk. */
  lemma HidingHides(panels: map<PanelId, Mode>, ps: seq<PanelId>)
    requires Known(panels) != map[] && !AllHidden(Known(panels)) && Reaches(ps, panels)
    ensures var d := RunDesk(Fresh(panels), HideEvents(ps));
            && d.active && d.at.Idle? && d.disk == Saved(Known(panels))
            && d.panels.Keys == panels.Keys && AllHidden(d.panels)
  {
    var saved := Known(panels);
    var w := Desk(panels, Saved(saved), false, Hiding);
    Unroll(Fresh(panels), Sync(true), [ModesAnswered(true)] + ([Written] + (Touches(ps, true) + [HideAnswered(true)])));
    Unroll(Fresh(panels).(at := Asking), ModesAnswered(true), [Written] + (Touches(ps, true) + [HideAnswered(true)]));
    Unroll(Fresh(panels).(at := Writing(saved)), Written, Touches(ps, true) + [HideAnswered(true)]);
    RunJoins(w, Touches(ps, true), [HideAnswered(true)]);
    HideTouchesAll(w, ps);
    OneStep(RunDesk(w, Touches(ps, true)), HideAnswered(true));
  }

  /** Panels that hide already are left alone, and count as hidden. */
  lemma AlreadyHidden(panels: map<PanelId, Mode>)
    requires Known(panels) != map[] && AllHidden(Known(panels))
    ensures RunDesk(Fresh(panels), [Sync(true)] + ([ModesAnswered(true)] + [Written]))
            == Desk(panels, Saved(Known(panels)), true, Idle)
  {
    Unroll(Fresh(panels), Sync(true), [ModesAnswered(true)] + [Written]);
    Unroll(Fresh(panels).(at := Asking), ModesAnswered(true), [Written]);
    OneStep(Fresh(panels).(at := Writing(Known(panels))), Written);
  }

  /** A restoring that meets no obstacle puts every saved mode back. */
  lemma RestoringRestores(d: Desk, saved: map<PanelId, Mode>, ps: seq<PanelId>)
    requires d.at.Idle? && d.disk == Saved(saved) && saved != map[]
    ensures var end := RunDesk(d, RestoreEvents(ps));
            end == Desk(end.panels, Missing, false, Idle) && PutBack(d.panels, end.panels, saved, ps)
  {
    var r := d.(at := Restoring(saved));
    Unroll(d, Sync(false), Touches(ps, false) + ([RestoreAnswered(Ok)] + [Cleared]));
    RunJoins(r, Touches(ps, false), [RestoreAnswered(Ok)] + [Cleared]);
    RestoreTouchesAll(r, saved, ps);
    var back := RunDesk(r, Touches(ps, false));
    Unroll(back, RestoreAnswered(Ok), [Cleared]);
    OneStep(StepDesk(back, RestoreAnswered(Ok)), Cleared);
  }

  /** The round trip: the game is shown and left again, and every panel whose mode
      the code knows is back in exactly that mode, with nothing left on the disk; a
      panel in a mode it does not know stays hidden. If it knows them all,
      everything is as it was. */
  lemma HideThenRestore(panels: map<PanelId, Mode>, ps: seq<PanelId>, qs: seq<PanelId>)
    requires Known(panels) != map[] && !AllHidden(Known(panels)) && Reaches(ps, panels) && Reaches(qs, Known(panels))
    ensures var end := RunDesk(Fresh(panels), HideEvents(ps) + RestoreEvents(qs));
            && end.panels.Keys == panels.Keys
            && (forall p :: p in panels ==> end.panels[p] == if Listed(panels[p]) then panels[p] else Autohide)
            && end.disk.Missing? && !end.active && end.at.Idle?
            && (AllKnown(panels) ==> end == Fresh(panels))
  {
    RunJoins(Fresh(panels), HideEvents(ps), RestoreEvents(qs));
    HidingHides(panels, ps);
    var d := RunDesk(Fresh(panels), HideEvents(ps));
    RestoringRestores(d, Known(panels), qs);
    var end := RunDesk(d, RestoreEvents(qs));
    if AllKnown(panels) {
      assert Known(panels) == panels;
      assert end.panels == panels;
    }
  }

  /** After a crash in the middle of it, the next start puts the same modes back. */
  lemma CrashThenRestore(panels: map<PanelId, Mode>, ps: seq<PanelId>, qs: seq<PanelId>)
    requires AllKnown(panels) && panels != map[] && !AllHidden(panels) && Reaches(qs, panels)
    ensures RunDesk(Fresh(panels),
                    [Sync(true)] + ([ModesAnswered(true)] + ([Written] + (Touches(ps, true)
                    + ([Crash(false)] + RestoreEvents(qs))))))
            == Fresh(panels)
  {
    assert Known(panels) == panels;
    var (w, rest) := (Desk(panels, Saved(panels), false, Hiding), [Crash(false)] + RestoreEvents(qs));
    Unroll(Fresh(panels), Sync(true), [ModesAnswered(true)] + ([Written] + (Touches(ps, true) + rest)));
    Unroll(Fresh(panels).(at := Asking), ModesAnswered(true), [Written] + (Touches(ps, true) + rest));
    Unroll(Fresh(panels).(at := Writing(panels)), Written, Touches(ps, true) + rest);
    RunJoins(w, Touches(ps, true), rest);
    HideTouchesAll(w, ps);
    var hidden := RunDesk(w, Touches(ps, true));
    Unroll(hidden, Crash(false), RestoreEvents(qs));
    var crashed := StepDesk(hidden, Crash(false));
    RestoringRestores(crashed, panels, qs);
    assert RunDesk(crashed, RestoreEvents(qs)).panels == panels;
  }

  /** After a crash the next game hides again, under the map there is: the modes the
      crash left behind are not taken for the user's. */
  lemma CrashThenHide(d: Desk)
    requires d.disk.Saved?
    ensures StepDesk(StepDesk(d, Crash(false)), Sync(true)) == d.(active := false, at := Hiding)
  {
  }

  /** What a request leads to when the process is free: hiding asks for the modes
      unless a map is saved, restoring runs the saved map, and nothing is done that
      is not needed. */
  lemma SyncExactly(d: Desk, want: bool)
    requires d.at.Idle?
    ensures var next := StepDesk(d, Sync(want));
            if want then
              next == d.(at := if d.active then Idle else if d.disk.Saved? then Hiding else Asking)
            else if d.disk.Saved? && d.disk.modes != map[] then next == d.(at := Restoring(d.disk.modes))
            else if d.active || d.disk.Saved? then next == d.(disk := Missing, active := false)
            else next == d
  {
  }

  /** A hiding whose script failed is not taken for one that worked: the next
      request hides again, under the map that was saved. */
  lemma FailedHidingIsRetried(d: Desk, saved: map<PanelId, Mode>)
    requires d.at.Hiding? && d.disk == Saved(saved) && !d.active
    ensures var failed := StepDesk(d, HideAnswered(false));
            !failed.active && StepDesk(failed, Sync(true)) == d
  {
  }
}
