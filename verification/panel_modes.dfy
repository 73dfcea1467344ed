/** Hiding the desktop panels during the game: modes saved before they are
    changed and put back later, with a crash possible between any two steps. */
module PanelModes {
  import opened Texts

  type PanelId = nat

  /** The four modes the code knows, and any other a panel may report. */
  datatype Mode = Windowed | Autohide | DodgeWindows | WindowsGoBelow | Unlisted(name: string)

  predicate Listed(m: Mode) {
    !m.Unlisted?
  }

  /** A file cut short by a crash reads as no file. */
  datatype Disk = Missing | Torn | Saved(modes: map<PanelId, Mode>)

  datatype Answer = Ok | Locked | Failed

  /** Where the process is inside its two routines. */
  datatype At =
    | Idle
    | Asking                                              // for the panels' modes
    | Writing(modes: map<PanelId, Mode>)
    | Hiding                                              // the script sets every panel
    | Restoring(modes: map<PanelId, Mode>)
    | Clearing(modes: map<PanelId, Mode>, answer: Answer)

  datatype Desk = Desk(panels: map<PanelId, Mode>, disk: Disk, active: bool, at: At)

  datatype DeskEvent =
    | Sync(want: bool)                 // a game or visibility transition
    | RestoreNow                       // at startup and before quitting
    | ModesAnswered(ok: bool)
    | Written
    | WriteFailed(torn: bool)          // the error is swallowed
    | HideTouches(p: PanelId)
    | HideAnswered(ok: bool)
    | RestoreTouches(p: PanelId)
    | RestoreAnswered(answer: Answer)
    | Cleared
    | Crash(torn: bool)

  // ----- specification -----

  function Known(panels: map<PanelId, Mode>): map<PanelId, Mode> {
    map p | p in panels && Listed(panels[p]) :: panels[p]
  }

  predicate AllHidden(modes: map<PanelId, Mode>) {
    forall p :: p in modes ==> modes[p].Autohide?
  }

  function BeginHide(d: Desk): Desk {
    // With a map on the disk the modes in force are not the user's own.
    if d.active then d else if d.disk.Saved? then d.(at := Hiding) else d.(at := Asking)
  }

  function BeginRestore(d: Desk): Desk {
    if d.disk.Saved? && d.disk.modes != map[] then d.(at := Restoring(d.disk.modes))
    else d.(disk := Missing, active := false)
  }

  function OnSync(d: Desk, want: bool): Desk {
    if want && !d.active then BeginHide(d)
    else if !want && (d.active || d.disk.Saved?) then BeginRestore(d)
    else d
  }

  function OnModes(d: Desk, ok: bool): Desk {
    if !ok || Known(d.panels) == map[] then d.(at := Idle) else d.(at := Writing(Known(d.panels)))
  }

  /** After the write, whether it worked or not. */
  function AfterWrite(d: Desk): Desk
    requires d.at.Writing?
  {
    if AllHidden(d.at.modes) then d.(active := true, at := Idle) else d.(at := Hiding)
  }

  function Touch(d: Desk, p: PanelId, m: Mode): Desk {
    if p in d.panels then d.(panels := d.panels[p := m]) else d
  }

  function StepDesk(d: Desk, e: DeskEvent): Desk {
    match e
    case Sync(want) => if d.at.Idle? then OnSync(d, want) else d
    case RestoreNow => if d.at.Idle? then BeginRestore(d) else d
    case ModesAnswered(ok) => if d.at.Asking? then OnModes(d, ok) else d
    case Written => if d.at.Writing? then AfterWrite(d.(disk := Saved(d.at.modes))) else d
    case WriteFailed(torn) => if d.at.Writing? then AfterWrite(if torn then d.(disk := Torn) else d) else d
    case HideTouches(p) => if d.at.Hiding? then Touch(d, p, Autohide) else d
    case HideAnswered(ok) => if d.at.Hiding? then d.(active := d.active || ok, at := Idle) else d
    case RestoreTouches(p) =>
      if d.at.Restoring? && p in d.at.modes then Touch(d, p, d.at.modes[p]) else d
    case RestoreAnswered(answer) =>
      if !d.at.Restoring? then d
      else if answer.Failed? then d.(at := Idle) else d.(at := Clearing(d.at.modes, answer))
    case Cleared => if d.at.Clearing? then d.(disk := Missing, active := false, at := Idle) else d
    case Crash(torn) => d.(disk := if d.at.Writing? && torn then Torn else d.disk, active := false, at := Idle)
  }

  function RunDesk(d: Desk, es: seq<DeskEvent>): Desk
    decreases es
  {
    if es == [] then d else RunDesk(StepDesk(d, es[0]), es[1..])
  }

  /** A restore script answers ok only when it has reached every saved panel. */
  predicate Honest(d: Desk, e: DeskEvent) {
    e.RestoreAnswered? && e.answer.Ok? && d.at.Restoring? ==>
      forall p :: p in d.at.modes && p in d.panels ==> d.panels[p] == d.at.modes[p]
  }

  predicate HonestRun(d: Desk, es: seq<DeskEvent>)
    decreases es
  {
    es != [] ==> Honest(d, es[0]) && HonestRun(StepDesk(d, es[0]), es[1..])
  }

  function Fresh(panels: map<PanelId, Mode>): Desk {
    Desk(panels, Missing, false, Idle)
  }

  // ----- one panel -----

  /** The panel is in its user's mode, or the saved map still holds that mode. */
  predicate Recoverable(d: Desk, p: PanelId, user: Mode)
    requires p in d.panels
  {
    d.panels[p] == user || (d.disk.Saved? && p in d.disk.modes && d.disk.modes[p] == user)
  }

  /** The two ways to forget a panel's mode, as the state before shows them:
      hiding it when the disk does not hold its mode, and dropping the map after a
      locked answer that left the panel hidden. */
  predicate Forgets(d: Desk, e: DeskEvent, p: PanelId)
    requires p in d.panels
  {
    || (e == HideTouches(p) && d.at.Hiding? && !d.panels[p].Autohide?
        && !(d.disk.Saved? && p in d.disk.modes))
    || (e.Cleared? && d.at.Clearing? && d.at.answer.Locked?
        && p in d.at.modes && d.panels[p] != d.at.modes[p])
  }

  predicate HeldOk(modes: map<PanelId, Mode>, p: PanelId, now: Mode, user: Mode) {
    && (p in modes ==> modes[p] == user || (modes[p].Autohide? && now.Autohide?))
    && (p !in modes ==> !Listed(user) && (now == user || now.Autohide?))
  }

  predicate PanelOk(d: Desk, p: PanelId, user: Mode) {
    && p in d.panels && (d.panels[p] == user || d.panels[p].Autohide?)
    && (d.disk.Saved? ==> HeldOk(d.disk.modes, p, d.panels[p], user))
    && (match d.at
        case Asking => !d.disk.Saved?
        case Writing(m) => !d.disk.Saved? && m == Known(d.panels)
        case Restoring(m) => d.disk == Saved(m)
        case Clearing(m, answer) =>
          d.disk == Saved(m) && !answer.Failed? && (answer.Ok? && p in m ==> d.panels[p] == m[p])
        case _ => true)
  }

  lemma StepPanelOk(d: Desk, e: DeskEvent, p: PanelId, user: Mode)
    requires PanelOk(d, p, user) && Honest(d, e)
    ensures PanelOk(StepDesk(d, e), p, user)
  {
  }

  lemma StepPanel(d: Desk, e: DeskEvent, p: PanelId, user: Mode)
    requires PanelOk(d, p, user) && Honest(d, e)
    ensures var next := StepDesk(d, e);
            && PanelOk(next, p, user)
            && (Recoverable(next, p, user) <==> Recoverable(d, p, user) && !Forgets(d, e, p))
  {
    StepPanelOk(d, e, p, user);
  }

  predicate NeverForgets(d: Desk, es: seq<DeskEvent>, p: PanelId)
    decreases es
  {
    es != [] ==> p in d.panels && !Forgets(d, es[0], p) && NeverForgets(StepDesk(d, es[0]), es[1..], p)
  }

  lemma {:induction false} RunPanel(d: Desk, es: seq<DeskEvent>, p: PanelId, user: Mode)
    requires PanelOk(d, p, user) && HonestRun(d, es) && Recoverable(d, p, user)
    ensures PanelOk(RunDesk(d, es), p, user)
    ensures Recoverable(RunDesk(d, es), p, user) <==> NeverForgets(d, es, p)
    decreases es
  {
    if es != [] {
      StepPanel(d, es[0], p, user);
      if Recoverable(StepDesk(d, es[0]), p, user) {
        RunPanel(StepDesk(d, es[0]), es[1..], p, user);
      } else {
        LostForever(StepDesk(d, es[0]), es[1..], p, user);
      }
    }
  }

  lemma {:induction false} LostForever(d: Desk, es: seq<DeskEvent>, p: PanelId, user: Mode)
    requires PanelOk(d, p, user) && HonestRun(d, es) && !Recoverable(d, p, user)
    ensures PanelOk(RunDesk(d, es), p, user) && !Recoverable(RunDesk(d, es), p, user)
    decreases es
  {
    if es != [] {
      StepPanel(d, es[0], p, user);
      LostForever(StepDesk(d, es[0]), es[1..], p, user);
    }
  }

  // ----- what every run guarantees -----

  /** Crash safety, exactly: over every run, with a crash between any two steps,
      a panel's own mode is in force or on the disk if and only if no step hid the
      panel while the disk did not hold its mode, and none dropped the map after a
      locked answer that left it hidden. What is lost stays lost. */
  lemma RecoverableExactly(panels: map<PanelId, Mode>, es: seq<DeskEvent>, p: PanelId)
    requires p in panels && HonestRun(Fresh(panels), es)
    ensures p in RunDesk(Fresh(panels), es).panels
    ensures Recoverable(RunDesk(Fresh(panels), es), p, panels[p]) <==> NeverForgets(Fresh(panels), es, p)
  {
    RunPanel(Fresh(panels), es, p, panels[p]);
  }

  /** The assumptions under which nothing is ever lost. */
  predicate Kind(es: seq<DeskEvent>) {
    forall i :: 0 <= i < |es| ==> !es[i].WriteFailed? && es[i] != RestoreAnswered(Locked)
  }

  /** With them the process hides panels only under a saved map of all of them. */
  predicate Covered(d: Desk, p: PanelId) {
    && (d.at.Hiding? ==> d.disk.Saved?)
    && (d.disk.Saved? ==> p in d.disk.modes)
    && (d.at.Clearing? ==> !d.at.answer.Locked?)
  }

  lemma {:induction false} KindRun(d: Desk, es: seq<DeskEvent>, p: PanelId, user: Mode)
    requires PanelOk(d, p, user) && Listed(user) && Covered(d, p) && HonestRun(d, es) && Kind(es)
    ensures NeverForgets(d, es, p)
    decreases es
  {
    if es != [] {
      StepPanel(d, es[0], p, user);
      KindRun(StepDesk(d, es[0]), es[1..], p, user);
    }
  }

  /** As long as writes succeed, modes are listed and no restore is answered
      locked, every panel stays recoverable through any crashes. */
  lemma CrashesLoseNothing(panels: map<PanelId, Mode>, es: seq<DeskEvent>, p: PanelId)
    requires p in panels && Listed(panels[p]) && HonestRun(Fresh(panels), es) && Kind(es)
    ensures p in RunDesk(Fresh(panels), es).panels
    ensures Recoverable(RunDesk(Fresh(panels), es), p, panels[p])
  {
    KindRun(Fresh(panels), es, p, panels[p]);
    RecoverableExactly(panels, es, p);
  }

  /** The disk and the panels as wholes: without a map the panels are as the user
      had them, and a map is exactly what he had. */
  predicate WholeOk(d: Desk, original: map<PanelId, Mode>) {
    && d.panels.Keys == original.Keys
    && (d.disk.Saved? ==> d.disk.modes == original)
    && (!d.disk.Saved? ==> d.panels == original)
    && (match d.at
        case Asking => !d.disk.Saved?
        case Writing(m) => !d.disk.Saved? && m == original
        case Hiding => d.disk.Saved?
        case Restoring(m) => d.disk == Saved(m)
        case Clearing(m, answer) => d.disk == Saved(m) && answer.Ok? && d.panels == original
        case Idle => true)
  }

  lemma StepWhole(d: Desk, e: DeskEvent, original: map<PanelId, Mode>)
    requires WholeOk(d, original) && Honest(d, e) && !e.WriteFailed? && e != RestoreAnswered(Locked)
    requires Known(original) == original
    ensures WholeOk(StepDesk(d, e), original)
  {
    if e.HideTouches? && d.at.Hiding? {
      assert StepDesk(d, e).panels.Keys == d.panels.Keys;
    } else if e.RestoreTouches? && d.at.Restoring? {
      assert StepDesk(d, e).panels.Keys == d.panels.Keys;
    } else if e.RestoreAnswered? && d.at.Restoring? && e.answer.Ok? {
      assert d.panels == original;
    }
  }

  lemma {:induction false} RunWhole(d: Desk, es: seq<DeskEvent>, original: map<PanelId, Mode>)
    requires WholeOk(d, original) && HonestRun(d, es) && Kind(es) && Known(original) == original
    ensures WholeOk(RunDesk(d, es), original)
    decreases es
  {
    if es != [] {
      StepWhole(d, es[0], original);
      RunWhole(StepDesk(d, es[0]), es[1..], original);
    }
  }

  /** Under the same assumptions, whatever crashes: either no map is saved and all
      panels are in the user's own modes, or the map is exactly those modes. */
  lemma {:induction false} MapIsWhole(panels: map<PanelId, Mode>, es: seq<DeskEvent>)
    requires HonestRun(Fresh(panels), es) && Kind(es) && forall p :: p in panels ==> Listed(panels[p])
    ensures var d := RunDesk(Fresh(panels), es);
            if d.disk.Saved? then d.disk.modes == panels else d.panels == panels
  {
    assert Known(panels) == panels;
    RunWhole(Fresh(panels), es, panels);
  }

  /** A restore that reaches its end with ok gives every recoverable panel its
      user's mode back, and leaves no map behind. */
  lemma RestoreRecovers(panels: map<PanelId, Mode>, es: seq<DeskEvent>, p: PanelId)
    requires p in panels && HonestRun(Fresh(panels), es)
    requires NeverForgets(Fresh(panels), es, p)
    requires var d := RunDesk(Fresh(panels), es); d.at.Clearing? && d.at.answer.Ok?
    ensures var done := StepDesk(RunDesk(Fresh(panels), es), Cleared);
            p in done.panels && done.panels[p] == panels[p] && done.disk.Missing? && !done.active
  {
    RunPanel(Fresh(panels), es, p, panels[p]);
  }

  /** The smallest run that forgets: hide one panel, crash, find the widgets locked. */
  function LockedRun(): seq<DeskEvent> {
    [Sync(true)] + ([ModesAnswered(true)] + ([Written] + LockedTail()))
  }

  function LockedTail(): seq<DeskEvent> {
    [HideTouches(7)] + ([Crash(false)] + ([RestoreNow] + ([RestoreAnswered(Locked)] + ([Cleared] + []))))
  }

  lemma LockedForgets()
    ensures var d := RunDesk(Fresh(map[7 := DodgeWindows]), LockedRun());
            HonestRun(Fresh(map[7 := DodgeWindows]), LockedRun())
            && d == Desk(map[7 := Autohide], Missing, false, Idle)
  {
    var m := map[7 := DodgeWindows];
    HiddenOnce(m);
    TailForgets(m);
    Unroll(Desk(m, Missing, false, Writing(m)), Written, LockedTail());
    Unroll(Desk(m, Missing, false, Asking), ModesAnswered(true), [Written] + LockedTail());
    Unroll(Fresh(m), Sync(true), [ModesAnswered(true)] + ([Written] + LockedTail()));
  }

  lemma TailForgets(m: map<PanelId, Mode>)
    requires m == map[7 := DodgeWindows]
    ensures var d := Desk(m, Saved(m), false, Hiding);
            HonestRun(d, LockedTail()) && RunDesk(d, LockedTail()) == Desk(map[7 := Autohide], Missing, false, Idle)
  {
    var hidden := map[7 := Autohide];
    assert m[7 := Autohide] == hidden;
    assert 7 in m;
    var cleared: seq<DeskEvent> := [Cleared] + [];
    var locked := [RestoreAnswered(Locked)] + cleared;
    var again := [RestoreNow] + locked;
    Unroll(Desk(hidden, Saved(m), false, Clearing(m, Locked)), Cleared, []);
    Unroll(Desk(hidden, Saved(m), false, Restoring(m)), RestoreAnswered(Locked), cleared);
    Unroll(Desk(hidden, Saved(m), false, Idle), RestoreNow, locked);
    Unroll(Desk(hidden, Saved(m), false, Hiding), Crash(false), again);
    Unroll(Desk(m, Saved(m), false, Hiding), HideTouches(7), [Crash(false)] + again);
  }

  lemma HiddenOnce(m: map<PanelId, Mode>)
    requires m == map[7 := DodgeWindows]
    ensures StepDesk(Desk(m, Missing, false, Asking), ModesAnswered(true)) == Desk(m, Missing, false, Writing(m))
    ensures StepDesk(Desk(m, Missing, false, Writing(m)), Written) == Desk(m, Saved(m), false, Hiding)
  {
    assert Known(m) == m;
    assert 7 in m && !m[7].Autohide?;
  }

  lemma Unroll(d: Desk, e: DeskEvent, rest: seq<DeskEvent>)
    ensures RunDesk(d, [e] + rest) == RunDesk(StepDesk(d, e), rest)
    ensures HonestRun(d, [e] + rest) <==> Honest(d, e) && HonestRun(StepDesk(d, e), rest)
  {
    assert ([e] + rest)[0] == e && ([e] + rest)[1..] == rest;
  }

  // ----- the two routines, run to their end -----

  function HideEach(d: Desk, ps: seq<PanelId>): Desk
    decreases ps
  {
    if ps == [] then d else HideEach(StepDesk(d, HideTouches(ps[0])), ps[1..])
  }

  function RestoreEach(d: Desk, ps: seq<PanelId>): Desk
    decreases ps
  {
    if ps == [] then d else RestoreEach(StepDesk(d, RestoreTouches(ps[0])), ps[1..])
  }

  /** One hiding from its first step to its last. */
  function HideAll(d: Desk, asked: bool, write: DeskEvent, reached: seq<PanelId>, ok: bool): Desk {
    var written := StepDesk(StepDesk(BeginHide(d), ModesAnswered(asked)), write);
    StepDesk(HideEach(written, reached), HideAnswered(ok))
  }

  function RestoreAll(d: Desk, reached: seq<PanelId>, answer: Answer): Desk {
    StepDesk(StepDesk(RestoreEach(BeginRestore(d), reached), RestoreAnswered(answer)), Cleared)
  }

  class PanelHider {
    var panels: map<PanelId, Mode>
    var disk: Disk
    var active: bool

    ghost function View(): Desk
      reads this
    {
      Desk(panels, disk, active, Idle)
    }

    /** The script's loop over the panels it reaches. */
    method RunHideScript(reached: seq<PanelId>)
      modifies this`panels
      ensures View().(at := Hiding) == HideEach(old(View()).(at := Hiding), reached)
    {
      var k := 0;
      while k < |reached|
        invariant k <= |reached|
        invariant HideEach(View().(at := Hiding), reached[k..]) == HideEach(old(View()).(at := Hiding), reached)
      {
        if reached[k] in panels { panels := panels[reached[k] := Autohide]; }
        k := k + 1;
      }
    }

    method RunRestoreScript(modes: map<PanelId, Mode>, reached: seq<PanelId>)
      modifies this`panels
      ensures View().(at := Restoring(modes)) == RestoreEach(old(View()).(at := Restoring(modes)), reached)
    {
      var k := 0;
      while k < |reached|
        invariant k <= |reached|
        invariant RestoreEach(View().(at := Restoring(modes)), reached[k..])
                  == RestoreEach(old(View()).(at := Restoring(modes)), reached)
      {
        if reached[k] in modes && reached[k] in panels { panels := panels[reached[k] := modes[reached[k]]]; }
        k := k + 1;
      }
    }

    method ApplyPanelHide(asked: bool, write: DeskEvent, reached: seq<PanelId>, ok: bool)
      requires write.Written? || write.WriteFailed?
      modifies this
      ensures View() == HideAll(old(View()), asked, write, reached, ok)
    {
      ghost var before := View();
      if active { HideNothing(before, reached); return; }
      if !disk.Saved? {
        var modes := Known(panels);
        if !asked || modes == map[] { HideNothing(before, reached); return; }
        if write.Written? { disk := Saved(modes); } else if write.torn { disk := Torn; }
        if AllHidden(modes) {
          active := true;
          HideNothing(View(), reached);
          return;
        }
      }
      RunHideScript(reached);
      if ok { active := true; }
    }

    method RestorePanels(reached: seq<PanelId>, answer: Answer)
      modifies this
      ensures View() == RestoreAll(old(View()), reached, answer)
    {
      if !disk.Saved? || disk.modes == map[] {
        disk, active := Missing, false;
        RestoreNothing(View(), reached);
        return;
      }
      RunRestoreScript(disk.modes, reached);
      if !answer.Failed? { disk, active := Missing, false; }
    }
  }

  lemma {:induction false} HideNothing(d: Desk, ps: seq<PanelId>)
    requires d.at.Idle?
    ensures HideEach(d, ps) == d
    decreases ps
  {
    if ps != [] { HideNothing(d, ps[1..]); }
  }

  lemma {:induction false} RestoreNothing(d: Desk, ps: seq<PanelId>)
    requires d.at.Idle?
    ensures RestoreEach(d, ps) == d
    decreases ps
  {
    if ps != [] { RestoreNothing(d, ps[1..]); }
  }
}
