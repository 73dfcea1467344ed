/** The window's height through idle collapse, expansion and drags, with
    animations that the next request cancels. */
module WindowHeight {
  import opened Texts

  const MIN_HEIGHT: int := 280
  const DEFAULT_HEIGHT: int := 500
  const FULL_HIDE: int := 1

  datatype Anim = Anim(start: int, target: int)

  /** expanded and snapshot are expandedHeight and the height in expandedBounds;
      area is the work area's height, anchor the size held during a drag. */
  datatype Win = Win(
    area: int,
    height: int,
    collapsed: bool,
    expanded: int,
    snapshot: Option<int>,
    anim: Option<Anim>,
    moving: bool,
    anchor: Option<int>)

  datatype WinEvent =
    | Collapse(headerH: real, fullHide: bool)
    | Expand
    | Frame(eased: real)      // an animation frame before the last
    | LastFrame
    | MoveStart
    | MoveTick
    | MoveEnd

  // ----- specification -----

  function Max(a: int, b: int): int { if a >= b then a else b }
  function Min(a: int, b: int): int { if a <= b then a else b }

  /** Rounding to the nearest integer, halves up. */
  function Round(x: real): int {
    (x + 0.5).Floor
  }

  /** Every geometry write: the floor is one pixel only for short frames of a
      collapsed window, and zero stands for no height. */
  function Guarded(w: Win, wanted: int): int {
    var low := if w.collapsed && wanted < MIN_HEIGHT then 1 else MIN_HEIGHT;
    Max(low, Min(if wanted == 0 then DEFAULT_HEIGHT else wanted, w.area))
  }

  function Set(w: Win, wanted: int): Win {
    w.(height := Guarded(w, wanted))
  }

  predicate Near(a: int, b: int) {
    -2 < a - b < 2
  }

  function AnimateTo(w: Win, target: int): Win {
    if Near(w.height, target) then Set(w, target).(anim := None)
    else w.(anim := Some(Anim(w.height, target)))
  }

  function TargetOf(headerH: real, fullHide: bool): int {
    if fullHide then FULL_HIDE else Max(24, Round(headerH))
  }

  function CollapseTo(w: Win, target: int): Win {
    if w.moving || w.collapsed then w else
    // A frame of a running animation is not the size to come back to.
    var full := if w.anim.Some? && w.anim.value.target != 0 && w.anim.value.target > w.height
                then w.anim.value.target else w.height;
    AnimateTo(w.(anim := None, snapshot := Some(full), expanded := full, collapsed := true), target)
  }

  function Restored(w: Win): int {
    if w.expanded >= MIN_HEIGHT then w.expanded
    else if w.snapshot.Some? && w.snapshot.value >= MIN_HEIGHT then w.snapshot.value else DEFAULT_HEIGHT
  }

  function ExpandFrom(w: Win): Win {
    AnimateTo(w.(anim := None, collapsed := false, snapshot := None), Restored(w))
  }

  function FrameHeight(a: Anim, eased: real): int {
    Round(a.start as real + (a.target - a.start) as real * eased)
  }

  function StartMove(w: Win): Win {
    var q := if w.collapsed || w.anim.Some?
             then Set(w.(anim := None, collapsed := false, snapshot := None), Restored(w)) else w;
    q.(moving := true, anchor := Some(q.height))
  }

  function StepWin(w: Win, e: WinEvent): Win {
    match e
    case Collapse(headerH, fullHide) => CollapseTo(w, TargetOf(headerH, fullHide))
    case Expand => ExpandFrom(w)
    case Frame(eased) => if w.anim.Some? then Set(w, FrameHeight(w.anim.value, eased)) else w
    case LastFrame => if w.anim.Some? then Set(w, w.anim.value.target).(anim := None) else w
    case MoveStart => StartMove(w)
    case MoveTick => if w.moving && w.anchor.Some? then Set(w, w.anchor.value) else w
    case MoveEnd => w.(moving := false, anchor := None)
  }

  function RunWin(w: Win, es: seq<WinEvent>): Win
    decreases es
  {
    if es == [] then w else RunWin(StepWin(w, es[0]), es[1..])
  }

  /** A window of this height in a work area, nothing collapsed or remembered yet. */
  function Plain(height: int, area: int, remembered: int): Win {
    Win(area, height, false, remembered, None, None, false, None)
  }

  /** Frames are eased between start and end. */
  predicate Eased(e: WinEvent) {
    e.Frame? ==> 0.0 <= e.eased <= 1.0
  }

  /** The targets an idle collapse can have. */
  predicate Reachable(target: int) {
    target == FULL_HIDE || target >= 24
  }

  ghost predicate Within(es: seq<WinEvent>, targets: set<int>) {
    forall i :: 0 <= i < |es| ==> EventWithin(es[i], targets)
  }

  predicate EventWithin(e: WinEvent, targets: set<int>) {
    Eased(e) && (e.Collapse? ==> TargetOf(e.headerH, e.fullHide) in targets)
  }

  predicate Rests(w: Win) {
    !w.collapsed && w.anim.None?
  }

  // ----- while targets stay within one pixel of the window -----

  predicate Low(target: int, area: int, home: int) {
    target >= 1 && Min(target, area) <= home + 1
  }

  predicate WinOk(w: Win, home: int) {
    && MIN_HEIGHT <= home <= w.area
    && w.expanded == home
    && (Rests(w) ==> w.height == home)
    && (w.moving ==> Rests(w) && w.anchor == Some(home))
    && 1 <= w.height <= home + 1
    && (w.anim.Some? ==> 1 <= w.anim.value.start)
    && (w.anim.Some? ==>
          if w.collapsed then Low(w.anim.value.target, w.area, home) && w.anim.value.start <= home + 1
          else w.anim.value.target == home && w.anim.value.start <= home && w.height <= home)
  }

  lemma FrameBetween(a: Anim, eased: real)
    requires 0.0 <= eased <= 1.0
    ensures Min(a.start, a.target) <= FrameHeight(a, eased) <= Max(a.start, a.target)
  {
    var d := (a.target - a.start) as real;
    if d >= 0.0 {
      assert 0.0 <= d * eased <= d;
    } else {
      assert d <= d * eased <= 0.0;
    }
  }

  lemma StepWinKeeps(w: Win, e: WinEvent, home: int)
    requires WinOk(w, home) && Eased(e)
    requires e.Collapse? ==> Low(TargetOf(e.headerH, e.fullHide), w.area, home)
    ensures WinOk(StepWin(w, e), home) && StepWin(w, e).area == w.area
  {
    if e.Frame? && w.anim.Some? { FrameKeeps(w, e.eased, home); }
  }

  lemma FrameKeeps(w: Win, eased: real, home: int)
    requires WinOk(w, home) && w.anim.Some? && 0.0 <= eased <= 1.0
    ensures WinOk(Set(w, FrameHeight(w.anim.value, eased)), home)
  {
    FrameBetween(w.anim.value, eased);
  }

  lemma {:induction false} RunWinKeeps(w: Win, es: seq<WinEvent>, targets: set<int>, home: int)
    requires WinOk(w, home) && Within(es, targets) && forall t :: t in targets ==> Low(t, w.area, home)
    ensures WinOk(RunWin(w, es), home)
    decreases es
  {
    if es != [] {
      assert EventWithin(es[0], targets);
      StepWinKeeps(w, es[0], home);
      RunWinKeeps(StepWin(w, es[0]), es[1..], targets, home);
    }
  }

  // ----- the run that loses the height -----

  /** Collapse to a target above the window, expand, and collapse again before the
      window has come down. */
  function LosingRun(target: int): seq<WinEvent> {
    [LastFrame] + ([Expand] + ([Header(target)] + ([Expand] + [])))
  }

  function Header(target: int): WinEvent {
    Collapse(target as real, target == FULL_HIDE)
  }

  lemma Unroll(w: Win, e: WinEvent, rest: seq<WinEvent>)
    ensures RunWin(w, [e] + rest) == RunWin(StepWin(w, e), rest)
  {
    assert ([e] + rest)[0] == e && ([e] + rest)[1..] == rest;
  }

  lemma LosingRunLoses(home: int, area: int, remembered: int, target: int)
    requires MIN_HEIGHT <= home <= area && Reachable(target) && !Low(target, area, home)
    ensures var w := RunWin(StepWin(Plain(home, area, remembered), Header(target)), LosingRun(target));
            Rests(w) && w.height == Min(target, area) > home
  {
    var w1 := StepWin(Plain(home, area, remembered), Header(target));
    var w2 := StepWin(w1, LastFrame);
    var w3 := StepWin(w2, Expand);
    var w4 := StepWin(w3, Header(target));
    var w5 := StepWin(w4, Expand);
    Unroll(w4, Expand, []);
    Unroll(w3, Header(target), [Expand] + []);
    Unroll(w2, Expand, [Header(target)] + ([Expand] + []));
    Unroll(w1, LastFrame, [Expand] + ([Header(target)] + ([Expand] + [])));
    assert w2.height == Min(target, area);
  }

  // ----- main result -----

  /** From a first collapse on, whenever the window is expanded and still, it has
      the height it had before. */
  ghost predicate AlwaysBack(home: int, area: int, remembered: int, targets: set<int>) {
    forall first, es :: first in targets && Within(es, targets) ==>
      Back(RunWin(CollapseTo(Plain(home, area, remembered), first), es), home)
  }

  predicate Back(w: Win, home: int) {
    Rests(w) ==> w.height == home
  }

  /** The height is recovered through every interleaving of collapses, expansions,
      cancelled animations and drags exactly when no collapse target, cut to the
      work area, lies two pixels or more above the window. */
  lemma HeightIsRecoveredExactly(home: int, area: int, remembered: int, targets: set<int>)
    requires MIN_HEIGHT <= home <= area && forall t :: t in targets ==> Reachable(t)
    ensures AlwaysBack(home, area, remembered, targets) <==> forall t :: t in targets ==> Min(t, area) <= home + 1
  {
    if forall t :: t in targets ==> Min(t, area) <= home + 1 {
      forall first, es | first in targets && Within(es, targets)
        ensures Back(RunWin(CollapseTo(Plain(home, area, remembered), first), es), home)
      {
        RunWinKeeps(CollapseTo(Plain(home, area, remembered), first), es, targets, home);
      }
    } else {
      var t :| t in targets && Min(t, area) > home + 1;
      LosingRunLoses(home, area, remembered, t);
      assert Within(LosingRun(t), targets);
      assert !Back(RunWin(CollapseTo(Plain(home, area, remembered), t), LosingRun(t)), home);
    }
  }

  // ----- the variables and handlers themselves -----

  class OverlayWindow {
    const area: int
    var height: int
    var collapsed: bool
    var expandedHeight: int
    var expandedBounds: Option<int>
    var collapseAnim: Option<Anim>
    var movingActive: bool
    var moveAnchor: Option<int>

    ghost function View(): Win
      reads this
    {
      Win(area, height, collapsed, expandedHeight, expandedBounds, collapseAnim, movingActive, moveAnchor)
    }

    method SetBoundsGuarded(wanted: int)
      modifies this`height
      ensures View() == Set(old(View()), wanted)
    {
      var low := if collapsed && wanted < MIN_HEIGHT then 1 else MIN_HEIGHT;
      height := Max(low, Min(if wanted == 0 then DEFAULT_HEIGHT else wanted, area));
    }

    method AnimateHeightTo(target: int)
      modifies this`height, this`collapseAnim
      ensures View() == AnimateTo(old(View()), target)
    {
      collapseAnim := None;
      if Near(height, target) {
        SetBoundsGuarded(target);
        return;
      }
      collapseAnim := Some(Anim(height, target));
    }

    method CollapseToHeader(headerH: real, fullHide: bool)
      modifies this
      ensures View() == StepWin(old(View()), Collapse(headerH, fullHide))
    {
      if movingActive || collapsed { return; }
      var target := if fullHide then FULL_HIDE else Max(24, Round(headerH));
      var running := collapseAnim;
      collapseAnim := None;
      var full := if running.Some? && running.value.target != 0 && running.value.target > height
                  then running.value.target else height;
      expandedBounds, expandedHeight, collapsed := Some(full), full, true;
      AnimateHeightTo(target);
    }

    method ExpandFromHeader()
      modifies this
      ensures View() == StepWin(old(View()), Expand)
    {
      collapseAnim, collapsed := None, false;
      var target := if expandedHeight >= MIN_HEIGHT then expandedHeight
                    else if expandedBounds.Some? && expandedBounds.value >= MIN_HEIGHT then expandedBounds.value
                    else DEFAULT_HEIGHT;
      expandedBounds := None;
      AnimateHeightTo(target);
    }

    method OnFrame(eased: real, last: bool)
      requires collapseAnim.Some?
      modifies this`height, this`collapseAnim
      ensures View() == StepWin(old(View()), if last then LastFrame else Frame(eased))
    {
      var a := collapseAnim.value;
      SetBoundsGuarded(FrameHeight(a, eased));
      if last {
        collapseAnim := None;
        SetBoundsGuarded(a.target);
      }
    }

    method OnMoveStart()
      modifies this
      ensures View() == StepWin(old(View()), MoveStart)
    {
      movingActive := true;
      if collapsed || collapseAnim.Some? {
        collapseAnim, collapsed := None, false;
        var target := if expandedHeight >= MIN_HEIGHT then expandedHeight
                      else if expandedBounds.Some? && expandedBounds.value >= MIN_HEIGHT then expandedBounds.value
                      else DEFAULT_HEIGHT;
        expandedBounds := None;
        SetBoundsGuarded(target);
      }
      moveAnchor := Some(height);
    }

    method OnMoveTick()
      modifies this`height
      ensures View() == StepWin(old(View()), MoveTick)
    {
      if !movingActive || moveAnchor.None? { return; }
      SetBoundsGuarded(moveAnchor.value);
    }
  }
}
