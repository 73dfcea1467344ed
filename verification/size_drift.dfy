/** Window sizes on a scaled display: a commanded size comes back a little off,
    and must not creep into what is saved. */
module SizeDrift {
  import opened Texts
  import WH = WindowHeight

  const TOLERANCE: int := 2
  const MIN_SIZE: Size := Size(320, 280)
  const MODAL_FIT: Size := Size(560, 720)

  datatype Size = Size(width: int, height: int)

  predicate Within(a: Size, b: Size, n: int) {
    -n <= a.width - b.width <= n && -n <= a.height - b.height <= n
  }

  /** base is the size remembered from modal to modal, prev the one to give back
      after this one; last is the size last written, saved all of them. While the
      window is collapsed, expanded is the height to come back to. */
  datatype Frame = Frame(area: Size, win: Size, last: Size, base: Option<Size>, prev: Option<Size>, saved: seq<Size>,
                         collapsed: bool, animating: bool, expanded: int)

  // ----- specification -----

  function Clamp(s: Size, area: Size): Size {
    Size(WH.Max(MIN_SIZE.width, WH.Min(s.width, area.width)),
         WH.Max(MIN_SIZE.height, WH.Min(s.height, area.height)))
  }

  /** Where a commanded size lands. */
  function Land(s: Size, off: Size): Size {
    Size(s.width + off.width, s.height + off.height)
  }

  /** A size within the tolerance of the reference on both axes is drift. */
  function Resolve(observed: Size, reference: Option<Size>): Size {
    if reference.None? || reference.value.width == 0 || reference.value.height == 0 then observed
    else if Within(observed, reference.value, TOLERANCE) then reference.value else observed
  }

  /** The size a modal needs, if that is more than there is. */
  function ModalFit(s: Size, area: Size): Option<Size> {
    var want := Size(WH.Max(s.width, MODAL_FIT.width), WH.Max(s.height, MODAL_FIT.height));
    if want == s || Clamp(want, area) == s then None else Some(Clamp(want, area))
  }

  datatype FrameEvent = Save | Grow(off: Size) | Restore(off: Size)

  function Persist(f: Frame): Frame {
    var held := if f.prev.Some? then f.prev.value else f.win;
    var height := if f.collapsed && f.expanded != 0 then f.expanded else held.height;
    var size := if f.collapsed || f.prev.Some? then Size(held.width, height) else Resolve(f.win, Some(f.last));
    f.(last := size, saved := f.saved + [size])
  }

  function GrowForModal(f: Frame, off: Size): Frame {
    if f.prev.Some? || f.collapsed || f.animating then f else
    var b := Resolve(f.win, f.base);
    var grown := ModalFit(b, f.area);
    if grown.None? then f.(base := Some(b))
    else f.(base := Some(b), prev := Some(b), win := Land(Clamp(grown.value, f.area), off))
  }

  function RestoreAfterModal(f: Frame, off: Size): Frame {
    if f.prev.None? then f
    else f.(prev := None, win := Land(Clamp(Clamp(f.prev.value, f.area), f.area), off))
  }

  function StepFrame(f: Frame, e: FrameEvent): Frame {
    match e
    case Save => Persist(f)
    case Grow(off) => GrowForModal(f, off)
    case Restore(off) => RestoreAfterModal(f, off)
  }

  function RunFrame(f: Frame, es: seq<FrameEvent>): Frame
    decreases es
  {
    if es == [] then f else RunFrame(StepFrame(f, es[0]), es[1..])
  }

  /** A session opens at its saved size, which lands a little off. */
  function Open(size: Size, area: Size, off: Size): Frame {
    Frame(area, Land(Clamp(size, area), off), Clamp(size, area), None, None, [], false, false, WH.DEFAULT_HEIGHT)
  }

  const NIL: Size := Size(0, 0)

  predicate Slight(off: Size) { Within(off, NIL, TOLERANCE) }

  predicate AllSlight(es: seq<FrameEvent>) {
    forall i :: 0 <= i < |es| ==> !es[i].Save? ==> Slight(es[i].off)
  }

  /** At least the tolerance away from both limits. */
  predicate Inside(s: Size, area: Size) {
    && MIN_SIZE.width + TOLERANCE <= s.width <= area.width - TOLERANCE
    && MIN_SIZE.height + TOLERANCE <= s.height <= area.height - TOLERANCE
  }

  // ----- bounded within a session -----

  predicate FrameOk(f: Frame, home: Size) {
    && !f.collapsed && !f.animating
    && (match f.base
        case None => f.prev.None? && Within(f.win, home, TOLERANCE)
        case Some(b) =>
          && Within(b, home, TOLERANCE)
          && (if f.prev.Some? then f.prev == f.base else Within(f.win, b, TOLERANCE)))
    && Within(f.last, home, 2 * TOLERANCE)
    && AllWithin(f.saved, home, 2 * TOLERANCE)
  }

  predicate AllWithin(saved: seq<Size>, home: Size, n: int) {
    forall i :: 0 <= i < |saved| ==> Within(saved[i], home, n)
  }

  lemma {:induction false} RunFrameKeeps(f: Frame, es: seq<FrameEvent>, home: Size)
    requires FrameOk(f, home) && Inside(home, f.area) && AllSlight(es)
    ensures FrameOk(RunFrame(f, es), home) && RunFrame(f, es).area == f.area
    ensures f.base.Some? ==> RunFrame(f, es).base == f.base
    decreases es
  {
    if es != [] {
      RunFrameKeeps(StepFrame(f, es[0]), es[1..], home);
    }
  }

  /** In a session with no resize by the user, whatever the saves and modals, every
      saved size is within four pixels per axis of the opening size, and the size
      a modal gives back is within two. */
  lemma DriftIsBounded(home: Size, area: Size, off: Size, es: seq<FrameEvent>)
    requires Inside(home, area) && Slight(off) && AllSlight(es)
    ensures var f := RunFrame(Open(home, area, off), es);
            AllWithin(f.saved, home, 4) && (f.prev.Some? ==> f.prev == f.base && Within(f.prev.value, home, 2))
  {
    RunFrameKeeps(Open(home, area, off), es, home);
  }

  /** The size given back never changes after the first modal. */
  lemma RestoredSizeIsFixed(home: Size, area: Size, off: Size, first: seq<FrameEvent>, later: seq<FrameEvent>)
    requires Inside(home, area) && Slight(off) && AllSlight(first) && AllSlight(later)
    requires RunFrame(Open(home, area, off), first).prev.Some?
    ensures var f := RunFrame(Open(home, area, off), first);
            var g := RunFrame(f, later);
            g.base == f.prev && (g.prev.Some? ==> g.prev == f.prev)
  {
    RunFrameKeeps(Open(home, area, off), first, home);
    RunFrameKeeps(RunFrame(Open(home, area, off), first), later, home);
  }

  // ----- no drift at all, exactly -----

  /** Sizes a modal leaves alone, with room for the drift. */
  predicate Roomy(s: Size, area: Size) {
    && s.width - TOLERANCE >= WH.Min(MODAL_FIT.width, area.width)
    && s.height - TOLERANCE >= WH.Min(MODAL_FIT.height, area.height)
  }

  predicate StillOk(f: Frame, home: Size) {
    && !f.collapsed && !f.animating
    && Within(f.win, home, TOLERANCE) && f.prev.None? && f.last == home
    && (f.base.Some? ==> Within(f.base.value, home, TOLERANCE))
    && AllWithin(f.saved, home, 0)
  }

  lemma {:induction false} StillRun(f: Frame, es: seq<FrameEvent>, home: Size)
    requires StillOk(f, home) && Inside(home, f.area) && Roomy(home, f.area)
    ensures StillOk(RunFrame(f, es), home)
    decreases es
  {
    if es != [] { StillRun(StepFrame(f, es[0]), es[1..], home); }
  }

  ghost predicate NeverDrifts(home: Size, area: Size) {
    forall off, es :: Slight(off) && AllSlight(es) ==> AllWithin(RunFrame(Open(home, area, off), es).saved, home, 0)
  }

  const SHRINK: Size := Size(-2, -2)

  /** One modal, each landing two pixels short. */
  function OneModal(off: Size): seq<FrameEvent> {
    [Grow(NIL)] + ([Restore(off)] + ([Save] + []))
  }

  lemma Unroll(f: Frame, e: FrameEvent, rest: seq<FrameEvent>)
    ensures RunFrame(f, [e] + rest) == RunFrame(StepFrame(f, e), rest)
  {
    assert ([e] + rest)[0] == e && ([e] + rest)[1..] == rest;
  }

  /** Two small errors in one direction add up to more than the tolerance. */
  lemma OneModalDrifts(home: Size, area: Size, off: Size)
    requires Inside(home, area) && off in {SHRINK, Size(2, 2)}
    requires ModalFit(Land(home, off), area).Some?
    ensures RunFrame(Open(home, area, off), OneModal(off)).saved == [Land(Land(home, off), off)]
  {
    var f0 := Open(home, area, off);
    var f1 := StepFrame(f0, Grow(NIL));
    var f2 := StepFrame(f1, Restore(off));
    var f3 := StepFrame(f2, Save);
    Unroll(f2, Save, []);
    Unroll(f1, Restore(off), [Save] + []);
    Unroll(f0, Grow(NIL), [Restore(off)] + ([Save] + []));
    assert f3.saved == [] + [Land(Land(home, off), off)];
  }

  /** Nothing but the opening size is ever saved exactly when the window is roomy
      enough that no modal grows it. */
  lemma NoDriftExactly(home: Size, area: Size)
    requires Inside(home, area)
    ensures NeverDrifts(home, area) <==> Roomy(home, area)
  {
    if Roomy(home, area) {
      forall off, es | Slight(off) && AllSlight(es)
        ensures AllWithin(RunFrame(Open(home, area, off), es).saved, home, 0)
      {
        StillRun(Open(home, area, off), es, home);
      }
    } else {
      OneModalDrifts(home, area, SHRINK);
      var es := OneModal(SHRINK);
      assert AllSlight(es);
      var saved := RunFrame(Open(home, area, SHRINK), es).saved;
      assert saved[0] != home && !AllWithin(saved, home, 0);
    }
  }

  // ----- across sessions -----

  /** The size saved by a session of one modal, every landing two pixels over. */
  function Session(home: Size, area: Size): Size {
    RunFrame(Open(home, area, Size(2, 2)), OneModal(Size(2, 2))).last
  }

  /** Each session opens at the size the one before it saved. */
  predicate Sessions(sizes: seq<Size>, area: Size) {
    forall i :: 0 < i < |sizes| ==> sizes[i] == Session(sizes[i - 1], area)
  }

  function Larger(s: Size, d: int): Size {
    Size(s.width + d, s.height + d)
  }

  /** Within a session the error is bounded; from session to session it adds up. */
  lemma {:induction false} SessionsAddUp(sizes: seq<Size>, area: Size, n: nat)
    requires n < |sizes| && Sessions(sizes, area)
    requires Inside(sizes[0], area) && Inside(Larger(sizes[0], 4 * n), area)
    requires sizes[0].width + 4 * n < WH.Min(MODAL_FIT.width, area.width)
    ensures sizes[n] == Larger(sizes[0], 4 * n)
  {
    if n > 0 {
      SessionsAddUp(sizes, area, n - 1);
      assert sizes[n] == Session(sizes[n - 1], area);
    }
  }

  // ----- the variables and functions themselves -----

  class OverlayBounds {
    const area: Size
    var win: Size
    var lastPersistedSize: Size
    var modalFitLastGoodSize: Option<Size>
    var modalFitPrevBounds: Option<Size>
    var collapsed: bool
    var animating: bool
    var expandedHeight: int
    ghost var saved: seq<Size>

    ghost function View(): Frame
      reads this
    {
      Frame(area, win, lastPersistedSize, modalFitLastGoodSize, modalFitPrevBounds, saved,
            collapsed, animating, expandedHeight)
    }

    method PersistBounds()
      modifies this
      ensures View() == Persist(old(View()))
    {
      var width := if modalFitPrevBounds.Some? then modalFitPrevBounds.value.width else win.width;
      var baseHeight := if modalFitPrevBounds.Some? then modalFitPrevBounds.value.height else win.height;
      var height := if collapsed && expandedHeight != 0 then expandedHeight else baseHeight;
      var remembered := collapsed || modalFitPrevBounds.Some?;
      var size := if remembered then Size(width, height) else Resolve(Size(width, height), Some(lastPersistedSize));
      lastPersistedSize, saved := size, saved + [size];
    }

    method GrowWindowForModal(off: Size)
      modifies this
      ensures View() == GrowForModal(old(View()), off)
    {
      if modalFitPrevBounds.Some? || collapsed || animating { return; }
      var b := Resolve(win, modalFitLastGoodSize);
      modalFitLastGoodSize := Some(b);
      var grown := ModalFit(b, area);
      if grown.None? { return; }
      modalFitPrevBounds := Some(b);
      win := Land(Clamp(grown.value, area), off);
    }

    method RestoreWindowAfterModal(off: Size)
      modifies this
      ensures View() == RestoreAfterModal(old(View()), off)
    {
      var prev := modalFitPrevBounds;
      modalFitPrevBounds := None;
      if prev.None? { return; }
      win := Land(Clamp(Clamp(prev.value, area), area), off);
    }
  }
}
