/** The overlay window as the user meets it: animations run to their end, what is
    saved on the way, and a modal opened and closed. */
module WindowSaves {
  import opened Texts
  import WH = WindowHeight
  import SD = SizeDrift

  // ----- animations run to their end -----

  function Frames(eased: seq<real>): seq<WH.WinEvent> {
    if eased == [] then [WH.LastFrame] else [WH.Frame(eased[0])] + Frames(eased[1..])
  }

  /** A request, then the frames of its animation. */
  function Through(e: WH.WinEvent, eased: seq<real>): seq<WH.WinEvent> {
    [e] + Frames(eased)
  }

  lemma {:induction false} FramesEnd(w: WH.Win, eased: seq<real>)
    ensures var end := WH.RunWin(w, Frames(eased));
            && end == w.(height := end.height, anim := None)
            && (w.anim.Some? ==> end.height == WH.Guarded(w, w.anim.value.target))
            && (w.anim.None? ==> end == w)
    decreases eased
  {
    if eased == [] {
      WH.Unroll(w, WH.LastFrame, []);
      assert [WH.LastFrame] + [] == [WH.LastFrame];
    } else {
      WH.Unroll(w, WH.Frame(eased[0]), Frames(eased[1..]));
      FramesEnd(WH.StepWin(w, WH.Frame(eased[0])), eased[1..]);
    }
  }

  /** The header's height to the nearest pixel, halves up. */
  predicate Nearest(n: int, x: real) {
    n as real - 0.5 <= x < n as real + 0.5
  }

  /** An idle collapse ends at the header's height, at least 24 pixels, or at one
      pixel for a full hide, and within the work area. */
  lemma CollapseEnds(w: WH.Win, headerH: real, full: bool, eased: seq<real>)
    requires !w.moving && !w.collapsed && w.area >= 280
    ensures var end := WH.RunWin(w, Through(WH.Collapse(headerH, full), eased));
            && end.collapsed && end.anim.None? && end.area == w.area
            && (full ==> end.height == 1)
            && (!full && headerH < 24.0 ==> end.height == WH.Min(24, w.area))
            && (!full && headerH >= 24.0 ==> exists n :: Nearest(n, headerH) && end.height == WH.Min(n, w.area))
  {
    WH.Unroll(w, WH.Collapse(headerH, full), Frames(eased));
    FramesEnd(WH.StepWin(w, WH.Collapse(headerH, full)), eased);
    assert Nearest(WH.Round(headerH), headerH);
  }

  /** An expansion ends at the remembered height. */
  lemma ExpandEnds(w: WH.Win, eased: seq<real>)
    requires 280 <= w.expanded <= w.area
    ensures var end := WH.RunWin(w, Through(WH.Expand, eased));
            !end.collapsed && end.anim.None? && end.height == w.expanded
  {
    WH.Unroll(w, WH.Expand, Frames(eased));
    FramesEnd(WH.StepWin(w, WH.Expand), eased);
  }

  /** A collapse and the expansion after it, each run to its end, give the height
      back that the window had, whatever the header. */
  lemma CollapseThenExpand(w: WH.Win, headerH: real, full: bool, a: seq<real>, b: seq<real>)
    requires WH.Rests(w) && !w.moving && 280 <= w.height <= w.area
    ensures var end := WH.RunWin(WH.RunWin(w, Through(WH.Collapse(headerH, full), a)), Through(WH.Expand, b));
            WH.Rests(end) && end.height == w.height
  {
    WH.Unroll(w, WH.Collapse(headerH, full), Frames(a));
    FramesEnd(WH.StepWin(w, WH.Collapse(headerH, full)), a);
    ExpandEnds(WH.RunWin(w, Through(WH.Collapse(headerH, full), a)), b);
  }

  /** A frame is the eased height to the nearest pixel: it starts at the start and
      comes in at the target. */
  lemma FramesAreEased(a: WH.Anim, eased: real)
    ensures Nearest(WH.FrameHeight(a, eased), a.start as real + (a.target - a.start) as real * eased)
    ensures WH.FrameHeight(a, 0.0) == a.start && WH.FrameHeight(a, 1.0) == a.target
  {
    assert (a.target - a.start) as real * 0.0 == 0.0;
    assert (a.target - a.start) as real * 1.0 == (a.target - a.start) as real;
  }

  /** A drag on a display that changes the window's height on its own between the
      ticks. */
  function Dragged(w: WH.Win, heights: seq<int>): WH.Win
    decreases heights
  {
    if heights == [] then w else Dragged(WH.StepWin(w.(height := heights[0]), WH.MoveTick), heights[1..])
  }

  lemma {:induction false} DragStays(w: WH.Win, heights: seq<int>)
    requires w.moving && w.anchor == Some(w.height) && !w.collapsed && 280 <= w.height <= w.area
    ensures Dragged(w, heights) == w
    decreases heights
  {
    if heights != [] {
      assert WH.StepWin(w.(height := heights[0]), WH.MoveTick) == w;
      DragStays(w, heights[1..]);
    }
  }

  /** Such a display cannot make the window creep: every tick puts back the height
      the drag began with. */
  lemma DragHolds(w: WH.Win, heights: seq<int>)
    requires var start := WH.StepWin(w, WH.MoveStart); 280 <= start.height <= w.area
    ensures var start := WH.StepWin(w, WH.MoveStart);
            start.moving && Dragged(start, heights) == start
  {
    DragStays(WH.StepWin(w, WH.MoveStart), heights);
  }

  // ----- what is saved meanwhile -----

  /** The window and its saves; its width is not touched by any of this. */
  datatype Kept = Kept(win: WH.Win, width: int, last: SD.Size, saved: seq<SD.Size>)

  datatype KeptEvent = Shape(e: WH.WinEvent) | SaveNow

  function FrameOf(k: Kept): SD.Frame {
    SD.Frame(SD.Size(k.width, k.win.area), SD.Size(k.width, k.win.height), k.last, None, None, k.saved,
             k.win.collapsed, k.win.anim.Some?, k.win.expanded)
  }

  function StepKept(k: Kept, e: KeptEvent): Kept {
    match e
    case Shape(we) => k.(win := WH.StepWin(k.win, we))
    case SaveNow => var f := SD.Persist(FrameOf(k)); k.(last := f.last, saved := f.saved)
  }

  function RunKept(k: Kept, es: seq<KeptEvent>): Kept
    decreases es
  {
    if es == [] then k else RunKept(StepKept(k, es[0]), es[1..])
  }

  ghost predicate KeptWithin(es: seq<KeptEvent>, targets: set<int>) {
    forall i :: 0 <= i < |es| && es[i].Shape? ==> WH.EventWithin(es[i].e, targets)
  }

  /** The window is collapsed, or its height is not to be told from its home. */
  predicate Calm(w: WH.Win, home: int) {
    w.collapsed || -2 <= w.height - home <= 2
  }

  predicate CalmSaves(k: Kept, es: seq<KeptEvent>, home: int)
    decreases es
  {
    es != [] ==> (es[0].SaveNow? ==> Calm(k.win, home)) && CalmSaves(StepKept(k, es[0]), es[1..], home)
  }

  predicate KeptOk(k: Kept, home: int) {
    WH.WinOk(k.win, home) && k.last == SD.Size(k.width, home) && forall i :: 0 <= i < |k.saved| ==> k.saved[i] == k.last
  }

  /** One save, exactly: it writes the home height if and only if the window is
      calm. */
  lemma SaveExactly(k: Kept, home: int)
    requires KeptOk(k, home) && k.width > 0
    ensures var next := StepKept(k, SaveNow);
            && next.saved == k.saved + [next.last] && next.win == k.win
            && (next.last == SD.Size(k.width, home) <==> Calm(k.win, home))
            && (!Calm(k.win, home) ==> next.last == SD.Size(k.width, k.win.height))
  {
  }

  predicate AllHome(saved: seq<SD.Size>, width: int, home: int) {
    forall i :: 0 <= i < |saved| ==> saved[i] == SD.Size(width, home)
  }

  lemma {:induction false} SavedGrows(k: Kept, es: seq<KeptEvent>)
    ensures k.saved <= RunKept(k, es).saved
    decreases es
  {
    if es != [] { SavedGrows(StepKept(k, es[0]), es[1..]); }
  }

  lemma {:induction false} KeptRun(k: Kept, es: seq<KeptEvent>, targets: set<int>, home: int)
    requires KeptOk(k, home) && k.width > 0 && KeptWithin(es, targets)
    requires forall t :: t in targets ==> WH.Low(t, k.win.area, home)
    ensures AllHome(RunKept(k, es).saved, k.width, home) <==> CalmSaves(k, es, home)
    decreases es
  {
    if es != [] {
      var next := StepKept(k, es[0]);
      if es[0].Shape? {
        WH.StepWinKeeps(k.win, es[0].e, home);
      } else {
        SaveExactly(k, home);
      }
      if es[0].SaveNow? && !Calm(k.win, home) {
        SavedGrows(next, es[1..]);
        assert RunKept(k, es).saved[|k.saved|] == next.last;
      } else {
        KeptRun(next, es[1..], targets, home);
      }
    }
  }

  /** Through every interleaving of collapses, expansions, drags and saves the size
      on the disk is the window's own exactly when each save falls on a collapsed
      window or on one within two pixels of its full height: an expansion still
      under way is saved as it stands. */
  lemma SavesAreHomeExactly(home: int, area: int, width: int, remembered: int, targets: set<int>,
                            first: int, es: seq<KeptEvent>)
    requires 280 <= home <= area && width > 0 && first in targets && KeptWithin(es, targets)
    requires forall t :: t in targets ==> WH.Low(t, area, home)
    ensures var start := WH.CollapseTo(WH.Plain(home, area, remembered), first);
            var k := Kept(start, width, SD.Size(width, home), []);
            AllHome(RunKept(k, es).saved, width, home) <==> CalmSaves(k, es, home)
  {
    var start := WH.CollapseTo(WH.Plain(home, area, remembered), first);
    KeptRun(Kept(start, width, SD.Size(width, home), []), es, targets, home);
  }

  /** The save that goes wrong: quitting while a hidden window comes back. */
  lemma ExpansionIsSaved(home: int, area: int, width: int)
    requires 283 <= home <= area && width > 0
    ensures var w := WH.CollapseTo(WH.Plain(home, area, home), 1);
            var k := Kept(w, width, SD.Size(width, home), []);
            RunKept(k, [Shape(WH.LastFrame)] + ([Shape(WH.Expand)] + ([SaveNow] + []))).saved == [SD.Size(width, 1)]
  {
    var w := WH.CollapseTo(WH.Plain(home, area, home), 1);
    var k := Kept(w, width, SD.Size(width, home), []);
    var k1 := StepKept(k, Shape(WH.LastFrame));
    var k2 := StepKept(k1, Shape(WH.Expand));
    UnrollKept(k2, SaveNow, []);
    UnrollKept(k1, Shape(WH.Expand), [SaveNow] + []);
    UnrollKept(k, Shape(WH.LastFrame), [Shape(WH.Expand)] + ([SaveNow] + []));
  }

  lemma UnrollKept(k: Kept, e: KeptEvent, rest: seq<KeptEvent>)
    ensures RunKept(k, [e] + rest) == RunKept(StepKept(k, e), rest)
  {
    assert ([e] + rest)[0] == e && ([e] + rest)[1..] == rest;
  }

  // ----- a modal, opened and closed -----

  function Need(area: SD.Size): SD.Size {
    SD.Size(WH.Min(560, area.width), WH.Min(720, area.height))
  }

  predicate Covers(a: SD.Size, b: SD.Size, slack: int) {
    a.width >= b.width - slack && a.height >= b.height - slack
  }

  /** An open modal has the room it needs, as far as the display has it, and no
      window is made smaller for it; closing it gives back the size from before,
      all up to the display's own two pixels each time. */
  lemma ModalRoundTrip(f: SD.Frame, there: SD.Size, back: SD.Size)
    requires !f.collapsed && !f.animating && f.prev.None? && SD.Slight(there) && SD.Slight(back)
    requires Covers(f.area, SD.MIN_SIZE, 0) && Covers(f.area, f.win, 0) && Covers(f.win, SD.MIN_SIZE, 0)
    requires f.base.Some? ==> Covers(f.area, f.base.value, 0) && Covers(f.base.value, SD.MIN_SIZE, 0)
    ensures var open := SD.StepFrame(f, SD.Grow(there));
            var shut := SD.StepFrame(open, SD.Restore(back));
            && Covers(open.win, Need(f.area), 4) && Covers(open.win, f.win, 4)
            && shut.prev.None? && shut.base.Some? && SD.Within(shut.base.value, f.win, 2)
            && (open.prev.None? ==> shut.win == f.win)
            && (open.prev.Some? ==> SD.Within(shut.win, shut.base.value, 2))
  {
  }

  /** A modal opened while the window is collapsed or being animated leaves its size
      alone, and so does closing it. */
  lemma ModalKeepsOut(f: SD.Frame, there: SD.Size, back: SD.Size)
    requires (f.collapsed || f.animating) && f.prev.None?
    ensures SD.StepFrame(SD.StepFrame(f, SD.Grow(there)), SD.Restore(back)) == f
  {
  }

  /** A resize by the user is saved as it is, unless no axis moved by more than two
      pixels: then the size saved last stands. */
  lemma ResizeIsSaved(f: SD.Frame, size: SD.Size)
    requires !f.collapsed && f.prev.None? && f.last.width > 0 && f.last.height > 0
    ensures var g := SD.StepFrame(f.(win := size), SD.Save);
            && g.saved == f.saved + [g.last] && g.last == (if SD.Within(size, f.last, 2) then f.last else size)
  {
  }

  /** While a modal is open the size from before it is saved, whatever the window
      measures. */
  lemma OpenModalIsNotSaved(f: SD.Frame, there: SD.Size)
    requires !f.collapsed && !f.animating && f.prev.None?
    requires SD.StepFrame(f, SD.Grow(there)).prev.Some?
    ensures var open := SD.StepFrame(f, SD.Grow(there));
            forall size :: SD.StepFrame(open.(win := size), SD.Save).last == open.prev.value
  {
  }
}
