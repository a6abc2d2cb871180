/**
 * The content panel's canvas width: the container's measured width is
 * clamped (narrow containers are left alone, wide ones capped) and the
 * stored width changes only when the clamped value moves by a pixel or more.
 */
module ContentPanel {
  import opened Wrappers

  const MinCanvasWidth: real := 360.0
  const MaxCanvasWidth: real := 720.0
  const InitialCanvasWidth: real := 600.0

  datatype Tab = WallTab | FixturesTab | GuideTab

  /** clampWidth: widths under the minimum pass through; others are capped at the maximum. */
  function ClampWidth(width: real): real {
    if width < MinCanvasWidth then width else Min(width, MaxCanvasWidth)
  }

  /** `Math.min`. */
  function Min(a: real, b: real): real {
    if a <= b then a else b
  }

  function Abs(x: real): real {
    if x < 0.0 then -x else x
  }

  /** The width applyWidth leaves in place of `prev` after measuring `width`. */
  function NextWidth(prev: real, width: real): real {
    if width == 0.0 then prev
    else
      var clamped := ClampWidth(width);
      if Abs(prev - clamped) < 1.0 then prev else clamped
  }

  /** The width after applying each measurement in turn. */
  function ApplyAll(prev: real, widths: seq<real>): real {
    if widths == [] then prev else NextWidth(ApplyAll(prev, widths[..|widths| - 1]), widths[|widths| - 1])
  }

  /** Narrow widths are returned unchanged; the rest are capped at the maximum; the result never exceeds the input. */
  lemma ClampWidthBounds(width: real)
    ensures width < MinCanvasWidth ==> ClampWidth(width) == width
    ensures width >= MinCanvasWidth ==> ClampWidth(width) == if width < MaxCanvasWidth then width else MaxCanvasWidth
    ensures width >= MinCanvasWidth ==> MinCanvasWidth <= ClampWidth(width) <= MaxCanvasWidth
    ensures ClampWidth(width) <= width && ClampWidth(width) <= MaxCanvasWidth
  {
  }

  /** Clamping a clamped width changes nothing. */
  lemma ClampWidthIdempotent(width: real)
    ensures ClampWidth(ClampWidth(width)) == ClampWidth(width)
  {
  }

  /**
   * A zero width is ignored; otherwise the stored width is kept when it is
   * within a pixel of the clamped measurement and replaced by it otherwise,
   * so it always ends within a pixel of the clamped measurement.
   */
  lemma NextWidthTracksClamp(prev: real, width: real)
    ensures width == 0.0 ==> NextWidth(prev, width) == prev
    ensures width != 0.0 ==> Abs(NextWidth(prev, width) - ClampWidth(width)) < 1.0
    ensures width != 0.0 && Abs(prev - ClampWidth(width)) >= 1.0 ==> NextWidth(prev, width) == ClampWidth(width)
    ensures NextWidth(prev, width) == prev || NextWidth(prev, width) == ClampWidth(width)
  {
  }

  /** Measuring the same width twice changes the stored width at most once. */
  lemma NextWidthIdempotent(prev: real, width: real)
    ensures NextWidth(NextWidth(prev, width), width) == NextWidth(prev, width)
  {
  }

  /** A stored width at most the maximum stays at most the maximum, whatever is measured. */
  lemma {:induction false} ApplyAllBelowMax(prev: real, widths: seq<real>)
    requires prev <= MaxCanvasWidth
    ensures ApplyAll(prev, widths) <= MaxCanvasWidth
  {
    if widths != [] {
      ApplyAllBelowMax(prev, widths[..|widths| - 1]);
      ClampWidthBounds(widths[|widths| - 1]);
    }
  }

  /** The panel's tab and canvas-width state. */
  class Panel {
    var activeTab: Tab
    var canvasWidth: real

    /** The stored width never exceeds the maximum. */
    predicate Valid()
      reads this
    {
      canvasWidth <= MaxCanvasWidth
    }

    /** The panel opens on the wall tab with a 600-pixel canvas. */
    constructor()
      ensures activeTab == WallTab && canvasWidth == InitialCanvasWidth
      ensures Valid()
    {
      activeTab := WallTab;
      canvasWidth := InitialCanvasWidth;
    }

    method SetActiveTab(tab: Tab)
      modifies this`activeTab
      ensures activeTab == tab
    {
      activeTab := tab;
    }

    /** applyWidth: a zero width is ignored, and the stored width moves only by a pixel or more. */
    method ApplyWidth(width: real)
      modifies this`canvasWidth
      requires Valid()
      ensures canvasWidth == NextWidth(old(canvasWidth), width)
      ensures Valid()
    {
      if width == 0.0 {
        return;
      }
      var clamped := ClampWidth(width);
      ClampWidthBounds(width);
      if Abs(canvasWidth - clamped) >= 1.0 {
        canvasWidth := clamped;
      }
    }

    /**
     * The width effect: nothing happens off the wall tab or without a
     * container; otherwise the container's width is applied, then each
     * width the resize observer reports.
     */
    method Measure(clientWidth: Option<real>, resizes: seq<real>)
      modifies this`canvasWidth
      requires Valid()
      ensures activeTab != WallTab || clientWidth.None? ==> canvasWidth == old(canvasWidth)
      ensures activeTab == WallTab && clientWidth.Some? ==> canvasWidth == ApplyAll(old(canvasWidth), [clientWidth.value] + resizes)
      ensures Valid()
    {
      if activeTab != WallTab {
        return;
      }
      if clientWidth.None? {
        return;
      }
      ApplyWidth(clientWidth.value);
      ghost var widths := [clientWidth.value];
      assert widths[..0] == [];
      var i := 0;
      while i < |resizes|
        invariant 0 <= i <= |resizes|
        invariant widths == [clientWidth.value] + resizes[..i]
        invariant canvasWidth == ApplyAll(old(canvasWidth), widths)
        invariant Valid()
      {
        ApplyWidth(resizes[i]);
        widths := widths + [resizes[i]];
        assert widths[..|widths| - 1] == [clientWidth.value] + resizes[..i];
        assert resizes[..i + 1] == resizes[..i] + [resizes[i]];
        i := i + 1;
      }
      assert resizes[..i] == resizes;
    }
  }
}
