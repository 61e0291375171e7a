/**
 * The scene's width breakpoints (`checkResponsive`) and the layout constants
 * derived from them.
 */
module Responsive {

  /** The three layouts, chosen by the window's inner width. */
  datatype Breakpoint = Mobile | Tablet | Desktop

  /** The constants the scene derives from the breakpoint. */
  datatype Layout = Layout(
    responsiveScale: real,
    cameraDistance: real,
    cameraFOV: real,
    cornerSpacing: real,
    cornerVerticalSpacing: real,
    aboveSpacing: real,
    aboveVerticalPos: real)

  /** `isMobile`: the width is below 768 pixels. */
  predicate IsMobileWidth(width: real) {
    width < 768.0
  }

  /** `isTablet`: the width is in [768, 1024). */
  predicate IsTabletWidth(width: real) {
    width >= 768.0 && width < 1024.0
  }

  /** The `isMobile ? … : isTablet ? … : …` chains read the two flags in this order. */
  function FromFlags(isMobile: bool, isTablet: bool): (b: Breakpoint)
    // the mobile flag wins over the tablet flag; desktop needs both clear
    ensures isMobile ==> b == Mobile
    ensures b == Tablet <==> !isMobile && isTablet
    ensures b == Desktop <==> !isMobile && !isTablet
  {
    if isMobile then Mobile else if isTablet then Tablet else Desktop
  }

  /** The breakpoint `checkResponsive` selects for a window width. */
  function Classify(width: real): (b: Breakpoint)
    ensures b == Mobile <==> width < 768.0
    ensures b == Tablet <==> 768.0 <= width < 1024.0
    ensures b == Desktop <==> width >= 1024.0
  {
    FromFlags(IsMobileWidth(width), IsTabletWidth(width))
  }

  /** Exactly one of the three width ranges holds, and the two flags are never both set. */
  lemma BreakpointsPartition(width: real)
    ensures !(IsMobileWidth(width) && IsTabletWidth(width))
    ensures Classify(width) == FromFlags(IsMobileWidth(width), IsTabletWidth(width))
    ensures Classify(width) == Desktop <==> !IsMobileWidth(width) && !IsTabletWidth(width)
  {
  }

  /** The per-breakpoint constants of the scene. */
  function LayoutOf(b: Breakpoint): (l: Layout)
    ensures b == Mobile ==> l.responsiveScale == 0.5 && l.cameraDistance == 14.0 && l.cameraFOV == 85.0
    ensures b == Tablet ==> l.responsiveScale == 0.75 && l.cameraDistance == 12.0 && l.cameraFOV == 80.0
    ensures b == Desktop ==> l.responsiveScale == 1.0 && l.cameraDistance == 10.0 && l.cameraFOV == 75.0
    ensures b == Mobile ==> l.cornerSpacing == 5.5 && l.cornerVerticalSpacing == 1.2 && l.aboveSpacing == 1.2 && l.aboveVerticalPos == -1.5
    ensures b == Tablet ==> l.cornerSpacing == 7.5 && l.cornerVerticalSpacing == 1.6 && l.aboveSpacing == 1.6 && l.aboveVerticalPos == -1.7
    ensures b == Desktop ==> l.cornerSpacing == 9.0 && l.cornerVerticalSpacing == 2.0 && l.aboveSpacing == 1.8 && l.aboveVerticalPos == -1.9
  {
    match b
    case Mobile => Layout(0.5, 14.0, 85.0, 5.5, 1.2, 1.2, -1.5)
    case Tablet => Layout(0.75, 12.0, 80.0, 7.5, 1.6, 1.6, -1.7)
    case Desktop => Layout(1.0, 10.0, 75.0, 9.0, 2.0, 1.8, -1.9)
  }

  /**
   * A wider window never gets a smaller scale or spacing, nor a farther camera,
   * a wider field of view or higher models above the name.
   */
  lemma LayoutMonotone(w1: real, w2: real)
    requires w1 <= w2
    ensures var a, b := LayoutOf(Classify(w1)), LayoutOf(Classify(w2));
      a.responsiveScale <= b.responsiveScale &&
      a.cameraDistance >= b.cameraDistance &&
      a.cameraFOV >= b.cameraFOV &&
      a.cornerSpacing <= b.cornerSpacing &&
      a.cornerVerticalSpacing <= b.cornerVerticalSpacing &&
      a.aboveSpacing <= b.aboveSpacing &&
      a.aboveVerticalPos >= b.aboveVerticalPos
  {
  }

  /** The base scales of the six decorative models, all proportional to `responsiveScale`. */
  function BaseScales(responsiveScale: real): (s: seq<real>)
    ensures |s| == 6
    // topRight, topLeft, bottomRight, bottomLeft, laptopAbove, mouseAbove
    ensures forall i :: 0 <= i < 6 ==> s[i] == [1.15, 1.1, 1.1, 1.05, 0.65, 1.6][i] * responsiveScale
    ensures responsiveScale >= 0.0 ==> forall i :: 0 <= i < 6 ==> s[i] >= 0.0
  {
    [1.15 * responsiveScale, 1.1 * responsiveScale, 1.1 * responsiveScale,
     1.05 * responsiveScale, 0.65 * responsiveScale, 1.6 * responsiveScale]
  }
}
