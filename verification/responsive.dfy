/**
 * The responsive hooks: the breakpoint and device class for a window width,
 * the breakpoint derived from five min-width media queries, and the
 * orientation.
 */
module Responsive {
  import opened Wrappers

  datatype Breakpoint = Sm | Md | Lg | Xl | Xxl

  /** The minimum widths, in pixels. */
  function MinWidth(b: Breakpoint): int
  {
    match b
    case Sm => 640
    case Md => 768
    case Lg => 1024
    case Xl => 1280
    case Xxl => 1536
  }

  /** Position from smallest to largest. */
  function Order(b: Breakpoint): (r: nat)
    ensures r <= 4
  {
    match b
    case Sm => 0
    case Md => 1
    case Lg => 2
    case Xl => 3
    case Xxl => 4
  }

  /**
   * The largest breakpoint whose minimum width the window reaches, except
   * that every width below `md` (even below 640) is `sm`.
   */
  function GetCurrentBreakpoint(width: int): (r: Breakpoint)
    ensures r == Sm || MinWidth(r) <= width
    ensures forall b :: Order(b) > Order(r) ==> width < MinWidth(b)
  {
    if width >= MinWidth(Xxl) then Xxl
    else if width >= MinWidth(Xl) then Xl
    else if width >= MinWidth(Lg) then Lg
    else if width >= MinWidth(Md) then Md
    else Sm
  }

  datatype Layout = Layout(isMobile: bool, isTablet: bool, isDesktop: bool, isLarge: bool,
                           currentBreakpoint: Breakpoint, width: int, height: int)

  /** What the hook returns for the current window size. */
  function UseResponsive(width: int, height: int): Layout
  {
    Layout(width < MinWidth(Md),
           width >= MinWidth(Md) && width < MinWidth(Lg),
           width >= MinWidth(Lg),
           width >= MinWidth(Xl),
           GetCurrentBreakpoint(width), width, height)
  }

  /** The size assumed when there is no window (server rendering). */
  const DefaultWidth := 1024
  const DefaultHeight := 768

  datatype MediaFlags = MediaFlags(isSm: bool, isMd: bool, isLg: bool, isXl: bool, is2Xl: bool)

  /** The five `(min-width: …px)` queries, as they evaluate at a given width. */
  function FlagsAt(width: int): MediaFlags
  {
    MediaFlags(width >= MinWidth(Sm), width >= MinWidth(Md), width >= MinWidth(Lg),
               width >= MinWidth(Xl), width >= MinWidth(Xxl))
  }

  /** The largest breakpoint whose flag is set; the `sm` flag is never consulted. */
  function GetCurrentActiveBreakpoint(flags: MediaFlags): Breakpoint
  {
    if flags.is2Xl then Xxl
    else if flags.isXl then Xl
    else if flags.isLg then Lg
    else if flags.isMd then Md
    else Sm
  }

  datatype Orientation = Portrait | Landscape

  function OrientationOf(width: int, height: int): Orientation
  {
    if height > width then Portrait else Landscape
  }

  /**
   * `useOrientation()`: the state starts at portrait and only the effect,
   * which needs a window, measures it; `window` is its inner size, if any.
   */
  function UseOrientation(window: Option<(int, int)>): (r: Orientation)
    ensures window.None? ==> r == Portrait
    ensures window.Some? ==> (r == Portrait <==> window.value.1 > window.value.0)
  {
    if window.None? then Portrait else OrientationOf(window.value.0, window.value.1)
  }

  /** A wider window never has a smaller breakpoint. */
  lemma BreakpointMonotone(w1: int, w2: int)
    requires w1 <= w2
    ensures Order(GetCurrentBreakpoint(w1)) <= Order(GetCurrentBreakpoint(w2))
  {
  }

  /**
   * Every width is exactly one of mobile, tablet and desktop; mobile is the
   * `sm` breakpoint, tablet is `md`, desktop is `lg` and up, and a large
   * window is a desktop.
   */
  lemma DeviceClassesPartition(width: int, height: int)
    ensures var l := UseResponsive(width, height);
      (l.isMobile || l.isTablet || l.isDesktop) &&
      !(l.isMobile && l.isTablet) && !(l.isMobile && l.isDesktop) && !(l.isTablet && l.isDesktop)
    ensures var l := UseResponsive(width, height);
      (l.isMobile <==> l.currentBreakpoint == Sm) && (l.isTablet <==> l.currentBreakpoint == Md) &&
      (l.isDesktop <==> Order(l.currentBreakpoint) >= 2) && (l.isLarge <==> Order(l.currentBreakpoint) >= 3)
    ensures UseResponsive(width, height).isLarge ==> UseResponsive(width, height).isDesktop
  {
  }

  /** With no window the hook reports a 1024 by 768 desktop at the `lg` breakpoint. */
  lemma DefaultIsDesktop()
    ensures UseResponsive(DefaultWidth, DefaultHeight).isDesktop
    ensures !UseResponsive(DefaultWidth, DefaultHeight).isLarge
    ensures UseResponsive(DefaultWidth, DefaultHeight).currentBreakpoint == Lg
    ensures OrientationOf(DefaultWidth, DefaultHeight) == Landscape
    ensures UseOrientation(None) == Portrait
  {
  }

  /** The media-query breakpoint agrees with the width-based one, whatever the `sm` query says. */
  lemma ActiveBreakpointAgrees(width: int, isSm: bool)
    ensures GetCurrentActiveBreakpoint(FlagsAt(width)) == GetCurrentBreakpoint(width)
    ensures GetCurrentActiveBreakpoint(FlagsAt(width).(isSm := isSm)) == GetCurrentBreakpoint(width)
  {
  }

  /** A square window counts as landscape; portrait means strictly taller than wide. */
  lemma OrientationSquareIsLandscape(width: int, height: int)
    ensures OrientationOf(width, height) == Portrait <==> height > width
    ensures OrientationOf(width, width) == Landscape
  {
  }
}
