/** The responsive breakpoints: four media-query flags over the viewport width in CSS pixels and
    the device name derived from them. The width is a real number, since zoom and fractional
    device pixel ratios give fractional CSS widths. */
module Responsive {

  datatype Breakpoints = Breakpoints(
    isMobile: bool,
    isTablet: bool,
    isDesktop: bool,
    isLargeDesktop: bool,
    device: string)

  /** The nested conditional that names the device. */
  function DeviceName(isMobile: bool, isTablet: bool, isDesktop: bool): (d: string)
    ensures d == "mobile" <==> isMobile
    ensures d == "tablet" <==> !isMobile && isTablet
    ensures d == "desktop" <==> !isMobile && !isTablet && isDesktop
    ensures d == "large" <==> !isMobile && !isTablet && !isDesktop
  {
    if isMobile then "mobile" else if isTablet then "tablet" else if isDesktop then "desktop" else "large"
  }

  /** `useResponsive` as written: `(max-width: 639px)`, `(min-width: 640px) and
      (max-width: 1023px)`, `(min-width: 1024px)` and `(min-width: 1280px)`. */
  function BreakpointsAsWritten(width: real): (b: Breakpoints)
    ensures b.isMobile <==> width <= 639.0
    ensures b.isTablet <==> 640.0 <= width <= 1023.0
    ensures b.isDesktop <==> width >= 1024.0
    ensures b.isLargeDesktop <==> width >= 1280.0
  {
    var m := width <= 639.0;
    var t := 640.0 <= width <= 1023.0;
    var d := width >= 1024.0;
    Breakpoints(m, t, d, width >= 1280.0, DeviceName(m, t, d))
  }

  predicate WholePixels(width: real) {
    width == width.Floor as real
  }

  /** On whole-pixel widths exactly one of mobile, tablet and desktop holds, a large desktop is
      also a desktop, and the device is never "large". */
  lemma WholePixelsOneDevice(width: real)
    requires WholePixels(width)
    ensures var b := BreakpointsAsWritten(width);
      && (b.isMobile || b.isTablet || b.isDesktop)
      && !(b.isMobile && b.isTablet) && !(b.isMobile && b.isDesktop) && !(b.isTablet && b.isDesktop)
      && (b.isLargeDesktop ==> b.isDesktop)
      && b.device != "large"
  {
    var n := width.Floor;
    assert width == n as real;
    if n <= 639 {
    } else if n <= 1023 {
    } else {
    }
  }

  /** Between 639 and 640 pixels, and between 1023 and 1024, no flag holds and the device falls
      through to "large", the name meant for the widest screens. */
  lemma FractionalWidthFallsThrough()
    ensures var b := BreakpointsAsWritten(639.5);
      !b.isMobile && !b.isTablet && !b.isDesktop && !b.isLargeDesktop && b.device == "large"
    ensures var b := BreakpointsAsWritten(1023.5);
      !b.isMobile && !b.isTablet && !b.isDesktop && b.device == "large"
  {
  }

  /** The breakpoints with each range closed against the next one, so that every width falls in
      exactly one of them. */
  function BreakpointsCorrected(width: real): (b: Breakpoints)
    ensures b.isMobile <==> width < 640.0
    ensures b.isTablet <==> 640.0 <= width < 1024.0
    ensures b.isDesktop <==> width >= 1024.0
    ensures b.isLargeDesktop <==> width >= 1280.0
  {
    var m := width < 640.0;
    var t := 640.0 <= width < 1024.0;
    var d := width >= 1024.0;
    Breakpoints(m, t, d, width >= 1280.0, DeviceName(m, t, d))
  }

  /** For every width exactly one of mobile, tablet and desktop holds, the device names it, and
      "large" is never produced. */
  lemma CorrectedOneDevice(width: real)
    ensures var b := BreakpointsCorrected(width);
      && (b.isMobile || b.isTablet || b.isDesktop)
      && !(b.isMobile && b.isTablet) && !(b.isMobile && b.isDesktop) && !(b.isTablet && b.isDesktop)
      && (b.isLargeDesktop ==> b.isDesktop)
      && b.device == (if b.isMobile then "mobile" else if b.isTablet then "tablet" else "desktop")
  {
  }

  /** The corrected breakpoints agree with the written ones on every whole-pixel width. */
  lemma CorrectedAgreesOnWholePixels(width: real)
    requires WholePixels(width)
    ensures BreakpointsCorrected(width) == BreakpointsAsWritten(width)
  {
    var n := width.Floor;
    assert width == n as real;
    if n <= 639 {
    } else if n <= 1023 {
    } else {
    }
  }
}
