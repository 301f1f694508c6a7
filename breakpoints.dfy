/** The responsive breakpoints (viewport widths in CSS pixels). */
module Breakpoints {
  const Mobile: int := 767
  const Tablet: int := 992
  const Desktop: int := 1200

  /** A viewport is mobile when its width is at most the mobile breakpoint. */
  predicate IsMobile(width: int) {
    width <= Mobile
  }
}
