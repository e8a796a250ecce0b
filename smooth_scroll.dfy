/** In-page anchor navigation: every link whose href starts with '#' cancels
    the browser's jump and asks for a smooth scroll to the target section,
    leaving room for the fixed header. */
module SmoothScroll {

  datatype Option<T> = None | Some(value: T)

  /** The height of the fixed header kept above the target. */
  const HeaderOffset: int := 80

  /** What looking up the link's href as a selector gives: the element with
      its `offsetTop`, no element, or a selector error (a bare '#' is not a
      valid selector, and the lookup throws). */
  datatype Lookup = Found(offsetTop: int) | NotFound | InvalidSelector

  /** The effect of a click listener: whether the default navigation was
      cancelled, and the vertical position a scroll was requested to. */
  datatype Outcome = Outcome(defaultPrevented: bool, scrollTo: Option<int>)

  /** The anchor's click listener. The default is cancelled first, so it is
      cancelled even when the lookup throws. */
  function OnAnchorClick(target: Lookup): (o: Outcome)
    ensures o.defaultPrevented
    ensures o.scrollTo.Some? <==> target.Found?
    ensures o.scrollTo.Some? ==> o.scrollTo.value + HeaderOffset == target.offsetTop
  {
    match target
    case Found(top) => Outcome(true, Some(top - HeaderOffset))
    case NotFound => Outcome(true, None)
    case InvalidSelector => Outcome(true, None)
  }

  /** Sections further down the page get scroll positions further down, by
      the same distance. */
  lemma ScrollPreservesOrder(top1: int, top2: int)
    requires top1 <= top2
    ensures OnAnchorClick(Found(top1)).scrollTo.value <= OnAnchorClick(Found(top2)).scrollTo.value
    ensures OnAnchorClick(Found(top2)).scrollTo.value - OnAnchorClick(Found(top1)).scrollTo.value
            == top2 - top1
  {
  }

  /** The scroll position the click asks the browser for, where `current`
      is the position before it: the target's top minus the header, which
      may be negative, or `current` when no scroll is requested. */
  function RequestedPosition(current: int, target: Lookup): (y: int)
    ensures target.Found? ==> y + HeaderOffset == target.offsetTop
    ensures !target.Found? ==> y == current
  {
    match OnAnchorClick(target).scrollTo
    case Some(top) => top
    case None => current
  }
}
