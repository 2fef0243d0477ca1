/** The furniture carousel: which of its two arrow buttons are enabled, given
    the scroll container's geometry, and how far one press scrolls.

    Geometry is read from the page: `scrollLeft` may be fractional, the widths
    and item offsets are whole pixels. Under right-to-left layout, engines
    disagree on `scrollLeft`: in one convention it runs from 0 at the start
    down to -maxScroll at the end, in the other from maxScroll at the start
    down to 0 at the end. The check tells them apart by the sign of
    `scrollLeft`, so an offset of exactly 0 is always read as the start. */
module Carousel {
  import opened Wrappers

  /** Pixels of slack when deciding that the row is at one of its ends. */
  const ScrollEndTolerance: int := 5

  /** What the check reads from the scroll container. */
  datatype Geometry = Geometry(scrollLeft: real, scrollWidth: int, clientWidth: int, isRtl: bool)

  /** The button state: `left` enables "previous", `right` enables "next". */
  datatype CanScroll = CanScroll(left: bool, right: bool)

  /** The state before the first check has run. */
  const InitialCanScroll: CanScroll := CanScroll(false, true)

  /** How far the row can scroll at all. */
  function MaxScroll(g: Geometry): int {
    g.scrollWidth - g.clientWidth
  }

  function Abs(x: real): (r: real)
    ensures r >= 0.0 && (r == x || r == -x)
  {
    if x < 0.0 then -x else x
  }

  /** Whether the row is at its start and at its end. */
  datatype Position = Position(atStart: bool, atEnd: bool)

  function Ends(g: Geometry): Position {
    var maxScroll := MaxScroll(g);
    var tol := ScrollEndTolerance as real;
    var last := (maxScroll - ScrollEndTolerance) as real;
    if maxScroll < ScrollEndTolerance then
      Position(true, true)
    else if g.isRtl then
      if g.scrollLeft <= 0.0 then
        Position(Abs(g.scrollLeft) < tol, Abs(g.scrollLeft) >= last)
      else
        Position(g.scrollLeft >= last, g.scrollLeft < tol)
    else
      Position(g.scrollLeft < tol, g.scrollLeft >= last)
  }

  /** `handleScrollCheck`: "previous" is disabled at the start and "next" at
      the end; a row that (nearly) fits disables both. */
  function CheckScroll(g: Geometry): (a: CanScroll)
    ensures MaxScroll(g) < ScrollEndTolerance ==> !a.left && !a.right
    ensures MaxScroll(g) >= ScrollEndTolerance && !g.isRtl ==>
              && (a.left <==> g.scrollLeft >= ScrollEndTolerance as real)
              && (a.right <==> g.scrollLeft < (MaxScroll(g) - ScrollEndTolerance) as real)
    ensures MaxScroll(g) >= ScrollEndTolerance && g.isRtl && g.scrollLeft <= 0.0 ==>
              && (a.left <==> -g.scrollLeft >= ScrollEndTolerance as real)
              && (a.right <==> -g.scrollLeft < (MaxScroll(g) - ScrollEndTolerance) as real)
    ensures MaxScroll(g) >= ScrollEndTolerance && g.isRtl && g.scrollLeft > 0.0 ==>
              && (a.left <==> g.scrollLeft < (MaxScroll(g) - ScrollEndTolerance) as real)
              && (a.right <==> g.scrollLeft >= ScrollEndTolerance as real)
  {
    var ends := Ends(g);
    CanScroll(!ends.atStart, !ends.atEnd)
  }

  /** A convention-free reading of the same rule: with `d` the distance
      scrolled from the start, "previous" is enabled once `d` reaches the
      tolerance and "next" until `d` comes within the tolerance of the end. */
  function ByDistance(d: real, maxScroll: int): CanScroll {
    CanScroll(d >= ScrollEndTolerance as real, d < (maxScroll - ScrollEndTolerance) as real)
  }

  /** Left-to-right: the distance from the start is `scrollLeft`. */
  lemma LtrIsByDistance(g: Geometry)
    requires !g.isRtl && MaxScroll(g) >= ScrollEndTolerance
    ensures CheckScroll(g) == ByDistance(g.scrollLeft, MaxScroll(g))
  {
  }

  /** Right-to-left with offsets running from 0 down to -maxScroll: the
      distance from the start is `-scrollLeft`. */
  lemma NegativeRtlIsByDistance(g: Geometry)
    requires g.isRtl && MaxScroll(g) >= ScrollEndTolerance && g.scrollLeft <= 0.0
    ensures CheckScroll(g) == ByDistance(-g.scrollLeft, MaxScroll(g))
  {
  }

  /** Right-to-left with offsets running from maxScroll down to 0: the distance
      from the start is `maxScroll - scrollLeft`, and the check agrees with the
      convention-free rule except exactly on the two tolerance lines, where its
      comparisons are inclusive on the other side. */
  lemma PositiveRtlIsByDistance(g: Geometry)
    requires g.isRtl && MaxScroll(g) >= ScrollEndTolerance && g.scrollLeft > 0.0
    ensures var d := MaxScroll(g) as real - g.scrollLeft;
            d != ScrollEndTolerance as real && d != (MaxScroll(g) - ScrollEndTolerance) as real
            ==> CheckScroll(g) == ByDistance(d, MaxScroll(g))
    ensures g.scrollLeft == (MaxScroll(g) - ScrollEndTolerance) as real
            ==> !CheckScroll(g).left && ByDistance(MaxScroll(g) as real - g.scrollLeft, MaxScroll(g)).left
  {
  }

  /** Under right-to-left layout an offset of 0 is read as the start, whichever
      convention the engine uses: "previous" is disabled and "next" enabled as
      soon as the row can scroll more than the tolerance. */
  lemma RtlZeroReadsAsStart(g: Geometry)
    requires g.isRtl && g.scrollLeft == 0.0 && MaxScroll(g) > ScrollEndTolerance
    ensures CheckScroll(g) == CanScroll(false, true)
  {
  }

  /** The state shown before the first check is the one the check gives for a
      row at its start that can scroll more than the tolerance, in either
      direction of layout, so the first check of such a row changes nothing. */
  lemma InitialStateIsStartState(g: Geometry)
    requires g.scrollLeft == 0.0 && MaxScroll(g) > ScrollEndTolerance
    ensures CheckScroll(g) == InitialCanScroll
  {
  }

  /** When the row can scroll at least twice the tolerance, at least one
      button is enabled in every position and every layout. */
  lemma SomeButtonEnabled(g: Geometry)
    requires MaxScroll(g) >= 2 * ScrollEndTolerance
    ensures CheckScroll(g).left || CheckScroll(g).right
  {
  }

  /** A re-check triggered by mount, scroll or resize; with no container
      mounted the state is left as it is. */
  function Recheck(current: CanScroll, container: Option<Geometry>): (a: CanScroll)
    ensures container.None? ==> a == current
    ensures container.Some? ==> a == CheckScroll(container.value)
  {
    match container
    case None => current
    case Some(g) => CheckScroll(g)
  }

  /** Triggers firing together converge: the state after a check depends only
      on the geometry, not on the state before, so repeating it changes
      nothing. */
  lemma RecheckConverges(a1: CanScroll, a2: CanScroll, g: Geometry)
    ensures Recheck(a1, Some(g)) == Recheck(a2, Some(g))
    ensures Recheck(Recheck(a1, Some(g)), Some(g)) == Recheck(a1, Some(g))
  {
  }

  /** The two arrow buttons. */
  datatype Direction = Left | Right

  /** `handleFurnitureScroll`: the signed amount to scroll by, from the
      `offsetLeft` of the rendered items; nothing happens without a container
      or with fewer than two items. */
  function ScrollStep(children: Option<seq<int>>, d: Direction): (delta: Option<int>)
    ensures delta.Some? <==> children.Some? && |children.value| > 1
    ensures delta.Some? && d == Right ==> delta.value == children.value[1] - children.value[0]
    ensures delta.Some? && d == Left ==> delta.value == children.value[0] - children.value[1]
  {
    match children
    case None => None
    case Some(offsets) =>
      if |offsets| > 1 then
        var amount := offsets[1] - offsets[0];
        Some(if d == Right then amount else -amount)
      else
        None
  }

  /** One press of each button cancels out (before the browser clamps the
      scroll position to its range). */
  lemma StepsCancel(children: Option<seq<int>>)
    requires ScrollStep(children, Right).Some?
    ensures ScrollStep(children, Left).Some?
    ensures ScrollStep(children, Left).value + ScrollStep(children, Right).value == 0
  {
  }

  /** Three 300-pixel cards with 24-pixel gaps in a 300-pixel viewport, left to
      right: one step is 324 pixels; "previous" is off at the start and turns
      on after one step, and "next" is off at the far end. */
  lemma ThreeCardExample()
    ensures ScrollStep(Some([0, 324, 648]), Right) == Some(324)
    ensures CheckScroll(Geometry(0.0, 948, 300, false)) == CanScroll(false, true)
    ensures CheckScroll(Geometry(324.0, 948, 300, false)) == CanScroll(true, true)
    ensures CheckScroll(Geometry(648.0, 948, 300, false)) == CanScroll(true, false)
  {
  }
}
