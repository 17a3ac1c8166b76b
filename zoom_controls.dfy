// The two zoom buttons and the three-dot zoom indicator. Zoom levels are whole numbers:
// the parent starts at 28 and only these buttons change the level, in steps of 3.

module ZoomControls {

  const DefaultMin: int := 8
  const DefaultMax: int := 50
  const Step: int := 3
  /** A dot lights up within this distance of its level. */
  const DotReach: real := 5.0

  /** `handleZoomIn`: 3 units closer, never below the minimum. */
  function ZoomIn(zoom: int, minZoom: int): (z: int)
    ensures z >= minZoom && z >= zoom - Step
    ensures z == minZoom || z == zoom - Step
  {
    if zoom - Step > minZoom then zoom - Step else minZoom
  }

  /** `handleZoomOut`: 3 units farther, never above the maximum. */
  function ZoomOut(zoom: int, maxZoom: int): (z: int)
    ensures z <= maxZoom && z <= zoom + Step
    ensures z == maxZoom || z == zoom + Step
  {
    if zoom + Step < maxZoom then zoom + Step else maxZoom
  }

  /** From a level in range, both buttons keep the level in range and move it the right way. */
  lemma ZoomStaysInRange(zoom: int, minZoom: int, maxZoom: int)
    requires minZoom <= zoom <= maxZoom
    ensures minZoom <= ZoomIn(zoom, minZoom) <= zoom <= maxZoom
    ensures minZoom <= zoom <= ZoomOut(zoom, maxZoom) <= maxZoom
  {
  }

  /** Zooming in by a full step and back out returns to the same level. */
  lemma ZoomRoundTrip(zoom: int, minZoom: int, maxZoom: int)
    requires zoom - Step >= minZoom && zoom <= maxZoom
    ensures ZoomOut(ZoomIn(zoom, minZoom), maxZoom) == zoom
  {
  }

  /** `isZoomedIn`: the zoom-in button is disabled at or below the minimum. */
  predicate ZoomInDisabled(zoom: int, minZoom: int)
  {
    zoom <= minZoom
  }

  /** `isZoomedOut`: the zoom-out button is disabled at or above the maximum. */
  predicate ZoomOutDisabled(zoom: int, maxZoom: int)
  {
    zoom >= maxZoom
  }

  /** A button is disabled exactly when pressing it could not change an in-range level. */
  lemma DisabledIffNoEffect(zoom: int, minZoom: int, maxZoom: int)
    requires minZoom <= zoom <= maxZoom
    ensures ZoomInDisabled(zoom, minZoom) <==> ZoomIn(zoom, minZoom) == zoom
    ensures ZoomOutDisabled(zoom, maxZoom) <==> ZoomOut(zoom, maxZoom) == zoom
  {
  }

  /** The levels of the three indicator dots. */
  function DotLevels(minZoom: int, maxZoom: int): (levels: seq<real>)
    ensures |levels| == 3
    ensures levels[0] == minZoom as real && levels[2] == maxZoom as real
    ensures levels[1] - levels[0] == levels[2] - levels[1]
  {
    [minZoom as real, (minZoom + maxZoom) as real / 2.0, maxZoom as real]
  }

  function Abs(x: real): real
  {
    if x < 0.0 then -x else x
  }

  /** Which dots are lit: those whose level is closer than 5 to the zoom. */
  function ActiveDots(zoom: int, minZoom: int, maxZoom: int): (lit: seq<bool>)
    ensures |lit| == 3
    ensures forall i :: 0 <= i < 3 ==>
      (lit[i] <==> -DotReach < zoom as real - DotLevels(minZoom, maxZoom)[i] < DotReach)
  {
    var levels := DotLevels(minZoom, maxZoom);
    seq(3, i requires 0 <= i < 3 => Abs(zoom as real - levels[i]) < DotReach)
  }

  /** With the default range, each level lights at most one dot, and exactly one near the ends. */
  lemma AtMostOneDot(zoom: int)
    ensures var lit := ActiveDots(zoom, DefaultMin, DefaultMax);
      !(lit[0] && lit[1]) && !(lit[1] && lit[2]) && !(lit[0] && lit[2])
    ensures DefaultMin <= zoom < DefaultMin + 5 ==> ActiveDots(zoom, DefaultMin, DefaultMax)[0]
    ensures DefaultMax - 5 < zoom <= DefaultMax ==> ActiveDots(zoom, DefaultMin, DefaultMax)[2]
  {
    var lit := ActiveDots(zoom, DefaultMin, DefaultMax);
    assert DotLevels(DefaultMin, DefaultMax) == [8.0, 29.0, 50.0];
    assert lit[0] <==> -5.0 < zoom as real - 8.0 < 5.0;
    assert lit[1] <==> -5.0 < zoom as real - 29.0 < 5.0;
    assert lit[2] <==> -5.0 < zoom as real - 50.0 < 5.0;
  }
}
