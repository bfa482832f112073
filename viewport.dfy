/** The viewport of the work zone.

    A fixed logical plane of MaxGridWidth x MaxGridHeight units is seen through
    the grid canvas (width x height pixels) at magnification `scale`.  The
    offset is the logical point shown at the bottom-left corner of the canvas:
    logical X grows to the right like screen X, but logical Y grows upwards
    while screen Y grows downwards, so every Y conversion goes through the
    canvas height. */
module Viewport {

  /** The closed range of the zoom factor. */
  const MinScale: real := 1.0
  const MaxScale: real := 5.0

  /** The logical extent that can be panned over. */
  const MaxGridWidth: real := 2000.0
  const MaxGridHeight: real := 1000.0

  /** Zoom change per unit of wheel `deltaY`. */
  const WheelSensitivity: real := 0.001

  datatype Point = Point(x: real, y: real)

  /** The numeric state of the viewport: zoom factor, logical offset of the
      bottom-left corner and the grid canvas size in pixels. */
  datatype View = View(scale: real, offsetX: real, offsetY: real, width: real, height: real)

  function Max(a: real, b: real): real { if a >= b then a else b }

  function Min(a: real, b: real): real { if a <= b then a else b }

  /** The largest offset along one axis that keeps the visible span
      `size / scale` inside `[0, bound]`; zero when the span is wider than the
      bound. */
  function MaxOffset(bound: real, size: real, scale: real): (m: real)
    requires 0.0 < scale
    ensures 0.0 <= m
    ensures bound - size / scale <= m
    ensures m == 0.0 || m == bound - size / scale
  {
    Max(0.0, bound - size / scale)
  }

  /** One axis of the clamp: saturate `v` into `[0, hi]`. */
  function ClampOffset(v: real, hi: real): (r: real)
    requires 0.0 <= hi
    ensures 0.0 <= r <= hi
    ensures 0.0 <= v <= hi ==> r == v
    ensures v < 0.0 ==> r == 0.0
    ensures hi < v ==> r == hi
  {
    Min(Max(v, 0.0), hi)
  }

  function MaxOffsetX(v: View): real
    requires 0.0 < v.scale
  {
    MaxOffset(MaxGridWidth, v.width, v.scale)
  }

  function MaxOffsetY(v: View): real
    requires 0.0 < v.scale
  {
    MaxOffset(MaxGridHeight, v.height, v.scale)
  }

  /** The visible logical window lies inside the pannable extent. */
  ghost predicate InBounds(v: View)
    requires 0.0 < v.scale
  {
    0.0 <= v.offsetX <= MaxOffsetX(v) && 0.0 <= v.offsetY <= MaxOffsetY(v)
  }

  /** The clamp of both offsets, each axis on its own; scale and canvas size
      are kept. */
  function Clamp(v: View): (r: View)
    requires 0.0 < v.scale
    ensures r.scale == v.scale && r.width == v.width && r.height == v.height
    ensures InBounds(r)
    ensures v.offsetX < 0.0 ==> r.offsetX == 0.0
    ensures MaxOffsetX(v) < v.offsetX ==> r.offsetX == MaxOffsetX(v)
    ensures 0.0 <= v.offsetX <= MaxOffsetX(v) ==> r.offsetX == v.offsetX
    ensures v.offsetY < 0.0 ==> r.offsetY == 0.0
    ensures MaxOffsetY(v) < v.offsetY ==> r.offsetY == MaxOffsetY(v)
    ensures 0.0 <= v.offsetY <= MaxOffsetY(v) ==> r.offsetY == v.offsetY
    ensures InBounds(v) ==> r == v
  {
    v.(offsetX := ClampOffset(v.offsetX, MaxOffsetX(v)),
       offsetY := ClampOffset(v.offsetY, MaxOffsetY(v)))
  }

  /** Clamping twice is clamping once. */
  lemma ClampIdempotent(v: View)
    requires 0.0 < v.scale
    ensures Clamp(Clamp(v)) == Clamp(v)
  {
  }

  /** The logical point shown at screen pixel `p` of the grid canvas. */
  function ScreenToLogical(v: View, p: Point): Point
    requires 0.0 < v.scale
  {
    Point(v.offsetX + p.x / v.scale, v.offsetY + (v.height - p.y) / v.scale)
  }

  /** The screen pixel at which logical point `q` is shown. */
  function LogicalToScreen(v: View, q: Point): Point
  {
    Point((q.x - v.offsetX) * v.scale, v.height - (q.y - v.offsetY) * v.scale)
  }

  /** Moving `a / s` away from an origin and scaling the distance back by
      `s` gives `a`. */
  lemma ScaledDistance(origin: real, a: real, s: real)
    requires s != 0.0
    ensures ((origin + a / s) - origin) * s == a
  {
    assert (origin + a / s) - origin == a / s;
  }

  /** A screen pixel converted to logical coordinates and back is the same pixel. */
  lemma ScreenLogicalRoundTrip(v: View, p: Point)
    requires 0.0 < v.scale
    ensures LogicalToScreen(v, ScreenToLogical(v, p)) == p
  {
    ScaledDistance(v.offsetX, p.x, v.scale);
    ScaledDistance(v.offsetY, v.height - p.y, v.scale);
  }

  /** A logical point converted to a screen pixel and back is the same point. */
  lemma LogicalScreenRoundTrip(v: View, q: Point)
    requires 0.0 < v.scale
    ensures ScreenToLogical(v, LogicalToScreen(v, q)) == q
  {
    var p := LogicalToScreen(v, q);
    assert p.x / v.scale == q.x - v.offsetX;
    assert (v.height - p.y) / v.scale == q.y - v.offsetY;
  }

  /** The zoom factor a wheel step of `deltaY` asks for, saturated to
      `[MinScale, MaxScale]`; scrolling up (negative `deltaY`) zooms in. */
  function WheelScale(scale: real, deltaY: real): (s: real)
    ensures MinScale <= s <= MaxScale
    ensures var wanted := scale * (1.0 - deltaY * WheelSensitivity);
            && (MinScale <= wanted <= MaxScale ==> s == wanted)
            && (wanted < MinScale ==> s == MinScale)
            && (MaxScale < wanted ==> s == MaxScale)
  {
    var delta := -deltaY * WheelSensitivity;
    Min(Max(scale * (1.0 + delta), MinScale), MaxScale)
  }

  /** The view after zooming to `newScale` around screen pixel `m`, before
      clamping: the logical point under `m` is taken with the old scale and
      offset, then the offset is chosen that puts it under `m` at the new
      scale. */
  function ZoomAround(v: View, newScale: real, m: Point): View
    requires 0.0 < v.scale && 0.0 < newScale
  {
    var l := ScreenToLogical(v, m);
    v.(scale := newScale,
       offsetX := l.x - m.x / newScale,
       offsetY := l.y - (v.height - m.y) / newScale)
  }

  /** Zooming keeps the logical point under the cursor where it was. */
  lemma ZoomKeepsCursorPoint(v: View, newScale: real, m: Point)
    requires 0.0 < v.scale && 0.0 < newScale
    ensures ScreenToLogical(ZoomAround(v, newScale, m), m) == ScreenToLogical(v, m)
  {
  }

  /** When the clamp leaves the zoomed offsets alone, whatever was under the
      cursor before the zoom is still shown at the cursor afterwards. */
  lemma ZoomUnclampedKeepsCursorPixel(v: View, newScale: real, m: Point)
    requires 0.0 < v.scale && 0.0 < newScale
    requires InBounds(ZoomAround(v, newScale, m))
    ensures LogicalToScreen(Clamp(ZoomAround(v, newScale, m)), ScreenToLogical(v, m)) == m
  {
    var z := ZoomAround(v, newScale, m);
    ZoomKeepsCursorPoint(v, newScale, m);
    ScreenLogicalRoundTrip(z, m);
  }

  /** The offsets a drag asks for: the offsets snapshotted when the drag
      started, moved against the pointer's travel since then (in client
      pixels) converted to logical units. Dragging right moves the window left;
      dragging down moves it up, because screen Y is flipped. */
  function DragTarget(snapshot: Point, dragStart: Point, pointer: Point, scale: real): Point
    requires 0.0 < scale
  {
    var dx := (pointer.x - dragStart.x) / scale;
    var dy := (pointer.y - dragStart.y) / scale;
    Point(snapshot.x - dx, snapshot.y + dy)
  }

  /** Bringing the pointer back to where the drag started restores the
      snapshot, whatever path the pointer took, as long as the snapshot is
      inside the bounds of the current view. */
  lemma DragBackRestoresSnapshot(v: View, snapshot: Point, dragStart: Point)
    requires 0.0 < v.scale
    requires InBounds(v.(offsetX := snapshot.x, offsetY := snapshot.y))
    ensures var t := DragTarget(snapshot, dragStart, dragStart, v.scale);
            Clamp(v.(offsetX := t.x, offsetY := t.y)) == v.(offsetX := snapshot.x, offsetY := snapshot.y)
  {
  }

  /** Grab-and-drag: with the canvas at client position `origin`, the logical
      point that was under the pointer when the drag started is under the
      pointer after the move (before clamping). */
  lemma DragKeepsGrabbedPoint(v: View, dragStart: Point, pointer: Point, origin: Point)
    requires 0.0 < v.scale
    ensures var t := DragTarget(Point(v.offsetX, v.offsetY), dragStart, pointer, v.scale);
            ScreenToLogical(v.(offsetX := t.x, offsetY := t.y), Point(pointer.x - origin.x, pointer.y - origin.y))
            == ScreenToLogical(v, Point(dragStart.x - origin.x, dragStart.y - origin.y))
  {
    var s := v.scale;
    assert (pointer.x - dragStart.x) / s + (dragStart.x - origin.x) / s == (pointer.x - origin.x) / s;
    assert (pointer.y - dragStart.y) / s + (v.height - (pointer.y - origin.y)) / s
        == (v.height - (dragStart.y - origin.y)) / s;
  }
}
