/** Shapes dropped on the work zone.

    Each dropped shape keeps the SVG text it was dropped with and the logical
    point it was dropped at; its on-screen transform (pixel position of its
    corner and magnification) is derived from that point and the current
    view, and recomputed whenever the view changes. */
module Placement {
  import opened Viewport

  datatype DroppedPolygon = DroppedPolygon(svg: string, logical: Point)

  /** The `translate(x, y) scale(s)` transform given to a shape's element. */
  datatype Transform = Transform(screen: Point, scale: real)

  function Project(p: DroppedPolygon, v: View): Transform
  {
    Transform(LogicalToScreen(v, p.logical), v.scale)
  }

  /** The transforms of all shapes, in drop order, under view `v`. */
  function Reproject(ps: seq<DroppedPolygon>, v: View): seq<Transform>
  {
    seq(|ps|, i requires 0 <= i < |ps| => Project(ps[i], v))
  }

  /** The text a drop carries: the SVG flavour of the payload if it is not
      empty, the plain-text flavour otherwise. */
  function DropPayload(svgData: string, plainData: string): (s: string)
    ensures svgData != [] ==> s == svgData
    ensures svgData == [] ==> s == plainData
    ensures s == [] <==> svgData == [] && plainData == []
  {
    if svgData != [] then svgData else plainData
  }

  /** A shape dropped at screen pixel `m` is shown with its corner at `m`. */
  lemma DropLandsUnderCursor(v: View, svg: string, m: Point)
    requires 0.0 < v.scale
    ensures Project(DroppedPolygon(svg, ScreenToLogical(v, m)), v) == Transform(m, v.scale)
  {
    ScreenLogicalRoundTrip(v, m);
  }

  /** Appending a shape appends its transform and leaves the others as they are. */
  lemma ReprojectAppend(ps: seq<DroppedPolygon>, p: DroppedPolygon, v: View)
    ensures Reproject(ps + [p], v) == Reproject(ps, v) + [Project(p, v)]
  {
  }

  /** Reprojecting under a view and converting each transform back with the
      same view gives every shape's stored logical point. */
  lemma ReprojectRecoversLogical(ps: seq<DroppedPolygon>, v: View, i: int)
    requires 0.0 < v.scale
    requires 0 <= i < |ps|
    ensures ScreenToLogical(v, Reproject(ps, v)[i].screen) == ps[i].logical
  {
    LogicalScreenRoundTrip(v, ps[i].logical);
  }
}
