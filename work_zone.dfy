/** The work zone component: the viewport state, its event handlers (wheel
    zoom, grab-and-drag pan, drop, resize) and the grid it draws. */
module Zone {
  import opened Viewport
  import opened Grid
  import opened Placement

  class WorkZone {
    var scale: real
    var offsetX: real
    var offsetY: real
    /** Size of the grid canvas in pixels; the x axis is as wide as the grid,
        the y axis as tall. */
    var gridWidth: nat
    var gridHeight: nat

    var isDragging: bool
    /** Client pointer position and offsets when the current drag started. */
    var dragStart: Point
    var dragOffsetStart: Point

    var droppedPolygons: seq<DroppedPolygon>
    /** The transform last given to each dropped shape's element. */
    var transforms: seq<Transform>

    function CurrentView(): View
      reads this
    {
      View(scale, offsetX, offsetY, gridWidth as real, gridHeight as real)
    }

    ghost predicate ScaleInRange()
      reads this
    {
      MinScale <= scale <= MaxScale
    }

    /** Each dropped shape has its own element, hence its own transform. */
    ghost predicate OneTransformPerShape()
      reads this
    {
      |transforms| == |droppedPolygons|
    }

    /** The object invariant: the zoom factor is in range, the visible
        window is inside the logical bounds and every shape has a transform. */
    ghost predicate Valid()
      reads this
    {
      ScaleInRange() && InBounds(CurrentView()) && OneTransformPerShape()
    }

    /** Every dropped shape is shown where its logical point is under the
        current view. */
    ghost predicate Synced()
      reads this
    {
      transforms == Reproject(droppedPolygons, CurrentView())
    }

    /** A fresh work zone: unit zoom, origin at the bottom-left corner, no
        shapes, canvases at the browser's default 300 x 150 pixels until the
        first resize. */
    constructor ()
      ensures Valid() && Synced()
      ensures scale == 1.0 && offsetX == 0.0 && offsetY == 0.0
      ensures gridWidth == 300 && gridHeight == 150
      ensures !isDragging && dragStart == Point(0.0, 0.0) && dragOffsetStart == Point(0.0, 0.0)
      ensures droppedPolygons == [] && transforms == []
    {
      scale := 1.0;
      offsetX, offsetY := 0.0, 0.0;
      gridWidth, gridHeight := 300, 150;
      isDragging := false;
      dragStart := Point(0.0, 0.0);
      dragOffsetStart := Point(0.0, 0.0);
      droppedPolygons := [];
      transforms := [];
    }

    /** Pull each offset back into the range that keeps the visible window
        inside the logical bounds. */
    method ClampOffsets()
      requires ScaleInRange() && OneTransformPerShape()
      modifies this`offsetX, this`offsetY
      ensures CurrentView() == Clamp(old(CurrentView()))
      ensures Valid()
    {
      var maxOffsetX := MaxOffset(MaxGridWidth, gridWidth as real, scale);
      var maxOffsetY := MaxOffset(MaxGridHeight, gridHeight as real, scale);
      offsetX := Min(Max(offsetX, 0.0), maxOffsetX);
      offsetY := Min(Max(offsetY, 0.0), maxOffsetY);
    }

    /** Adopt a new grid canvas size and clamp. The shapes' transforms are
        left as they were. */
    method Resize(width: nat, height: nat)
      requires Valid()
      modifies this`gridWidth, this`gridHeight, this`offsetX, this`offsetY
      ensures Valid()
      ensures gridWidth == width && gridHeight == height
      ensures CurrentView() == Clamp(old(CurrentView()).(width := width as real, height := height as real))
      ensures transforms == old(transforms)
    {
      gridWidth := width;
      gridHeight := height;
      ClampOffsets();
    }

    /** Resize that also reprojects the shapes, so they stay on their logical
        points. */
    method ResizeAndReproject(width: nat, height: nat)
      requires Valid()
      modifies this`gridWidth, this`gridHeight, this`offsetX, this`offsetY, this`transforms
      ensures Valid() && Synced()
      ensures gridWidth == width && gridHeight == height
      ensures CurrentView() == Clamp(old(CurrentView()).(width := width as real, height := height as real))
    {
      Resize(width, height);
      UpdateSvgPositions();
    }

    /** Recompute the transform of every dropped shape from its logical point. */
    method UpdateSvgPositions()
      modifies this`transforms
      ensures Synced()
    {
      var v := CurrentView();
      var ts: seq<Transform> := [];
      var i := 0;
      while i < |droppedPolygons|
        invariant 0 <= i <= |droppedPolygons|
        invariant ts == Reproject(droppedPolygons[..i], v)
      {
        ReprojectAppend(droppedPolygons[..i], droppedPolygons[i], v);
        assert droppedPolygons[..i + 1] == droppedPolygons[..i] + [droppedPolygons[i]];
        ts := ts + [Project(droppedPolygons[i], v)];
        i := i + 1;
      }
      assert droppedPolygons[..i] == droppedPolygons;
      transforms := ts;
    }

    /** Zoom by a wheel step around the pointer at `mouse` (grid pixels).
        A step that leaves the saturated zoom factor where it is changes
        nothing. */
    method OnWheel(deltaY: real, mouse: Point)
      requires Valid()
      modifies this`scale, this`offsetX, this`offsetY, this`transforms
      ensures Valid()
      ensures var s := WheelScale(old(scale), deltaY);
              if s == old(scale) then unchanged(this)
              else CurrentView() == Clamp(ZoomAround(old(CurrentView()), s, mouse)) && Synced()
    {
      var newScale := WheelScale(scale, deltaY);
      if newScale == scale {
        return;
      }
      var logicalX := offsetX + mouse.x / scale;
      var logicalY := offsetY + (gridHeight as real - mouse.y) / scale;
      scale := newScale;
      offsetX := logicalX - mouse.x / scale;
      offsetY := logicalY - (gridHeight as real - mouse.y) / scale;
      ClampOffsets();
      UpdateSvgPositions();
    }

    /** Start a drag at client position `client`, remembering the offsets. */
    method OnDragStart(client: Point)
      requires Valid()
      modifies this`isDragging, this`dragStart, this`dragOffsetStart
      ensures Valid()
      ensures isDragging && dragStart == client && dragOffsetStart == Point(offsetX, offsetY)
      ensures old(Synced()) ==> Synced()
    {
      isDragging := true;
      dragStart := client;
      dragOffsetStart := Point(offsetX, offsetY);
    }

    /** Pan for a pointer now at client position `client`: the offsets are
        the drag-start snapshot moved by the pointer's travel since the drag
        started, clamped. Without a drag in progress nothing changes. */
    method OnDragMove(client: Point)
      requires Valid()
      modifies this`offsetX, this`offsetY, this`transforms
      ensures Valid()
      ensures !old(isDragging) ==> unchanged(this)
      ensures old(isDragging) ==>
                var t := DragTarget(dragOffsetStart, dragStart, client, scale);
                && CurrentView() == Clamp(old(CurrentView()).(offsetX := t.x, offsetY := t.y))
                && Synced()
    {
      if !isDragging {
        return;
      }
      var dx := (client.x - dragStart.x) / scale;
      var dy := (client.y - dragStart.y) / scale;
      offsetX := dragOffsetStart.x - dx;
      offsetY := dragOffsetStart.y + dy;
      ClampOffsets();
      UpdateSvgPositions();
    }

    /** End the drag; the view is left where the last move put it. */
    method OnDragEnd()
      requires Valid()
      modifies this`isDragging
      ensures Valid()
      ensures !isDragging
      ensures !old(isDragging) ==> unchanged(this)
      ensures old(Synced()) ==> Synced()
    {
      if !isDragging {
        return;
      }
      isDragging := false;
    }

    /** Drop a shape at `mouse` (grid pixels). The payload is the SVG flavour
        `svgData` if it is not empty and the plain-text flavour `plainData`
        otherwise; `hasSvgRoot` says whether that text parses to a document
        with an `<svg>` element. An empty payload or one without an `<svg>`
        element is ignored; otherwise the shape is appended at the logical
        point under `mouse` and every shape is reprojected. */
    method OnDrop(svgData: string, plainData: string, hasSvgRoot: bool, mouse: Point)
      requires Valid()
      modifies this`droppedPolygons, this`transforms
      ensures Valid()
      ensures var payload := DropPayload(svgData, plainData);
              if payload == [] || !hasSvgRoot then unchanged(this)
              else && droppedPolygons == old(droppedPolygons) + [DroppedPolygon(payload, ScreenToLogical(CurrentView(), mouse))]
                   && Synced()
                   && transforms[|transforms| - 1] == Transform(mouse, scale)
    {
      var svgString := DropPayload(svgData, plainData);
      if svgString == [] {
        return;
      }
      if !hasSvgRoot {
        return;
      }
      var logicalX := offsetX + mouse.x / scale;
      var logicalY := offsetY + (gridHeight as real - mouse.y) / scale;
      droppedPolygons := droppedPolygons + [DroppedPolygon(svgString, Point(logicalX, logicalY))];
      UpdateSvgPositions();
      DropLandsUnderCursor(CurrentView(), svgString, mouse);
    }

    /** The vertical and horizontal grid lines, as logical coordinates. */
    method DrawGrid() returns (xs: seq<real>, ys: seq<real>)
      requires Valid()
      ensures Enumerates(xs, offsetX, WindowEnd(offsetX, gridWidth as real, scale))
      ensures Enumerates(ys, offsetY, WindowEnd(offsetY, gridHeight as real, scale))
    {
      xs := GridLines(offsetX, gridWidth as real, scale);
      ys := GridLines(offsetY, gridHeight as real, scale);
    }

    /** The ticks of the x axis, one per vertical grid line. */
    method DrawXAxis() returns (ticks: seq<Tick>)
      requires Valid()
      ensures forall i :: 0 <= i < |ticks| ==> ticks[i].at == LineAt(offsetX, i) && ticks[i].number as real == ticks[i].at
      ensures forall i :: 0 <= i < |ticks| ==> ticks[i].at <= WindowEnd(offsetX, gridWidth as real, scale)
      ensures WindowEnd(offsetX, gridWidth as real, scale) < LineAt(offsetX, |ticks|)
    {
      ticks := AxisTicks(offsetX, gridWidth as real, scale);
    }

    /** The ticks of the y axis, one per horizontal grid line. */
    method DrawYAxis() returns (ticks: seq<Tick>)
      requires Valid()
      ensures forall i :: 0 <= i < |ticks| ==> ticks[i].at == LineAt(offsetY, i) && ticks[i].number as real == ticks[i].at
      ensures forall i :: 0 <= i < |ticks| ==> ticks[i].at <= WindowEnd(offsetY, gridHeight as real, scale)
      ensures WindowEnd(offsetY, gridHeight as real, scale) < LineAt(offsetY, |ticks|)
    {
      ticks := AxisTicks(offsetY, gridHeight as real, scale);
    }
  }

  /** The resize as written leaves a shape's transform stale: a shape
      dropped at pixel (100, 50) of a 200 x 100 canvas keeps that transform
      when the canvas grows to 200 pixels tall, while its logical point is
      now shown at pixel (100, 150). */
  method ResizeLeavesStaleTransforms() returns (zone: WorkZone)
    ensures zone.Valid() && !zone.Synced()
    ensures zone.transforms == [Transform(Point(100.0, 50.0), 1.0)]
    ensures Reproject(zone.droppedPolygons, zone.CurrentView()) == [Transform(Point(100.0, 150.0), 1.0)]
  {
    zone := new WorkZone();
    zone.ResizeAndReproject(200, 100);
    zone.OnDrop("<svg/>", "", true, Point(100.0, 50.0));
    zone.Resize(200, 200);
  }

  /** A drop on a 200 x 100 canvas and a full zoom-in around the drop
      point. */
  method DropAndZoomScenario()
  {
    var zone := new WorkZone();
    zone.ResizeAndReproject(200, 100);
    zone.OnDrop("<svg/>", "", true, Point(100.0, 50.0));
    assert zone.droppedPolygons == [DroppedPolygon("<svg/>", Point(100.0, 50.0))];

    // A wheel step of -4000 asks for five times the zoom: it saturates at 5
    // and the shape stays under the cursor.
    zone.OnWheel(-4000.0, Point(100.0, 50.0));
    assert zone.scale == 5.0 && zone.offsetX == 80.0 && zone.offsetY == 40.0;
    assert zone.transforms == [Transform(Point(100.0, 50.0), 5.0)];
  }

  /** On a 200 x 100 canvas at unit zoom, dragging 2500 pixels to the left
      runs into the right-hand bound 2000 - 200. */
  method DragIntoBoundScenario()
  {
    var zone := new WorkZone();
    zone.ResizeAndReproject(200, 100);
    zone.OnDragStart(Point(3000.0, 0.0));
    zone.OnDragMove(Point(500.0, 0.0));
    assert zone.offsetX == 1800.0;
    zone.OnDragEnd();
    assert zone.offsetX == 1800.0 && !zone.isDragging;
  }
}
