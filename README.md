# Work zone viewport, modelled in Dafny

This project models the viewport engine of the `work-zone` web component of
polygon-app. The component shows a fixed logical plane of 2000 x 1000 units
through a grid canvas. Logical Y grows upwards and screen Y grows downwards.
The numeric state is the zoom factor `scale` (kept in `[1, 5]`), the logical
offset of the canvas's bottom-left corner, and the canvas size in pixels.
On top of that state the component does the following:

- `clampOffsets` keeps the visible window inside the plane.
- The wheel zooms around the cursor. The zoom factor saturates at 1 and 5,
  and a step that does not change it does nothing.
- A grab-and-drag pans the view, always measured from the offsets
  snapshotted when the drag started.
- A drop stores an SVG shape at the logical point under the drop pixel.
- `updateSvgPositions` recomputes every stored shape's screen transform from
  its logical point.
- The grid and the two axes enumerate lines and ticks at every multiple of
  50 logical units across the visible window.

Files:

- `viewport.dfy` (module `Viewport`): the constants and the pure formulas.
  These are the clamp, the screen/logical conversions, the wheel
  saturation, zoom-around-a-point and the drag target, with their lemmas.
- `grid.dfy` (module `Grid`): the `x += step` line enumeration and the axis
  ticks, with their coverage lemmas.
- `placement.dfy` (module `Placement`): dropped shapes, their transforms
  and the reprojection of all of them under a view.
- `work_zone.dfy` (module `Zone`): the class `WorkZone` with the source's
  fields and event handlers. Its object invariant `Valid()` says the scale is
  in `[1, 5]`, the offsets are in bounds and every shape has exactly one
  transform. `Synced()` says every shape's
  transform matches its logical point under the current view.
  `DropAndZoomScenario` and `DragIntoBoundScenario` are clients that walk a
  drop, a saturating zoom and a clamped drag through these contracts.

Numbers are Dafny `real`. The source's formulas are exact affine maps, so
they are modelled without floating-point rounding. The source's `===` test on
the new scale is exact real equality.

Inputs from the browser become plain parameters:

- the pointer position relative to the grid, for the wheel and the drop;
- the pointer's client position, for a drag;
- the wheel's `deltaY`;
- the new canvas size, for a resize;
- the two data-transfer flavours of a drop, plus a flag saying whether the
  chosen text parses to a document with an `<svg>` element.

Canvas drawing has no state the model can see, so `draw` is not a state
change. `DrawGrid`, `DrawXAxis` and `DrawYAxis` are read-only methods that
return the logical coordinates the source's loops visit.

Facts about the source that the model keeps:

- A drag is measured from its drag-start snapshot, not added up move by
  move (src/work-zone.js:175-186). Pointer travel of +d pixels along X
  lowers `offsetX` by `d / scale` (line 185). At zoom 1 from offset 0, a
  -2500 pixel drag asks for 2500 and clamps to 1800 = 2000 - 200 on a
  200-pixel-wide canvas; `DragIntoBoundScenario` proves this case.
- The wheel factor is `1 - deltaY * 0.001` (src/work-zone.js:147-148).
- Stored shapes carry no id, only the SVG text, the logical point and the
  element (src/work-zone.js:238).
- `src/main.js:23` calls a `clearPolygons` operation that the component
  does not define, so the model has no clear operation.

## Model

| member | source | states |
|---|---|---|
| `Viewport.MaxOffset` | src/work-zone.js:137-138 | the largest allowed offset on one axis is non-negative, at least `bound - size/scale`, and equal to one of the two |
| `Viewport.ClampOffset` | src/work-zone.js:140-141 | one axis of the clamp lands in `[0, hi]`, keeps an in-range offset, and sends a negative offset to 0 and a too-large one to `hi` |
| `Viewport.Clamp` | src/work-zone.js:136-142 | after clamping both offsets are in bounds, each axis clamped on its own; scale and canvas size are unchanged; an in-bounds view is left as it is |
| `Viewport.ClampIdempotent` | src/work-zone.js:136-142 | clamping twice gives the same view as clamping once |
| `Viewport.ScreenLogicalRoundTrip` | src/work-zone.js:222-223 | a drop pixel converted to logical coordinates and projected back is the same pixel |
| `Viewport.LogicalScreenRoundTrip` | src/work-zone.js:246-247 | a logical point projected to the screen and converted back is the same point |
| `Viewport.WheelScale` | src/work-zone.js:147-149 | the new zoom factor is in `[1, 5]` for every `deltaY`; it is `scale * (1 - deltaY/1000)` when that is in range and saturates to 1 or 5 otherwise |
| `Viewport.ZoomKeepsCursorPoint` | src/work-zone.js:157-163 | the logical point under the cursor computed with the new scale and offsets equals the one computed before the zoom |
| `Viewport.ZoomUnclampedKeepsCursorPixel` | src/work-zone.js:157-165 | when the clamp does not move the zoomed offsets, what was under the cursor before the zoom is projected exactly onto the cursor after it |
| `Viewport.DragBackRestoresSnapshot` | src/work-zone.js:182-188 | moving the pointer back to the drag start restores the drag-start offsets, provided they are in bounds |
| `Viewport.DragKeepsGrabbedPoint` | src/work-zone.js:182-186 | before clamping, the logical point grabbed at drag start is under the pointer after any move |
| `Viewport.ScreenToLogical` | src/work-zone.js:222-223 | no contract; defines the logical point under a grid pixel, `offset + pixel/scale` with Y measured up from the canvas bottom (also lines 157-158) |
| `Viewport.LogicalToScreen` | src/work-zone.js:246-247 | no contract; defines the pixel of a logical point, `((lx - offsetX)*scale, height - (ly - offsetY)*scale)` |
| `Viewport.ZoomAround` | src/work-zone.js:157-163 | no contract; defines the view before clamping after a zoom: the new scale, and offsets that put the point captured at the old scale back under the cursor |
| `Viewport.DragTarget` | src/work-zone.js:182-186 | no contract; defines the offsets a drag asks for: the snapshot minus `dx/scale` on X and plus `dy/scale` on Y |
| `Placement.Project` | src/work-zone.js:246-248 | no contract; defines one shape's transform: the pixel of its logical point and the current scale |
| `Placement.Reproject` | src/work-zone.js:243-249 | no contract; defines the transforms of all shapes, in drop order, under one view |
| `Grid.LineAt` | src/work-zone.js:274-277 | no contract; defines the `i`-th line visited, `(floor(offset/50) + i) * 50` |
| `Grid.Enumerates` | src/work-zone.js:274-290 | no contract; defines a complete enumeration: the consecutive lines from the first one, each within the window, and the next one past it |
| `Grid.FirstLineBracketsOffset` | src/work-zone.js:274 | the first line `floor(offset/50)*50` is at or before the offset and less than one step before it |
| `Grid.GridLines` | src/work-zone.js:274-290 | the loop terminates and emits exactly the consecutive multiples of 50 from the first line; each is at most `offset + size/scale` and the next multiple is past it |
| `Grid.GridCoversWindow` | src/work-zone.js:274-281 | every logical coordinate between the first line and the window's far edge lies less than one step after an emitted line |
| `Grid.AxisTicks` | src/work-zone.js:309-318 | the ticks are the grid lines of that axis, and each printed number `Math.round(x)` equals its coordinate exactly |
| `Grid.LabelIsExact` | src/work-zone.js:317 | rounding a line's coordinate to an integer leaves it unchanged |
| `Placement.DropPayload` | src/work-zone.js:207-208 | the payload is one of the two flavours, the SVG one when it is not empty, and it is empty exactly when both are |
| `Placement.DropLandsUnderCursor` | src/work-zone.js:222-248 | a shape stored at the logical image of the drop pixel is projected exactly onto that pixel, at the current scale |
| `Placement.ReprojectAppend` | src/work-zone.js:238-240 | appending a shape appends its transform and leaves the others unchanged |
| `Placement.ReprojectRecoversLogical` | src/work-zone.js:243-249 | each reprojected transform converts back to its shape's stored logical point |
| `Zone.WorkZone.constructor` | src/work-zone.js:15-28 | a new zone has scale 1, offsets 0, no drag, no shapes and 300 x 150 canvases; it satisfies the invariant (scale in range, offsets in bounds, one transform per shape) |
| `Zone.WorkZone.ClampOffsets` | src/work-zone.js:136-142 | the new view is the clamp of the old one; only the two offsets may change |
| `Zone.WorkZone.Resize` | src/work-zone.js:110-125 | the canvas takes the new size and the offsets are clamped to it; the shapes' transforms are left as they were |
| `Zone.WorkZone.ResizeAndReproject` | src/work-zone.js:110-125 | resize, after which every shape's transform again matches its logical point |
| `Zone.WorkZone.UpdateSvgPositions` | src/work-zone.js:243-250 | every shape's transform is `((lx - offsetX)*scale, height - (ly - offsetY)*scale)` at the current scale; the shapes themselves are unchanged |
| `Zone.WorkZone.OnWheel` | src/work-zone.js:144-168 | the scale stays in `[1, 5]` and offsets stay in bounds; a step that leaves the saturated scale unchanged changes nothing; otherwise the view is the clamp of the zoom around the cursor and shapes are reprojected; shapes are not modified |
| `Zone.WorkZone.OnDragStart` | src/work-zone.js:170-177 | starts a drag and snapshots the pointer and the current offsets; the view is unchanged |
| `Zone.WorkZone.OnDragMove` | src/work-zone.js:179-191 | without a drag nothing changes; with one, the offsets are the clamp of the snapshot moved by `-dx/scale, +dy/scale` and shapes are reprojected; scale and shapes are untouched |
| `Zone.WorkZone.OnDragEnd` | src/work-zone.js:193-197 | the drag is over; without a drag nothing changes; offsets and scale are never touched |
| `Zone.WorkZone.OnDrop` | src/work-zone.js:204-241 | an empty payload or one without `<svg>` changes nothing; otherwise exactly one shape is appended at the logical image of the drop pixel, earlier shapes are kept, and the new shape is shown at the drop pixel |
| `Zone.WorkZone.DrawGrid` | src/work-zone.js:266-293 | the vertical and horizontal lines are the complete enumerations of both axes over the current window |
| `Zone.WorkZone.DrawXAxis` | src/work-zone.js:295-321 | the x ticks are the vertical grid lines, each labelled with its exact coordinate |
| `Zone.WorkZone.DrawYAxis` | src/work-zone.js:323-349 | the y ticks are the horizontal grid lines, each labelled with its exact coordinate |
| `Zone.ResizeLeavesStaleTransforms` | src/work-zone.js:110-125 | after a drop at pixel (100, 50) of a 200 x 100 canvas, the as-written resize to 200 x 200 leaves a valid zone whose shape keeps the transform (100, 50) while its logical point is now shown at (100, 150), so the zone is no longer synced |

## Findings

| source | as written | input that shows it | evidently intended | confidence | as-written member | corrected member |
|---|---|---|---|---|---|---|
| src/work-zone.js:110-125 | `resize` clamps the offsets and redraws the grid but does not call `updateSvgPositions`, so placed shapes keep the transforms of the old canvas size. Screen Y depends on the canvas height, and the clamp may move the offsets. | zoom 1, offsets 0, 200 x 100 canvas, a shape dropped at pixel (100, 50). Resizing to 200 x 200 leaves the shape at (100, 50), while its logical point (100, 50) is now drawn at (100, 150). | resize reprojects the shapes, as the wheel and drag handlers do | medium, not executed | `Zone.WorkZone.Resize`, shown by `Zone.ResizeLeavesStaleTransforms` | `Zone.WorkZone.ResizeAndReproject` |

## Left out

- Shadow DOM, the CSS and HTML of `render`, the custom-element registration, and the event-listener and `ResizeObserver` wiring are not modelled. They are host-environment plumbing.
- The drawing calls are not modelled: `clear`, `draw`, the stroke and fill styles, `moveTo`/`lineTo`/`stroke`/`fillText`, and the `Math.round(...) + 0.5` pixel snapping of line positions. Only the logical coordinates the loops visit are modelled.
- `getBoundingClientRect` is not modelled: the wheel and drop take the pointer already relative to the grid. A drag works on client coordinates, as the source does, so the canvas origin is not needed there.
- `DataTransfer` and `DOMParser` are not modelled. The payload is the two data flavours plus a flag for "parsed to a document with an `<svg>`".
- The SVG element itself is not modelled: its cloning, attribute removal, fixed 100-pixel size and the `style.transform` string. A shape's transform is kept as a value (screen point and scale).
- `Zone.WorkZone.Resize` takes the new grid canvas size directly. The `clientWidth - 40` subtraction and the browser's handling of a negative canvas size are not modelled. The axis canvases are taken to be as wide and tall as the grid, which is what `resize` and the default canvas size give.
- `onDragOver` only sets the drop effect, so it is not modelled. The `dragging` CSS class toggled by the drag handlers is not modelled either.
- IEEE-754 rounding is not modelled: all arithmetic is exact over the reals.
- The shape palette (`src/svg-zone.js`) is not modelled: random polygon generation, rendering, drag start and storage loading. Neither are the button wiring in `src/main.js` and the build configuration.
- `src/main.js` calls a `clearPolygons` operation that the component does not define, so no clear operation is modelled.
