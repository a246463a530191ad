# Bivariate CDF viewer — a Dafny model of its scene logic

`script.js` draws a three-dimensional picture of a bivariate cumulative
distribution function with Three.js. You can toggle between two views:

- a smooth **continuous** surface: a 20 × 20 plane of 41 × 41 vertices, each
  vertex lifted to a clamped CDF-like height;
- a **discrete** staircase: 20 × 20 boxes whose heights are the joint CDF of
  two independent uniform variables on {0, …, 19}.

The page also does three other things:

- It classifies the viewport as mobile, tablet or desktop by width. The class
  decides OrbitControls' zoom range and pan flag, the starting camera position
  and the size of the number labels.
- It draws ticks and number labels at every integer of each axis from -10 to
  10, skipping the origin.
- Two toggle buttons switch the view. Each switch rebuilds the CDF group in
  the scene and moves the "active" mark to the button of the current mode.

The model has seven modules:

- `Arithmetic` (`arithmetic.dfy`): monotonicity of multiplication, for
  integers and reals, used by the bounds proofs.
- `Geometry` (`geometry.dfy`): points, segments, and `Math.min`/`Math.max`.
- `DiscreteCdf` (`discrete.dfy`): the cell formulas and the two nested loops of
  `createDiscreteCDF`. The cells are proved against `StepGrid`, the function
  that lists them in loop order.
- `ContinuousCdf` (`continuous.dfy`): the height formula and the in-place
  vertex loop of `createContinuousCDF`, over an `array` of vertices. The loop
  is proved against `Surface`, the function giving the whole rewritten buffer.
- `Viewport` (`viewport.dfy`): the width thresholds and the per-class tables,
  plus class `ResponsiveControls`. Its fields are the OrbitControls and camera
  fields that the class-dependent branches of the top-level setup and of
  `handleResize` assign.
- `Ticks` (`ticks.dfy`): the loop from -gridSize to gridSize that skips 0, as
  used by `createTicks` and `createLabels`.
- `CdfToggle` (`toggle.dfy`): class `CdfView`, which holds the page's globals.
  These are `currentCDFType`, `cdfGroup`, the scene's children and the toggle
  buttons' flags. Its methods are `updateCDF`, `switchToContinuous`,
  `switchToDiscrete`, `updateToggleButtons` and the page-load sequence.

Scene children are values, and a group's identity is a fresh id per created
group. `scene.remove` takes out the first occurrence of the child and ignores
a child that is absent. The button list is an `array<bool>` of "active" flags.

Three facts about the code that the model keeps:

- The code has no error path for a step count of 0. Its step count is the
  constant 20, and `StepGrid(0, _)` is simply empty.
- The new Z of a vertex is its old plane Y (the local `z` at line 278), not
  its old Z, although the comment at script.js:288 reads as if Z were kept.
- The far-corner height of 2 at (10, 10) needs sin(π) to be exactly 0. The
  model assumes that in `FarCornerFullHeight`; IEEE `Math.sin(Math.PI)` is not
  exactly 0.

## Model

| member | source | states |
|---|---|---|
| DiscreteCdf.CreateDiscreteCdf | script.js:309-344 | The nested i/j loops produce exactly steps² boxes, the box of cell (i, j) at row-major position i·steps + j, i.e. `StepGrid(steps, stepSize)`. |
| DiscreteCdf.AddRow | script.js:317-340 | The inner j loop appends exactly the boxes of row i, j = 0 .. steps-1 in order, after the boxes already built. |
| DiscreteCdf.RowsLength | script.js:316-317 | The first n rows of the grid hold exactly n·steps boxes. |
| DiscreteCdf.RowsCell | script.js:316-331 | Within the first n rows, cell (i, j) is the box at row-major position i·steps + j. |
| DiscreteCdf.StepGridCell | script.js:316-331 | Cell (i, j) with i, j < steps lies inside the grid at position i·steps + j and is that cell's box. |
| DiscreteCdf.StepGridEntries | script.js:316-331 | Every grid entry k is the box of a cell whose row k / steps and column k % steps are both in range. |
| DiscreteCdf.ProductBound | script.js:320 | (i+1)(j+1) ≤ steps², with equality exactly for the last cell. |
| DiscreteCdf.NoClipping | script.js:320 | The `Math.min(1, …)` never clips: every cell's height is its unclipped ratio times 1.5. |
| DiscreteCdf.HeightBounds | script.js:313-320 | Every cell height lies in (0, 1.5]. |
| DiscreteCdf.FullHeightOnlyAtLastCell | script.js:320 | A cell has the full height 1.5 if and only if it is cell (steps-1, steps-1). |
| DiscreteCdf.HeightIsProductOfMarginals | script.js:320 | Height = 1.5 · F(i) · F(j), with F the CDF of the uniform distribution on {0, …, steps-1}. |
| DiscreteCdf.HeightIncreasing | script.js:320 | Heights never decrease along i or along j, and strictly increase whenever one index grows. |
| DiscreteCdf.RectangleMassNonNegative | script.js:320 | The grid is a genuine bivariate CDF: H(i',j') - H(i,j') - H(i',j) + H(i,j) ≥ 0. |
| DiscreteCdf.BoxRestsOnFloor | script.js:320-330 | A box centred at height/2 has its bottom face at y = 0 and its top at most 1.5. |
| DiscreteCdf.CoordSpacing | script.js:318-319 | Neighbouring cell coordinates are exactly stepSize apart, starting at -(steps/2)·stepSize. |
| DiscreteCdf.CoordInjective | script.js:318-319 | With a non-zero stepSize, two cells share a coordinate if and only if they have the same index. |
| DiscreteCdf.ShippedCoordRange | script.js:313-319 | With steps = 20 and stepSize = 1, coordinate i is the integer i - 10, so coordinates run from -10 to 9. |
| DiscreteCdf.FootprintsDisjoint | script.js:318-322 | The 0.9·stepSize footprints of two different cells never overlap: on some axis they are 0.1·stepSize apart. |
| DiscreteCdf.SeparatedByAStep | script.js:318-319 | Distinct indices give coordinates at least stepSize apart. |
| DiscreteCdf.ShippedGrid | script.js:313-320 | The shipped grid has 400 boxes, and the last one is 1.5 tall. |
| ContinuousCdf.Normalize | script.js:281-282 | Maps [-10, 10] onto [0, 1] (both directions) and is inverted by c = 20n - 10. |
| ContinuousCdf.Clamp01 | script.js:285 | The result lies in [0, 1], equals v inside it, and is 0 below and 1 above. |
| ContinuousCdf.SurfaceHeight | script.js:285-287 | The stored height lies in [0, 2] for any trig value, and is 0 wherever nx = 0 or nz = 0. |
| ContinuousCdf.ApplyCdf | script.js:274-289 | The in-place loop leaves the buffer equal to `Surface` of its old contents: every vertex lifted, none skipped, order unchanged. |
| ContinuousCdf.CreateContinuousCdf | script.js:262-289 | The mesh's vertices are `Surface(plane, trig)` of the plane buffer. |
| ContinuousCdf.SurfaceShape | script.js:276-288 | The vertex count is unchanged, X is kept, the new Z is the old Y, and the new Y is in [0, 2]. |
| ContinuousCdf.HeightIsLocal | script.js:277-287 | A vertex's new position depends only on its own x and old y, not on its index or old z. |
| ContinuousCdf.ZeroAlongLowEdges | script.js:281-287 | On the edges x = -10 and y = -10 of the plane the surface has height 0. |
| ContinuousCdf.LowerClampInactive | script.js:285 | For nx, nz in [0, 1] and a trig factor in [-1, 1] the raw value is in [0, 1.3], so only the clamp at 1 can act. |
| ContinuousCdf.SurfaceStaysInBox | script.js:266-288 | Every plane vertex is lifted into [-10, 10] × [0, 2] × [-10, 10]. |
| ContinuousCdf.FarCornerFullHeight | script.js:281-287 | At (10, 10), where the trig factor is 0, the height is the full 2. |
| ContinuousCdf.PlaneSurface | script.js:266-289 | For PlaneGeometry(20, 20, 40, 40) the surface has 1681 vertices, each keeping its footprint. |
| Viewport.Classify | script.js:26-27 | Mobile if and only if w ≤ 768, tablet if and only if 768 < w ≤ 1024, desktop if and only if w > 1024. |
| Viewport.ClassifyMonotone | script.js:26-27 | A wider viewport never gets a smaller class. |
| Viewport.LimitsWellFormed | script.js:29-45 | In every class 0 < minDistance < maxDistance, and pan is off exactly on mobile. |
| Viewport.StartCameraWithinZoomRange | script.js:29-45 | Each class's starting camera distance lies within that class's zoom range. |
| Viewport.SmallerScreensStartFurther | script.js:34-44 | A smaller class starts the camera strictly further from the origin. |
| Viewport.LabelStyleProportions | script.js:193-208 | Each label canvas is twice as wide as tall, its font is half its height, and the sprite keeps that 2:1 aspect. |
| Viewport.LabelsGrowWithViewport | script.js:190-208 | Canvas width, font size and sprite scale never shrink as the viewport grows. |
| Viewport.ResponsiveControls.Setup | script.js:14-45 | Top-level setup leaves the controls and camera at the settings of the load-time class. |
| Viewport.ResponsiveControls.HandleResize | script.js:423-438 | A resize applies the new class's limits in full and leaves the camera where it was. |
| Viewport.MobileStartBeyondTabletRange | script.js:29-40 | The mobile start position lies beyond the tablet maximum distance, so the per-class zoom range does not carry over a resize. |
| Viewport.LoadThenResize | script.js:14-45 | After a load and a resize, the limits follow the new width and the camera field keeps the load-time start; resizing does not assign it. |
| Ticks.CreateTicks | script.js:147-183 | The tick loop yields, in order, the three axis ticks for each integer it handles, one entry per element of `Indices`. |
| Ticks.CreateLabels | script.js:186-259 | The label loop yields, in order, one label triple per handled integer, all in the style of the viewport's class. |
| Ticks.IndicesExactly | script.js:151-152 | The loops handle exactly the integers -g .. g other than 0, 2g of them. |
| Ticks.IndicesIncreasing | script.js:151-152 | The integers are handled in strictly increasing order, so none twice. |
| Ticks.ShippedIndices | script.js:151-152 | With gridSize 10, the 20 ticks run from -10 to -1 and then from 1 to 10. |
| Ticks.TicksCentredOnAxes | script.js:155-178 | Each tick is centred on its axis at distance i and is 2·tickSize long. |
| Ticks.LabelSpritesUndistorted | script.js:239-255 | Every label sprite has the 2:1 aspect of its canvas in every viewport class. |
| CdfToggle.RemovedOneCopy | script.js:348 | `scene.remove` takes out exactly one copy of a child that is present, so the multiset of children loses it. |
| CdfToggle.RemovedAbsent | script.js:348 | Removing a child that is not in the scene changes nothing. |
| CdfToggle.RemovedFirstOccurrence | script.js:348 | Removing a child that occurs once closes the gap it leaves. |
| CdfToggle.ReplacedKeepsOneGroup | script.js:346-358 | Replacing the only CDF group by a new one leaves exactly one CDF group, the new one, with the fixed children untouched and in order. |
| CdfToggle.RemoveOnlyCdf | script.js:348 | Removing the only CDF group leaves no CDF group and keeps the fixed children. |
| CdfToggle.CdfCountAppend | script.js:357 | `scene.add` of one child adds it to the CDF count or to the fixed part, whichever it belongs to. |
| CdfToggle.ExactlyOneActive | script.js:373-382 | Flags set at exactly one index count one active button. |
| CdfToggle.NoneActive | script.js:375 | All flags cleared count no active button. |
| CdfToggle.ButtonIndexDistinguishesModes | script.js:377-381 | The two modes mark different buttons, both among the first two. |
| CdfToggle.CdfView.constructor | script.js:52-54 | The globals start in continuous mode with an empty placeholder group that is not in the scene. |
| CdfToggle.CdfView.Load | script.js:385-398 | Page load yields axes, grids, ticks, labels, the initial CDF group for the current mode, then the two lights. |
| CdfToggle.CdfView.AddFixed | script.js:385-398 | `scene.add` of a fixed part appends it and keeps at most one CDF group. |
| CdfToggle.CdfView.UpdateCdf | script.js:346-358 | The old group is removed and a new group, built for the current mode, is appended. It is the only CDF group in the scene, and it is in the scene. |
| CdfToggle.CdfView.UpdateToggleButtons | script.js:373-382 | Exactly the current mode's button is active when it exists. Otherwise every flag is cleared and `ok` is false. |
| CdfToggle.CdfView.SwitchToContinuous | script.js:361-365 | The mode becomes continuous, the new group is the continuous surface, and only the first button is active. |
| CdfToggle.CdfView.SwitchToDiscrete | script.js:367-371 | The mode becomes discrete, the new group is the staircase, and only the second button is active. |
| CdfToggle.ToggleRoundTrip | script.js:361-398 | Load, then discrete, then continuous: the continuous surface is back as the only CDF group, now after the lights, with only the first button active. |

## Left out

- Three.js object construction is not modelled: Scene, Group, the geometries,
  materials, meshes, lights, `computeVertexNormals` and `needsUpdate`. A group
  is its content (a vertex list or a box list) plus an id standing for object
  identity.
- Each discrete cell's wireframe is built from the cell's box geometry
  (a `WireframeGeometry` of it) and placed at the same position, so the two
  share dimensions and position and `StepBoxes` records each cell once. The mesh offset (0, 1, 0), which the
  surface mesh and its wireframe share, is recorded once as well.
- The vertex buffer of `PlaneGeometry(20, 20, 40, 40)` is library output. The
  model takes it as a given sequence of vertices. `IsPlaneBuffer` states only
  its size and that it lies on the plane, not its vertex order.
- `Math.sin(nx·π)·cos(nz·π)` is a function parameter `trig`. Its numeric
  values are not modelled. IEEE-754 rounding is not modelled either: all
  arithmetic is exact `real` arithmetic.
- `createAxes`, `createGrid` and `createAxisLabel` are not modelled. They are
  fixed Three.js construction; in the scene they appear only as fixed parts.
- Label canvases and text are not modelled: canvas creation, `fillText`,
  `CanvasTexture` and `Sprite` are DOM and graphics I/O. `CreateLabels` records
  each label's number, style, positions and sprite scale.
- Camera aspect, `updateProjectionMatrix`, renderer size, pixel ratio, the
  animation loop and OrbitControls' own behaviour are not modelled. These are
  rendering plumbing. Only the fields that the class-dependent branches
  assign are modelled.
- The constant OrbitControls flags of the top-level setup (`enableDamping`,
  `dampingFactor`, `enableZoom`, `enableRotate`) and `camera.lookAt(0, 0, 0)`
  are not modelled: no class depends on them and nothing reads them back.
- LoadThenResize: its camera is the camera field as the code assigns it. The
  model does not capture that `controls.update()` in the animation loop clamps
  the camera into the new zoom range; `MobileStartBeyondTabletRange` shows
  that after a mobile-to-tablet resize the clamp takes effect.
- The resize, orientation-change and touch listeners and the `setTimeout` are
  not modelled. They are browser events; `LoadThenResize` plays one load
  followed by one resize.
- `document.querySelectorAll('.toggle-btn')` is modelled as the `buttons`
  array passed to the view. When a button is missing, the browser throws a
  TypeError after the flags are cleared; the model reports this as `ok ==
  false` and does not model the exception.
- The window width is an integer parameter. The DOM's `innerWidth` is not read.
