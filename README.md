# VektorLighting2D — a verified model of the CPU side

VektorLighting2D is a 2D lighting system for Unity. Light and shape
components register themselves with a lighting system. Every frame the
system rebuilds eight typed staging lists from its registries and uploads
them to a ray-marching renderer. The renderer records a command list that
dispatches its compute kernels batch by batch. Polygon lights and polygon
shapes are triangulated by an ear-clipping routine, and each triangle is
turned into three edge segments in a shared segment pool. An older sprite
shadow system keeps a list of shadow casters and draws them into an
occlusion map. A small test component projects points onto segments.

The model covers that CPU-side logic, one Dafny module per part of the
program:

| module | file | models |
|---|---|---|
| `Common` | common.dfy | null references as `Option`, the registry exceptions, C# `int` wrap-around, `Mathf.CeilToInt` of a quotient |
| `Geometry` | geometry.dfy | `Vector2` arithmetic over reals, colours |
| `Records` | records.dfy | the GPU records (`PointLightData`, `Segment`, `PolygonShapeData`, …) and the `enabled ? 1u : 0` flag |
| `Triangulate` | triangulate.dfy | `Triangulate.Process`, `Area`, `InsideTriangle`, `Snip` |
| `PolygonShapes` | polygon_shape.dfy | `VektorPolygonShape`: `Awake`, `GetPolygonData`, `CopySegments` |
| `Registry` | registry.dfy | the add/remove discipline shared by every registry |
| `Scene` | scene.dfy | `Components/VektorLightingSystem`: registries, dirty flags, rebuilds, `Update` |
| `Batching` | batching.dfy | the ray-batch arithmetic of the renderer |
| `Renderer` | renderer.dfy | `RayMarchRenderer`: `WriteBufferData`, the two buffer updates, `BuildCommandBuffer`, `Render` |
| `ShadowCasting` | shadow_system.dfy | the root `VektorLightingSystem`: caster list, one-shot `Initialize`, `Update`, `InitializeSingleton` |
| `SegmentProjection` | polygon_test.dfy | `PolygonTest.PositionAlongSegment`, `PointAlongSegment`, `PointAlongPolygon` |

The program's imperative code stays imperative in the model:

- `Process` shifts entries of the 1024-entry work array in place. Its loop
  is proved equal to a pure recursive specification, `Triangulate.Clip`.
- The registries and the renderer are classes whose methods update their
  fields.
- `WriteBufferData` copies element by element into a buffer object that
  holds an `array`.
- The rebuilds, `CopySegments`, `BuildCommandBuffer`, the shadow system's
  `Update` and `PointAlongPolygon` are loops with invariants. Each loop is
  proved against a specification function.

The properties the program promises are proved about those functions:

- the triangle count and the orientation of every emitted triangle;
- the tiling of the segment pool by the polygon records;
- the order of the commands in a frame;
- nearest-point optimality of the projection scan.

Coordinates and distances are exact reals. Integer quantities are
unbounded, except where C#'s 32-bit `int` wraps (`_rayCountMax`).

## Model

| member | source | states |
|---|---|---|
| Triangulate.Process | Assets/VektorLighting2D/Source/Triangulate.cs:28-85 | returns the success flag of the recursive ear-clipping specification and appends exactly its triangle points to `results`; with fewer than 3 vertices it returns false and appends nothing; a failed run keeps the ears it already appended |
| Triangulate.ClipTurn | Assets/VektorLighting2D/Source/Triangulate.cs:46-82 | one turn of the main loop either removes an index or spends one unit of budget ((nv, count) decreases lexicographically); the work list stays duplicate-free and in order, and the rest of the run is the rest of the specified run |
| Triangulate.ClipEar | Assets/VektorLighting2D/Source/Triangulate.cs:60-80 | clipping an ear appends its three corners and leaves the work list with the middle position removed, in order, with the budget reset to 2·(nv−1) |
| Triangulate.FillWorkList | Assets/VektorLighting2D/Source/Triangulate.cs:36-39 | the work list becomes 0..n−1 for a counter-clockwise contour and n−1..0 otherwise |
| Triangulate.InitialList | Assets/VektorLighting2D/Source/Triangulate.cs:36-39 | the starting list has n valid, strictly ordered indices (increasing iff the area is positive) |
| Triangulate.RemoveFromWorkList | Assets/VektorLighting2D/Source/Triangulate.cs:77 | shifting the tail left leaves exactly the old list with position v cut out |
| Triangulate.RemoveAt | Assets/VektorLighting2D/Source/Triangulate.cs:77 | the list after removal is one shorter, the prefix before v is kept and the tail moves one place left |
| Triangulate.RemoveAtKeepsOrder | Assets/VektorLighting2D/Source/Triangulate.cs:77 | removing a position keeps every index valid and the list strictly ordered, and the removed index no longer occurs |
| Triangulate.EarPositions | Assets/VektorLighting2D/Source/Triangulate.cs:56-58 | for nv ≥ 3, u, v, w are three distinct, cyclically consecutive positions below nv |
| Triangulate.MissStep | Assets/VektorLighting2D/Source/Triangulate.cs:49-58 | a turn without an ear only spends one unit of the scan budget |
| Triangulate.EarStep | Assets/VektorLighting2D/Source/Triangulate.cs:60-80 | after an ear, the emitted triangle followed by the run on the shortened list is the run from the longer list |
| Triangulate.TriangulationCount | Assets/VektorLighting2D/Source/Triangulate.cs:31-84 | fewer than 3 vertices fail with nothing emitted; the output is whole triangles of contour vertices, each turning strictly counter-clockwise; success emits exactly n−2 triangles and failure at most that many |
| Triangulate.ClipEmitsTriangles | Assets/VektorLighting2D/Source/Triangulate.cs:46-82 | from any work list of length m the loop emits well-formed triangles, exactly m−2 of them when it ends normally |
| Triangulate.TrianglesLength | Assets/VektorLighting2D/Source/Triangulate.cs:70-72 | a triangle list has a length divisible by 3 and holds only contour vertices |
| Triangulate.AreaReversed | Assets/VektorLighting2D/Source/Triangulate.cs:91-101 | the shoelace area of the reversed contour is the negated area |
| Triangulate.ShoelaceSumIsClosedChain | Assets/VektorLighting2D/Source/Triangulate.cs:96-98 | the wrap-around accumulator loop of `Area` equals the closing edge plus the open chain of cross products |
| Triangulate.InsideTriangleOrientation | Assets/VektorLighting2D/Source/Triangulate.cs:107-124 | the inclusive test can only hold for a counter-clockwise (or flat) triangle, and such a triangle contains its own corners |
| Triangulate.EdgeTestsSum | Assets/VektorLighting2D/Source/Triangulate.cs:119-123 | the three edge cross products always sum to the triangle's turn |
| Triangulate.PositiveTurnDistinct | Assets/VektorLighting2D/Source/Triangulate.cs:137 | a triangle that passes the turn test has three distinct corners |
| Triangulate.Snip | Assets/VektorLighting2D/Source/Triangulate.cs:127-147 | returns true exactly when the turn at (u, v, w) is positive and no remaining vertex other than u, v, w lies in or on the triangle |
| Triangulate.NoneInsideMeans | Assets/VektorLighting2D/Source/Triangulate.cs:139-144 | the scan's predicate holds iff no position below k other than u, v, w is inside the triangle |
| Triangulate.NoneInsideStops | Assets/VektorLighting2D/Source/Triangulate.cs:143 | once a vertex inside is found, no longer scan is free of one, so the early return is the final answer |
| PolygonShapes.PolygonShape.constructor | Assets/VektorLighting2D/Source/Components/Shapes/VektorPolygonShape.cs:37-42 | `Awake` keeps the outline and stores its triangulation |
| PolygonShapes.PolygonShape.GetPolygonData | Assets/VektorLighting2D/Source/Components/Shapes/VektorPolygonShape.cs:15-22 | the triangle list is replaced by this call's triangulation, whatever `Process` returned; the pool is only appended to; the record's offset is the old pool length, its length the number of appended segments, and offset + length is the new pool length |
| PolygonShapes.PolygonShape.CopySegments | Assets/VektorLighting2D/Source/Components/Shapes/VektorPolygonShape.cs:24-35 | appends the triangles' edges in order and returns their count, which equals the triangle list's length |
| PolygonShapes.TriangleEdgesAt | Assets/VektorLighting2D/Source/Components/Shapes/VektorPolygonShape.cs:27-30 | segment k runs from corner k to the next corner of the same triangle (p0→p1, p1→p2, p2→p0), both shifted by the transform position |
| PolygonShapes.TriangleEdgesSnoc | Assets/VektorLighting2D/Source/Components/Shapes/VektorPolygonShape.cs:26-32 | one more triangle appends exactly its three sides |
| Registry.Add | Assets/VektorLighting2D/Source/Components/VektorLightingSystem.cs:130-141 | the add succeeds exactly when the element is non-null and not yet present; a null is refused as `ArgumentNullException` before the duplicate test, a duplicate as already added; on success the old list is kept as a prefix and the element is the one new last entry |
| Registry.Remove | Assets/VektorLighting2D/Source/Components/VektorLightingSystem.cs:143-154 | null and an absent element are refused with their exceptions; otherwise the list shrinks by one |
| Registry.RemoveFirst | Assets/VektorLighting2D/Source/Components/VektorLightingSystem.cs:152 | `List.Remove` shortens the list by one when the element occurs, leaves it alone when not, and adds nothing |
| Registry.AddKeepsNoDup | Assets/VektorLighting2D/Source/Components/VektorLightingSystem.cs:135-139 | a successful add keeps the registry duplicate-free |
| Registry.RemoveKeepsNoDup | Assets/VektorLighting2D/Source/Components/VektorLightingSystem.cs:148-152 | a successful remove keeps the registry duplicate-free and the element is gone |
| Registry.RemoveCutsOut | Assets/VektorLighting2D/Source/Components/VektorLightingSystem.cs:152 | removing a registered element cuts out its one position and keeps the others in order |
| Registry.AddThenRemove | Assets/VektorLighting2D/Source/Components/VektorLightingSystem.cs:139-152 | adding a new element and removing it again gives back the registry |
| Scene.LightingSystem.constructor | Assets/VektorLighting2D/Source/Components/VektorLightingSystem.cs:43-56 | the static constructor and `Awake` leave empty registries and lists, both dirty flags set, and a fresh renderer with no buffers |
| Scene.LightingSystem.AddLight | Assets/VektorLighting2D/Source/Components/VektorLightingSystem.cs:130-141 | follows `Registry.Add` on the light registry: on success the light is appended and the light flag is dirty; on failure nothing changes |
| Scene.LightingSystem.RemoveLight | Assets/VektorLighting2D/Source/Components/VektorLightingSystem.cs:143-154 | follows `Registry.Remove` on the light registry, setting the light flag on success only |
| Scene.LightingSystem.AddShape | Assets/VektorLighting2D/Source/Components/VektorLightingSystem.cs:156-167 | follows `Registry.Add` on the shape registry, setting the shape flag on success only |
| Scene.LightingSystem.RemoveShape | Assets/VektorLighting2D/Source/Components/VektorLightingSystem.cs:169-180 | follows `Registry.Remove` on the shape registry, setting the shape flag on success only |
| Scene.LightingSystem.RebuildLightBuffers | Assets/VektorLighting2D/Source/Components/VektorLightingSystem.cs:58-82 | the four light lists become a function of the registry alone (so a repeated rebuild gives the same lists), built entry by entry in registry order; the flag is cleared |
| Scene.LightingSystem.RebuildShapeBuffers | Assets/VektorLighting2D/Source/Components/VektorLightingSystem.cs:84-108 | the same for the four shape lists |
| Scene.LightingSystem.Update | Assets/VektorLighting2D/Source/Components/VektorLightingSystem.cs:116-124 | both rebuilds run whatever the flags say; the renderer's buffers then hold the eight lists, its counts are the list sizes, its ray count, pixels per batch and corrected batch count follow from the light count, and a frame of that batch layout is executed exactly when the ray count is not zero |
| Scene.LightingSystem.Rebuild | Assets/VektorLighting2D/Source/Components/VektorLightingSystem.cs:117-118 | both staging lists are rebuilt from the unchanged registries and both flags are clear |
| Scene.LightingSystem.Present | Assets/VektorLighting2D/Source/Components/VektorLightingSystem.cs:120-123 | the renderer holds both sets of lists, its counts are the list sizes, its ray count, pixels per batch and corrected batch count follow from the light count, and it renders one frame of that layout, or none when there are no rays |
| Scene.LightingSystem.PresentShapes | Assets/VektorLighting2D/Source/Components/VektorLightingSystem.cs:121-123 | uploading the shapes leaves the light buffers, the light count and the batch layout as they were |
| Scene.LightStagingPicks | Assets/VektorLighting2D/Source/Components/VektorLightingSystem.cs:64-71 | the point and spot lists are exactly the point and spot lights' records, in registry order |
| Scene.LightStagingPolygons | Assets/VektorLighting2D/Source/Components/VektorLightingSystem.cs:72-74 | polygon light record k carries the colour, range and enabled flag of the k-th polygon light |
| Scene.LightRangesTile | Assets/VektorLighting2D/Source/Components/VektorLightingSystem.cs:72-73 | the polygon lights' (offset, length) ranges tile the light segment pool, range k holding exactly the k-th polygon light's edges |
| Scene.ShapeStagingSplits | Assets/VektorLighting2D/Source/Components/VektorLightingSystem.cs:90-100 | circles and rects are exactly the circle and rect shapes' records in registry order; polygon record k has the k-th polygon shape's enabled flag |
| Scene.ShapeRangesTile | Assets/VektorLighting2D/Source/Components/VektorLightingSystem.cs:98-99 | the polygon shapes' ranges tile the shape segment pool, range k holding exactly the k-th polygon shape's edges |
| Scene.TilesChain | Assets/VektorLighting2D/Source/Components/VektorLightingSystem.cs:72-73 | tiled ranges are consecutive and disjoint: the first starts at 0, each starts where the previous ends, and the last ends at the pool's end |
| Scene.TilesHold | Assets/VektorLighting2D/Source/Components/VektorLightingSystem.cs:98-99 | every tiled range is in bounds and holds exactly its polygon's edges |
| Scene.TilesSnoc | Assets/VektorLighting2D/Source/Components/VektorLightingSystem.cs:98-99 | appending a polygon's edges with the range that starts at the old end keeps the pool tiled |
| Scene.LightCounts | Assets/VektorLighting2D/Source/Components/VektorLightingSystem.cs:64-79 | every light lands in exactly one list or is skipped as unsupported, so point + spot + polygon counts never exceed the registry size |
| Scene.ShapeCounts | Assets/VektorLighting2D/Source/Components/VektorLightingSystem.cs:90-105 | the same for shapes |
| Scene.StageLightCount | Assets/VektorLighting2D/Source/Components/VektorLightingSystem.cs:65-78 | staging one light adds one record, or none for an unsupported type |
| Scene.LightStagingSkips | Assets/VektorLighting2D/Source/Components/VektorLightingSystem.cs:66-71 | a point or spot light leaves the polygon records and the segment pool alone |
| Records.EnabledFlag | Assets/VektorLighting2D/Source/RayMarching/Shapes/PolygonShapeData.cs:14 | the record's flag is 1 exactly when the component is enabled and 0 otherwise |
| Common.Wrap32 | Assets/VektorLighting2D/Source/RayMarching/RayMarchRenderer.cs:123 | the product is reduced into C#'s `int` range modulo 2^32 and is unchanged when it already fits |
| Common.CeilDiv | Assets/VektorLighting2D/Source/RayMarching/RayMarchRenderer.cs:125 | the least multiple count that reaches the dividend |
| Batching.RayCountMax | Assets/VektorLighting2D/Source/RayMarching/RayMarchRenderer.cs:123 | W·H·L as an `int`, equal to the true product whenever that fits |
| Batching.PixelsPerBatch | Assets/VektorLighting2D/Source/RayMarching/RayMarchRenderer.cs:126 | for L ≥ 1, ⌊D/L⌋ pixels: their rays fit the D-ray buffer and one more pixel would not |
| Batching.BatchCountAsWritten | Assets/VektorLighting2D/Source/RayMarching/RayMarchRenderer.cs:125 | the least number of full ray buffers that holds every ray |
| Batching.BatchCount | Assets/VektorLighting2D/Source/RayMarching/RayMarchRenderer.cs:125-128 | the least number of batches of `pixelsPerBatch` pixels that reaches every pixel |
| Batching.CoverageCounterexample | Assets/VektorLighting2D/Source/RayMarching/RayMarchRenderer.cs:125-128 | at 4080×1028 pixels and 7 lights the count as written dispatches 7 batches of 599177 pixels, one pixel short |
| Batching.BatchesCoverPixels | Assets/VektorLighting2D/Source/RayMarching/RayMarchRenderer.cs:125-128 | with the corrected count every pixel is covered and no batch is superfluous |
| Batching.BatchCountsAgreeWhenDivisible | Assets/VektorLighting2D/Source/RayMarching/RayMarchRenderer.cs:125-126 | when L divides D and the ray count fits an `int`, the count as written equals the corrected one |
| Batching.AsWrittenNeverExceeds | Assets/VektorLighting2D/Source/RayMarching/RayMarchRenderer.cs:125-126 | the count as written is never larger than the corrected one |
| Batching.InitializeGroupsFit | Assets/VektorLighting2D/Source/RayMarching/RayMarchRenderer.cs:220 | the initialisation dispatch of ⌈ppb/64⌉ groups never exceeds 65535 groups |
| Batching.PixelInBatch | Assets/VektorLighting2D/Source/RayMarching/RayMarchRenderer.cs:211-213 | batch b covers pixels b·ppb to (b+1)·ppb−1, and pixel p lies in batch p/ppb, which is dispatched |
| Renderer.WriteBufferData | Assets/VektorLighting2D/Source/RayMarching/RayMarchRenderer.cs:144-163 | the result is non-null with max(count, 1) elements holding `src` in order, or one default element for an empty list; the old buffer is kept exactly when its count matches, and otherwise disposed and replaced by a fresh one (so an empty list reallocates every time) |
| Renderer.WriteFourBuffers | Assets/VektorLighting2D/Source/RayMarching/RayMarchRenderer.cs:117-120 | the four uploads of one update each leave their buffer holding its list |
| Renderer.Sign | Assets/VektorLighting2D/Source/RayMarching/RayMarchRenderer.cs:214 | `Mathf.Sign` is 1 for zero and positive values and −1 for negative ones |
| Renderer.BatchesAt | Assets/VektorLighting2D/Source/RayMarching/RayMarchRenderer.cs:211-224 | the batches come in ascending order, five commands each: offset b·ppb, sign 1, counter reset, ⌈ppb/64⌉ initialisation groups, 32767 march groups |
| Renderer.BatchesLength | Assets/VektorLighting2D/Source/RayMarching/RayMarchRenderer.cs:211 | n batches record 5·n commands, none for n ≤ 0 |
| Renderer.FrameFinalizesOnce | Assets/VektorLighting2D/Source/RayMarching/RayMarchRenderer.cs:226-233 | a frame dispatches the finalisation kernel exactly once, after every batch, then sets the light map and restores the camera target |
| Renderer.BuffersApart | Assets/VektorLighting2D/Source/RayMarching/RayMarchRenderer.cs:72-80 | the light and shape buffers never share storage, so uploading one set leaves the other intact |
| Renderer.RayMarchRenderer.constructor | Assets/VektorLighting2D/Source/RayMarching/RayMarchRenderer.cs:91-114 | a new renderer has no scene buffers and zero counts |
| Renderer.RayMarchRenderer.UpdateLightBuffers | Assets/VektorLighting2D/Source/RayMarching/RayMarchRenderer.cs:116-129 | the four light buffers hold the four lists; the light count includes disabled lights; ray count, pixels per batch and (corrected) batch count follow from it; shape state is untouched |
| Renderer.RayMarchRenderer.UploadLights | Assets/VektorLighting2D/Source/RayMarching/RayMarchRenderer.cs:117-120 | the four light uploads, leaving the shape buffers alone |
| Renderer.RayMarchRenderer.SetLightCount | Assets/VektorLighting2D/Source/RayMarching/RayMarchRenderer.cs:122-126 | the light count, the ray count as a C# `int`, the pixels per batch, and the corrected batch count (not the source's, see Left out) that follow from it |
| Renderer.RayMarchRenderer.UpdateShapeBuffers | Assets/VektorLighting2D/Source/RayMarching/RayMarchRenderer.cs:131-138 | the four shape buffers hold the four lists and the shape count is their total size; light state is untouched |
| Renderer.RayMarchRenderer.UploadShapes | Assets/VektorLighting2D/Source/RayMarching/RayMarchRenderer.cs:132-135 | the four shape uploads, leaving the light buffers alone |
| Renderer.RayMarchRenderer.BuildCommandBuffer | Assets/VektorLighting2D/Source/RayMarching/RayMarchRenderer.cs:165-234 | the command buffer is cleared and becomes preamble, one group per batch of the corrected batch count, and tail; nothing else changes |
| Renderer.RayMarchRenderer.Render | Assets/VektorLighting2D/Source/RayMarching/RayMarchRenderer.cs:236-244 | with no rays nothing is recorded or executed; otherwise exactly this frame's command list, over the corrected batch count, is executed once |
| ShadowCasting.ShadowSystem.constructor | Assets/VektorLighting2D/Source/VektorLightingSystem.cs:17 | `AddComponent` leaves an uninitialised system with no caster list |
| ShadowCasting.ShadowSystem.Initialize | Assets/VektorLighting2D/Source/VektorLightingSystem.cs:58-74 | the first call creates the empty list, sizes the occlusion map at half the screen and attaches the command buffer; later calls change nothing, so the buffer is attached at most once |
| ShadowCasting.ShadowSystem.AddShadowCaster | Assets/VektorLighting2D/Source/VektorLightingSystem.cs:34-44 | null throws; before `Initialize` the missing list throws; otherwise follows `Registry.Add`, so the list stays duplicate-free |
| ShadowCasting.ShadowSystem.RemoveShadowCaster | Assets/VektorLighting2D/Source/VektorLightingSystem.cs:46-56 | null throws; before `Initialize` the missing list throws; otherwise follows `Registry.Remove` |
| ShadowCasting.ShadowSystem.Update | Assets/VektorLighting2D/Source/VektorLightingSystem.cs:76-87 | nothing before initialisation; afterwards the command buffer is the frame's target, clear and one draw per caster |
| ShadowCasting.DrawsAt | Assets/VektorLighting2D/Source/VektorLightingSystem.cs:84-86 | one draw per caster, draw k being caster k's renderer with sub-mesh 0 and every pass |
| ShadowCasting.FrameCommandsShape | Assets/VektorLighting2D/Source/VektorLightingSystem.cs:80-86 | a frame sets the occlusion target, clears it to white, then draws every caster once, in list order, and nothing else |
| ShadowCasting.Singleton.constructor | Assets/VektorLighting2D/Source/VektorLightingSystem.cs:8 | the static instance starts out null |
| ShadowCasting.Singleton.InitializeSingleton | Assets/VektorLighting2D/Source/VektorLightingSystem.cs:11-19 | an existing instance is left untouched; otherwise a fresh system is created and initialised |
| SegmentProjection.Clamp01 | Assets/VektorLighting2D/Source/RayMarching/PolygonTest.cs:37 | the result lies in [0, 1], equals the input inside it and the nearer bound outside |
| SegmentProjection.PointAlongSegment | Assets/VektorLighting2D/Source/RayMarching/PolygonTest.cs:36-39 | the point lies on the segment; σ ≤ 0 gives A and σ ≥ 1 gives B |
| SegmentProjection.PositionAtEnds | Assets/VektorLighting2D/Source/RayMarching/PolygonTest.cs:32-34 | the projection parameter is 0 at A and 1 at B |
| SegmentProjection.ProjectionIsNearest | Assets/VektorLighting2D/Source/RayMarching/PolygonTest.cs:32-39 | the clamped projection is the point of the segment nearest to p |
| SegmentProjection.SqrDistAt | Assets/VektorLighting2D/Source/RayMarching/PolygonTest.cs:48 | the squared distance to the point at parameter t, expanded as a parabola in t |
| SegmentProjection.ClampedVertexIsLeast | Assets/VektorLighting2D/Source/RayMarching/PolygonTest.cs:37-38 | on [0, 1] that parabola is least at the clamped vertex |
| SegmentProjection.Candidates | Assets/VektorLighting2D/Source/RayMarching/PolygonTest.cs:45-48 | one candidate per segment of the range: its projection of p and the squared distance to it |
| SegmentProjection.ScanStep | Assets/VektorLighting2D/Source/RayMarching/PolygonTest.cs:50-53 | one more segment replaces the best so far only when strictly closer |
| SegmentProjection.ScanFindsEarliestNearest | Assets/VektorLighting2D/Source/RayMarching/PolygonTest.cs:43-53 | the scan finds nothing only for an empty range; otherwise it keeps a candidate at least as close as all others and strictly closer than all earlier ones, so the earliest wins ties |
| SegmentProjection.NearestOnOutline | Assets/VektorLighting2D/Source/RayMarching/PolygonTest.cs:41-57 | no point of any segment in the range is closer to p than the returned point |
| SegmentProjection.PointAlongPolygon | Assets/VektorLighting2D/Source/RayMarching/PolygonTest.cs:41-57 | the loop over the range of the static table returns the scan's nearest projection, or the zero vector for an empty range |
| SegmentProjection.TestSegmentsProper | Assets/VektorLighting2D/Source/RayMarching/PolygonTest.cs:12-25 | every segment of the static table has positive length, so projecting onto it is defined |

## Left out

- Floating point. Coordinates, colours and distances are exact reals. The `(float)` casts in the batch arithmetic are read as exact integer division. `float.Epsilon` in `Snip` is read as "the turn is positive". `PointAlongPolygon` compares squared distances, not magnitudes, which orders candidates the same way.
- SegmentProjection.PositionAlongSegment: requires a segment of positive length. For a degenerate segment the source divides by zero and propagates NaN. Every segment of the static table is proper.
- SegmentProjection.PointAlongPolygon: requires the range to lie inside the three-entry static table. Out of range, the source throws `IndexOutOfRangeException`. `float.MaxValue` as the initial `shortest` is modelled as "no candidate yet".
- Triangulate.Process: requires at most 1024 vertices, the size of the static work array. Larger contours make the source throw. `PolygonShapes` and `Scene` carry this as a precondition (`PolygonsFit`). The `_vertexBuffer` list is never used by the source and is not modelled.
- Batching.PixelsPerBatch: with no light the source divides by zero and floors infinity. The model returns 0. The value is never used then, because `Render` skips a frame without rays.
- Renderer.RayMarchRenderer.UpdateLightBuffers: uses the corrected batch count (see Findings), not the one the source computes. It does not model the debug log line.
- Renderer.RayMarchRenderer.SetLightCount: records the corrected batch count ⌈W·H / ⌊D/L⌋⌉, not the source's ⌈rayCountMax / D⌉ (`Batching.BatchCountAsWritten`). The two differ when L does not divide D: at 4080×1028 with 7 lights the model records 8 batches where the source records 7. When W·H·L overflows an `int` and wraps negative, the source records a count of zero or less, so no batch is dispatched. `BuildCommandBuffer`, `Render`, `LightingSystem.Update` and `LightingSystem.Present` therefore describe the frame of the corrected count. `Batching.CoverageCounterexample` and `Batching.AsWrittenNeverExceeds` state what the source's count gives.
- ShadowCasting.ShadowSystem: `Camera.main` is assumed present. If it is null, the source's `Initialize` creates the caster list and then throws before setting the initialised flag. The model's invariant `casters.Some? <==> initialized` excludes that state.
- Compute kernels (initialisation, march, finalisation), the ray and accumulation buffers' contents, `Graphics.ExecuteCommandBuffer` and `ComputeBuffer` internals. Commands are abstract values naming what they bind or dispatch. Execution appends the command list to a log.
- Camera matrices, pixel size, render scale and result-texture sizing. The texture's width and height are constructor parameters of the renderer. Commands that set camera-derived values carry no value.
- Spot-light cone construction (trigonometry on the angle and the transform). The cone bounds are carried as given in the light's value.
- `Dispose`, the finalizer and `OnDestroy` of the renderer and both systems. Resource lifetime is not modelled beyond the `disposed` flag that `WriteBufferData` sets on a replaced buffer.
- Transform motion and enabling/disabling a component after registration. A registered light or shape is a value with fixed settings. Its `id` stands for the component's object identity.
- The static fields of `Components/VektorLightingSystem` are modelled as the fields of one `LightingSystem` object. The triangulator's static work array is one array shared by every polygon shape.
- `PolygonTest.PolygonSDF`, `Start`, `Update` and the gizmos, `RayMarchTest`, the demo behaviours (auto-rotate, mouse follow, light spawner, frame counter), `VektorShadowCaster`, `VektorLightingConfig` and the legacy light types. None of them is part of this model.
- Log warnings (unsupported light or shape types, duplicate systems, repeated initialisation) are dropped. The model keeps only their effect: the entry is skipped, or the call returns.
- The shadow system's camera, material and occlusion texture. Attaching the command buffer to the camera is modelled as a counter.

## Findings

| source | as written | input that shows it | evidently intended | confidence | as-written member | corrected member |
|---|---|---|---|---|---|---|
| Assets/VektorLighting2D/Source/RayMarching/RayMarchRenderer.cs:125-128 | `_rayBatchCount` is ⌈W·H·L / D⌉ with D = 64·65535 rays per buffer, while each batch covers only ⌊D/L⌋ pixels; when L does not divide D the batches can fall short of the texture, as the logged product `_pixelsPerBatch * _rayBatchCount` against `width * height` shows | W = 4080, H = 1028, L = 7: 4194240 pixels, 7 batches of 599177 pixels cover 4194239 | enough batches to cover every pixel: ⌈W·H / ⌊D/L⌋⌉ | not executed | Batching.CoverageCounterexample | Batching.BatchesCoverPixels |
