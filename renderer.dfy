/** The CPU side of the ray-marching renderer: the GPU buffers it keeps
    filled from the staging lists, the batch bookkeeping, and the command
    list it records for one frame. Kernels and textures are abstract: a
    command only names what it binds or dispatches. */
module Renderer {
  import opened Common
  import opened Records
  import opened Batching

  /** A `ComputeBuffer`: fixed-size element storage, disposed at most when
      it is replaced. */
  class ComputeBuffer<T> {
    const data: array<T>
    var disposed: bool

    constructor (count: nat, fill: T)
      ensures data.Length == count && fresh(data) && !disposed
    {
      data := new T[count](_ => fill);
      disposed := false;
    }

    method Dispose()
      modifies this
      ensures disposed
    {
      disposed := true;
    }
  }

  /** The objects a buffer reference owns: nothing for null. */
  function Footprint<T>(b: ComputeBuffer?<T>): set<object>
  {
    if b == null then {} else {b, b.data}
  }

  /** Buffers are never zero-sized. */
  ghost predicate NonEmpty<T>(b: ComputeBuffer?<T>)
  {
    b != null ==> b.data.Length > 0
  }

  /** A non-null buffer whose elements are `src`, or one default element
      when `src` is empty. */
  ghost predicate Holds<T>(b: ComputeBuffer?<T>, src: seq<T>, dflt: T)
    reads b
    reads if b == null then {} else {b.data}
  {
    b != null && b.data[..] == if |src| > 0 then src else [dflt]
  }

  /** `WriteBufferData(src, ref dst)`: keep `dst` when it exists and has
      exactly `|src|` elements, otherwise dispose it and allocate one of
      `max(|src|, 1)` elements; then copy `src` in, or a single default
      element when it is empty. */
  method WriteBufferData<T>(src: seq<T>, dst: ComputeBuffer?<T>, dflt: T) returns (buf: ComputeBuffer<T>)
    requires NonEmpty(dst)
    modifies Footprint(dst)
    ensures buf.data.Length == Max(|src|, 1)
    ensures Holds(buf, src, dflt)
    ensures dst == null || dst.data.Length != |src| ==>
              fresh(buf) && fresh(buf.data) && !buf.disposed && (dst != null ==> dst.disposed)
    ensures dst != null && dst.data.Length == |src| ==> buf == dst && buf.disposed == old(dst.disposed)
  {
    if dst == null || dst.data.Length != |src| {
      if dst != null {
        dst.Dispose();
      }
      var count := if |src| > 0 then |src| else 1;
      buf := new ComputeBuffer(count, dflt);
    } else {
      buf := dst;
    }
    var na := buf.data;
    if |src| > 0 {
      for i := 0 to |src|
        modifies na
        invariant forall k :: 0 <= k < i ==> na[k] == src[k]
      {
        na[i] := src[i];
      }
      assert na[..] == src;
    } else {
      na[0] := dflt;
      assert na[..] == [dflt];
    }
  }

  datatype Kernel = InitializeKernel | FinalizeKernel | MarchKernel

  /** The integer and camera parameters the command list sets. */
  datatype Param = PixelsPerBatchParam | BatchOffsetParam | BatchSignParam
                 | InverseProjectionParam | InverseWorldParam | PixelSizeParam

  /** The shader properties a buffer or texture is bound to. */
  datatype Slot = PointLightsSlot | SpotLightsSlot | PolygonLightsSlot | LightSegmentsSlot
                | RectShapesSlot | CircleShapesSlot | PolygonShapesSlot | ShapeSegmentsSlot
                | OutputRaysSlot | InputRaysSlot | AccumulationSlot | ResultSlot

  datatype Target = ResultTexture | CameraTarget

  /** One recorded command. Camera-derived values are left abstract. */
  datatype Command =
    | SetRenderTarget(target: Target)
    | ClearRenderTarget
    | SetCameraParam(param: Param)
    | SetInt(param: Param, value: int)
    | Bind(kernel: Kernel, slot: Slot)
    | ResetRayCounter
    | Dispatch(kernel: Kernel, x: int, y: int, z: int)
    | SetGlobalLightMap

  /** Unity's `Mathf.Sign`: 1 for zero and positive values. */
  function Sign(f: int): (s: int)
    ensures s == 1 <==> f >= 0
    ensures s == -1 <==> f < 0
  {
    if f >= 0 then 1 else -1
  }

  /** The scene and ray bindings shared by the initialisation and march
      kernels. */
  function SceneBindings(k: Kernel): seq<Command>
  {
    [Bind(k, PointLightsSlot), Bind(k, SpotLightsSlot), Bind(k, PolygonLightsSlot), Bind(k, LightSegmentsSlot),
     Bind(k, RectShapesSlot), Bind(k, CircleShapesSlot), Bind(k, PolygonShapesSlot), Bind(k, ShapeSegmentsSlot)]
  }

  /** Everything recorded before the batches. */
  function Preamble(ppb: int): seq<Command>
  {
    [SetRenderTarget(ResultTexture), ClearRenderTarget,
     SetCameraParam(InverseProjectionParam), SetCameraParam(InverseWorldParam), SetCameraParam(PixelSizeParam),
     SetInt(PixelsPerBatchParam, ppb)]
    + SceneBindings(InitializeKernel) + [Bind(InitializeKernel, OutputRaysSlot), Bind(InitializeKernel, AccumulationSlot)]
    + SceneBindings(MarchKernel) + [Bind(MarchKernel, InputRaysSlot), Bind(MarchKernel, AccumulationSlot)]
    + [Bind(FinalizeKernel, AccumulationSlot), Bind(FinalizeKernel, ResultSlot)]
  }

  /** The five commands of batch `b`. */
  function BatchCommands(b: int, ppb: int): seq<Command>
  {
    [SetInt(BatchOffsetParam, b * ppb), SetInt(BatchSignParam, Sign(b)), ResetRayCounter,
     Dispatch(InitializeKernel, CeilDiv(ppb, DispatchGroupSize), 1, 1),
     Dispatch(MarchKernel, DispatchGroupCount / 2, 1, 1)]
  }

  /** The batches `0 .. n - 1` in ascending order; none for `n <= 0`. */
  function Batches(n: int, ppb: int): (cmds: seq<Command>)
    decreases n
  {
    if n <= 0 then [] else Batches(n - 1, ppb) + BatchCommands(n - 1, ppb)
  }

  /** Everything recorded after the batches. */
  function Tail(width: nat, height: nat): seq<Command>
  {
    [Dispatch(FinalizeKernel, CeilDiv(width, 8), CeilDiv(height, 8), 1),
     SetGlobalLightMap, SetRenderTarget(CameraTarget)]
  }

  /** The whole command list of one frame. */
  function CommandList(width: nat, height: nat, ppb: int, n: int): seq<Command>
  {
    Preamble(ppb) + Batches(n, ppb) + Tail(width, height)
  }

  /** Batch `b` occupies the five commands from position `5 * b`: it sets
      the offset to its first pixel, the sign to 1, resets the ray counter
      and dispatches one initialisation and one march. */
  lemma {:induction false} BatchesAt(n: int, ppb: int, b: nat)
    requires b < n
    ensures |Batches(n, ppb)| == 5 * n
    ensures Batches(n, ppb)[5 * b .. 5 * b + 5]
            == [SetInt(BatchOffsetParam, b * ppb), SetInt(BatchSignParam, 1), ResetRayCounter,
                Dispatch(InitializeKernel, CeilDiv(ppb, DispatchGroupSize), 1, 1),
                Dispatch(MarchKernel, 32767, 1, 1)]
    decreases n
  {
    BatchesLength(n - 1, ppb);
    if b < n - 1 {
      BatchesAt(n - 1, ppb, b);
      assert Batches(n, ppb)[5 * b .. 5 * b + 5] == Batches(n - 1, ppb)[5 * b .. 5 * b + 5];
    } else {
      assert Batches(n, ppb)[5 * b .. 5 * b + 5] == BatchCommands(b, ppb);
    }
  }

  lemma {:induction false} BatchesLength(n: int, ppb: int)
    ensures |Batches(n, ppb)| == if n <= 0 then 0 else 5 * n
    decreases n
  {
    if n > 0 {
      BatchesLength(n - 1, ppb);
    }
  }

  /** Number of finalisation dispatches in a command list. */
  function Finalizes(cmds: seq<Command>): nat
    decreases |cmds|
  {
    if cmds == [] then 0
    else (if cmds[0].Dispatch? && cmds[0].kernel == FinalizeKernel then 1 else 0) + Finalizes(cmds[1..])
  }

  lemma {:induction false} FinalizesAppend(a: seq<Command>, b: seq<Command>)
    ensures Finalizes(a + b) == Finalizes(a) + Finalizes(b)
    decreases |a|
  {
    if a == [] {
      assert a + b == b;
    } else {
      assert (a + b)[0] == a[0];
      assert (a + b)[1..] == a[1..] + b;
      FinalizesAppend(a[1..], b);
    }
  }

  /** A list with no finalisation dispatch in it counts none. */
  lemma {:induction false} NoFinalize(cmds: seq<Command>)
    requires forall k :: 0 <= k < |cmds| ==> !(cmds[k].Dispatch? && cmds[k].kernel == FinalizeKernel)
    ensures Finalizes(cmds) == 0
    decreases |cmds|
  {
    if cmds != [] {
      assert forall k :: 0 <= k < |cmds| - 1 ==> cmds[1..][k] == cmds[k + 1];
      NoFinalize(cmds[1..]);
    }
  }

  lemma {:induction false} BatchesNoFinalize(n: int, ppb: int)
    ensures Finalizes(Batches(n, ppb)) == 0
    decreases n
  {
    if n > 0 {
      BatchesNoFinalize(n - 1, ppb);
      NoFinalize(BatchCommands(n - 1, ppb));
      FinalizesAppend(Batches(n - 1, ppb), BatchCommands(n - 1, ppb));
    }
  }

  /** A frame's command list dispatches the finalisation kernel exactly
      once, over ceil(width / 8) x ceil(height / 8) groups, after every
      batch; then it publishes the light map and restores the camera
      target. */
  lemma FrameFinalizesOnce(width: nat, height: nat, ppb: int, n: int)
    ensures Finalizes(CommandList(width, height, ppb, n)) == 1
    ensures var cmds := CommandList(width, height, ppb, n);
            |cmds| >= 3 && cmds[|cmds| - 3..] == Tail(width, height)
  {
    BatchesNoFinalize(n, ppb);
    FinalizesAppend(Preamble(ppb), Batches(n, ppb));
    FinalizesAppend(Preamble(ppb) + Batches(n, ppb), Tail(width, height));
    NoFinalize(Preamble(ppb));
    var t := Tail(width, height);
    NoFinalize(t[1..]);
    assert Finalizes(t) == 1 + Finalizes(t[1..]);
  }

  /** The four uploads of one update, in the order the renderer makes
      them. The four buffers own disjoint storage. */
  method WriteFourBuffers<A, B, C>(as_: seq<A>, a: ComputeBuffer?<A>, da: A, bs: seq<B>, b: ComputeBuffer?<B>, db: B,
                                  cs: seq<C>, c: ComputeBuffer?<C>, dc: C, es: seq<Segment>, e: ComputeBuffer?<Segment>)
    returns (a': ComputeBuffer<A>, b': ComputeBuffer<B>, c': ComputeBuffer<C>, e': ComputeBuffer<Segment>)
    requires NonEmpty(a) && NonEmpty(b) && NonEmpty(c) && NonEmpty(e)
    requires Footprint(a) !! Footprint(b) && Footprint(a) !! Footprint(c) && Footprint(a) !! Footprint(e)
    requires Footprint(b) !! Footprint(c) && Footprint(b) !! Footprint(e) && Footprint(c) !! Footprint(e)
    modifies Footprint(a), Footprint(b), Footprint(c), Footprint(e)
    ensures Holds(a', as_, da) && Holds(b', bs, db) && Holds(c', cs, dc) && Holds(e', es, DefaultSegment)
    ensures e' == e || (fresh(e') && fresh(e'.data))
  {
    a' := WriteBufferData(as_, a, da);
    b' := WriteBufferData(bs, b, db);
    c' := WriteBufferData(cs, c, dc);
    e' := WriteBufferData(es, e, DefaultSegment);
  }

  /** The renderer's point, spot and polygon light buffers and its light
      segment buffer. */
  datatype LightBuffers = LightBuffers(points: ComputeBuffer?<PointLightData>, spots: ComputeBuffer?<SpotLightData>,
                                       polygons: ComputeBuffer?<PolygonLightData>, segments: ComputeBuffer?<Segment>)

  /** The renderer's circle, rectangle and polygon shape buffers and its
      shape segment buffer. */
  datatype ShapeBuffers = ShapeBuffers(circles: ComputeBuffer?<CircleShapeData>, rects: ComputeBuffer?<RectShapeData>,
                                       polygons: ComputeBuffer?<PolygonShapeData>, segments: ComputeBuffer?<Segment>)

  /** The objects a set of light buffers owns. */
  function LightSet(l: LightBuffers): set<object>
  {
    Footprint(l.points) + Footprint(l.spots) + Footprint(l.polygons) + Footprint(l.segments)
  }

  /** The objects a set of shape buffers owns. */
  function ShapeSet(h: ShapeBuffers): set<object>
  {
    Footprint(h.circles) + Footprint(h.rects) + Footprint(h.polygons) + Footprint(h.segments)
  }

  /** Light and shape buffers hold different element types except for the
      two segment buffers, so once those are apart the two sets share no
      object. */
  lemma BuffersApart(l: LightBuffers, h: ShapeBuffers)
    requires l.segments != null && h.segments != null ==>
               l.segments != h.segments && l.segments.data != h.segments.data
    ensures LightSet(l) !! ShapeSet(h)
  {
    PointsApart(l.points, h);
    SpotsApart(l.spots, h);
    PolygonLightsApart(l.polygons, h);
    assert Footprint(l.segments) !! Footprint(h.circles) + Footprint(h.rects) + Footprint(h.polygons);
  }

  lemma PointsApart(b: ComputeBuffer?<PointLightData>, h: ShapeBuffers)
    ensures Footprint(b) !! ShapeSet(h)
  {
    assert Footprint(b) !! Footprint(h.circles) && Footprint(b) !! Footprint(h.rects);
    assert Footprint(b) !! Footprint(h.polygons) && Footprint(b) !! Footprint(h.segments);
  }

  lemma SpotsApart(b: ComputeBuffer?<SpotLightData>, h: ShapeBuffers)
    ensures Footprint(b) !! ShapeSet(h)
  {
    assert Footprint(b) !! Footprint(h.circles) && Footprint(b) !! Footprint(h.rects);
    assert Footprint(b) !! Footprint(h.polygons) && Footprint(b) !! Footprint(h.segments);
  }

  lemma PolygonLightsApart(b: ComputeBuffer?<PolygonLightData>, h: ShapeBuffers)
    ensures Footprint(b) !! ShapeSet(h)
  {
    assert Footprint(b) !! Footprint(h.circles) && Footprint(b) !! Footprint(h.rects);
    assert Footprint(b) !! Footprint(h.polygons) && Footprint(b) !! Footprint(h.segments);
  }

  /** `RayMarchRenderer`: the buffers, counts and command list of the
      renderer, for a result texture of `width` x `height` pixels. */
  class RayMarchRenderer {
    const width: nat
    const height: nat

    var lightCount: nat
    var shapeCount: nat
    var rayCountMax: int
    var rayBatchCount: nat
    var pixelsPerBatch: nat

    /** The number of pixels of the result texture. */
    function Pixels(): nat
    {
      width * height
    }

    var lights: LightBuffers
    var shapes: ShapeBuffers

    /** The command buffer, and every list handed to the GPU so far. */
    var commands: seq<Command>
    var executed: seq<seq<Command>>

    /** No buffer is zero-sized, and the two segment buffers, the only ones
        of the same element type, never share storage. */
    ghost predicate Valid()
      reads this
    {
      && NonEmpty(lights.points) && NonEmpty(lights.spots) && NonEmpty(lights.polygons) && NonEmpty(lights.segments)
      && NonEmpty(shapes.circles) && NonEmpty(shapes.rects) && NonEmpty(shapes.polygons) && NonEmpty(shapes.segments)
      && (lights.segments != null && shapes.segments != null ==>
        lights.segments != shapes.segments && lights.segments.data != shapes.segments.data)
    }

    ghost function LightFootprint(): set<object>
      reads this
    {
      LightSet(lights)
    }

    ghost function ShapeFootprint(): set<object>
      reads this
    {
      ShapeSet(shapes)
    }

    /** A renderer before its first update: no buffers, no counts. */
    constructor (width: nat, height: nat)
      ensures Valid() && this.width == width && this.height == height
      ensures lightCount == 0 && shapeCount == 0 && rayCountMax == 0
      ensures rayBatchCount == 0 && pixelsPerBatch == 0
      ensures LightFootprint() == {} && ShapeFootprint() == {}
      ensures commands == [] && executed == []
    {
      this.width := width;
      this.height := height;
      lightCount, shapeCount, rayCountMax, rayBatchCount, pixelsPerBatch := 0, 0, 0, 0, 0;
      lights := LightBuffers(null, null, null, null);
      shapes := ShapeBuffers(null, null, null, null);
      commands, executed := [], [];
    }

    /** `UpdateLightBuffers`: upload the four light lists and recompute the
        light count and the batch layout. Disabled lights count too. */
    method UpdateLightBuffers(points: seq<PointLightData>, spots: seq<SpotLightData>,
                              polygons: seq<PolygonLightData>, segments: seq<Segment>)
      requires Valid()
      modifies this, LightFootprint()
      ensures Valid()
      ensures Holds(lights.points, points, DefaultPointLight)
      ensures Holds(lights.spots, spots, DefaultSpotLight)
      ensures Holds(lights.polygons, polygons, DefaultPolygonLight)
      ensures Holds(lights.segments, segments, DefaultSegment)
      ensures lightCount == |points| + |spots| + |polygons|
      ensures rayCountMax == RayCountMax(width, height, lightCount)
      ensures pixelsPerBatch == PixelsPerBatch(lightCount)
      ensures rayBatchCount == BatchCount(Pixels(), pixelsPerBatch)
      ensures shapes == old(shapes) && shapeCount == old(shapeCount)
      ensures commands == old(commands) && executed == old(executed)
    {
      UploadLights(points, spots, polygons, segments);
      SetLightCount(|points| + |spots| + |polygons|);
    }

    /** The four `WriteBufferData` calls of `UpdateLightBuffers`. */
    method UploadLights(points: seq<PointLightData>, spots: seq<SpotLightData>,
                        polygons: seq<PolygonLightData>, segments: seq<Segment>)
      requires Valid()
      modifies this, LightFootprint()
      ensures Valid()
      ensures Holds(lights.points, points, DefaultPointLight)
      ensures Holds(lights.spots, spots, DefaultSpotLight)
      ensures Holds(lights.polygons, polygons, DefaultPolygonLight)
      ensures Holds(lights.segments, segments, DefaultSegment)
      ensures shapes == old(shapes) && shapeCount == old(shapeCount)
      ensures commands == old(commands) && executed == old(executed)
    {
      var l := lights;
      assert this !in Footprint(l.points) && this !in Footprint(l.spots);
      assert this !in Footprint(l.polygons) && this !in Footprint(l.segments);
      var p, s, g, e :=
        WriteFourBuffers(points, l.points, DefaultPointLight, spots, l.spots, DefaultSpotLight,
                         polygons, l.polygons, DefaultPolygonLight, segments, l.segments);
      lights := LightBuffers(p, s, g, e);
    }

    /** The light count and the batch layout that follows from it, with
        the corrected batch count. */
    method SetLightCount(n: nat)
      modifies this
      ensures lightCount == n
      ensures rayCountMax == RayCountMax(width, height, n)
      ensures pixelsPerBatch == PixelsPerBatch(n)
      ensures rayBatchCount == BatchCount(Pixels(), pixelsPerBatch)
      ensures lights == old(lights) && shapes == old(shapes) && shapeCount == old(shapeCount)
      ensures commands == old(commands) && executed == old(executed)
    {
      lightCount := n;
      rayCountMax := RayCountMax(width, height, n);
      pixelsPerBatch := PixelsPerBatch(n);
      rayBatchCount := BatchCount(Pixels(), pixelsPerBatch);
    }

    /** `UpdateShapeBuffers`: upload the four shape lists and count the
        shapes. */
    method UpdateShapeBuffers(circles: seq<CircleShapeData>, rects: seq<RectShapeData>,
                              polygons: seq<PolygonShapeData>, segments: seq<Segment>)
      requires Valid()
      modifies this, ShapeFootprint()
      ensures Valid()
      ensures Holds(shapes.circles, circles, DefaultCircleShape)
      ensures Holds(shapes.rects, rects, DefaultRectShape)
      ensures Holds(shapes.polygons, polygons, DefaultPolygonShape)
      ensures Holds(shapes.segments, segments, DefaultSegment)
      ensures shapeCount == |circles| + |rects| + |polygons|
      ensures lights == old(lights) && lightCount == old(lightCount) && rayCountMax == old(rayCountMax)
      ensures pixelsPerBatch == old(pixelsPerBatch) && rayBatchCount == old(rayBatchCount)
      ensures commands == old(commands) && executed == old(executed)
    {
      UploadShapes(circles, rects, polygons, segments);
      shapeCount := |circles| + |rects| + |polygons|;
    }

    /** The four `WriteBufferData` calls of `UpdateShapeBuffers`. */
    method UploadShapes(circles: seq<CircleShapeData>, rects: seq<RectShapeData>,
                        polygons: seq<PolygonShapeData>, segments: seq<Segment>)
      requires Valid()
      modifies this, ShapeFootprint()
      ensures Valid()
      ensures Holds(shapes.circles, circles, DefaultCircleShape)
      ensures Holds(shapes.rects, rects, DefaultRectShape)
      ensures Holds(shapes.polygons, polygons, DefaultPolygonShape)
      ensures Holds(shapes.segments, segments, DefaultSegment)
      ensures lights == old(lights) && lightCount == old(lightCount) && rayCountMax == old(rayCountMax)
      ensures pixelsPerBatch == old(pixelsPerBatch) && rayBatchCount == old(rayBatchCount)
      ensures shapeCount == old(shapeCount) && commands == old(commands) && executed == old(executed)
    {
      var h := shapes;
      assert this !in Footprint(h.circles) && this !in Footprint(h.rects);
      assert this !in Footprint(h.polygons) && this !in Footprint(h.segments);
      var c, r, g, e :=
        WriteFourBuffers(circles, h.circles, DefaultCircleShape, rects, h.rects, DefaultRectShape,
                         polygons, h.polygons, DefaultPolygonShape, segments, h.segments);
      shapes := ShapeBuffers(c, r, g, e);
    }

    /** `BuildCommandBuffer`: clear the command buffer and record the
        preamble, one group of five commands per batch, and the tail. */
    method BuildCommandBuffer()
      modifies this
      ensures commands == CommandList(width, height, pixelsPerBatch, rayBatchCount)
      ensures executed == old(executed)
      ensures Unchanged()
    {
      var cmds := [];
      cmds := cmds + Preamble(pixelsPerBatch);
      for b := 0 to rayBatchCount
        invariant cmds == Preamble(pixelsPerBatch) + Batches(b, pixelsPerBatch)
      {
        cmds := cmds + [SetInt(BatchOffsetParam, b * pixelsPerBatch)];
        cmds := cmds + [SetInt(BatchSignParam, Sign(b))];
        cmds := cmds + [ResetRayCounter];
        cmds := cmds + [Dispatch(InitializeKernel, CeilDiv(pixelsPerBatch, DispatchGroupSize), 1, 1)];
        cmds := cmds + [Dispatch(MarchKernel, DispatchGroupCount / 2, 1, 1)];
      }
      cmds := cmds + Tail(width, height);
      commands := cmds;
    }

    /** Every field but the command buffer and the execution log is as it
        was. */
    twostate predicate Unchanged()
      reads this
    {
      && lightCount == old(lightCount) && shapeCount == old(shapeCount)
      && rayCountMax == old(rayCountMax) && rayBatchCount == old(rayBatchCount)
      && pixelsPerBatch == old(pixelsPerBatch)
      && lights == old(lights) && shapes == old(shapes)
    }

    /** `Render`: nothing when there are no rays to cast; otherwise record
        the frame's commands and execute them. */
    method Render()
      modifies this
      ensures rayCountMax == 0 ==> commands == old(commands) && executed == old(executed)
      ensures rayCountMax != 0 ==>
                commands == CommandList(width, height, pixelsPerBatch, rayBatchCount)
                && executed == old(executed) + [commands]
      ensures Unchanged()
    {
      if rayCountMax == 0 {
        return;
      }
      BuildCommandBuffer();
      executed := executed + [commands];
    }
  }
}
