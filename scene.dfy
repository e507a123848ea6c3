/** The scene side of the lighting system: the registries of lights and
    shapes that components add themselves to, and the per-frame rebuild
    that turns them into the eight staging lists handed to the renderer.

    Lights and shapes are values tagged by their component type; a polygon
    entry holds the `PolygonShape` object it triangulates. An `id` stands
    for the identity of a component, so two components with equal settings
    are still two registry entries. */
module Scene {
  import opened Common
  import opened Geometry
  import opened Records
  import Registry
  import opened Triangulate
  import opened PolygonShapes
  import opened Batching
  import Renderer

  datatype Light =
    | PointLight(id: nat, position: Vec2, color: Rgb, intensity: real, range: real, enabled: bool)
    | SpotLight(id: nat, position: Vec2, color: Rgb, intensity: real, range: real,
                coneMin: Vec2, coneMax: Vec2, enabled: bool)
    | PolygonLight(id: nat, color: Rgb, range: real, enabled: bool, shape: PolygonShape)
    | OtherLight(id: nat)   // a light component type the rebuild does not know

  datatype Shape =
    | CircleShape(id: nat, position: Vec2, radius: real, enabled: bool)
    | RectShape(id: nat, position: Vec2, size: Vec2, enabled: bool)
    | PolygonShapeEntry(shape: PolygonShape)
    | OtherShape(id: nat)   // a shape component type the rebuild does not know

  // ------------------------------------------------- the record constructors

  /** `VektorPointLight.GetLightData`: the colour is scaled by the intensity. */
  function PointLightRecord(l: Light): PointLightData
    requires l.PointLight?
  {
    PointLightData(l.position, ScaleRgb(l.color, l.intensity), l.range, EnabledFlag(l.enabled))
  }

  /** `VektorSpotLight.GetLightData`, with the cone carried as given. */
  function SpotLightRecord(l: Light): SpotLightData
    requires l.SpotLight?
  {
    SpotLightData(l.position, ScaleRgb(l.color, l.intensity), l.range, l.coneMin, l.coneMax, EnabledFlag(l.enabled))
  }

  /** `VektorPolygonLight.GetLightData`: the shape's range with the light's
      own colour (not scaled by the intensity), range and enabled state. */
  function PolygonLightRecord(l: Light, data: PolygonShapeData): PolygonLightData
    requires l.PolygonLight?
  {
    PolygonLightData(l.color, l.range, data.offset, data.length, EnabledFlag(l.enabled))
  }

  function CircleShapeRecord(s: Shape): CircleShapeData
    requires s.CircleShape?
  {
    CircleShapeData(s.position, s.radius, EnabledFlag(s.enabled))
  }

  /** `VektorRectShape.GetShapeData`: half the size as extents. */
  function RectShapeRecord(s: Shape): RectShapeData
    requires s.RectShape?
  {
    RectShapeData(s.position, Scale(0.5, s.size), EnabledFlag(s.enabled))
  }

  /** The segments a polygon shape appends: the edges of its
      triangulation, moved to its position. */
  ghost function PolygonEdges(p: PolygonShape): (e: seq<Segment>)
    ensures |e| == |Triangulation(p.vertices).1|
  {
    TriangulationCount(p.vertices);
    TriangleEdges(Triangulation(p.vertices).1, p.position)
  }

  /** The record `GetPolygonData` returns when the pool holds `pool`. */
  ghost function PolygonRecord(p: PolygonShape, pool: seq<Segment>): PolygonShapeData
  {
    PolygonShapeData(|pool|, |Triangulation(p.vertices).1|, EnabledFlag(p.enabled))
  }

  // ------------------------------------------------------ the staging lists

  datatype LightLists = LightLists(points: seq<PointLightData>, spots: seq<SpotLightData>,
                                   polygons: seq<PolygonLightData>, segments: seq<Segment>)

  datatype ShapeLists = ShapeLists(circles: seq<CircleShapeData>, rects: seq<RectShapeData>,
                                   polygons: seq<PolygonShapeData>, segments: seq<Segment>)

  const NoLights: LightLists := LightLists([], [], [], [])
  const NoShapes: ShapeLists := ShapeLists([], [], [], [])

  /** One turn of the light loop: the entry's record goes to the list of
      its type; a polygon light also appends its segments. */
  ghost function StageLight(acc: LightLists, l: Light): LightLists
  {
    match l
    case PointLight(_, _, _, _, _, _) => acc.(points := acc.points + [PointLightRecord(l)])
    case SpotLight(_, _, _, _, _, _, _, _) => acc.(spots := acc.spots + [SpotLightRecord(l)])
    case PolygonLight(_, _, _, _, shape) =>
      acc.(polygons := acc.polygons + [PolygonLightRecord(l, PolygonRecord(shape, acc.segments))],
           segments := acc.segments + PolygonEdges(shape))
    case OtherLight(_) => acc
  }

  /** The light lists after a rebuild: cleared, then every registered
      light staged in registry order. */
  ghost function LightStaging(lights: seq<Light>): LightLists
  {
    if lights == [] then NoLights
    else StageLight(LightStaging(lights[..|lights| - 1]), lights[|lights| - 1])
  }

  ghost function StageShape(acc: ShapeLists, s: Shape): ShapeLists
  {
    match s
    case CircleShape(_, _, _, _) => acc.(circles := acc.circles + [CircleShapeRecord(s)])
    case RectShape(_, _, _, _) => acc.(rects := acc.rects + [RectShapeRecord(s)])
    case PolygonShapeEntry(shape) =>
      acc.(polygons := acc.polygons + [PolygonRecord(shape, acc.segments)],
           segments := acc.segments + PolygonEdges(shape))
    case OtherShape(_) => acc
  }

  ghost function ShapeStaging(shapes: seq<Shape>): ShapeLists
  {
    if shapes == [] then NoShapes
    else StageShape(ShapeStaging(shapes[..|shapes| - 1]), shapes[|shapes| - 1])
  }

  // ------------------------------------------- the same lists, one by one

  /** The values `f` picks out of `s`, in order. */
  function Pick<E, T>(s: seq<E>, f: E -> Option<T>): (r: seq<T>)
    ensures |r| <= |s|
  {
    if s == [] then [] else (if f(s[0]).Some? then [f(s[0]).value] else []) + Pick(s[1..], f)
  }

  lemma {:induction false} PickSnoc<E, T>(s: seq<E>, x: E, f: E -> Option<T>)
    ensures Pick(s + [x], f) == Pick(s, f) + (if f(x).Some? then [f(x).value] else [])
    decreases |s|
  {
    if s == [] {
      assert [x][1..] == [];
    } else {
      assert (s + [x])[0] == s[0];
      assert (s + [x])[1..] == s[1..] + [x];
      PickSnoc(s[1..], x, f);
    }
  }

  function PointOf(l: Light): Option<PointLightData>
  {
    if l.PointLight? then Some(PointLightRecord(l)) else None
  }

  function SpotOf(l: Light): Option<SpotLightData>
  {
    if l.SpotLight? then Some(SpotLightRecord(l)) else None
  }

  function PolygonLightOf(l: Light): Option<Light>
  {
    if l.PolygonLight? then Some(l) else None
  }

  function UnsupportedLight(l: Light): Option<nat>
  {
    if l.OtherLight? then Some(l.id) else None
  }

  function CircleOf(s: Shape): Option<CircleShapeData>
  {
    if s.CircleShape? then Some(CircleShapeRecord(s)) else None
  }

  function RectOf(s: Shape): Option<RectShapeData>
  {
    if s.RectShape? then Some(RectShapeRecord(s)) else None
  }

  function PolygonOf(s: Shape): Option<PolygonShape>
  {
    if s.PolygonShapeEntry? then Some(s.shape) else None
  }

  function UnsupportedShape(s: Shape): Option<nat>
  {
    if s.OtherShape? then Some(s.id) else None
  }

  function LightShapeOf(l: Light): Option<PolygonShape>
  {
    if l.PolygonLight? then Some(l.shape) else None
  }

  // ------------------------------------------------------- segment ranges

  /** The `(offset, length)` ranges of staged polygon light records. */
  function LightRanges(ds: seq<PolygonLightData>): seq<Polygon>
  {
    seq(|ds|, k requires 0 <= k < |ds| => Polygon(ds[k].offset, ds[k].length))
  }

  /** The `(offset, length)` ranges of staged polygon shape records. */
  function ShapeRanges(ds: seq<PolygonShapeData>): seq<Polygon>
  {
    seq(|ds|, k requires 0 <= k < |ds| => Polygon(ds[k].offset, ds[k].length))
  }

  /** The edge lists of a run of polygon shapes, one per polygon. */
  ghost function EdgeLists(ps: seq<PolygonShape>): seq<seq<Segment>>
  {
    seq(|ps|, k requires 0 <= k < |ps| => PolygonEdges(ps[k]))
  }

  /** The ranges tile the segment list, one per edge list: the last range
      covers the last edge list at the very end of the segment list, and
      the ranges before it tile what comes before. */
  ghost predicate Tiles(ranges: seq<Polygon>, segments: seq<Segment>, edges: seq<seq<Segment>>)
    decreases |edges|
  {
    if edges == [] then ranges == [] && segments == []
    else
      var n, e := |edges| - 1, edges[|edges| - 1];
      && |ranges| == |edges|
      && |e| <= |segments|
      && ranges[n] == Polygon(|segments| - |e|, |e|)
      && segments[|segments| - |e|..] == e
      && Tiles(ranges[..n], segments[..|segments| - |e|], edges[..n])
  }

  /** Appending an edge list at the end of a tiled list, with the range
      that starts at the old end, keeps it tiled. */
  lemma TilesSnoc(ranges: seq<Polygon>, segments: seq<Segment>, edges: seq<seq<Segment>>, e: seq<Segment>)
    requires Tiles(ranges, segments, edges)
    ensures Tiles(ranges + [Polygon(|segments|, |e|)], segments + e, edges + [e])
  {
    var ranges', segments', edges' := ranges + [Polygon(|segments|, |e|)], segments + e, edges + [e];
    assert ranges'[..|ranges|] == ranges;
    assert segments'[..|segments|] == segments;
    assert segments'[|segments|..] == e;
    assert edges'[..|edges|] == edges;
  }

  /** How tiled ranges are laid out: one range per edge list, the first
      starts at 0, each next one starts where the previous one ends, and
      the last ends at the end of the segment list. */
  lemma {:induction false} TilesChain(ranges: seq<Polygon>, segments: seq<Segment>, edges: seq<seq<Segment>>)
    requires Tiles(ranges, segments, edges)
    ensures |ranges| == |edges|
    ensures |segments| == if ranges == [] then 0 else ranges[|ranges| - 1].offset + ranges[|ranges| - 1].length
    ensures forall k :: 0 <= k < |ranges| ==>
              ranges[k].offset == if k == 0 then 0 else ranges[k - 1].offset + ranges[k - 1].length
    decreases |edges|
  {
    if edges != [] {
      var n, e := |edges| - 1, edges[|edges| - 1];
      var r0 := ranges[..n];
      TilesChain(r0, segments[..|segments| - |e|], edges[..n]);
      assert forall k :: 0 <= k < n ==> ranges[k] == r0[k];
    }
  }

  /** What tiled ranges hold: range `k` lies inside the segment list and
      holds exactly edge list `k`. */
  lemma {:induction false} TilesHold(ranges: seq<Polygon>, segments: seq<Segment>, edges: seq<seq<Segment>>, k: nat)
    requires Tiles(ranges, segments, edges) && k < |edges|
    ensures k < |ranges| && ranges[k].offset + ranges[k].length <= |segments|
    ensures segments[ranges[k].offset .. ranges[k].offset + ranges[k].length] == edges[k]
    decreases |edges|
  {
    var n, e := |edges| - 1, edges[|edges| - 1];
    var start := |segments| - |e|;
    if k < n {
      var s0 := segments[..start];
      TilesHold(ranges[..n], s0, edges[..n], k);
      assert ranges[..n][k] == ranges[k] && edges[..n][k] == edges[k];
      var lo, hi := ranges[k].offset, ranges[k].offset + ranges[k].length;
      assert segments[lo..hi] == s0[lo..hi];
    }
  }

  // ------------------------------------------------ what the rebuild yields

  /** The light rebuild sorts every entry into exactly the list of its
      type, keeping registry order: the point and spot lists are the point
      and spot lights' records in order. */
  lemma {:induction false} LightStagingPicks(lights: seq<Light>)
    ensures LightStaging(lights).points == Pick(lights, PointOf)
    ensures LightStaging(lights).spots == Pick(lights, SpotOf)
    decreases |lights|
  {
    if lights != [] {
      var init, x := lights[..|lights| - 1], lights[|lights| - 1];
      assert lights == init + [x];
      var r0 := LightStaging(init);
      assert lights[..|lights| - 1] == init;
      assert LightStaging(lights) == StageLight(r0, x);
      LightStagingPicks(init);
      PickSnoc(init, x, PointOf);
      PickSnoc(init, x, SpotOf);
    }
  }

  /** Polygon light record `k` carries the colour, range and enabled flag
      of the `k`-th polygon light, whose shape is the `k`-th light shape. */
  lemma {:induction false} LightStagingPolygons(lights: seq<Light>)
    ensures var r := LightStaging(lights);
            var ps, qs := Pick(lights, PolygonLightOf), Pick(lights, LightShapeOf);
            && |r.polygons| == |ps| == |qs|
            && forall k :: 0 <= k < |ps| ==>
                 && ps[k].PolygonLight? && ps[k].shape == qs[k]
                 && r.polygons[k].color == ps[k].color && r.polygons[k].range == ps[k].range
                 && r.polygons[k].enabled == EnabledFlag(ps[k].enabled)
    decreases |lights|
  {
    if lights != [] {
      var init, x := lights[..|lights| - 1], lights[|lights| - 1];
      assert lights == init + [x];
      LightStagingPolygons(init);
      PickSnoc(init, x, PolygonLightOf);
      PickSnoc(init, x, LightShapeOf);
    }
  }

  lemma LightRangesSnoc(ds: seq<PolygonLightData>, d: PolygonLightData)
    ensures LightRanges(ds + [d]) == LightRanges(ds) + [Polygon(d.offset, d.length)]
  {
    assert |LightRanges(ds + [d])| == |ds| + 1;
  }

  lemma ShapeRangesSnoc(ds: seq<PolygonShapeData>, d: PolygonShapeData)
    ensures ShapeRanges(ds + [d]) == ShapeRanges(ds) + [Polygon(d.offset, d.length)]
  {
    assert |ShapeRanges(ds + [d])| == |ds| + 1;
  }

  lemma EdgeListsSnoc(ps: seq<PolygonShape>, q: PolygonShape)
    ensures EdgeLists(ps + [q]) == EdgeLists(ps) + [PolygonEdges(q)]
  {
    assert |EdgeLists(ps + [q])| == |ps| + 1;
  }

  /** Staging one more polygon light appends its range and its edges. */
  lemma LightTileStep(init: seq<Light>, x: Light)
    requires x.PolygonLight?
    requires Tiles(LightRanges(LightStaging(init).polygons), LightStaging(init).segments,
                   EdgeLists(Pick(init, LightShapeOf)))
    ensures Tiles(LightRanges(LightStaging(init + [x]).polygons), LightStaging(init + [x]).segments,
                  EdgeLists(Pick(init + [x], LightShapeOf)))
  {
    var lights := init + [x];
    var r0, r1 := LightStaging(init), LightStaging(lights);
    var qs0 := Pick(init, LightShapeOf);
    var e := PolygonEdges(x.shape);
    var d := PolygonLightRecord(x, PolygonRecord(x.shape, r0.segments));
    assert lights[..|init|] == init;
    assert r1 == StageLight(r0, x);
    assert r1.polygons == r0.polygons + [d] && r1.segments == r0.segments + e;
    assert d.offset == |r0.segments| && d.length == |e|;
    LightRangesSnoc(r0.polygons, d);
    PickSnoc(init, x, LightShapeOf);
    EdgeListsSnoc(qs0, x.shape);
    assert LightRanges(r1.polygons) == LightRanges(r0.polygons) + [Polygon(|r0.segments|, |e|)];
    assert EdgeLists(Pick(lights, LightShapeOf)) == EdgeLists(qs0) + [e];
    TilesSnoc(LightRanges(r0.polygons), r0.segments, EdgeLists(qs0), e);
  }

  /** The polygon lights' ranges tile the light segment list, range `k`
      holding the edges of the `k`-th polygon light's shape. */
  lemma {:induction false} LightRangesTile(lights: seq<Light>)
    ensures Tiles(LightRanges(LightStaging(lights).polygons), LightStaging(lights).segments,
                  EdgeLists(Pick(lights, LightShapeOf)))
    decreases |lights|
  {
    if lights == [] {
      assert LightStaging(lights) == NoLights && Pick(lights, LightShapeOf) == [];
      assert LightRanges(NoLights.polygons) == [] && EdgeLists([]) == [];
    } else {
      var init, x := lights[..|lights| - 1], lights[|lights| - 1];
      assert lights == init + [x];
      LightRangesTile(init);
      if x.PolygonLight? {
        LightTileStep(init, x);
      } else {
        PickSnoc(init, x, LightShapeOf);
        LightStagingSkips(LightStaging(init), x);
        assert LightStaging(lights) == StageLight(LightStaging(init), x);
        assert Pick(lights, LightShapeOf) == Pick(init, LightShapeOf);
      }
    }
  }

  /** A light that is not a polygon light leaves the polygon records and
      the segments alone. */
  lemma LightStagingSkips(acc: LightLists, l: Light)
    requires !l.PolygonLight?
    ensures StageLight(acc, l).polygons == acc.polygons && StageLight(acc, l).segments == acc.segments
  {}

  /** Staging a light grows the three lists by one record, unless the
      light is of an unsupported type. */
  lemma StageLightCount(acc: LightLists, l: Light)
    ensures var r := StageLight(acc, l);
            |r.points| + |r.spots| + |r.polygons|
              == |acc.points| + |acc.spots| + |acc.polygons| + (if l.OtherLight? then 0 else 1)
  {}

  /** Every registered light is staged once or skipped with a warning, so
      the three light lists together are never longer than the registry. */
  lemma {:induction false} LightCounts(lights: seq<Light>)
    ensures var r := LightStaging(lights);
            |r.points| + |r.spots| + |r.polygons| + |Pick(lights, UnsupportedLight)| == |lights|
    ensures var r := LightStaging(lights);
            |r.points| + |r.spots| + |r.polygons| <= |lights|
    decreases |lights|
  {
    if lights != [] {
      var init, x := lights[..|lights| - 1], lights[|lights| - 1];
      assert lights == init + [x];
      var r0 := LightStaging(init);
      assert lights[..|lights| - 1] == init;
      assert LightStaging(lights) == StageLight(r0, x);
      LightCounts(init);
      PickSnoc(init, x, UnsupportedLight);
      StageLightCount(r0, x);
    }
  }

  /** The shape rebuild sorts the same way: circles and rects in registry
      order, and polygon record `k` carries the enabled flag of the `k`-th
      polygon shape. */
  lemma {:induction false} ShapeStagingSplits(shapes: seq<Shape>)
    ensures var r := ShapeStaging(shapes);
            var ps := Pick(shapes, PolygonOf);
            && r.circles == Pick(shapes, CircleOf)
            && r.rects == Pick(shapes, RectOf)
            && |r.polygons| == |ps|
            && forall k :: 0 <= k < |ps| ==> r.polygons[k].enabled == EnabledFlag(ps[k].enabled)
    decreases |shapes|
  {
    if shapes != [] {
      var init, x := shapes[..|shapes| - 1], shapes[|shapes| - 1];
      assert shapes == init + [x];
      ShapeStagingSplits(init);
      PickSnoc(init, x, CircleOf);
      PickSnoc(init, x, RectOf);
      PickSnoc(init, x, PolygonOf);
    }
  }

  /** Staging one more polygon shape appends its range and its edges. */
  lemma ShapeTileStep(init: seq<Shape>, x: Shape)
    requires x.PolygonShapeEntry?
    requires Tiles(ShapeRanges(ShapeStaging(init).polygons), ShapeStaging(init).segments,
                   EdgeLists(Pick(init, PolygonOf)))
    ensures Tiles(ShapeRanges(ShapeStaging(init + [x]).polygons), ShapeStaging(init + [x]).segments,
                  EdgeLists(Pick(init + [x], PolygonOf)))
  {
    var shapes := init + [x];
    var r0, r1 := ShapeStaging(init), ShapeStaging(shapes);
    var ps0 := Pick(init, PolygonOf);
    var e := PolygonEdges(x.shape);
    var d := PolygonRecord(x.shape, r0.segments);
    assert shapes[..|init|] == init;
    assert r1 == StageShape(r0, x);
    assert r1.polygons == r0.polygons + [d] && r1.segments == r0.segments + e;
    assert d.offset == |r0.segments| && d.length == |e|;
    ShapeRangesSnoc(r0.polygons, d);
    PickSnoc(init, x, PolygonOf);
    EdgeListsSnoc(ps0, x.shape);
    assert ShapeRanges(r1.polygons) == ShapeRanges(r0.polygons) + [Polygon(|r0.segments|, |e|)];
    assert EdgeLists(Pick(shapes, PolygonOf)) == EdgeLists(ps0) + [e];
    TilesSnoc(ShapeRanges(r0.polygons), r0.segments, EdgeLists(ps0), e);
  }

  /** The polygon shapes' ranges tile the shape segment list, range `k`
      holding the edges of the `k`-th polygon shape. */
  lemma {:induction false} ShapeRangesTile(shapes: seq<Shape>)
    ensures Tiles(ShapeRanges(ShapeStaging(shapes).polygons), ShapeStaging(shapes).segments,
                  EdgeLists(Pick(shapes, PolygonOf)))
    decreases |shapes|
  {
    if shapes == [] {
      assert ShapeStaging(shapes) == NoShapes && Pick(shapes, PolygonOf) == [];
      assert ShapeRanges(NoShapes.polygons) == [] && EdgeLists([]) == [];
    } else {
      var init, x := shapes[..|shapes| - 1], shapes[|shapes| - 1];
      assert shapes == init + [x];
      ShapeRangesTile(init);
      if x.PolygonShapeEntry? {
        ShapeTileStep(init, x);
      } else {
        PickSnoc(init, x, PolygonOf);
        ShapeStagingSkips(ShapeStaging(init), x);
        assert ShapeStaging(shapes) == StageShape(ShapeStaging(init), x);
        assert Pick(shapes, PolygonOf) == Pick(init, PolygonOf);
      }
    }
  }

  /** A shape that is not a polygon shape leaves the polygon records and
      the segments alone. */
  lemma ShapeStagingSkips(acc: ShapeLists, s: Shape)
    requires !s.PolygonShapeEntry?
    ensures StageShape(acc, s).polygons == acc.polygons && StageShape(acc, s).segments == acc.segments
  {}

  /** Staging a shape grows the three lists by one record, unless the
      shape is of an unsupported type. */
  lemma StageShapeCount(acc: ShapeLists, s: Shape)
    ensures var r := StageShape(acc, s);
            |r.circles| + |r.rects| + |r.polygons|
              == |acc.circles| + |acc.rects| + |acc.polygons| + (if s.OtherShape? then 0 else 1)
  {}

  lemma {:induction false} ShapeCounts(shapes: seq<Shape>)
    ensures var r := ShapeStaging(shapes);
            |r.circles| + |r.rects| + |r.polygons| + |Pick(shapes, UnsupportedShape)| == |shapes|
    ensures var r := ShapeStaging(shapes);
            |r.circles| + |r.rects| + |r.polygons| <= |shapes|
    decreases |shapes|
  {
    if shapes != [] {
      var init, x := shapes[..|shapes| - 1], shapes[|shapes| - 1];
      assert shapes == init + [x];
      ShapeCounts(init);
      PickSnoc(init, x, UnsupportedShape);
      StageShapeCount(ShapeStaging(init), x);
    }
  }

  /** The four light buffers hold the four light lists. */
  ghost predicate LightsHeld(b: Renderer.LightBuffers, l: LightLists)
    reads Renderer.LightSet(b)
  {
    && Renderer.Holds(b.points, l.points, DefaultPointLight)
    && Renderer.Holds(b.spots, l.spots, DefaultSpotLight)
    && Renderer.Holds(b.polygons, l.polygons, DefaultPolygonLight)
    && Renderer.Holds(b.segments, l.segments, DefaultSegment)
  }

  /** The four shape buffers hold the four shape lists. */
  ghost predicate ShapesHeld(b: Renderer.ShapeBuffers, s: ShapeLists)
    reads Renderer.ShapeSet(b)
  {
    && Renderer.Holds(b.circles, s.circles, DefaultCircleShape)
    && Renderer.Holds(b.rects, s.rects, DefaultRectShape)
    && Renderer.Holds(b.polygons, s.polygons, DefaultPolygonShape)
    && Renderer.Holds(b.segments, s.segments, DefaultSegment)
  }

  // ------------------------------------------------------------ the system

  /** The lighting system is none of the renderer's buffers or arrays. */
  lemma SystemOutside(sys: LightingSystem, l: Renderer.LightBuffers, h: Renderer.ShapeBuffers)
    ensures sys !in Renderer.LightSet(l) + Renderer.ShapeSet(h)
  {
    assert sys !in Renderer.Footprint(l.points) && sys !in Renderer.Footprint(l.spots);
    assert sys !in Renderer.Footprint(l.polygons) && sys !in Renderer.Footprint(l.segments);
    assert sys !in Renderer.Footprint(h.circles) && sys !in Renderer.Footprint(h.rects);
    assert sys !in Renderer.Footprint(h.polygons) && sys !in Renderer.Footprint(h.segments);
  }

  /** `VektorLightingSystem`: the static registries, dirty flags and
      staging lists (one object stands for the static state), the
      renderer created by `Awake`, and the triangulator's static work
      array that every polygon shape shares. */
  class LightingSystem {
    var lights: seq<Light>
    var shapes: seq<Shape>
    var lightsDirty: bool
    var shapesDirty: bool
    var lightLists: LightLists
    var shapeLists: ShapeLists
    const renderer: Renderer.RayMarchRenderer
    const work: array<int>

    ghost predicate Valid()
      reads this, renderer
    {
      && Registry.NoDup(lights) && Registry.NoDup(shapes)
      && work.Length == WorkBufferSize
      && renderer.Valid()
    }

    /** Every registered polygon fits the triangulator's work array. */
    ghost predicate PolygonsFit()
      reads this
    {
      && (forall l :: l in lights && l.PolygonLight? ==> |l.shape.vertices| <= WorkBufferSize)
      && (forall s :: s in shapes && s.PolygonShapeEntry? ==> |s.shape.vertices| <= WorkBufferSize)
    }

    /** The polygon shapes the light rebuild re-triangulates. */
    ghost function LightPolygons(): set<PolygonShape>
      reads this
    {
      set l | l in lights && l.PolygonLight? :: l.shape
    }

    /** The polygon shapes the shape rebuild re-triangulates. */
    ghost function ShapePolygons(): set<PolygonShape>
      reads this
    {
      set s | s in shapes && s.PolygonShapeEntry? :: s.shape
    }

    /** The static constructor and `Awake`: empty registries and lists,
        both flags dirty, and a renderer for a `width` x `height` result
        texture. */
    constructor (width: nat, height: nat)
      ensures Valid() && fresh(renderer) && fresh(work)
      ensures lights == [] && shapes == [] && lightsDirty && shapesDirty
      ensures lightLists == NoLights && shapeLists == NoShapes
      ensures renderer.width == width && renderer.height == height
      ensures renderer.LightFootprint() == {} && renderer.ShapeFootprint() == {}
    {
      lights, shapes := [], [];
      lightsDirty, shapesDirty := true, true;
      lightLists, shapeLists := NoLights, NoShapes;
      work := new int[WorkBufferSize];
      renderer := new Renderer.RayMarchRenderer(width, height);
    }

    /** `AddLight`: null and an already registered light are refused and
        change nothing; otherwise the light goes at the end and the light
        lists are dirty. */
    method AddLight(light: Option<Light>) returns (error: Option<Error>)
      requires Valid()
      modifies this
      ensures Valid()
      ensures match Registry.Add(old(lights), light)
              case Ok(s) => error.None? && lights == s && lightsDirty
              case Fail(e) => error == Some(e) && lights == old(lights) && lightsDirty == old(lightsDirty)
      ensures shapes == old(shapes) && shapesDirty == old(shapesDirty)
      ensures lightLists == old(lightLists) && shapeLists == old(shapeLists)
    {
      match light
      case None =>
        return Some(ArgumentNull);
      case Some(l) =>
        if l in lights {
          return Some(AlreadyAdded);
        }
        Registry.AddKeepsNoDup(lights, light);
        lights := lights + [l];
        lightsDirty := true;
        return None;
    }

    /** `RemoveLight`: null and an unregistered light are refused and
        change nothing; otherwise the light is removed and the light lists
        are dirty. */
    method RemoveLight(light: Option<Light>) returns (error: Option<Error>)
      requires Valid()
      modifies this
      ensures Valid()
      ensures match Registry.Remove(old(lights), light)
              case Ok(s) => error.None? && lights == s && lightsDirty
              case Fail(e) => error == Some(e) && lights == old(lights) && lightsDirty == old(lightsDirty)
      ensures shapes == old(shapes) && shapesDirty == old(shapesDirty)
      ensures lightLists == old(lightLists) && shapeLists == old(shapeLists)
    {
      match light
      case None =>
        return Some(ArgumentNull);
      case Some(l) =>
        if l !in lights {
          return Some(NotAdded);
        }
        Registry.RemoveKeepsNoDup(lights, light);
        lights := Registry.RemoveFirst(lights, l);
        lightsDirty := true;
        return None;
    }

    /** `AddShape`, with the discipline of `AddLight`. */
    method AddShape(shape: Option<Shape>) returns (error: Option<Error>)
      requires Valid()
      modifies this
      ensures Valid()
      ensures match Registry.Add(old(shapes), shape)
              case Ok(s) => error.None? && shapes == s && shapesDirty
              case Fail(e) => error == Some(e) && shapes == old(shapes) && shapesDirty == old(shapesDirty)
      ensures lights == old(lights) && lightsDirty == old(lightsDirty)
      ensures lightLists == old(lightLists) && shapeLists == old(shapeLists)
    {
      match shape
      case None =>
        return Some(ArgumentNull);
      case Some(s) =>
        if s in shapes {
          return Some(AlreadyAdded);
        }
        Registry.AddKeepsNoDup(shapes, shape);
        shapes := shapes + [s];
        shapesDirty := true;
        return None;
    }

    /** `RemoveShape`, with the discipline of `RemoveLight`. */
    method RemoveShape(shape: Option<Shape>) returns (error: Option<Error>)
      requires Valid()
      modifies this
      ensures Valid()
      ensures match Registry.Remove(old(shapes), shape)
              case Ok(s) => error.None? && shapes == s && shapesDirty
              case Fail(e) => error == Some(e) && shapes == old(shapes) && shapesDirty == old(shapesDirty)
      ensures lights == old(lights) && lightsDirty == old(lightsDirty)
      ensures lightLists == old(lightLists) && shapeLists == old(shapeLists)
    {
      match shape
      case None =>
        return Some(ArgumentNull);
      case Some(s) =>
        if s !in shapes {
          return Some(NotAdded);
        }
        Registry.RemoveKeepsNoDup(shapes, shape);
        shapes := Registry.RemoveFirst(shapes, s);
        shapesDirty := true;
        return None;
    }

    /** `RebuildLightBuffers`: clear the four light lists, stage every
        registered light in order (a polygon light re-triangulates its
        shape and appends the edges), and clear the dirty flag. */
    method RebuildLightBuffers()
      requires Valid() && PolygonsFit()
      modifies this, work, LightPolygons()
      ensures Valid() && PolygonsFit()
      ensures lightLists == LightStaging(lights) && !lightsDirty
      ensures lights == old(lights) && shapes == old(shapes)
      ensures shapeLists == old(shapeLists) && shapesDirty == old(shapesDirty)
    {
      var points, spots, polygons, segments := [], [], [], [];
      var ls := lights;
      ghost var polys := LightPolygons();
      for i := 0 to |ls|
        modifies work, polys
        invariant LightLists(points, spots, polygons, segments) == LightStaging(ls[..i])
      {
        assert ls[..i + 1][..i] == ls[..i];
        var l := ls[i];
        match l
        case PointLight(_, _, _, _, _, _) =>
          points := points + [PointLightRecord(l)];
        case SpotLight(_, _, _, _, _, _, _, _) =>
          spots := spots + [SpotLightRecord(l)];
        case PolygonLight(_, _, _, _, shape) =>
          var data, pool := shape.GetPolygonData(segments, work);
          polygons := polygons + [PolygonLightRecord(l, data)];
          segments := pool;
        case OtherLight(_) =>
          // skipped with a warning
      }
      assert ls[..|ls|] == ls;
      lightLists := LightLists(points, spots, polygons, segments);
      lightsDirty := false;
    }

    /** `RebuildShapeBuffers`: the same for the shape registry. */
    method RebuildShapeBuffers()
      requires Valid() && PolygonsFit()
      modifies this, work, ShapePolygons()
      ensures Valid() && PolygonsFit()
      ensures shapeLists == ShapeStaging(shapes) && !shapesDirty
      ensures lights == old(lights) && shapes == old(shapes)
      ensures lightLists == old(lightLists) && lightsDirty == old(lightsDirty)
    {
      var circles, rects, polygons, segments := [], [], [], [];
      var ss := shapes;
      ghost var polys := ShapePolygons();
      for i := 0 to |ss|
        modifies work, polys
        invariant ShapeLists(circles, rects, polygons, segments) == ShapeStaging(ss[..i])
      {
        assert ss[..i + 1][..i] == ss[..i];
        var s := ss[i];
        match s
        case CircleShape(_, _, _, _) =>
          circles := circles + [CircleShapeRecord(s)];
        case RectShape(_, _, _, _) =>
          rects := rects + [RectShapeRecord(s)];
        case PolygonShapeEntry(shape) =>
          var data, pool := shape.GetPolygonData(segments, work);
          polygons := polygons + [data];
          segments := pool;
        case OtherShape(_) =>
          // skipped with a warning
      }
      assert ss[..|ss|] == ss;
      shapeLists := ShapeLists(circles, rects, polygons, segments);
      shapesDirty := false;
    }

    /** `Update`: rebuild both staging lists every frame, whatever the
        dirty flags say, upload them to the renderer and render. */
    method Update()
      requires Valid() && PolygonsFit()
      modifies this, work, LightPolygons(), ShapePolygons()
      modifies renderer, renderer.LightFootprint(), renderer.ShapeFootprint()
      ensures Valid()
      ensures lights == old(lights) && shapes == old(shapes)
      ensures lightLists == LightStaging(lights) && shapeLists == ShapeStaging(shapes)
      ensures !lightsDirty && !shapesDirty
      ensures LightsHeld(renderer.lights, lightLists) && ShapesHeld(renderer.shapes, shapeLists)
      ensures renderer.lightCount == |lightLists.points| + |lightLists.spots| + |lightLists.polygons|
      ensures renderer.shapeCount == |shapeLists.circles| + |shapeLists.rects| + |shapeLists.polygons|
      ensures renderer.rayCountMax == RayCountMax(renderer.width, renderer.height, renderer.lightCount)
      ensures renderer.pixelsPerBatch == PixelsPerBatch(renderer.lightCount)
      ensures renderer.rayBatchCount == BatchCount(renderer.Pixels(), renderer.pixelsPerBatch)
      ensures renderer.rayCountMax == 0 ==> renderer.executed == old(renderer.executed)
      ensures renderer.rayCountMax != 0 ==>
                renderer.executed == old(renderer.executed)
                  + [Renderer.CommandList(renderer.width, renderer.height, renderer.pixelsPerBatch, renderer.rayBatchCount)]
    {
      SystemOutside(this, renderer.lights, renderer.shapes);
      Rebuild();
      Present(lightLists, shapeLists);
    }

    /** The two rebuilds `Update` starts with. */
    method Rebuild()
      requires Valid() && PolygonsFit()
      modifies this, work, LightPolygons(), ShapePolygons()
      ensures Valid()
      ensures lights == old(lights) && shapes == old(shapes)
      ensures lightLists == LightStaging(lights) && shapeLists == ShapeStaging(shapes)
      ensures !lightsDirty && !shapesDirty
    {
      RebuildLightBuffers();
      RebuildShapeBuffers();
    }

    /** The renderer half of `Update`: both uploads, then `Render`. */
    method Present(l: LightLists, s: ShapeLists)
      requires renderer.Valid()
      modifies renderer, renderer.LightFootprint(), renderer.ShapeFootprint()
      ensures renderer.Valid()
      ensures LightsHeld(renderer.lights, l) && ShapesHeld(renderer.shapes, s)
      ensures renderer.lightCount == |l.points| + |l.spots| + |l.polygons|
      ensures renderer.shapeCount == |s.circles| + |s.rects| + |s.polygons|
      ensures renderer.rayCountMax == RayCountMax(renderer.width, renderer.height, renderer.lightCount)
      ensures renderer.pixelsPerBatch == PixelsPerBatch(renderer.lightCount)
      ensures renderer.rayBatchCount == BatchCount(renderer.Pixels(), renderer.pixelsPerBatch)
      ensures renderer.rayCountMax == 0 ==> renderer.executed == old(renderer.executed)
      ensures renderer.rayCountMax != 0 ==>
                renderer.executed == old(renderer.executed)
                  + [Renderer.CommandList(renderer.width, renderer.height, renderer.pixelsPerBatch, renderer.rayBatchCount)]
    {
      renderer.UpdateLightBuffers(l.points, l.spots, l.polygons, l.segments);
      ghost var n, rays, ppb, batches := renderer.lightCount, renderer.rayCountMax, renderer.pixelsPerBatch, renderer.rayBatchCount;
      PresentShapes(l, s);
      assert renderer.lightCount == n && renderer.rayCountMax == rays;
      assert renderer.pixelsPerBatch == ppb && renderer.rayBatchCount == batches;
    }

    /** `UpdateShapeBuffers` and `Render`, which leave the light buffers
        as they are. */
    method PresentShapes(l: LightLists, s: ShapeLists)
      requires renderer.Valid() && LightsHeld(renderer.lights, l)
      requires renderer.lightCount == |l.points| + |l.spots| + |l.polygons|
      modifies renderer, renderer.ShapeFootprint()
      ensures renderer.Valid()
      ensures LightsHeld(renderer.lights, l) && ShapesHeld(renderer.shapes, s)
      ensures renderer.lightCount == |l.points| + |l.spots| + |l.polygons|
      ensures renderer.shapeCount == |s.circles| + |s.rects| + |s.polygons|
      ensures renderer.rayCountMax == old(renderer.rayCountMax)
      ensures renderer.pixelsPerBatch == old(renderer.pixelsPerBatch)
      ensures renderer.rayBatchCount == old(renderer.rayBatchCount)
      ensures renderer.rayCountMax == 0 ==> renderer.executed == old(renderer.executed)
      ensures renderer.rayCountMax != 0 ==>
                renderer.executed == old(renderer.executed)
                  + [Renderer.CommandList(renderer.width, renderer.height, renderer.pixelsPerBatch, renderer.rayBatchCount)]
    {
      Renderer.BuffersApart(renderer.lights, renderer.shapes);
      renderer.UpdateShapeBuffers(s.circles, s.rects, s.polygons, s.segments);
      renderer.Render();
    }
  }
}
