/** The flat records uploaded to the GPU (the `[StructLayout(Sequential)]`
    structs of the renderer). They carry no behaviour; `uint` fields that
    hold counts are `nat`, and the `Enabled` words are 1 or 0. */
module Records {
  import opened Geometry

  /** The `enabled ? 1u : 0` conversion every record constructor performs. */
  function EnabledFlag(enabled: bool): (flag: nat)
    ensures flag <= 1
    ensures flag == 1 <==> enabled
  {
    if enabled then 1 else 0
  }

  datatype Segment = Segment(a: Vec2, b: Vec2)

  datatype PointLightData = PointLightData(position: Vec2, color: Rgb, range: real, enabled: nat)

  /** The cone bounds are unit vectors computed with trigonometry by the
      light component; here they are carried as given. */
  datatype SpotLightData = SpotLightData(position: Vec2, color: Rgb, range: real,
                                         coneMin: Vec2, coneMax: Vec2, enabled: nat)

  datatype PolygonLightData = PolygonLightData(color: Rgb, range: real, offset: nat, length: nat, enabled: nat)

  datatype CircleShapeData = CircleShapeData(position: Vec2, radius: real, enabled: nat)

  datatype RectShapeData = RectShapeData(position: Vec2, extents: Vec2, enabled: nat)

  datatype PolygonShapeData = PolygonShapeData(offset: nat, length: nat, enabled: nat)

  /** A segment range without an enabled flag, as used by the polygon test. */
  datatype Polygon = Polygon(offset: nat, length: nat)

  /** The zero-filled values C#'s `default` gives each record; a buffer for
      an empty list holds one of these. */
  const DefaultPointLight: PointLightData := PointLightData(Zero, Rgb(0.0, 0.0, 0.0), 0.0, 0)
  const DefaultSpotLight: SpotLightData := SpotLightData(Zero, Rgb(0.0, 0.0, 0.0), 0.0, Zero, Zero, 0)
  const DefaultPolygonLight: PolygonLightData := PolygonLightData(Rgb(0.0, 0.0, 0.0), 0.0, 0, 0, 0)
  const DefaultSegment: Segment := Segment(Zero, Zero)
  const DefaultCircleShape: CircleShapeData := CircleShapeData(Zero, 0.0, 0)
  const DefaultRectShape: RectShapeData := RectShapeData(Zero, Zero, 0)
  const DefaultPolygonShape: PolygonShapeData := PolygonShapeData(0, 0, 0)
}
