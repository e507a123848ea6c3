/** Unity's `Vector2` and the colour triple, with coordinates as exact reals. */
module Geometry {

  datatype Vec2 = Vec2(x: real, y: real)

  /** The RGB part of a Unity `Color`, as stored in the GPU records (`Vector3`). */
  datatype Rgb = Rgb(r: real, g: real, b: real)

  const Zero: Vec2 := Vec2(0.0, 0.0)

  function Add(a: Vec2, b: Vec2): Vec2 { Vec2(a.x + b.x, a.y + b.y) }

  function Sub(a: Vec2, b: Vec2): Vec2 { Vec2(a.x - b.x, a.y - b.y) }

  function Scale(k: real, a: Vec2): Vec2 { Vec2(k * a.x, k * a.y) }

  function Dot(a: Vec2, b: Vec2): real { a.x * b.x + a.y * b.y }

  /** The z component of the 3D cross product of `a` and `b`. */
  function Cross(a: Vec2, b: Vec2): real { a.x * b.y - a.y * b.x }

  /** `(b - a).sqrMagnitude`. */
  function SqrDist(a: Vec2, b: Vec2): real { Dot(Sub(a, b), Sub(a, b)) }

  function ScaleRgb(c: Rgb, k: real): Rgb { Rgb(c.r * k, c.g * k, c.b * k) }

  lemma CrossAntisymmetric(a: Vec2, b: Vec2)
    ensures Cross(a, b) == -Cross(b, a)
  {}
}
