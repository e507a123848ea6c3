/** The polygon shape component: it triangulates its outline and hands the
    renderer three edge segments per triangle, appended to a shared segment
    pool, together with the (offset, length) record that addresses them. */
module PolygonShapes {
  import opened Geometry
  import opened Records
  import opened Triangulate

  /** The three edges of the triangle (a, b, c), each endpoint moved by the
      origin `o`: a->b, b->c, c->a. */
  function TriangleSides(a: Vec2, b: Vec2, c: Vec2, o: Vec2): seq<Segment>
  {
    [Segment(Add(o, a), Add(o, b)), Segment(Add(o, b), Add(o, c)), Segment(Add(o, c), Add(o, a))]
  }

  /** The segments produced for a flat triangle list, triangle by triangle. */
  function TriangleEdges(t: seq<Vec2>, o: Vec2): (e: seq<Segment>)
    ensures |e| == |t| - |t| % 3
    decreases |t|
  {
    if |t| < 3 then [] else TriangleSides(t[0], t[1], t[2], o) + TriangleEdges(t[3..], o)
  }

  /** Position of the corner that the edge starting at corner `k` ends at. */
  function NextCorner(k: nat): nat
  {
    if k % 3 == 2 then k - 2 else k + 1
  }

  /** Edge `k` runs from corner `k` to the next corner of the same
      triangle, both shifted by the origin. */
  lemma {:induction false} TriangleEdgesAt(t: seq<Vec2>, o: Vec2, k: nat)
    requires |t| % 3 == 0 && k < |t|
    ensures NextCorner(k) < |t| && NextCorner(k) / 3 == k / 3
    ensures TriangleEdges(t, o)[k] == Segment(Add(o, t[k]), Add(o, t[NextCorner(k)]))
    decreases |t|
  {
    if k >= 3 {
      TriangleEdgesAt(t[3..], o, k - 3);
      assert (k - 3) % 3 == k % 3 && (k - 3) / 3 == k / 3 - 1;
      assert NextCorner(k) == NextCorner(k - 3) + 3;
    }
  }

  /** Extending a triangle-aligned prefix by one triangle appends its sides. */
  lemma {:induction false} TriangleEdgesSnoc(t: seq<Vec2>, i: nat, o: Vec2)
    requires i % 3 == 0 && i + 3 <= |t|
    ensures TriangleEdges(t[..i + 3], o)
            == TriangleEdges(t[..i], o) + TriangleSides(t[i], t[i + 1], t[i + 2], o)
    decreases i
  {
    if i == 0 {
      assert t[..3][3..] == [];
    } else {
      var s := t[3..];
      assert t[..i + 3][3..] == s[..i];
      assert t[..i][3..] == s[..i - 3];
      assert s[i - 3] == t[i] && s[i - 2] == t[i + 1] && s[i - 1] == t[i + 2];
      TriangleEdgesSnoc(s, i - 3, o);
      var head := TriangleSides(t[0], t[1], t[2], o);
      assert TriangleEdges(t[..i + 3], o) == head + TriangleEdges(s[..i], o);
      assert TriangleEdges(t[..i], o) == head + TriangleEdges(s[..i - 3], o);
    }
  }

  /** A `VektorPolygonShape` component: its outline, its transform's
      position and enabled state (fixed while it is registered), and the
      triangle list it keeps between calls. */
  class PolygonShape {
    const vertices: seq<Vec2>
    const position: Vec2
    const enabled: bool
    var triangulated: seq<Vec2>

    /** `Awake`: triangulate the outline once into a fresh list. */
    constructor (vertices: seq<Vec2>, position: Vec2, enabled: bool, work: array<int>)
      requires work.Length == WorkBufferSize && |vertices| <= WorkBufferSize
      modifies work
      ensures this.vertices == vertices && this.position == position && this.enabled == enabled
      ensures triangulated == Triangulation(vertices).1
    {
      this.vertices := vertices;
      this.position := position;
      this.enabled := enabled;
      var _, t := Process(vertices, [], work);
      triangulated := t;
    }

    /** `GetPolygonData`: re-triangulate into the cleared list (whatever
        `Process` returns), append the triangles' edges to `pool` and
        describe the appended range. */
    method GetPolygonData(pool: seq<Segment>, work: array<int>) returns (data: PolygonShapeData, pool': seq<Segment>)
      requires work.Length == WorkBufferSize && |vertices| <= WorkBufferSize
      modifies this, work
      ensures triangulated == Triangulation(vertices).1
      ensures pool' == pool + TriangleEdges(triangulated, position)
      ensures data == PolygonShapeData(|pool|, |triangulated|, EnabledFlag(enabled))
      ensures data.offset + data.length == |pool'|
    {
      triangulated := [];
      var _, t := Process(vertices, triangulated, work);
      triangulated := t;
      TriangulationCount(vertices);
      var offset := |pool|;
      var written;
      pool', written := CopySegments(pool);
      data := PolygonShapeData(offset, written, EnabledFlag(enabled));
    }

    /** `CopySegments`: one pass over the triangle list, three segments
        per triangle, appended to `dest`. */
    method CopySegments(dest: seq<Segment>) returns (dest': seq<Segment>, written: nat)
      requires |triangulated| % 3 == 0
      ensures dest' == dest + TriangleEdges(triangulated, position)
      ensures written == |triangulated| == |dest'| - |dest|
    {
      var t := triangulated;
      dest' := dest;
      written := 0;
      var i := 0;
      while i < |t| - 1
        invariant 0 <= i <= |t| && i % 3 == 0
        invariant written == i
        invariant dest' == dest + TriangleEdges(t[..i], position)
      {
        var origin := position;
        TriangleEdgesSnoc(t, i, origin);
        dest' := dest' + [Segment(Add(origin, t[i]), Add(origin, t[i + 1]))];
        dest' := dest' + [Segment(Add(origin, t[i + 1]), Add(origin, t[i + 2]))];
        dest' := dest' + [Segment(Add(origin, t[i + 2]), Add(origin, t[i]))];
        written := written + 3;
        i := i + 3;
      }
      assert t[..i] == t;
    }
  }
}
