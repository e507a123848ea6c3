/** The segment projection helpers of the polygon test: the clamped
    projection of a point onto a segment, and the nearest such projection
    over a polygon's range of a fixed three-segment table. Distances are
    compared squared, which orders them as the source's magnitudes do. */
module SegmentProjection {
  import opened Common
  import opened Geometry
  import opened Records

  /** The static segment table: a triangle with corners (2.5, 2.5),
      (5, 5) and (7.5, 2.5). */
  const TestSegments: seq<Segment> := [
    Segment(Vec2(2.5, 2.5), Vec2(5.0, 5.0)),
    Segment(Vec2(5.0, 5.0), Vec2(7.5, 2.5)),
    Segment(Vec2(7.5, 2.5), Vec2(2.5, 2.5))
  ]

  /** The static polygon: all three segments of the table. */
  const TestPolygon: Polygon := Polygon(0, 3)

  /** A segment of positive squared length: projecting onto it divides by
      that length. */
  predicate Proper(s: Segment) { Dot(Sub(s.b, s.a), Sub(s.b, s.a)) > 0.0 }

  predicate AllProper(segs: seq<Segment>)
  {
    forall i :: 0 <= i < |segs| ==> Proper(segs[i])
  }

  lemma TestSegmentsProper()
    ensures AllProper(TestSegments)
  {
    assert Proper(TestSegments[0]) && Proper(TestSegments[1]) && Proper(TestSegments[2]);
  }

  /** `Mathf.Clamp01`. */
  function Clamp01(x: real): (r: real)
    ensures 0.0 <= r <= 1.0
    ensures 0.0 <= x <= 1.0 ==> r == x
    ensures x < 0.0 ==> r == 0.0
    ensures x > 1.0 ==> r == 1.0
  {
    if x < 0.0 then 0.0 else if x > 1.0 then 1.0 else x
  }

  /** The point at parameter `t` of the line through `s`. */
  function At(s: Segment, t: real): Vec2
  {
    Add(s.a, Scale(t, Sub(s.b, s.a)))
  }

  /** `PositionAlongSegment`: the parameter of `p`'s orthogonal projection
      onto the line through `s`. */
  function PositionAlongSegment(s: Segment, p: Vec2): real
    requires Proper(s)
  {
    Dot(Sub(p, s.a), Sub(s.b, s.a)) / Dot(Sub(s.b, s.a), Sub(s.b, s.a))
  }

  /** `PointAlongSegment`: the point at the clamped parameter, which lies
      on the segment; a parameter at or below 0 gives the start and one at
      or above 1 gives the end. */
  function PointAlongSegment(s: Segment, sigma: real): (r: Vec2)
    ensures OnSegment(r, s)
    ensures sigma <= 0.0 ==> r == s.a
    ensures sigma >= 1.0 ==> r == s.b
  {
    AtEnds(s);
    var c := Clamp01(sigma);
    assert sigma <= 0.0 ==> c == 0.0;
    assert sigma >= 1.0 ==> c == 1.0;
    var r := At(s, c);
    assert 0.0 <= c <= 1.0 && r == At(s, c);
    r
  }

  /** Parameter 0 is the start of the segment and parameter 1 its end. */
  lemma AtEnds(s: Segment)
    ensures At(s, 0.0) == s.a && At(s, 1.0) == s.b
  {
    var e := Sub(s.b, s.a);
    assert Scale(0.0, e) == Vec2(0.0, 0.0);
    assert Scale(1.0, e) == e;
    assert Add(s.a, e) == s.b;
  }

  /** `q` lies on the closed segment `s`. */
  ghost predicate OnSegment(q: Vec2, s: Segment)
  {
    exists t :: 0.0 <= t <= 1.0 && q == At(s, t)
  }

  /** The projection parameter of the start is 0 and that of the end is 1. */
  lemma PositionAtEnds(s: Segment)
    requires Proper(s)
    ensures PositionAlongSegment(s, s.a) == 0.0
    ensures PositionAlongSegment(s, s.b) == 1.0
  {
    assert Sub(s.a, s.a) == Zero;
    var e := Sub(s.b, s.a);
    assert Dot(e, e) / Dot(e, e) == 1.0;
  }

  /** The clamped projection of `p` onto `s`. */
  function Projection(s: Segment, p: Vec2): Vec2
    requires Proper(s)
  {
    PointAlongSegment(s, PositionAlongSegment(s, p))
  }

  /** The squared distance from `p` to its projection onto `s`. */
  function Dist(s: Segment, p: Vec2): real
    requires Proper(s)
  {
    SqrDist(p, Projection(s, p))
  }

  /** The squared distance to the point at parameter `t`, expanded. */
  lemma SqrDistAt(s: Segment, p: Vec2, t: real)
    ensures var w, e := Sub(p, s.a), Sub(s.b, s.a);
            SqrDist(p, At(s, t)) == Dot(w, w) - 2.0 * t * Dot(w, e) + t * t * Dot(e, e)
  {
    var w, e := Sub(p, s.a), Sub(s.b, s.a);
    var d := Sub(p, At(s, t));
    assert d == Vec2(w.x - t * e.x, w.y - t * e.y);
    assert d.x * d.x == w.x * w.x - 2.0 * t * w.x * e.x + t * t * (e.x * e.x);
    assert d.y * d.y == w.y * w.y - 2.0 * t * w.y * e.y + t * t * (e.y * e.y);
  }

  lemma MulNonneg(x: real, y: real)
    requires (x >= 0.0 && y >= 0.0) || (x <= 0.0 && y <= 0.0)
    ensures x * y >= 0.0
  {}

  /** Left of the interval (`W <= 0`) the parabola is smallest at 0. */
  lemma LeastAtStart(W: real, E: real, t: real)
    requires E > 0.0 && W <= 0.0 && 0.0 <= t <= 1.0
    ensures t * t * E - 2.0 * t * W >= 0.0
  {
    MulNonneg(t, t);
    MulNonneg(t * t, E);
    MulNonneg(t, -W);
    assert t * (-W) == -(t * W);
  }

  /** Right of the interval (`W >= E`) the parabola is smallest at 1. */
  lemma LeastAtEnd(W: real, E: real, t: real)
    requires E > 0.0 && W >= E && 0.0 <= t <= 1.0
    ensures t * t * E - 2.0 * t * W >= E - 2.0 * W
  {
    assert t * t * E - 2.0 * t * W - (E - 2.0 * W) == (t - 1.0) * ((t + 1.0) * E - 2.0 * W);
    MulNonneg(1.0 - t, E);
    assert (t + 1.0) * E == 2.0 * E - (1.0 - t) * E;
    MulNonneg(t - 1.0, (t + 1.0) * E - 2.0 * W);
  }

  /** With its vertex `v` inside the interval the parabola is smallest at `v`. */
  lemma LeastAtVertex(v: real, E: real, t: real)
    requires E > 0.0
    ensures t * t * E - 2.0 * t * (v * E) >= v * v * E - 2.0 * v * (v * E)
  {
    assert t * t * E - 2.0 * t * (v * E) - (v * v * E - 2.0 * v * (v * E)) == (t - v) * (t - v) * E;
    MulNonneg(t - v, t - v);
    MulNonneg((t - v) * (t - v), E);
  }

  /** On [0, 1] the parabola `t*t*E - 2*t*W` is smallest at the clamped
      vertex `Clamp01(W / E)`. */
  lemma ClampedVertexIsLeast(W: real, E: real, t: real)
    requires E > 0.0 && 0.0 <= t <= 1.0
    ensures var c := Clamp01(W / E);
            t * t * E - 2.0 * t * W >= c * c * E - 2.0 * c * W
  {
    var v := W / E;
    assert v * E == W;
    if v < 0.0 {
      MulNonneg(-v, E);
      assert (-v) * E == -W;
      LeastAtStart(W, E, t);
    } else if v > 1.0 {
      MulNonneg(v - 1.0, E);
      assert (v - 1.0) * E == W - E;
      LeastAtEnd(W, E, t);
    } else {
      LeastAtVertex(v, E, t);
    }
  }

  /** The clamped projection is the point of the segment nearest to `p`. */
  lemma {:induction false} ProjectionIsNearest(s: Segment, p: Vec2, t: real)
    requires Proper(s) && 0.0 <= t <= 1.0
    ensures Dist(s, p) <= SqrDist(p, At(s, t))
  {
    var w, e := Sub(p, s.a), Sub(s.b, s.a);
    var c := Clamp01(PositionAlongSegment(s, p));
    assert Projection(s, p) == At(s, c);
    SqrDistAt(s, p, t);
    SqrDistAt(s, p, c);
    ClampedVertexIsLeast(Dot(w, e), Dot(e, e), t);
  }

  // ------------------------------------------------ the scan of a polygon

  /** Each segment's candidate: its projection of `p` and the squared
      distance to it. */
  function Candidates(segs: seq<Segment>, p: Vec2): (cs: seq<(Vec2, real)>)
    requires AllProper(segs)
    ensures |cs| == |segs|
    ensures forall k :: 0 <= k < |segs| ==> cs[k] == (Projection(segs[k], p), Dist(segs[k], p))
  {
    seq(|segs|, k requires 0 <= k < |segs| => (Projection(segs[k], p), Dist(segs[k], p)))
  }

  /** The loop of `PointAlongPolygon` over the candidates: the nearest so
      far and its squared distance, `None` while `shortest` is still
      `float.MaxValue`. A later candidate replaces the current one only when
      strictly closer. */
  function Scan(cs: seq<(Vec2, real)>): Option<(Vec2, real)>
  {
    if cs == [] then None
    else
      var prev := Scan(cs[..|cs| - 1]);
      var c := cs[|cs| - 1];
      if prev.None? || c.1 < prev.value.1 then Some(c) else prev
  }

  /** One more candidate: the scan of a longer prefix. */
  lemma ScanStep(cs: seq<(Vec2, real)>, k: nat)
    requires k < |cs|
    ensures Scan(cs[..k + 1]) ==
              var prev := Scan(cs[..k]);
              if prev.None? || cs[k].1 < prev.value.1 then Some(cs[k]) else prev
  {
    assert cs[..k + 1][..k] == cs[..k];
  }

  /** What `PointAlongPolygon` returns for the segments `segs`. */
  function NearestPoint(segs: seq<Segment>, p: Vec2): Vec2
    requires AllProper(segs)
  {
    match Scan(Candidates(segs, p))
    case None => Zero
    case Some((q, _)) => q
  }

  /** Candidate `j` is at least as close as every candidate and strictly
      closer than every earlier one. */
  ghost predicate EarliestNearest(cs: seq<(Vec2, real)>, j: int)
  {
    0 <= j < |cs|
    && (forall i :: 0 <= i < j ==> cs[i].1 > cs[j].1)
    && (forall i :: 0 <= i < |cs| ==> cs[i].1 >= cs[j].1)
  }

  /** A last candidate no closer than the earliest nearest keeps it. */
  lemma KeepNearest(cs: seq<(Vec2, real)>, j: int)
    requires cs != [] && EarliestNearest(cs[..|cs| - 1], j)
    requires cs[|cs| - 1].1 >= cs[j].1
    ensures EarliestNearest(cs, j)
  {
    var n := |cs| - 1;
    assert forall i :: 0 <= i < n ==> cs[..n][i] == cs[i];
  }

  /** A last candidate strictly closer than the earliest nearest replaces it. */
  lemma NewNearest(cs: seq<(Vec2, real)>, j: int)
    requires cs != [] && EarliestNearest(cs[..|cs| - 1], j)
    requires cs[|cs| - 1].1 < cs[j].1
    ensures EarliestNearest(cs, |cs| - 1)
  {
    var n := |cs| - 1;
    assert forall i :: 0 <= i < n ==> cs[..n][i] == cs[i];
  }

  /** The scan picks a candidate `j` at least as close as every other and
      strictly closer than every earlier one: the earliest wins ties. Only
      an empty range gives nothing. */
  lemma {:induction false} ScanFindsEarliestNearest(cs: seq<(Vec2, real)>)
    ensures Scan(cs).None? <==> cs == []
    ensures Scan(cs).Some? ==> exists j :: EarliestNearest(cs, j) && Scan(cs).value == cs[j]
    decreases |cs|
  {
    if cs != [] {
      var n := |cs| - 1;
      var init := cs[..n];
      ScanFindsEarliestNearest(init);
      var prev := Scan(init);
      assert Scan(cs) == if prev.None? || cs[n].1 < prev.value.1 then Some(cs[n]) else prev;
      if prev.None? {
        assert n == 0;
        assert EarliestNearest(cs, 0);
      } else {
        var j :| EarliestNearest(init, j) && prev.value == init[j];
        assert init[j] == cs[j];
        if cs[n].1 < prev.value.1 {
          NewNearest(cs, j);
          assert EarliestNearest(cs, n) && Scan(cs).value == cs[n];
        } else {
          KeepNearest(cs, j);
          assert EarliestNearest(cs, j) && Scan(cs).value == cs[j];
        }
      }
    }
  }

  /** So the returned point is the nearest point of the polygon's outline:
      no point of any segment in the range is closer to `p`. */
  lemma NearestOnOutline(segs: seq<Segment>, p: Vec2, i: nat, t: real)
    requires AllProper(segs) && i < |segs| && 0.0 <= t <= 1.0
    ensures SqrDist(p, NearestPoint(segs, p)) <= SqrDist(p, At(segs[i], t))
  {
    var cs := Candidates(segs, p);
    ScanFindsEarliestNearest(cs);
    var j :| EarliestNearest(cs, j) && Scan(cs).value == cs[j];
    assert NearestPoint(segs, p) == Projection(segs[j], p);
    assert cs[i].1 >= cs[j].1;
    ProjectionIsNearest(segs[i], p, t);
  }

  /** One iteration of `PointAlongPolygon` at table index `i` extends the
      scan by that segment's candidate. */
  lemma PolygonScanStep(poly: Polygon, p: Vec2, i: int)
    requires poly.offset <= i < poly.offset + poly.length <= |TestSegments|
    requires AllProper(TestSegments)
    ensures var segs := TestSegments[poly.offset .. poly.offset + poly.length];
            var cs := Candidates(segs, p);
            var seg := TestSegments[i];
            var q := PointAlongSegment(seg, PositionAlongSegment(seg, p));
            var prev := Scan(cs[..i - poly.offset]);
            Scan(cs[..i - poly.offset + 1])
              == if prev.None? || SqrDist(p, q) < prev.value.1 then Some((q, SqrDist(p, q))) else prev
  {
    var segs := TestSegments[poly.offset .. poly.offset + poly.length];
    var cs := Candidates(segs, p);
    var k := i - poly.offset;
    assert segs[k] == TestSegments[i];
    ScanStep(cs, k);
  }

  /** `PointAlongPolygon`: scan the polygon's segments of the static table
      and return the nearest projection, or the zero vector when the range
      is empty. */
  method PointAlongPolygon(poly: Polygon, p: Vec2) returns (nearest: Vec2)
    requires poly.offset + poly.length <= |TestSegments|
    ensures AllProper(TestSegments[poly.offset .. poly.offset + poly.length])
    ensures nearest == NearestPoint(TestSegments[poly.offset .. poly.offset + poly.length], p)
  {
    TestSegmentsProper();
    ghost var segs := TestSegments[poly.offset .. poly.offset + poly.length];
    ghost var cs := Candidates(segs, p);
    nearest := Zero;
    var shortest: Option<real> := None;
    for i := poly.offset to poly.offset + poly.length
      invariant Scan(cs[..i - poly.offset]) == if shortest.None? then None else Some((nearest, shortest.value))
      invariant shortest.None? ==> nearest == Zero
    {
      var segment := TestSegments[i];
      var sigma := PositionAlongSegment(segment, p);
      var point := PointAlongSegment(segment, sigma);
      var dist := SqrDist(p, point);
      PolygonScanStep(poly, p, i);
      if shortest.None? || dist < shortest.value {
        nearest := point;
        shortest := Some(dist);
      }
    }
    assert cs[..|cs|] == cs;
  }
}
