/** Ear-clipping triangulation of a simple polygon without holes
    (Assets/VektorLighting2D/Source/Triangulate.cs, after the flipcode
    "Efficient Polygon Triangulation" routine).

    `Process` works imperatively on the static 1024-entry index buffer, as the
    source does; its result is proved equal to the pure recursive
    specification `Triangulation`, about which the promised properties
    (triangle count, every point a contour vertex, positive orientation,
    termination) are proved as lemmas. */
module Triangulate {
  import opened Geometry

  /** Length of the static `_triangleBuffer` work array. */
  const WorkBufferSize: nat := 1024

  // ---------------------------------------------------------------- area

  /** Twice the signed area accumulated by `Area`'s loop after the first `q`
      terms: term `q` is `contour[p] x contour[q]` with `p` the previous
      vertex, wrapping to the last vertex for `q == 0`. */
  function ShoelaceSum(c: seq<Vec2>, q: nat): real
    requires q <= |c|
  {
    if q == 0 then 0.0
    else ShoelaceSum(c, q - 1) + Cross(c[if q - 1 == 0 then |c| - 1 else q - 2], c[q - 1])
  }

  /** `Area(contour)`: half the shoelace sum over all vertices. */
  function Area(c: seq<Vec2>): real
  {
    ShoelaceSum(c, |c|) * 0.5
  }

  /** Sum of `c[k] x c[k+1]` along the open chain `c`. */
  function Chain(c: seq<Vec2>): real
  {
    if |c| < 2 then 0.0 else Cross(c[0], c[1]) + Chain(c[1..])
  }

  function Reversed<T>(s: seq<T>): (r: seq<T>)
    ensures |r| == |s|
  {
    if s == [] then [] else Reversed(s[1..]) + [s[0]]
  }

  lemma {:induction false} ReversedAt<T>(s: seq<T>, k: nat)
    requires k < |s|
    ensures Reversed(s)[k] == s[|s| - 1 - k]
  {
    if k < |s| - 1 {
      ReversedAt(s[1..], k);
    }
  }

  lemma {:induction false} ChainSnoc(s: seq<Vec2>, x: Vec2)
    requires |s| >= 1
    ensures Chain(s + [x]) == Chain(s) + Cross(s[|s| - 1], x)
  {
    if |s| >= 2 {
      assert (s + [x])[1..] == s[1..] + [x];
      ChainSnoc(s[1..], x);
    }
  }

  lemma {:induction false} ChainReversed(s: seq<Vec2>)
    ensures Chain(Reversed(s)) == -Chain(s)
  {
    if |s| >= 2 {
      var t := s[1..];
      ChainReversed(t);
      ReversedAt(t, |t| - 1);
      ChainSnoc(Reversed(t), s[0]);
      CrossAntisymmetric(t[0], s[0]);
    }
  }

  /** The accumulator loop of `Area` is the closing edge plus the open chain. */
  lemma {:induction false} ShoelaceSumIsClosedChain(c: seq<Vec2>, q: nat)
    requires 1 <= q <= |c|
    ensures ShoelaceSum(c, q) == Cross(c[|c| - 1], c[0]) + Chain(c[..q])
  {
    if q > 1 {
      ShoelaceSumIsClosedChain(c, q - 1);
      assert c[..q] == c[..q - 1] + [c[q - 1]];
      ChainSnoc(c[..q - 1], c[q - 1]);
    }
  }

  /** Reversing the contour negates its signed area: this is why `Process`
      can fix the winding by reading the vertices backwards. */
  lemma AreaReversed(c: seq<Vec2>)
    ensures Area(Reversed(c)) == -Area(c)
  {
    if |c| > 0 {
      var r := Reversed(c);
      ShoelaceSumIsClosedChain(c, |c|);
      ShoelaceSumIsClosedChain(r, |r|);
      assert c[..|c|] == c;
      assert r[..|r|] == r;
      ChainReversed(c);
      ReversedAt(c, 0);
      ReversedAt(c, |c| - 1);
      CrossAntisymmetric(c[0], c[|c| - 1]);
    }
  }

  // ---------------------------------------------------------- triangles

  /** `(b - a) x (c - a)`: positive when a, b, c turn counter-clockwise. */
  function Turn(a: Vec2, b: Vec2, c: Vec2): real
  {
    Cross(Sub(b, a), Sub(c, a))
  }

  /** `InsideTriangle`: `p` is on the inner side of, or on, all three edges
      of triangle (a, b, c). The test is inclusive. */
  predicate InsideTriangle(a: Vec2, b: Vec2, c: Vec2, p: Vec2)
  {
    && Cross(Sub(c, b), Sub(p, b)) >= 0.0
    && Cross(Sub(a, c), Sub(p, c)) >= 0.0
    && Cross(Sub(b, a), Sub(p, a)) >= 0.0
  }

  /** The three edge tests of `InsideTriangle` always add up to the
      triangle's turn, whatever the point. */
  lemma EdgeTestsSum(a: Vec2, b: Vec2, c: Vec2, p: Vec2)
    ensures Cross(Sub(c, b), Sub(p, b)) + Cross(Sub(a, c), Sub(p, c)) + Cross(Sub(b, a), Sub(p, a))
            == Turn(a, b, c)
  {}

  /** So only a counter-clockwise (or degenerate) triangle can contain a
      point, and such a triangle contains its own corners. */
  lemma InsideTriangleOrientation(a: Vec2, b: Vec2, c: Vec2, p: Vec2)
    ensures InsideTriangle(a, b, c, p) ==> Turn(a, b, c) >= 0.0
    ensures Turn(a, b, c) >= 0.0 ==>
              InsideTriangle(a, b, c, a) && InsideTriangle(a, b, c, b) && InsideTriangle(a, b, c, c)
  {
    EdgeTestsSum(a, b, c, p);
    EdgeTestsSum(a, b, c, a);
    EdgeTestsSum(a, b, c, b);
    EdgeTestsSum(a, b, c, c);
  }

  /** A triangle with a positive turn has three distinct corners. */
  lemma PositiveTurnDistinct(a: Vec2, b: Vec2, c: Vec2)
    requires Turn(a, b, c) > 0.0
    ensures a != b && b != c && a != c
  {}

  // ------------------------------------------------------ working list

  /** Every entry of the working list is a valid contour index. */
  ghost predicate IndicesIn(L: seq<int>, n: nat)
  {
    forall i :: 0 <= i < |L| ==> 0 <= L[i] < n
  }

  /** The working list is strictly increasing (counter-clockwise contour)
      or strictly decreasing (otherwise): duplicate-free, in contour order. */
  ghost predicate Ordered(L: seq<int>, ccw: bool)
    decreases |L|
  {
    |L| < 2 || ((if ccw then L[0] < L[1] else L[0] > L[1]) && Ordered(L[1..], ccw))
  }

  /** Neighbour order extends to any two positions. */
  lemma {:induction false} OrderedPair(L: seq<int>, ccw: bool, i: nat, j: nat)
    requires Ordered(L, ccw) && i < j < |L|
    ensures if ccw then L[i] < L[j] else L[i] > L[j]
    decreases |L|
  {
    if i > 0 {
      OrderedPair(L[1..], ccw, i - 1, j - 1);
    } else if j > 1 {
      OrderedPair(L[1..], ccw, 0, j - 1);
    }
  }

  lemma {:induction false} NeighboursOrdered(L: seq<int>, ccw: bool)
    requires forall k :: 0 <= k < |L| - 1 ==> if ccw then L[k] < L[k + 1] else L[k] > L[k + 1]
    ensures Ordered(L, ccw)
    decreases |L|
  {
    if |L| >= 2 {
      forall k | 0 <= k < |L[1..]| - 1
        ensures if ccw then L[1..][k] < L[1..][k + 1] else L[1..][k] > L[1..][k + 1]
      {
        assert L[1..][k] == L[k + 1] && L[1..][k + 1] == L[k + 2];
      }
      NeighboursOrdered(L[1..], ccw);
    }
  }

  /** The working list `Process` starts from: 0..n-1 when the signed area is
      positive, n-1..0 otherwise. */
  function InitialList(c: seq<Vec2>): (L: seq<int>)
    ensures |L| == |c|
    ensures IndicesIn(L, |c|) && Ordered(L, 0.0 < Area(c))
  {
    var ccw := 0.0 < Area(c);
    var L := if ccw then seq(|c|, i requires 0 <= i < |c| => i)
             else seq(|c|, i requires 0 <= i < |c| => |c| - 1 - i);
    NeighboursOrdered(L, ccw);
    L
  }

  /** Removing position `i` shifts the tail one place left. */
  function RemoveAt(L: seq<int>, i: nat): (r: seq<int>)
    requires i < |L|
    ensures |r| == |L| - 1
    ensures forall k :: 0 <= k < i ==> r[k] == L[k]
    ensures forall k :: i <= k < |r| ==> r[k] == L[k + 1]
  {
    L[..i] + L[i + 1..]
  }

  /** Removing an entry keeps the working list duplicate-free, in the same
      relative order, and the removed index is gone. */
  lemma RemoveAtKeepsOrder(L: seq<int>, i: nat, n: nat, ccw: bool)
    requires i < |L| && IndicesIn(L, n) && Ordered(L, ccw)
    ensures IndicesIn(RemoveAt(L, i), n) && Ordered(RemoveAt(L, i), ccw)
    ensures L[i] !in RemoveAt(L, i)
  {
    var r := RemoveAt(L, i);
    forall k | 0 <= k < |r| ensures r[k] != L[i] {
      if k < i { OrderedPair(L, ccw, k, i); } else { OrderedPair(L, ccw, i, k + 1); }
    }
    RemoveAtOrdered(L, i, ccw);
  }

  lemma {:induction false} RemoveAtOrdered(L: seq<int>, i: nat, ccw: bool)
    requires i < |L| && Ordered(L, ccw)
    ensures Ordered(RemoveAt(L, i), ccw)
    decreases |L|
  {
    var r := RemoveAt(L, i);
    if i == 0 {
      assert r == L[1..];
    } else {
      var t := RemoveAt(L[1..], i - 1);
      assert r == [L[0]] + t;
      RemoveAtOrdered(L[1..], i - 1, ccw);
      if |r| >= 2 {
        OrderedPair(L, ccw, 0, if i == 1 then 2 else 1);
        assert r[1..] == t;
      }
    }
  }

  /** Positions (u, v, w) examined next, from the previous `v`: three
      cyclically consecutive, distinct positions of the working list. */
  function EarPositions(nv: nat, v: nat): (p: (nat, nat, nat))
    requires 3 <= nv && v <= nv
    ensures p.0 < nv && p.1 < nv && p.2 < nv
    ensures p.1 == (if p.0 + 1 == nv then 0 else p.0 + 1)
    ensures p.2 == (if p.1 + 1 == nv then 0 else p.1 + 1)
    ensures p.0 != p.1 && p.1 != p.2 && p.0 != p.2
  {
    var u := if nv <= v then 0 else v;
    var v' := if nv <= u + 1 then 0 else u + 1;
    var w := if nv <= v' + 1 then 0 else v' + 1;
    (u, v', w)
  }

  /** No remaining vertex at a position below `k`, other than u, v, w,
      lies in or on the triangle at positions (u, v, w). */
  ghost predicate NoneInside(c: seq<Vec2>, L: seq<int>, u: nat, v: nat, w: nat, k: nat)
    requires u < |L| && v < |L| && w < |L| && k <= |L| && IndicesIn(L, |c|)
  {
    k == 0 ||
    (&& NoneInside(c, L, u, v, w, k - 1)
     && (k - 1 == u || k - 1 == v || k - 1 == w
         || !InsideTriangle(c[L[u]], c[L[v]], c[L[w]], c[L[k - 1]])))
  }

  /** What `Snip` decides: the corners at positions u, v, w turn strictly
      counter-clockwise (`float.Epsilon` is read as "greater than zero") and
      no other remaining vertex lies in or on the triangle. */
  ghost predicate IsEar(c: seq<Vec2>, L: seq<int>, u: nat, v: nat, w: nat)
    requires u < |L| && v < |L| && w < |L| && IndicesIn(L, |c|)
  {
    Turn(c[L[u]], c[L[v]], c[L[w]]) > 0.0 && NoneInside(c, L, u, v, w, |L|)
  }

  /** `NoneInside` says what it promises: no other vertex is in the triangle. */
  lemma {:induction false} NoneInsideMeans(c: seq<Vec2>, L: seq<int>, u: nat, v: nat, w: nat, k: nat)
    requires u < |L| && v < |L| && w < |L| && k <= |L| && IndicesIn(L, |c|)
    ensures NoneInside(c, L, u, v, w, k) <==>
            forall p :: 0 <= p < k && p != u && p != v && p != w ==>
              !InsideTriangle(c[L[u]], c[L[v]], c[L[w]], c[L[p]])
  {
    if k > 0 {
      NoneInsideMeans(c, L, u, v, w, k - 1);
    }
  }

  /** `Snip`: the ear test, a read-only scan over the working list. */
  method Snip(contour: seq<Vec2>, u: nat, v: nat, w: nat, n: nat, verts: array<int>) returns (ear: bool)
    requires n <= verts.Length && u < n && v < n && w < n
    requires IndicesIn(verts[..n], |contour|)
    ensures ear == IsEar(contour, verts[..n], u, v, w)
  {
    ghost var L := verts[..n];
    assert L[u] == verts[u] && L[v] == verts[v] && L[w] == verts[w];
    var a := contour[verts[u]];
    var b := contour[verts[v]];
    var c := contour[verts[w]];
    if Turn(a, b, c) <= 0.0 {
      return false;
    }
    var p := 0;
    while p < n
      invariant 0 <= p <= n
      invariant NoneInside(contour, L, u, v, w, p)
    {
      if p != u && p != v && p != w {
        assert L[p] == verts[p];
        if InsideTriangle(a, b, c, contour[verts[p]]) {
          NoneInsideStops(contour, L, u, v, w, p + 1, n);
          return false;
        }
      }
      p := p + 1;
    }
    return true;
  }

  /** Once a vertex is found inside, no longer prefix is free of them. */
  lemma {:induction false} NoneInsideStops(c: seq<Vec2>, L: seq<int>, u: nat, v: nat, w: nat, k: nat, n: nat)
    requires u < |L| && v < |L| && w < |L| && k <= n <= |L| && IndicesIn(L, |c|)
    requires !NoneInside(c, L, u, v, w, k)
    ensures !NoneInside(c, L, u, v, w, n)
    decreases n - k
  {
    if k < n {
      NoneInsideStops(c, L, u, v, w, k + 1, n);
    }
  }

  /** The main loop of `Process` from a working list `L`, the previous
      position `v` and the remaining scan budget `count`: whether it ends
      normally, and the triangle corners it emits. Termination: each step
      removes an index or spends one unit of budget. */
  ghost function Clip(c: seq<Vec2>, L: seq<int>, v: nat, count: nat): (bool, seq<Vec2>)
    requires IndicesIn(L, |c|) && 2 <= |L| && v <= |L|
    decreases |L|, count
  {
    if |L| <= 2 then (true, [])
    else if count == 0 then (false, [])
    else
      var (u, v', w) := EarPositions(|L|, v);
      if IsEar(c, L, u, v', w) then
        var rest := Clip(c, RemoveAt(L, v'), v', 2 * (|L| - 1));
        (rest.0, [c[L[u]], c[L[v']], c[L[w]]] + rest.1)
      else
        Clip(c, L, v', count - 1)
  }

  /** `Process(contour, results)`: whether it returns true, and the points it
      appends to `results`. */
  ghost function Triangulation(c: seq<Vec2>): (bool, seq<Vec2>)
  {
    if |c| < 3 then (false, [])
    else Clip(c, InitialList(c), |c| - 1, 2 * |c|)
  }

  /** A flat list of triangles: consecutive triples of contour vertices,
      each turning strictly counter-clockwise. */
  ghost predicate Triangles(t: seq<Vec2>, c: seq<Vec2>)
    decreases |t|
  {
    t == [] || (|t| >= 3 && t[0] in c && t[1] in c && t[2] in c
                && Turn(t[0], t[1], t[2]) > 0.0 && Triangles(t[3..], c))
  }

  lemma {:induction false} TrianglesLength(t: seq<Vec2>, c: seq<Vec2>)
    requires Triangles(t, c)
    ensures |t| % 3 == 0
    ensures forall k :: 0 <= k < |t| ==> t[k] in c
    decreases |t|
  {
    if t != [] {
      TrianglesLength(t[3..], c);
      forall k | 3 <= k < |t| ensures t[k] in c {
        assert t[k] == t[3..][k - 3];
      }
    }
  }

  /** Every run of the loop emits well-formed triangles; a run that ends
      normally emits exactly |L| - 2 of them, a failed run fewer. */
  lemma {:induction false} ClipEmitsTriangles(c: seq<Vec2>, L: seq<int>, v: nat, count: nat)
    requires IndicesIn(L, |c|) && 2 <= |L| && v <= |L|
    ensures Triangles(Clip(c, L, v, count).1, c)
    ensures |Clip(c, L, v, count).1| <= 3 * (|L| - 2)
    ensures Clip(c, L, v, count).0 ==> |Clip(c, L, v, count).1| == 3 * (|L| - 2)
    decreases |L|, count
  {
    if |L| > 2 && count > 0 {
      var (u, v', w) := EarPositions(|L|, v);
      if IsEar(c, L, u, v', w) {
        var L' := RemoveAt(L, v');
        assert IndicesIn(L', |c|);
        ClipEmitsTriangles(c, L', v', 2 * (|L| - 1));
        var tri := [c[L[u]], c[L[v']], c[L[w]]];
        var rest := Clip(c, L', v', 2 * (|L| - 1)).1;
        assert (tri + rest)[3..] == rest;
      } else {
        assert Clip(c, L, v, count) == Clip(c, L, v', count - 1);
        ClipEmitsTriangles(c, L, v', count - 1);
      }
    }
  }

  /** The contract of `Process`: fewer than three vertices fail with nothing
      emitted; success emits exactly n - 2 triangles; every emitted point is
      a contour vertex and every emitted triangle turns counter-clockwise. */
  lemma TriangulationCount(c: seq<Vec2>)
    ensures |c| < 3 ==> Triangulation(c) == (false, [])
    ensures Triangles(Triangulation(c).1, c)
    ensures |Triangulation(c).1| % 3 == 0
    ensures |c| >= 3 ==> |Triangulation(c).1| <= 3 * (|c| - 2)
    ensures Triangulation(c).0 ==> |Triangulation(c).1| == 3 * (|c| - 2)
  {
    if |c| >= 3 {
      ClipEmitsTriangles(c, InitialList(c), |c| - 1, 2 * |c|);
    }
    TrianglesLength(Triangulation(c).1, c);
  }

  /** The two initialisation loops of `Process`: 0..n-1 or n-1..0. */
  method FillWorkList(work: array<int>, n: nat, ccw: bool)
    requires n <= work.Length
    modifies work
    ensures forall k :: 0 <= k < n ==> work[k] == if ccw then k else (n - 1) - k
  {
    if ccw {
      for v := 0 to n
        invariant forall k :: 0 <= k < v ==> work[k] == k
      {
        work[v] := v;
      }
    } else {
      for v := 0 to n
        invariant forall k :: 0 <= k < v ==> work[k] == (n - 1) - k
      {
        work[v] := (n - 1) - v;
      }
    }
  }

  /** "Remove v from remaining polygon": shift `work[v+1..nv)` one place left. */
  method RemoveFromWorkList(work: array<int>, v: nat, nv: nat)
    requires v < nv <= work.Length
    modifies work
    ensures work[..nv - 1] == RemoveAt(old(work[..nv]), v)
  {
    ghost var L := work[..nv];
    var s := v;
    while s + 1 < nv
      invariant v <= s < nv
      invariant forall k :: 0 <= k < v ==> work[k] == L[k]
      invariant forall k :: v <= k < s ==> work[k] == L[k + 1]
      invariant forall k :: s <= k < nv ==> work[k] == L[k]
    {
      work[s] := work[s + 1];
      s := s + 1;
    }
  }

  lemma AppendAssoc<T>(a: seq<T>, b: seq<T>, c: seq<T>)
    ensures (a + b) + c == a + (b + c)
  {}

  /** One turn of the main loop that finds no ear at positions (u, v', w):
      only the budget shrinks. */
  lemma MissStep(c: seq<Vec2>, L: seq<int>, v: nat, count: nat, u: nat, v': nat, w: nat)
    requires IndicesIn(L, |c|) && 3 <= |L| && v <= |L| && count > 0
    requires (u, v', w) == EarPositions(|L|, v) && !IsEar(c, L, u, v', w)
    ensures Clip(c, L, v, count) == Clip(c, L, v', count - 1)
  {}

  /** One turn of the main loop that clips the ear at positions (u, v', w):
      the loop state after the removal, together with the emitted triangle,
      describes the same run. */
  lemma EarStep(c: seq<Vec2>, L: seq<int>, v: nat, count: nat, u: nat, v': nat, w: nat,
                emitted: seq<Vec2>)
    requires IndicesIn(L, |c|) && 3 <= |L| && v <= |L| && count > 0
    requires (u, v', w) == EarPositions(|L|, v) && IsEar(c, L, u, v', w)
    ensures IndicesIn(RemoveAt(L, v'), |c|)
    ensures Clip(c, RemoveAt(L, v'), v', 2 * (|L| - 1)).0 == Clip(c, L, v, count).0
    ensures (emitted + [c[L[u]], c[L[v']], c[L[w]]]) + Clip(c, RemoveAt(L, v'), v', 2 * (|L| - 1)).1
            == emitted + Clip(c, L, v, count).1
  {
    AppendAssoc(emitted, [c[L[u]], c[L[v']], c[L[w]]], Clip(c, RemoveAt(L, v'), v', 2 * (|L| - 1)).1);
  }

  /** The clip of the ear at positions (u, v', w): its triangle is
      emitted and its middle corner leaves the work list. */
  method ClipEar(contour: seq<Vec2>, work: array<int>, nv: nat, v: nat, count: nat,
                 u: nat, v': nat, w: nat, ghost list: seq<int>, ghost ccw: bool, out: seq<Vec2>)
    returns (out': seq<Vec2>)
    requires nv <= work.Length && 3 <= nv && v <= nv && 0 < count
    requires list == work[..nv] && IndicesIn(list, |contour|) && Ordered(list, ccw)
    requires (u, v', w) == EarPositions(nv, v) && IsEar(contour, list, u, v', w)
    modifies work
    ensures work[..nv - 1] == RemoveAt(list, v')
    ensures IndicesIn(RemoveAt(list, v'), |contour|) && Ordered(RemoveAt(list, v'), ccw)
    ensures Clip(contour, RemoveAt(list, v'), v', 2 * (|list| - 1)).0 == Clip(contour, list, v, count).0
    ensures out' + Clip(contour, RemoveAt(list, v'), v', 2 * (|list| - 1)).1 == out + Clip(contour, list, v, count).1
  {
    assert work[u] == list[u] && work[v'] == list[v'] && work[w] == list[w];
    out' := out + [contour[work[u]], contour[work[v']], contour[work[w]]];
    assert out' == out + [contour[list[u]], contour[list[v']], contour[list[w]]];
    EarStep(contour, list, v, count, u, v', w, out);
    RemoveAtKeepsOrder(list, v', |contour|, ccw);
    RemoveFromWorkList(work, v', nv);
  }

  /** The three wrap-around steps at the head of the main loop of
      `Process`. */
  method NextPositions(nv: nat, v: nat) returns (u: nat, v': nat, w: nat)
    requires 3 <= nv && v <= nv
    ensures (u, v', w) == EarPositions(nv, v)
  {
    u := v; if nv <= u { u := 0; }
    v' := u + 1; if nv <= v' { v' := 0; }
    w := v' + 1; if nv <= w { w := 0; }
  }

  /** One turn of the main loop of `Process` with budget left: the ear
      test at the positions after `v`, then either the clip (emit, remove,
      reset the budget) or one unit of budget spent. The run that follows
      is the rest of the same run. */
  method ClipTurn(contour: seq<Vec2>, work: array<int>, nv: nat, v: nat, count: nat,
                  ghost list: seq<int>, ghost ccw: bool, out: seq<Vec2>)
    returns (nv': nat, v': nat, count': nat, ghost list': seq<int>, out': seq<Vec2>)
    requires nv <= work.Length && 3 <= nv && v <= nv && 0 < count
    requires list == work[..nv] && IndicesIn(list, |contour|) && Ordered(list, ccw)
    modifies work
    ensures 2 <= nv' <= nv && v' <= nv' && (nv' < nv || (nv' == nv && count' < count))
    ensures list' == work[..nv'] && IndicesIn(list', |contour|) && Ordered(list', ccw)
    ensures Clip(contour, list', v', count').0 == Clip(contour, list, v, count).0
    ensures out' + Clip(contour, list', v', count').1 == out + Clip(contour, list, v, count).1
  {
    var u, w;
    u, v', w := NextPositions(nv, v);
    var ear := Snip(contour, u, v', w, nv, work);
    if ear {
      out' := ClipEar(contour, work, nv, v, count, u, v', w, list, ccw, out);
      nv' := nv - 1;
      count' := 2 * nv';
      list' := RemoveAt(list, v');
      assert count' == 2 * (|list| - 1);
      assert |list'| == nv' && list' == work[..nv'];
    } else {
      MissStep(contour, list, v, count, u, v', w);
      nv', count', list', out' := nv, count - 1, list, out;
      assert work[..nv'] == list';
    }
  }

  /** `Process`: triangulates `contour`, appending three points per ear to
      `results`. On failure the ears found so far stay appended. */
  method Process(contour: seq<Vec2>, results: seq<Vec2>, work: array<int>) returns (ok: bool, out: seq<Vec2>)
    requires work.Length == WorkBufferSize && |contour| <= WorkBufferSize
    modifies work
    ensures ok == Triangulation(contour).0
    ensures out == results + Triangulation(contour).1
  {
    var n := |contour|;
    if n < 3 {
      return false, results;
    }
    var ccw := 0.0 < Area(contour);
    FillWorkList(work, n, ccw);
    ghost var list := InitialList(contour);
    assert work[..n] == list;
    ghost var spec := Triangulation(contour);
    var nv: nat := n;
    var count: nat := 2 * nv;
    var v: nat := nv - 1;
    out := results;
    while nv > 2
      invariant 2 <= nv <= n && v <= nv
      invariant work[..nv] == list && IndicesIn(list, n) && Ordered(list, ccw)
      invariant Clip(contour, list, v, count).0 == spec.0
      invariant out + Clip(contour, list, v, count).1 == results + spec.1
      decreases nv, count
    {
      if count == 0 {
        assert Clip(contour, list, v, count) == (false, []);
        return false, out;
      }
      nv, v, count, list, out := ClipTurn(contour, work, nv, v, count, list, ccw, out);
    }
    assert Clip(contour, list, v, count) == (true, []);
    ok := true;
  }
}
