/** The geometry kernel of `src/utils/geoUtils.js`: the even-odd ray-casting
    test over GeoJSON Polygon and MultiPolygon rings (`isPointInPolygon` and
    its inner `pointInRing`), and the bounding box over the outer rings
    (`getFeatureBounds`), with the theorem that the box encloses every point
    the ray-casting test accepts.

    Coordinates are exact reals; the source's IEEE-754 rounding of the
    x-intercept is not modelled. */
module Geometry {

  /** The query point `{lat, lng}`. */
  datatype Point = Point(lat: real, lng: real)

  /** A GeoJSON position `[lng, lat]`: `x` is the longitude, `y` the latitude. */
  datatype Vertex = Vertex(x: real, y: real)

  /** A linear ring, closed (last vertex repeats the first) or open. */
  type Ring = seq<Vertex>

  /** One polygon: ring 0 (the outer boundary) and rings 1.. (the holes). */
  datatype Shape = Shape(outer: Ring, holes: seq<Ring>)

  /** A feature's geometry.  `Unsupported` is every geometry whose `type` is
      missing or is neither "Polygon" nor "MultiPolygon". */
  datatype Geometry =
    | Polygon(shape: Shape)
    | MultiPolygon(shapes: seq<Shape>)
    | Unsupported

  // ---------------------------------------------------------------------
  // pointInRing
  // ---------------------------------------------------------------------

  /** The loop visits edge (ring[i], ring[j]) with j the vertex before i,
      wrapping to the last vertex for i = 0. */
  function Prev(n: nat, i: nat): nat
    requires i < n
  {
    if i == 0 then n - 1 else i - 1
  }

  /** The horizontal line at height `y` separates the edge's endpoints. */
  predicate Straddles(a: Vertex, b: Vertex, y: real) {
    (a.y > y) != (b.y > y)
  }

  /** The x-coordinate at height `y` of the line through `a` and `b`. */
  function Intercept(a: Vertex, b: Vertex, y: real): real
    requires a.y != b.y
  {
    ((b.x - a.x) * (y - a.y)) / (b.y - a.y) + a.x
  }

  /** The ray from `p` towards +x crosses the edge from `a` (= ring[i]) to
      `b` (= ring[j]); edges with equal y are skipped. */
  predicate Crosses(a: Vertex, b: Vertex, p: Point) {
    a.y != b.y && Straddles(a, b, p.lat) && p.lng < Intercept(a, b, p.lat)
  }

  predicate EdgeCrosses(r: Ring, i: nat, p: Point)
    requires i < |r|
  {
    Crosses(r[i], r[Prev(|r|, i)], p)
  }

  /** The number of crossing edges among the first `k` the loop visits. */
  function Crossings(r: Ring, p: Point, k: nat): nat
    requires k <= |r|
  {
    if k == 0 then 0
    else Crossings(r, p, k - 1) + (if EdgeCrosses(r, k - 1, p) then 1 else 0)
  }

  /** Even-odd rule: the ray crosses the ring an odd number of times. */
  predicate InRing(r: Ring, p: Point) {
    Crossings(r, p, |r|) % 2 == 1
  }

  /** `pointInRing`: toggles `inside` at every crossing edge. */
  method PointInRing(ring: Ring, p: Point) returns (inside: bool)
    ensures inside == InRing(ring, p)
  {
    var x := p.lng;
    var y := p.lat;
    inside := false;
    var i := 0;
    var j := |ring| - 1;
    while i < |ring|
      invariant 0 <= i <= |ring|
      invariant i < |ring| ==> j == Prev(|ring|, i)
      invariant inside == (Crossings(ring, p, i) % 2 == 1)
    {
      var vi, vj := ring[i], ring[j];
      if vj.y - vi.y != 0.0 {
        var intersect := Straddles(vi, vj, y) && x < Intercept(vi, vj, y);
        assert intersect == EdgeCrosses(ring, i, p);
        if intersect {
          inside := !inside;
        }
      } else {
        assert !EdgeCrosses(ring, i, p);
      }
      j, i := i, i + 1;
    }
  }

  // ---------------------------------------------------------------------
  // isPointInPolygon
  // ---------------------------------------------------------------------

  predicate SomeRingContains(rings: seq<Ring>, p: Point) {
    exists h :: 0 <= h < |rings| && InRing(rings[h], p)
  }

  /** A polygon holds the point iff ring 0 does and no hole does. */
  predicate ShapeContains(s: Shape, p: Point) {
    InRing(s.outer, p) && !SomeRingContains(s.holes, p)
  }

  /** The geometry holds the point: the polygon rule, or for a MultiPolygon
      the polygon rule for some member; any other geometry holds nothing. */
  predicate Contains(g: Geometry, p: Point) {
    match g
    case Polygon(s) => ShapeContains(s, p)
    case MultiPolygon(ss) => exists k :: 0 <= k < |ss| && ShapeContains(ss[k], p)
    case Unsupported => false
  }

  /** `holes.some(h => pointInRing(h))`, stopping at the first hit. */
  method AnyRingContains(rings: seq<Ring>, p: Point) returns (found: bool)
    ensures found == SomeRingContains(rings, p)
  {
    var h := 0;
    while h < |rings|
      invariant 0 <= h <= |rings|
      invariant forall m :: 0 <= m < h ==> !InRing(rings[m], p)
    {
      found := PointInRing(rings[h], p);
      if found {
        return;
      }
      h := h + 1;
    }
    found := false;
  }

  /** One polygon: ring 0 first, then the holes. */
  method ShapeContainsPoint(s: Shape, p: Point) returns (inside: bool)
    ensures inside == ShapeContains(s, p)
  {
    var outer := PointInRing(s.outer, p);
    if !outer {
      return false;
    }
    var inHole := AnyRingContains(s.holes, p);
    inside := !inHole;
  }

  /** `isPointInPolygon`. */
  method IsPointInPolygon(p: Point, g: Geometry) returns (inside: bool)
    ensures inside == Contains(g, p)
  {
    match g {
      case Polygon(s) =>
        inside := ShapeContainsPoint(s, p);
      case MultiPolygon(ss) =>
        var k := 0;
        while k < |ss|
          invariant 0 <= k <= |ss|
          invariant forall m :: 0 <= m < k ==> !ShapeContains(ss[m], p)
        {
          inside := ShapeContainsPoint(ss[k], p);
          if inside {
            return;
          }
          k := k + 1;
        }
        inside := false;
      case Unsupported =>
        inside := false;
    }
  }

  // ---------------------------------------------------------------------
  // Properties of the ring test
  // ---------------------------------------------------------------------

  /** An empty ring holds no point. */
  lemma EmptyRingIsOutside(p: Point)
    ensures !InRing([], p)
  {
  }

  /** The intercept does not depend on which endpoint comes first. */
  lemma InterceptSymmetric(a: Vertex, b: Vertex, y: real)
    requires a.y != b.y
    ensures Intercept(a, b, y) == Intercept(b, a, y)
  {
    var d := b.y - a.y;
    assert Intercept(a, b, y) == a.x + (b.x - a.x) * ((y - a.y) / d);
    assert Intercept(b, a, y) == b.x + (b.x - a.x) * ((y - b.y) / d);
    assert (y - a.y) / d - (y - b.y) / d == 1.0;
  }

  /** With exact arithmetic, the crossing test is orientation-agnostic. */
  lemma CrossesSymmetric(a: Vertex, b: Vertex, p: Point)
    ensures Crosses(a, b, p) == Crosses(b, a, p)
  {
    if a.y != b.y {
      InterceptSymmetric(a, b, p.lat);
    }
  }

  /** A ring of fewer than three vertices holds no point. */
  lemma ShortRingIsOutside(r: Ring, p: Point)
    requires |r| < 3
    ensures !InRing(r, p)
  {
    if |r| == 2 {
      CrossesSymmetric(r[0], r[1], p);
      assert Crossings(r, p, 1) == (if Crosses(r[0], r[1], p) then 1 else 0);
    } else if |r| == 1 {
      assert !EdgeCrosses(r, 0, p);
      assert Crossings(r, p, 1) == 0;
    }
  }

  /** The edges of `r + [r[0]]` before the closing one are those of `r`
      without its wrap-around edge 0. */
  lemma {:induction false} ClosedPrefixCrossings(r: Ring, p: Point, k: nat)
    requires 1 <= k <= |r|
    ensures Crossings(r + [r[0]], p, k) + (if EdgeCrosses(r, 0, p) then 1 else 0) == Crossings(r, p, k)
  {
    var c := r + [r[0]];
    if k == 1 {
      assert c[Prev(|c|, 0)] == c[0];
      assert !EdgeCrosses(c, 0, p);
    } else {
      ClosedPrefixCrossings(r, p, k - 1);
      assert c[k - 1] == r[k - 1] && c[Prev(|c|, k - 1)] == r[Prev(|r|, k - 1)];
    }
  }

  /** Repeating the first vertex at the end (closed versus open ring) does
      not change the answer. */
  lemma {:induction false} ClosingRingPreservesTest(r: Ring, p: Point)
    requires |r| >= 1
    ensures InRing(r + [r[0]], p) == InRing(r, p)
  {
    var c := r + [r[0]];
    var n := |r|;
    ClosedPrefixCrossings(r, p, n);
    assert c[n] == r[0] && c[Prev(|c|, n)] == r[n - 1] && r[Prev(n, 0)] == r[n - 1];
    assert EdgeCrosses(c, n, p) == EdgeCrosses(r, 0, p);
    assert Crossings(c, p, n + 1) == Crossings(r, p, n);
  }

  // ---------------------------------------------------------------------
  // Where a point inside a ring can lie
  // ---------------------------------------------------------------------

  function Min(a: real, b: real): real { if a <= b then a else b }
  function Max(a: real, b: real): real { if a <= b then b else a }

  /** On a straddling edge the intercept lies between the endpoints' x. */
  lemma InterceptBetween(a: Vertex, b: Vertex, y: real)
    requires a.y != b.y && Straddles(a, b, y)
    ensures Min(a.x, b.x) <= Intercept(a, b, y) <= Max(a.x, b.x)
  {
    var d := b.y - a.y;
    var t := (y - a.y) / d;
    assert t * d == y - a.y;
    if d > 0.0 {
      assert 0.0 <= y - a.y < d;
    } else {
      assert d <= y - a.y < 0.0;
    }
    assert 0.0 <= t <= 1.0;
    var w := b.x - a.x;
    assert Intercept(a, b, y) == a.x + w * t;
    if w >= 0.0 {
      assert 0.0 <= w * t <= w;
    } else {
      assert w <= w * t <= 0.0;
    }
  }

  /** Some edge among the first `k` crosses when the count is positive. */
  lemma {:induction false} SomeEdgeCrosses(r: Ring, p: Point, k: nat)
    requires k <= |r| && Crossings(r, p, k) > 0
    ensures exists i :: 0 <= i < k && EdgeCrosses(r, i, p)
  {
    if !EdgeCrosses(r, k - 1, p) {
      SomeEdgeCrosses(r, p, k - 1);
    }
  }

  predicate EdgeStraddles(r: Ring, i: nat, y: real)
    requires i < |r|
  {
    Straddles(r[i], r[Prev(|r|, i)], y)
  }

  /** The number of edges among the first `k` that straddle height `y`. */
  function StraddleCount(r: Ring, y: real, k: nat): nat
    requires k <= |r|
  {
    if k == 0 then 0
    else StraddleCount(r, y, k - 1) + (if EdgeStraddles(r, k - 1, y) then 1 else 0)
  }

  function Flag(b: bool): nat { if b then 1 else 0 }

  /** Walking the ring from vertex 0, the straddles seen so far (besides the
      wrap-around edge) have the parity of "vertex k-1 is on the other side
      from vertex 0". */
  lemma {:induction false} StraddleParity(r: Ring, y: real, k: nat)
    requires 1 <= k <= |r|
    ensures StraddleCount(r, y, k) % 2
            == (Flag(EdgeStraddles(r, 0, y)) + Flag((r[k - 1].y > y) != (r[0].y > y))) % 2
  {
    if k > 1 {
      StraddleParity(r, y, k - 1);
      assert EdgeStraddles(r, k - 1, y) == ((r[k - 1].y > y) != (r[k - 2].y > y));
    }
  }

  /** A closed walk crosses any horizontal line an even number of times. */
  lemma StraddlesEven(r: Ring, y: real)
    requires |r| >= 1
    ensures StraddleCount(r, y, |r|) % 2 == 0
  {
    StraddleParity(r, y, |r|);
    assert EdgeStraddles(r, 0, y) == ((r[0].y > y) != (r[|r| - 1].y > y));
  }

  /** A point left of every vertex is crossed exactly by the straddling edges. */
  lemma {:induction false} LeftPointCrossings(r: Ring, p: Point, k: nat)
    requires k <= |r|
    requires forall i :: 0 <= i < |r| ==> p.lng < r[i].x
    ensures Crossings(r, p, k) == StraddleCount(r, p.lat, k)
  {
    if k > 0 {
      LeftPointCrossings(r, p, k - 1);
      var a, b := r[k - 1], r[Prev(|r|, k - 1)];
      if Straddles(a, b, p.lat) {
        InterceptBetween(a, b, p.lat);
      }
    }
  }

  /** A point inside a ring has ring vertices on both sides of it in x and
      in y: at or left of it, right of it, at or below it, above it. */
  lemma RingWitnesses(r: Ring, p: Point)
    requires InRing(r, p)
    ensures exists i :: 0 <= i < |r| && r[i].x <= p.lng
    ensures exists i :: 0 <= i < |r| && p.lng < r[i].x
    ensures exists i :: 0 <= i < |r| && r[i].y <= p.lat
    ensures exists i :: 0 <= i < |r| && p.lat < r[i].y
  {
    SomeEdgeCrosses(r, p, |r|);
    var e :| 0 <= e < |r| && EdgeCrosses(r, e, p);
    var a, b := r[e], r[Prev(|r|, e)];
    InterceptBetween(a, b, p.lat);
    assert a == r[e] && b == r[Prev(|r|, e)];
    if forall i :: 0 <= i < |r| ==> p.lng < r[i].x {
      LeftPointCrossings(r, p, |r|);
      StraddlesEven(r, p.lat);
      assert false;
    }
  }

  // ---------------------------------------------------------------------
  // getFeatureBounds
  // ---------------------------------------------------------------------

  /** `{minX, minY, maxX, maxY}`.  `NoVertices` is the box the source leaves
      at its initial `+Infinity`/`-Infinity` values when no outer ring has a
      vertex: every point falls outside it. */
  datatype Bounds = NoVertices | Box(minX: real, minY: real, maxX: real, maxY: real)

  /** One step of `processRing`: widen the box to take in `v`. */
  function Include(b: Bounds, v: Vertex): Bounds {
    match b
    case NoVertices => Box(v.x, v.y, v.x, v.y)
    case Box(x0, y0, x1, y1) =>
      Box(if v.x < x0 then v.x else x0, if v.y < y0 then v.y else y0,
          if v.x > x1 then v.x else x1, if v.y > y1 then v.y else y1)
  }

  /** `processRing(ring)` applied to the box `b`. */
  function IncludeRing(b: Bounds, r: Ring): Bounds
    decreases |r|
  {
    if r == [] then b else Include(IncludeRing(b, r[..|r| - 1]), r[|r| - 1])
  }

  /** The box over ring 0 of each polygon of a MultiPolygon, in order. */
  function OuterBounds(ss: seq<Shape>): Bounds
    decreases |ss|
  {
    if ss == [] then NoVertices else IncludeRing(OuterBounds(ss[..|ss| - 1]), ss[|ss| - 1].outer)
  }

  /** The box `getFeatureBounds` computes; holes never take part. */
  function GeometryBounds(g: Geometry): Bounds {
    match g
    case Polygon(s) => IncludeRing(NoVertices, s.outer)
    case MultiPolygon(ss) => OuterBounds(ss)
    case Unsupported => NoVertices
  }

  /** The fast reject of `findFeature` (line 95), inclusive bounds. */
  predicate Rejects(b: Bounds, p: Point) {
    b.NoVertices? || p.lng < b.minX || p.lng > b.maxX || p.lat < b.minY || p.lat > b.maxY
  }

  predicate Covers(b: Bounds, v: Vertex) {
    b.Box? && b.minX <= v.x <= b.maxX && b.minY <= v.y <= b.maxY
  }

  /** The box lies within `[lo, hi]` (or is empty). */
  predicate Within(b: Bounds, lo: Vertex, hi: Vertex) {
    b.NoVertices? || (lo.x <= b.minX && b.maxX <= hi.x && lo.y <= b.minY && b.maxY <= hi.y)
  }

  predicate InRange(v: Vertex, lo: Vertex, hi: Vertex) {
    lo.x <= v.x <= hi.x && lo.y <= v.y <= hi.y
  }

  /** A vertex of ring 0 of some polygon of `g`. */
  predicate OuterVertex(g: Geometry, v: Vertex) {
    match g
    case Polygon(s) => v in s.outer
    case MultiPolygon(ss) => exists k :: 0 <= k < |ss| && v in ss[k].outer
    case Unsupported => false
  }

  /** `IncludeRing` yields the smallest box holding `b` and the ring. */
  lemma {:induction false} IncludeRingBounds(b: Bounds, r: Ring)
    ensures IncludeRing(b, r).NoVertices? <==> b.NoVertices? && r == []
    ensures forall v :: v in r ==> Covers(IncludeRing(b, r), v)
    ensures b.Box? ==> (var w := IncludeRing(b, r);
                        w.Box? && w.minX <= b.minX && b.maxX <= w.maxX && w.minY <= b.minY && b.maxY <= w.maxY)
    ensures forall lo, hi :: Within(b, lo, hi) && (forall v :: v in r ==> InRange(v, lo, hi))
                             ==> Within(IncludeRing(b, r), lo, hi)
    decreases |r|
  {
    if r != [] {
      var front := r[..|r| - 1];
      IncludeRingBounds(b, front);
      assert forall v :: v in r ==> v in front || v == r[|r| - 1];
      assert forall v :: v in front ==> v in r;
      forall lo, hi | Within(b, lo, hi) && (forall v :: v in r ==> InRange(v, lo, hi))
        ensures Within(IncludeRing(b, r), lo, hi)
      {
        assert Within(IncludeRing(b, front), lo, hi);
        assert InRange(r[|r| - 1], lo, hi);
      }
    }
  }

  /** The box over the outer rings of a MultiPolygon is the smallest box
      holding all their vertices. */
  lemma {:induction false} OuterBoundsExact(ss: seq<Shape>)
    ensures OuterBounds(ss).NoVertices? <==> forall k :: 0 <= k < |ss| ==> ss[k].outer == []
    ensures forall k, v :: 0 <= k < |ss| && v in ss[k].outer ==> Covers(OuterBounds(ss), v)
    ensures forall lo, hi :: (forall k, v :: 0 <= k < |ss| && v in ss[k].outer ==> InRange(v, lo, hi))
                             ==> Within(OuterBounds(ss), lo, hi)
    decreases |ss|
  {
    if ss != [] {
      var front := ss[..|ss| - 1];
      var last := ss[|ss| - 1].outer;
      OuterBoundsExact(front);
      IncludeRingBounds(OuterBounds(front), last);
      assert forall k :: 0 <= k < |front| ==> front[k] == ss[k];
      var b := OuterBounds(front);
      forall k, v | 0 <= k < |ss| && v in ss[k].outer
        ensures Covers(OuterBounds(ss), v)
      {
        if k < |front| {
          assert Covers(b, v);
        }
      }
    }
  }

  /** `getFeatureBounds` is the min/max of x and y over the vertices of
      ring 0 of every polygon: it holds each such vertex, lies within every
      box that holds them all, and is `NoVertices` exactly when there is
      none. */
  lemma GeometryBoundsExact(g: Geometry)
    ensures GeometryBounds(g).NoVertices? <==> forall v :: !OuterVertex(g, v)
    ensures forall v :: OuterVertex(g, v) ==> Covers(GeometryBounds(g), v)
    ensures forall lo, hi :: (forall v :: OuterVertex(g, v) ==> InRange(v, lo, hi))
                             ==> Within(GeometryBounds(g), lo, hi)
  {
    match g {
      case Polygon(s) =>
        IncludeRingBounds(NoVertices, s.outer);
        if s.outer != [] {
          assert OuterVertex(g, s.outer[0]);
        }
      case MultiPolygon(ss) =>
        OuterBoundsExact(ss);
        if exists k :: 0 <= k < |ss| && ss[k].outer != [] {
          var k :| 0 <= k < |ss| && ss[k].outer != [];
          assert OuterVertex(g, ss[k].outer[0]);
        }
      case Unsupported =>
    }
  }

  /** Bounding-box soundness: every point the ray-casting test accepts lies
      inside the feature's box, so the fast reject never rejects a point the
      exact test would accept. */
  lemma ContainedPointNotRejected(g: Geometry, p: Point)
    requires Contains(g, p)
    ensures !Rejects(GeometryBounds(g), p)
  {
    var outer: Ring;
    match g {
      case Polygon(s) =>
        outer := s.outer;
      case MultiPolygon(ss) =>
        var k :| 0 <= k < |ss| && ShapeContains(ss[k], p);
        outer := ss[k].outer;
    }
    assert InRing(outer, p);
    assert forall v :: v in outer ==> OuterVertex(g, v);
    GeometryBoundsExact(g);
    RingWitnesses(outer, p);
    var b := GeometryBounds(g);
    var i1 :| 0 <= i1 < |outer| && outer[i1].x <= p.lng;
    var i2 :| 0 <= i2 < |outer| && p.lng < outer[i2].x;
    var i3 :| 0 <= i3 < |outer| && outer[i3].y <= p.lat;
    var i4 :| 0 <= i4 < |outer| && p.lat < outer[i4].y;
    assert Covers(b, outer[i1]) && Covers(b, outer[i2]) && Covers(b, outer[i3]) && Covers(b, outer[i4]);
  }
}
