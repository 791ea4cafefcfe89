/** Features with their lazily cached bounding box (`getFeatureBounds`) and
    the layer resolver `findFeature` of `src/utils/geoUtils.js`: a reverse
    scan in which the last feature containing the point wins, with the box
    as a fast reject that never changes the answer. */
module Layers {
  import opened Wrappers
  import opened Geometry
  import opened JsValue

  /** A GeoJSON feature.  Geometry and properties never change after
      loading; `bbox` is the `_bbox` cache written by `getFeatureBounds`. */
  class Feature {
    const geometry: Geometry
    const properties: Props
    var bbox: Option<Bounds>

    /** The cache, once filled, holds the box of this feature's geometry. */
    predicate CacheValid()
      reads this
    {
      bbox.Some? ==> bbox.value == GeometryBounds(geometry)
    }

    constructor (geometry: Geometry, properties: Props)
      ensures this.geometry == geometry && this.properties == properties
      ensures bbox == None && CacheValid()
    {
      this.geometry := geometry;
      this.properties := properties;
      bbox := None;
    }
  }

  /** `processRing`: widen `b` by every vertex of `ring`, in order. */
  method ProcessRing(b: Bounds, ring: Ring) returns (b': Bounds)
    ensures b' == IncludeRing(b, ring)
  {
    b' := b;
    var i := 0;
    while i < |ring|
      invariant 0 <= i <= |ring|
      invariant b' == IncludeRing(b, ring[..i])
    {
      assert ring[..i + 1][..i] == ring[..i];
      b' := Include(b', ring[i]);
      i := i + 1;
    }
    assert ring[..i] == ring;
  }

  /** `getFeatureBounds`: return the cached box when there is one, otherwise
      compute it over ring 0 of every polygon and store it on the feature.
      A second call returns the stored box unchanged. */
  method GetFeatureBounds(f: Feature) returns (b: Bounds)
    requires f.CacheValid()
    modifies f
    ensures b == GeometryBounds(f.geometry) && f.bbox == Some(b)
    ensures old(f.bbox).Some? ==> f.bbox == old(f.bbox)
  {
    if f.bbox.Some? {
      return f.bbox.value;
    }
    b := NoVertices;
    match f.geometry {
      case Polygon(s) =>
        b := ProcessRing(b, s.outer);
      case MultiPolygon(ss) =>
        var i := 0;
        while i < |ss|
          invariant 0 <= i <= |ss|
          invariant b == OuterBounds(ss[..i])
        {
          assert ss[..i + 1][..i] == ss[..i];
          b := ProcessRing(b, ss[i].outer);
          i := i + 1;
        }
        assert ss[..i] == ss;
      case Unsupported =>
    }
    f.bbox := Some(b);
  }

  /** A feature collection: `Absent` when the layer object is missing. */
  datatype Layer = Absent | Collection(features: seq<Feature>)

  function FeaturesOf(l: Layer): seq<Feature> {
    if l.Collection? then l.features else []
  }

  /** The source's `layer?.features?.length` test. */
  predicate HasFeatures(l: Layer) {
    l.Collection? && |l.features| > 0
  }

  predicate CachesValid(l: Layer)
    reads FeaturesOf(l)
  {
    forall f :: f in FeaturesOf(l) ==> f.CacheValid()
  }

  /** The highest index whose geometry holds the point, or `None`. */
  function LastIndex(fs: seq<Feature>, p: Point): (r: Option<nat>)
    ensures r.Some? ==> r.value < |fs| && Contains(fs[r.value].geometry, p)
    ensures r.Some? ==> forall j :: r.value < j < |fs| ==> !Contains(fs[j].geometry, p)
    ensures r.None? ==> forall j :: 0 <= j < |fs| ==> !Contains(fs[j].geometry, p)
    decreases |fs|
  {
    if fs == [] then None
    else if Contains(fs[|fs| - 1].geometry, p) then Some(|fs| - 1)
    else LastIndex(fs[..|fs| - 1], p)
  }

  /** What `findFeature` answers: the last feature of the layer holding the
      point, or `None` (also for a missing layer). */
  function Find(l: Layer, p: Point): Option<Feature> {
    var fs := FeaturesOf(l);
    match LastIndex(fs, p)
    case Some(k) => Some(fs[k])
    case None => None
  }

  /** The same reverse scan, skipping every feature whose box rejects the
      point before trying the exact test. */
  function BoxedLastIndex(fs: seq<Feature>, p: Point): Option<nat>
    decreases |fs|
  {
    if fs == [] then None
    else
      var f := fs[|fs| - 1];
      if !Rejects(GeometryBounds(f.geometry), p) && Contains(f.geometry, p) then Some(|fs| - 1)
      else BoxedLastIndex(fs[..|fs| - 1], p)
  }

  /** The bounding-box pre-check never changes the answer of the plain
      reverse scan. */
  lemma {:induction false} BoxCheckKeepsAnswer(fs: seq<Feature>, p: Point)
    ensures BoxedLastIndex(fs, p) == LastIndex(fs, p)
    decreases |fs|
  {
    if fs != [] {
      var f := fs[|fs| - 1];
      if Contains(f.geometry, p) {
        ContainedPointNotRejected(f.geometry, p);
      } else {
        BoxCheckKeepsAnswer(fs[..|fs| - 1], p);
      }
    }
  }

  /** `findFeature`: scan from the last feature to the first, skipping those
      whose (cached) box rejects the point, and return the first hit. */
  method FindFeature(p: Point, c: Layer) returns (r: Option<Feature>)
    requires CachesValid(c)
    modifies FeaturesOf(c)
    ensures r == Find(c, p)
    ensures CachesValid(c)
  {
    if c.Absent? {
      return None;
    }
    var fs := c.features;
    var x, y := p.lng, p.lat;
    var i := |fs| - 1;
    while i >= 0
      invariant -1 <= i < |fs|
      invariant LastIndex(fs[..i + 1], p) == LastIndex(fs, p)
      invariant CachesValid(c)
    {
      var f := fs[i];
      var bbox := GetFeatureBounds(f);
      if bbox.NoVertices? || x < bbox.minX || x > bbox.maxX || y < bbox.minY || y > bbox.maxY {
        if Contains(f.geometry, p) {
          ContainedPointNotRejected(f.geometry, p);
        }
        assert fs[..i + 1][..i] == fs[..i];
        i := i - 1;
        continue;
      }
      var hit := IsPointInPolygon(p, f.geometry);
      if hit {
        return Some(f);
      }
      assert fs[..i + 1][..i] == fs[..i];
      i := i - 1;
    }
    assert fs[..0] == [];
    return None;
  }
}
