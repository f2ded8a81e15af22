/**
 * The shapes the consensus builds from an instance's `meta` and the score
 * `instance_consensus` gives a pair of them. shapely itself is outside the
 * model: its area, intersection, union, distance and validity test are an
 * `Oracle` the caller supplies.
 */
module Geometry {
  import opened Values

  /** `box(...)` (a Polygon to shapely), `Polygon(...)` and `Point(...)`. */
  datatype Shape =
    | Box(minX: real, minY: real, maxX: real, maxY: real)
    | Polygon(vertices: seq<(real, real)>)
    | Point(x: real, y: real)

  /** shapely's `geom.type`: a box and a polygon are both "Polygon". */
  datatype Kind = PolygonKind | PointKind

  function KindOf(s: Shape): (k: Kind)
    ensures k == PointKind <==> s.Point?
  {
    if s.Point? then PointKind else PolygonKind
  }

  /** The shapely operations the consensus uses. */
  datatype Oracle = Oracle(
    area: Shape -> real,
    intersectionArea: (Shape, Shape) -> real,
    unionArea: (Shape, Shape) -> real,
    distance: (Shape, Shape) -> real,
    isValid: Shape -> bool
  )

  /** Laws shapely's operations obey, for the lemmas that need them. */
  ghost predicate Lawful(geo: Oracle) {
    && (forall a, b :: geo.intersectionArea(a, b) == geo.intersectionArea(b, a))
    && (forall a, b :: geo.unionArea(a, b) == geo.unionArea(b, a))
    && (forall a, b :: 0.0 <= geo.intersectionArea(a, b) <= geo.unionArea(a, b))
    && (forall a, b :: geo.distance(a, b) == geo.distance(b, a))
    && (forall a, b :: 0.0 <= geo.distance(a, b))
  }

  /**
   * `instance_consensus`: intersection over union for two polygons, minus the
   * distance for two points, NotImplementedError for any other pair; a
   * union of area 0 is a ZeroDivisionError.
   */
  function InstanceConsensus(geo: Oracle, a: Shape, b: Shape): (r: Result<real>)
    ensures KindOf(a) != KindOf(b) <==> r == Failure(NotImplemented)
    ensures KindOf(a) == KindOf(b) == PolygonKind ==>
      (r.Failure? <==> geo.unionArea(a, b) == 0.0)
    ensures KindOf(a) == KindOf(b) == PolygonKind && r.Success? ==>
      r.value * geo.unionArea(a, b) == geo.intersectionArea(a, b)
    ensures KindOf(a) == KindOf(b) == PointKind ==> r == Success(-geo.distance(a, b))
  {
    if KindOf(a) == PolygonKind && KindOf(b) == PolygonKind then
      var union := geo.unionArea(a, b);
      if union == 0.0 then Failure(ZeroDivision) else Success(geo.intersectionArea(a, b) / union)
    else if KindOf(a) == PointKind && KindOf(b) == PointKind then
      Success(-1.0 * geo.distance(a, b))
    else
      Failure(NotImplemented)
  }

  /** Under shapely's laws the score does not depend on the order of the pair. */
  lemma ConsensusSymmetric(geo: Oracle, a: Shape, b: Shape)
    requires Lawful(geo)
    ensures InstanceConsensus(geo, a, b) == InstanceConsensus(geo, b, a)
  {
    assert geo.unionArea(a, b) == geo.unionArea(b, a);
    assert geo.intersectionArea(a, b) == geo.intersectionArea(b, a);
    assert geo.distance(a, b) == geo.distance(b, a);
  }

  /** Under shapely's laws a polygon score lies in [0, 1] and a point score is at most 0. */
  lemma ConsensusRange(geo: Oracle, a: Shape, b: Shape)
    requires Lawful(geo) && InstanceConsensus(geo, a, b).Success?
    ensures KindOf(a) == PolygonKind ==> 0.0 <= InstanceConsensus(geo, a, b).value <= 1.0
    ensures KindOf(a) == PointKind ==> InstanceConsensus(geo, a, b).value <= 0.0
  {
    var s := InstanceConsensus(geo, a, b).value;
    if KindOf(a) == PolygonKind {
      var i, u := geo.intersectionArea(a, b), geo.unionArea(a, b);
      assert 0.0 <= i <= u && u != 0.0 && s * u == i;
    } else {
      assert 0.0 <= geo.distance(a, b);
    }
  }

  /** `d[k]` on a JSON dict: anything but a dict holding `k` raises. */
  function Index(v: Value, k: string): (r: Result<Value>)
    ensures r.Success? <==> v.Dict? && k in v.fields
    ensures r.Success? ==> r.value == v.fields[k]
    ensures r.Failure? ==> r.error == Malformed
  {
    if v.Dict? && k in v.fields then Success(v.fields[k]) else Failure(Malformed)
  }

  /** A coordinate as shapely reads it. */
  function Coordinate(v: Value): (r: Result<real>)
    ensures r.Success? <==> AsReal(v).Some?
    ensures r.Success? ==> r.value == AsReal(v).value
    ensures r.Failure? ==> r.error == Malformed
  {
    match AsReal(v)
    case Some(x) => Success(x)
    case None => Failure(Malformed)
  }

  function Min(a: real, b: real): real { if a <= b then a else b }
  function Max(a: real, b: real): real { if a <= b then b else a }

  /** The consecutive pairs `(c[0], c[1]), (c[2], c[3]), ...`; an odd last coordinate is dropped. */
  function Pairs(coords: seq<Value>): (r: Result<seq<(real, real)>>)
    ensures r.Failure? ==> r.error == Malformed
    decreases |coords|
  {
    if |coords| < 2 then Success([])
    else
      var x :- Coordinate(coords[0]);
      var y :- Coordinate(coords[1]);
      var rest :- Pairs(coords[2..]);
      Success([(x, y)] + rest)
  }

  /** The vertices are the coordinates taken two by two. */
  lemma {:induction false} PairsExact(coords: seq<Value>)
    requires Pairs(coords).Success?
    ensures |Pairs(coords).value| == |coords| / 2
    ensures forall i :: 0 <= i < |coords| / 2 ==>
      && AsReal(coords[2 * i]).Some? && AsReal(coords[2 * i + 1]).Some?
      && Pairs(coords).value[i] == (AsReal(coords[2 * i]).value, AsReal(coords[2 * i + 1]).value)
    decreases |coords|
  {
    if |coords| >= 2 {
      var rest := coords[2..];
      PairsExact(rest);
      forall i | 1 <= i < |coords| / 2
        ensures && AsReal(coords[2 * i]).Some? && AsReal(coords[2 * i + 1]).Some?
                && Pairs(coords).value[i] == (AsReal(coords[2 * i]).value, AsReal(coords[2 * i + 1]).value)
      {
        assert Pairs(coords).value[i] == Pairs(rest).value[i - 1];
        assert rest[2 * (i - 1)] == coords[2 * i] && rest[2 * (i - 1) + 1] == coords[2 * i + 1];
      }
    }
  }

  /**
   * The shape one row's `meta` gives for the requested annotation type; a
   * type other than bbox, polygon and point leaves `inst` unbound. A polygon
   * of one or two vertices is no linear ring, and shapely raises ValueError.
   * A string or dict of length at most one as `points` leaves no pair to
   * read, and gives the empty polygon; a longer one fails on its first pair.
   */
  function BuildShape(annotType: string, meta: Value): (r: Result<Shape>)
    ensures annotType !in ["bbox", "polygon", "point"] ==> r == Failure(UnboundShape)
    ensures r.Failure? && annotType in ["bbox", "polygon", "point"] ==> r.error == Malformed
    ensures r.Success? && annotType == "bbox" ==> r.value.Box?
    ensures r.Success? && annotType == "polygon" ==>
      r.value.Polygon? && (|r.value.vertices| == 0 || |r.value.vertices| >= 3)
    ensures r.Success? && annotType == "point" ==> r.value.Point?
  {
    if annotType == "bbox" then
      var points :- Index(meta, "points");
      var x1v :- Index(points, "x1");
      var x2v :- Index(points, "x2");
      var y1v :- Index(points, "y1");
      var y2v :- Index(points, "y2");
      var x1 :- Coordinate(x1v);
      var x2 :- Coordinate(x2v);
      var y1 :- Coordinate(y1v);
      var y2 :- Coordinate(y2v);
      Success(Box(Min(x1, x2), Min(y1, y2), Max(x1, x2), Max(y1, y2)))
    else if annotType == "polygon" then
      var points :- Index(meta, "points");
      if (points.Str? && |points.s| <= 1) || (points.Dict? && |points.fields| <= 1) then
        Success(Polygon([]))
      else if !points.List? then Failure(Malformed)
      else
        var vertices :- Pairs(points.items);
        if 0 < |vertices| < 3 then Failure(Malformed)
        else Success(Polygon(vertices))
    else if annotType == "point" then
      var xv :- Index(meta, "x");
      var yv :- Index(meta, "y");
      var x :- Coordinate(xv);
      var y :- Coordinate(yv);
      Success(Point(x, y))
    else
      Failure(UnboundShape)
  }

  /** A bbox is normalised: its corners are the least and greatest of the two given coordinates. */
  lemma BoxNormalised(meta: Value)
    requires BuildShape("bbox", meta).Success?
    ensures var b := BuildShape("bbox", meta).value;
      var p := meta.fields["points"].fields;
      && b.minX <= b.maxX && b.minY <= b.maxY
      && {b.minX, b.maxX} == {AsReal(p["x1"]).value, AsReal(p["x2"]).value}
      && {b.minY, b.maxY} == {AsReal(p["y1"]).value, AsReal(p["y2"]).value}
  {
  }

  /** A polygon's vertices are its `points` list read two coordinates at a time. */
  lemma PolygonVertices(meta: Value)
    requires BuildShape("polygon", meta).Success?
    ensures meta.Dict? && "points" in meta.fields
    ensures ShortPoints(meta.fields["points"]) || meta.fields["points"].List?
    ensures ShortPoints(meta.fields["points"]) ==> BuildShape("polygon", meta).value.vertices == []
    ensures meta.fields["points"].List? ==>
      var c := meta.fields["points"].items;
      var v := BuildShape("polygon", meta).value.vertices;
      && |v| == |c| / 2
      && (|v| == 0 || |v| >= 3)
      && forall i :: 0 <= i < |c| / 2 ==>
           && AsReal(c[2 * i]).Some? && AsReal(c[2 * i + 1]).Some?
           && v[i] == (AsReal(c[2 * i]).value, AsReal(c[2 * i + 1]).value)
  {
    if meta.fields["points"].List? {
      PairsExact(meta.fields["points"].items);
    }
  }

  /** A string or dict `points` with no pair of items to read. */
  predicate ShortPoints(points: Value) {
    (points.Str? && |points.s| <= 1) || (points.Dict? && |points.fields| <= 1)
  }

  /** A `points` that is a string or dict of length at most one gives the empty polygon. */
  lemma PolygonShortPoints(meta: Value)
    requires meta.Dict? && "points" in meta.fields && ShortPoints(meta.fields["points"])
    ensures BuildShape("polygon", meta) == Success(Polygon([]))
  {
  }

  /** A `points` list of two to five coordinates, all numbers, gives too few vertices for a ring. */
  lemma PolygonTooFewVertices(meta: Value)
    requires meta.Dict? && "points" in meta.fields && meta.fields["points"].List?
    requires var c := meta.fields["points"].items;
      2 <= |c| < 6 && forall i :: 0 <= i < |c| ==> AsReal(c[i]).Some?
    ensures BuildShape("polygon", meta) == Failure(Malformed)
  {
    var c := meta.fields["points"].items;
    PairsTotal(c);
    PairsExact(c);
  }

  /** Coordinates that are all numbers always pair up. */
  lemma {:induction false} PairsTotal(coords: seq<Value>)
    requires forall i :: 0 <= i < |coords| ==> AsReal(coords[i]).Some?
    ensures Pairs(coords).Success?
    decreases |coords|
  {
    if |coords| >= 2 {
      assert AsReal(coords[0]).Some? && AsReal(coords[1]).Some?;
      var rest := coords[2..];
      assert forall i :: 0 <= i < |rest| ==> rest[i] == coords[i + 2];
      PairsTotal(rest);
    }
  }
}
