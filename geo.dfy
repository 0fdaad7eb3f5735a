/**
 * The GeoJSON shape validator of the front end: `isPosition`, `isGeoJSONGeometry`
 * and `isGeoJSONPoint` over untyped input, and the typed geometries they admit.
 */
module Geo {
  import opened Wrappers
  import opened JsNumber
  import opened Json

  /** A [longitude, latitude] pair with finite components. */
  datatype Position = Position(lon: real, lat: real)

  datatype Geometry =
    | Point(coordinates: Position)
    | LineString(path: seq<Position>)
    | MultiLineString(paths: seq<seq<Position>>)

  predicate IsFiniteNumber(v: JValue)
  {
    v.JNum? && IsFinite(v.n)
  }

  /** `isPosition`: an array of at least two elements whose first two are finite
      numbers; further elements (an altitude) are allowed. */
  predicate IsPosition(v: Option<JValue>)
  {
    v.Some? && v.value.JArr? && |v.value.items| >= 2
    && IsFiniteNumber(v.value.items[0]) && IsFiniteNumber(v.value.items[1])
  }

  /** `Array.isArray(v) && v.every(isPosition)`. */
  predicate IsPositionArray(v: Option<JValue>)
  {
    v.Some? && v.value.JArr? && forall k :: 0 <= k < |v.value.items| ==> IsPosition(Some(v.value.items[k]))
  }

  /** `typeof v === 'object' && v` for a JSON value: arrays and objects, not null. */
  predicate IsObject(v: JValue)
  {
    v.JArr? || v.JObj?
  }

  predicate HasType(v: JValue, name: string)
  {
    Get(v, "type") == Some(JStr(name))
  }

  /** `isGeoJSONGeometry`. */
  predicate IsGeoJSONGeometry(v: JValue)
  {
    if !IsObject(v) then false
    else if HasType(v, "Point") then IsPosition(Get(v, "coordinates"))
    else if HasType(v, "LineString") then IsPositionArray(Get(v, "coordinates"))
    else if HasType(v, "MultiLineString") then
      var c := Get(v, "coordinates");
      c.Some? && c.value.JArr? && forall k :: 0 <= k < |c.value.items| ==> IsPositionArray(Some(c.value.items[k]))
    else false
  }

  /** `isGeoJSONPoint`. */
  predicate IsGeoJSONPoint(v: JValue)
  {
    IsGeoJSONGeometry(v) && HasType(v, "Point")
  }

  /** The typed position read from a value that `IsPosition` accepts (extra
      elements dropped). */
  function PositionOf(v: JValue): Position
    requires IsPosition(Some(v))
  {
    Position(v.items[0].n.value, v.items[1].n.value)
  }

  function PathOf(v: JValue): seq<Position>
    requires IsPositionArray(Some(v))
  {
    seq(|v.items|, k requires 0 <= k < |v.items| => PositionOf(v.items[k]))
  }

  /** The typed geometry the validator's type guard promises, or None when the
      validator rejects the value. */
  function Decode(v: JValue): (g: Option<Geometry>)
    ensures g.Some? <==> IsGeoJSONGeometry(v)
    ensures g.Some? ==> (g.value.Point? <==> IsGeoJSONPoint(v))
  {
    if !IsGeoJSONGeometry(v) then None
    else
      var c := Get(v, "coordinates").value;
      if HasType(v, "Point") then Some(Point(PositionOf(c)))
      else if HasType(v, "LineString") then Some(LineString(PathOf(c)))
      else Some(MultiLineString(seq(|c.items|, k requires 0 <= k < |c.items| => PathOf(c.items[k]))))
  }

  function EncodePosition(p: Position): JValue
  {
    JArr([JNum(Finite(p.lon)), JNum(Finite(p.lat))])
  }

  function EncodePath(path: seq<Position>): JValue
  {
    JArr(seq(|path|, k requires 0 <= k < |path| => EncodePosition(path[k])))
  }

  /** The GeoJSON object for a typed geometry. */
  function Encode(g: Geometry): JValue
  {
    match g
    case Point(p) => JObj(map["type" := JStr("Point"), "coordinates" := EncodePosition(p)])
    case LineString(path) => JObj(map["type" := JStr("LineString"), "coordinates" := EncodePath(path)])
    case MultiLineString(paths) =>
      JObj(map["type" := JStr("MultiLineString"),
               "coordinates" := JArr(seq(|paths|, k requires 0 <= k < |paths| => EncodePath(paths[k])))])
  }

  lemma DecodeEncodePath(path: seq<Position>)
    ensures IsPositionArray(Some(EncodePath(path)))
    ensures PathOf(EncodePath(path)) == path
  {
    var e := EncodePath(path);
    assert forall k :: 0 <= k < |path| ==> e.items[k] == EncodePosition(path[k]);
  }

  /** Every typed geometry encodes to a value the validator accepts, and decoding
      it gives the geometry back. */
  lemma DecodeEncode(g: Geometry)
    ensures IsGeoJSONGeometry(Encode(g))
    ensures Decode(Encode(g)) == Some(g)
  {
    var v := Encode(g);
    assert HasType(v, "Point") <==> g.Point?;
    assert HasType(v, "LineString") <==> g.LineString?;
    match g
    case Point(p) =>
    case LineString(path) =>
      DecodeEncodePath(path);
    case MultiLineString(paths) =>
      var c := Get(v, "coordinates").value;
      forall k | 0 <= k < |paths|
        ensures IsPositionArray(Some(c.items[k])) && PathOf(c.items[k]) == paths[k]
      {
        DecodeEncodePath(paths[k]);
      }
      assert |c.items| == |paths|;
      var decoded := seq(|c.items|, k requires 0 <= k < |c.items| => PathOf(c.items[k]));
      assert decoded == paths;
  }

  /** An altitude (or any further element) does not affect `isPosition`. */
  lemma PositionIgnoresExtraElements(lon: JValue, lat: JValue, rest: seq<JValue>)
    ensures IsPosition(Some(JArr([lon, lat] + rest))) <==> IsPosition(Some(JArr([lon, lat])))
  {
  }

  /** A LineString and a MultiLineString with no coordinates at all are accepted. */
  lemma EmptyCoordinatesAccepted()
    ensures IsGeoJSONGeometry(JObj(map["type" := JStr("LineString"), "coordinates" := JArr([])]))
    ensures IsGeoJSONGeometry(JObj(map["type" := JStr("MultiLineString"), "coordinates" := JArr([JArr([])])]))
  {
    var m := JObj(map["type" := JStr("MultiLineString"), "coordinates" := JArr([JArr([])])]);
    assert Get(m, "coordinates") == Some(JArr([JArr([])]));
    assert IsPositionArray(Some(JArr([])));
  }

  /** Null, non-objects, arrays and objects of an unknown `type` are rejected. */
  lemma RejectsOtherInputs(v: JValue)
    requires !IsObject(v) || v.JArr?
      || !(HasType(v, "Point") || HasType(v, "LineString") || HasType(v, "MultiLineString"))
    ensures !IsGeoJSONGeometry(v)
  {
  }
}
