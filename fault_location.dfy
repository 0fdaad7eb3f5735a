/**
 * Fault location by kilometre: the request check, the line's km range check, the
 * scan that brackets the target km between the line's structures, and the chain
 * of strategies (interpolation between two structures, a single structure, a
 * fraction of the line geometry) that turns a km into a point.
 *
 * The database reads and the three PostGIS procedures are function values of a
 * `Backend`; a procedure that fails is the message it throws.
 */
module FaultLocation {
  import opened Wrappers
  import opened JsNumber
  import opened Json

  /** A `lineas` row: `km_inicio`, `km_fin` and `geom` as the client returns them. */
  datatype LineaRow = LineaRow(kmInicio: JValue, kmFin: JValue, geom: JValue)

  /** An `estructuras` row: `km` and `geom`. */
  datatype EstructuraRow = EstructuraRow(km: JValue, geom: JValue)

  datatype Backend = Backend(
    /** The line with the given id; None for a lookup error or no row. */
    findLinea: JValue -> Option<LineaRow>,
    /** The line's structures ordered by ascending km, or the error of the query. */
    listEstructuras: JValue -> Result<seq<EstructuraRow>, string>,
    /** `interpolate_point(geom1, geom2, km1, km2, target)`. */
    interpolatePoint: (JValue, JValue, Num, Num, real) -> Result<JValue, string>,
    /** `get_point_coords(geom)`. */
    getPointCoords: JValue -> Result<JValue, string>,
    /** `interpolate_line_point(line_geom, fraction)`. */
    interpolateLinePoint: (JValue, Num) -> Result<JValue, string>)

  datatype LatLon = LatLon(lat: real, lon: real)

  datatype Strategy = Interpolation | SingleStructure | LineGeometry

  datatype BadInput =
    | MissingInput
    | OutOfRange(km: real, inicio: real, fin: real)
    | NoCoordinates

  /** The handler's reply. A located point is sent with the strategy name and its WKT `POINT(lon lat)`. */
  datatype Outcome =
    | Located(at: LatLon, strategy: Strategy)
    | BadRequest(why: BadInput)
    | NotFound
    | ServerError(error: string)

  function Status(o: Outcome): (code: int)
    ensures code == 200 <==> o.Located?
  {
    match o
    case Located(_, _) => 200
    case BadRequest(_) => 400
    case NotFound => 404
    case ServerError(_) => 500
  }

  const MissingInputMessage := "lineaId and km are required"
  const NotFoundMessage := "Line not found"
  const NoCoordinatesMessage := "Cannot compute location: no valid coords from structures or line geometry"

  // ---------------------------------------------------------------------------
  // Reading coordinates out of an RPC reply

  /** `firstRow`: nothing for a falsy reply, the first element (or nothing) of an
      array, the reply itself otherwise. A null element counts as nothing. */
  function FirstRow(data: JValue): (r: Option<JValue>)
    ensures r.Some? ==> Truthy(data) && r.value != JNull
    ensures data.JObj? ==> r == Some(data)
  {
    if !Truthy(data) then None
    else if data.JArr? then
      if |data.items| == 0 || data.items[0] == JNull then None else Some(data.items[0])
    else Some(data)
  }

  /** `toNum`: `Number(v)`, with both infinities turned into NaN. */
  function ToNum(v: Option<JValue>): (n: Num)
    ensures n.Finite? || n == NaN
    ensures IsFinite(ToNumber(v)) ==> n == ToNumber(v)
  {
    var x := ToNumber(v);
    if IsFinite(x) then x else NaN
  }

  /** `extractLatLon`: the row's `lat ?? latitude` and `lon ?? lng ?? longitude`,
      when both are finite numbers. */
  function ExtractLatLon(data: JValue): (r: Option<LatLon>)
    ensures !Truthy(data) ==> r.None?
    ensures data.JArr? && |data.items| == 0 ==> r.None?
  {
    var row := FirstRow(data);
    if row.None? || !Truthy(row.value) then None
    else
      var lat := ToNum(Coalesce(Get(row.value, "lat"), Get(row.value, "latitude")));
      var lon := ToNum(Coalesce(Get(row.value, "lon"), Coalesce(Get(row.value, "lng"), Get(row.value, "longitude"))));
      if IsFinite(lat) && IsFinite(lon) then Some(LatLon(lat.value, lon.value)) else None
  }

  /** A reply that is a list of rows reads as its first row. */
  lemma ExtractLatLonFirstOfArray(row: JValue, rest: seq<JValue>)
    requires !row.JArr?
    ensures ExtractLatLon(JArr([row] + rest)) == ExtractLatLon(row)
  {
  }

  /** A non-null `lat` hides `latitude`, and a non-null `lon` hides `lng` and
      `longitude`. */
  lemma ExtractLatLonPrefersShortKeys(props: map<string, JValue>, v: JValue, w: JValue)
    requires "lat" in props && props["lat"] != JNull
    requires "lon" in props && props["lon"] != JNull
    ensures ExtractLatLon(JObj(props["latitude" := v]["lng" := w])) == ExtractLatLon(JObj(props))
    ensures ExtractLatLon(JObj(props["longitude" := v])) == ExtractLatLon(JObj(props))
  {
    var a := JObj(props["latitude" := v]["lng" := w]);
    assert Get(a, "lat") == Get(JObj(props), "lat");
    assert Get(a, "lon") == Get(JObj(props), "lon");
    var b := JObj(props["longitude" := v]);
    assert Get(b, "lat") == Get(JObj(props), "lat");
    assert Get(b, "lon") == Get(JObj(props), "lon");
  }

  /** `lat` with `lng` reads as a point. */
  lemma ExtractLatLonLng()
    ensures ExtractLatLon(JObj(map["lat" := JNum(Finite(1.0)), "lng" := JNum(Finite(2.0))]))
      == Some(LatLon(1.0, 2.0))
  {
    var o := JObj(map["lat" := JNum(Finite(1.0)), "lng" := JNum(Finite(2.0))]);
    assert Get(o, "lat") == Some(JNum(Finite(1.0)));
    assert Get(o, "lon") == None && Get(o, "lng") == Some(JNum(Finite(2.0)));
  }

  /** In a list of rows, `latitude` and `longitude` are read when `lat` is missing
      and `lon` is null. */
  lemma ExtractLatLonLongKeys()
    ensures ExtractLatLon(JArr([JObj(map["latitude" := JNum(Finite(3.0)), "lon" := JNull, "longitude" := JNum(Finite(4.0))])]))
      == Some(LatLon(3.0, 4.0))
  {
    var o := JObj(map["latitude" := JNum(Finite(3.0)), "lon" := JNull, "longitude" := JNum(Finite(4.0))]);
    assert FirstRow(JArr([o])) == Some(o);
    assert Get(o, "lat") == None && Get(o, "latitude") == Some(JNum(Finite(3.0)));
    assert Get(o, "lon") == Some(JNull) && Get(o, "lng") == None;
    assert Get(o, "longitude") == Some(JNum(Finite(4.0)));
  }

  /** A row without a longitude, or with an infinite latitude, gives no point. */
  lemma ExtractLatLonRejects()
    ensures ExtractLatLon(JObj(map["lat" := JNum(Finite(1.0))])) == None
    ensures ExtractLatLon(JObj(map["lat" := JNum(PosInf), "lon" := JNum(Finite(1.0))])) == None
  {
    var o := JObj(map["lat" := JNum(Finite(1.0))]);
    assert Get(o, "lon") == None && Get(o, "lng") == None && Get(o, "longitude") == None;
    var p := JObj(map["lat" := JNum(PosInf), "lon" := JNum(Finite(1.0))]);
    assert Get(p, "lat") == Some(JNum(PosInf));
  }

  // ---------------------------------------------------------------------------
  // The request

  datatype Request = Request(lineaId: JValue, km: real)

  /** `body?.lineaId` must be truthy and `Number(body?.km)` finite. */
  function ParseRequest(body: JValue): (r: Result<Request, Outcome>)
    ensures r.Failure? ==> r.error == BadRequest(MissingInput)
    ensures r.Success? <==>
      Get(body, "lineaId").Some? && Truthy(Get(body, "lineaId").value) && IsFinite(ToNumber(Get(body, "km")))
    ensures r.Success? ==> Finite(r.value.km) == ToNumber(Get(body, "km"))
  {
    var id := Get(body, "lineaId");
    var km := ToNumber(Get(body, "km"));
    if id.None? || !Truthy(id.value) || !IsFinite(km) then Failure(BadRequest(MissingInput))
    else Success(Request(id.value, km.value))
  }

  // ---------------------------------------------------------------------------
  // The km range of the line

  /** `v !== null ? Number(v) : null`. */
  function KmBound(v: JValue): Option<Num>
  {
    if v == JNull then None else Some(ToNumber(Some(v)))
  }

  /** The range `[km_inicio, km_fin]` when both ends are present and finite. */
  function Bounds(line: LineaRow): (b: Option<(real, real)>)
    ensures b.Some? <==>
      (KmBound(line.kmInicio).Some? && KmBound(line.kmFin).Some?
       && IsFinite(KmBound(line.kmInicio).value) && IsFinite(KmBound(line.kmFin).value))
  {
    var a := KmBound(line.kmInicio);
    var z := KmBound(line.kmFin);
    if a.Some? && z.Some? && IsFinite(a.value) && IsFinite(z.value) then Some((a.value.value, z.value.value))
    else None
  }

  /** The range error for `km`, if any. */
  function RangeError(line: LineaRow, km: real): (e: Option<BadInput>)
    ensures e.Some? ==> e.value.OutOfRange? && Bounds(line).Some?
    ensures e.Some? <==> Bounds(line).Some? && !(Bounds(line).value.0 <= km <= Bounds(line).value.1)
  {
    match Bounds(line)
    case None => None
    case Some((a, z)) => if km < a || km > z then Some(OutOfRange(km, a, z)) else None
  }

  // ---------------------------------------------------------------------------
  // The bracket scan

  function RowKm(e: EstructuraRow): Num
  {
    ToNumber(Some(e.km))
  }

  predicate Below(e: EstructuraRow, km: real)
  {
    IsFinite(RowKm(e)) && RowKm(e).value <= km
  }

  predicate Above(e: EstructuraRow, km: real)
  {
    IsFinite(RowKm(e)) && RowKm(e).value >= km
  }

  /** The index of the last structure at or before `km`. */
  function LastBelow(rows: seq<EstructuraRow>, km: real): (r: Option<nat>)
    ensures r.Some? ==>
      (r.value < |rows| && Below(rows[r.value], km)
       && forall j :: r.value < j < |rows| ==> !Below(rows[j], km))
    ensures r.None? ==> forall j :: 0 <= j < |rows| ==> !Below(rows[j], km)
  {
    if |rows| == 0 then None
    else if Below(rows[|rows| - 1], km) then Some(|rows| - 1)
    else LastBelow(rows[..|rows| - 1], km)
  }

  /** The index of the first structure at or after `km`. */
  function FirstAbove(rows: seq<EstructuraRow>, km: real): (r: Option<nat>)
    ensures r.Some? ==>
      (r.value < |rows| && Above(rows[r.value], km)
       && forall j :: 0 <= j < r.value ==> !Above(rows[j], km))
    ensures r.None? ==> forall j :: 0 <= j < |rows| ==> !Above(rows[j], km)
  {
    if |rows| == 0 then None
    else
      match FirstAbove(rows[..|rows| - 1], km)
      case Some(i) => Some(i)
      case None => if Above(rows[|rows| - 1], km) then Some(|rows| - 1) else None
  }

  function At(rows: seq<EstructuraRow>, i: Option<nat>): Option<EstructuraRow>
    requires i.Some? ==> i.value < |rows|
  {
    if i.Some? then Some(rows[i.value]) else None
  }

  /** `e1`, the last structure with km <= target, and `e2`, the first with
      km >= target; structures whose km is not finite are passed over. */
  function Bracket(rows: seq<EstructuraRow>, km: real): (Option<EstructuraRow>, Option<EstructuraRow>)
  {
    (At(rows, LastBelow(rows, km)), At(rows, FirstAbove(rows, km)))
  }

  /** The scan over the structures: `e1` is overwritten by every structure at or
      before the target, `e2` is set by the first one at or after it. */
  method ScanBracket(rows: seq<EstructuraRow>, km: real) returns (e1: Option<EstructuraRow>, e2: Option<EstructuraRow>)
    ensures (e1, e2) == Bracket(rows, km)
  {
    e1, e2 := None, None;
    for i := 0 to |rows|
      invariant e1 == At(rows, LastBelow(rows[..i], km))
      invariant e2 == At(rows, FirstAbove(rows[..i], km))
    {
      assert rows[..i + 1][..i] == rows[..i];
      var estKm := RowKm(rows[i]);
      if IsFinite(estKm) && estKm.value <= km {
        e1 := Some(rows[i]);
      }
      if IsFinite(estKm) && estKm.value >= km && e2.None? {
        e2 := Some(rows[i]);
      }
    }
    assert rows[..|rows|] == rows;
  }

  /** The km values are ascending, as the query orders them (passing over the
      structures whose km is not finite). A null km is an exception: the query
      sorts it last, but `Number(null)` reads it as 0, so rows holding one after
      positive kms are not `Ascending`, and the lemmas that assume it say
      nothing about them. */
  predicate Ascending(rows: seq<EstructuraRow>)
  {
    forall i, j :: 0 <= i < j < |rows| && IsFinite(RowKm(rows[i])) && IsFinite(RowKm(rows[j]))
      ==> RowKm(rows[i]).value <= RowKm(rows[j]).value
  }

  /** `e1` and `e2` enclose the target, and over ascending structures no
      structure lies strictly between them. */
  lemma BracketIsTight(rows: seq<EstructuraRow>, km: real, j: nat)
    requires Ascending(rows)
    requires Bracket(rows, km).0.Some? && Bracket(rows, km).1.Some?
    requires j < |rows| && IsFinite(RowKm(rows[j]))
    ensures RowKm(Bracket(rows, km).0.value).value <= km <= RowKm(Bracket(rows, km).1.value).value
    ensures !(RowKm(Bracket(rows, km).0.value).value < RowKm(rows[j]).value < RowKm(Bracket(rows, km).1.value).value)
  {
    var i1 := LastBelow(rows, km).value;
    var i2 := FirstAbove(rows, km).value;
    if RowKm(rows[j]).value <= km {
      assert j <= i1;
      if j < i1 {
        assert RowKm(rows[j]).value <= RowKm(rows[i1]).value;
      }
    } else {
      assert i2 <= j;
      if i2 < j {
        assert RowKm(rows[i2]).value <= RowKm(rows[j]).value;
      }
    }
  }

  /** Over ascending structures, a target equal to a structure's km brackets it
      between two structures of that very km. */
  lemma ExactHitBracket(rows: seq<EstructuraRow>, km: real, j: nat)
    requires Ascending(rows)
    requires j < |rows| && RowKm(rows[j]) == Finite(km)
    ensures Bracket(rows, km).0.Some? && Bracket(rows, km).1.Some?
    ensures RowKm(Bracket(rows, km).0.value) == RowKm(Bracket(rows, km).1.value) == Finite(km)
  {
    assert Below(rows[j], km) && Above(rows[j], km);
    var i1 := LastBelow(rows, km).value;
    var i2 := FirstAbove(rows, km).value;
    assert j <= i1 && i2 <= j;
    if j < i1 {
      assert RowKm(rows[j]).value <= RowKm(rows[i1]).value;
    }
    if i2 < j {
      assert RowKm(rows[i2]).value <= RowKm(rows[j]).value;
    }
  }

  function KmRow(km: real): EstructuraRow
  {
    EstructuraRow(JNum(Finite(km)), JNull)
  }

  /** Structures at km 5, 10 and 15 bracket the target 12 between 10 and 15. */
  lemma BracketExample()
    ensures Bracket([KmRow(5.0), KmRow(10.0), KmRow(15.0)], 12.0) == (Some(KmRow(10.0)), Some(KmRow(15.0)))
  {
    var rows := [KmRow(5.0), KmRow(10.0), KmRow(15.0)];
    assert rows[..2] == [KmRow(5.0), KmRow(10.0)];
    assert rows[..2][..1] == [KmRow(5.0)];
    assert !Below(rows[2], 12.0) && Below(rows[1], 12.0);
    assert LastBelow(rows, 12.0) == Some(1);
    assert !Above(rows[0], 12.0) && !Above(rows[1], 12.0) && Above(rows[2], 12.0);
    assert FirstAbove(rows[..2][..1], 12.0) == None;
    assert FirstAbove(rows[..2], 12.0) == None;
    assert FirstAbove(rows, 12.0) == Some(2);
  }

  // ---------------------------------------------------------------------------
  // The line-geometry fraction

  function Min(a: real, b: real): real { if a <= b then a else b }
  function Max(a: real, b: real): real { if a >= b then a else b }

  /** `Math.max(0, Math.min(1, (km - inicio) / (fin - inicio)))` for a range with
      `fin > inicio`. With an infinite end the division is done in IEEE terms: a
      finite numerator over an infinite denominator is a zero, and an infinite
      numerator over an infinite denominator is NaN, which the clamp keeps. */
  function LineFraction(km: real, inicio: Num, fin: Num): (f: Num)
    requires Less(inicio, fin)
    ensures f.Finite? ==> 0.0 <= f.value <= 1.0
    ensures inicio.Finite? && fin.Finite? ==> f.Finite?
  {
    match (inicio, fin)
    case (Finite(a), Finite(z)) => Finite(Max(0.0, Min(1.0, (km - a) / (z - a))))
    case (Finite(_), _) => Finite(0.0)
    case _ => NaN
  }

  /** Inside the range the fraction places `km` proportionally between the ends;
      before the start it is 0 and past the end it is 1. */
  lemma LineFractionInterpolates(km: real, a: real, z: real)
    requires a < z
    ensures a <= km <= z ==> a + LineFraction(km, Finite(a), Finite(z)).value * (z - a) == km
    ensures km <= a ==> LineFraction(km, Finite(a), Finite(z)) == Finite(0.0)
    ensures km >= z ==> LineFraction(km, Finite(a), Finite(z)) == Finite(1.0)
  {
    var q := (km - a) / (z - a);
    QuotientBounds(km - a, z - a);
    assert q * (z - a) == km - a;
  }

  /** Where `x / d` lies against 0 and 1, for a positive `d`. */
  lemma QuotientBounds(x: real, d: real)
    requires d > 0.0
    ensures x <= 0.0 ==> x / d <= 0.0
    ensures x >= d ==> x / d >= 1.0
    ensures 0.0 <= x <= d ==> 0.0 <= x / d <= 1.0
  {
    assert (x / d) * d == x;
  }

  /** A line from km 0 to km 10 and a target of 15 give the fraction 1. */
  lemma LineFractionExample()
    ensures LineFraction(15.0, Finite(0.0), Finite(10.0)) == Finite(1.0)
  {
    LineFractionInterpolates(15.0, 0.0, 10.0);
  }

  // ---------------------------------------------------------------------------
  // The strategies

  /** The structure that `single_structure` uses: `e1` without `e2`, or `e2`
      without `e1`. */
  function Single(e1: Option<EstructuraRow>, e2: Option<EstructuraRow>): (s: Option<EstructuraRow>)
    ensures s.Some? <==> e1.Some? != e2.Some?
    ensures s.Some? ==> s == e1 || s == e2
  {
    if e1.Some? && e2.None? then e1 else if e1.None? && e2.Some? then e2 else None
  }

  /** Interpolation is attempted only between two structures of different km. */
  predicate TriesInterpolation(e1: Option<EstructuraRow>, e2: Option<EstructuraRow>)
  {
    e1.Some? && e2.Some? && RowKm(e1.value) != RowKm(e2.value)
  }

  /** A procedure's reply as the handler reads it: the error it threw, or the
      coordinates `extractLatLon` finds in its data. */
  function CoordsOf(reply: Result<JValue, string>): Result<Option<LatLon>, string>
  {
    match reply
    case Failure(m) => Failure(m)
    case Success(data) => Success(ExtractLatLon(data))
  }

  /** `interpolate_point` between two structures, at the target km. */
  function Interpolated(backend: Backend, e1: EstructuraRow, e2: EstructuraRow, km: real): Result<Option<LatLon>, string>
  {
    CoordsOf(backend.interpolatePoint(e1.geom, e2.geom, RowKm(e1), RowKm(e2), km))
  }

  /** `get_point_coords` of one structure. */
  function PointCoords(backend: Backend, s: EstructuraRow): Result<Option<LatLon>, string>
  {
    CoordsOf(backend.getPointCoords(s.geom))
  }

  /** The structure strategies in turn: a point, nothing (fall through to the
      line), or the message an RPC threw. No structures means nothing to try.
      When the bracket has two sides of different km, the outcome is that of
      `interpolate_point` (a point tagged interpolation, its error, or nothing);
      when exactly one side exists, that of `get_point_coords` on it (tagged
      single structure); otherwise nothing. */
  function TryStructures(backend: Backend, rows: seq<EstructuraRow>, km: real): (r: Result<Option<(LatLon, Strategy)>, string>)
    ensures |rows| == 0 ==> r == Success(None)
    ensures r.Success? && r.value.Some? ==> r.value.value.1 != LineGeometry
    ensures r.Success? && r.value.Some? && r.value.value.1 == Interpolation ==>
      TriesInterpolation(Bracket(rows, km).0, Bracket(rows, km).1)
    ensures r.Success? && r.value.Some? && r.value.value.1 == SingleStructure ==>
      Bracket(rows, km).0.Some? != Bracket(rows, km).1.Some?
    ensures |rows| > 0 && TriesInterpolation(Bracket(rows, km).0, Bracket(rows, km).1) ==>
      match Interpolated(backend, Bracket(rows, km).0.value, Bracket(rows, km).1.value, km)
      case Failure(m) => r == Failure(m)
      case Success(Some(at)) => r == Success(Some((at, Interpolation)))
      case Success(None) => r == Success(None)
    ensures |rows| > 0 && Single(Bracket(rows, km).0, Bracket(rows, km).1).Some? ==>
      match PointCoords(backend, Single(Bracket(rows, km).0, Bracket(rows, km).1).value)
      case Failure(m) => r == Failure(m)
      case Success(Some(at)) => r == Success(Some((at, SingleStructure)))
      case Success(None) => r == Success(None)
    ensures !TriesInterpolation(Bracket(rows, km).0, Bracket(rows, km).1)
            && Single(Bracket(rows, km).0, Bracket(rows, km).1).None? ==>
      r == Success(None)
  {
    if |rows| == 0 then Success(None)
    else
      var (e1, e2) := Bracket(rows, km);
      var interpolated := if TriesInterpolation(e1, e2) then Interpolated(backend, e1.value, e2.value, km) else Success(None);
      if interpolated.Failure? then Failure(interpolated.error)
      else if interpolated.value.Some? then Success(Some((interpolated.value.value, Interpolation)))
      else
        var single := Single(e1, e2);
        if single.None? then Success(None)
        else
          match PointCoords(backend, single.value)
          case Failure(m) => Failure(m)
          case Success(coords) =>
            if coords.Some? then Success(Some((coords.value, SingleStructure))) else Success(None)
  }

  /** The line strategy applies to a line with a geometry and `km_fin > km_inicio`. */
  predicate TriesLine(line: LineaRow)
  {
    Truthy(line.geom) && KmBound(line.kmInicio).Some? && KmBound(line.kmFin).Some?
    && Less(KmBound(line.kmInicio).value, KmBound(line.kmFin).value)
  }

  /** `interpolate_line_point` along a qualifying line at the clamped fraction
      of the target between its two ends. */
  function LinePoint(backend: Backend, line: LineaRow, km: real): Result<Option<LatLon>, string>
    requires TriesLine(line)
  {
    CoordsOf(backend.interpolateLinePoint(line.geom, LineFraction(km, KmBound(line.kmInicio).value, KmBound(line.kmFin).value)))
  }

  /** The line strategy: nothing unless the line qualifies, and otherwise the
      point (or the error) of interpolating along it at the clamped fraction. */
  function TryLine(backend: Backend, line: LineaRow, km: real): (r: Result<Option<LatLon>, string>)
    ensures !TriesLine(line) ==> r == Success(None)
    ensures r.Failure? ==>
      TriesLine(line)
      && backend.interpolateLinePoint(line.geom, LineFraction(km, KmBound(line.kmInicio).value, KmBound(line.kmFin).value))
         == Failure(r.error)
    ensures TriesLine(line) ==> r == LinePoint(backend, line, km)
  {
    if TriesLine(line) then
      var fraction := LineFraction(km, KmBound(line.kmInicio).value, KmBound(line.kmFin).value);
      match backend.interpolateLinePoint(line.geom, fraction)
      case Failure(m) => Failure(m)
      case Success(data) => Success(ExtractLatLon(data))
    else Success(None)
  }

  /** The reply for a request body (or the error of reading it). A point is
      located only for a valid request whose line exists and whose km lies in
      the line's range; a 404 only for a valid request whose line is missing. */
  function Resolve(backend: Backend, body: Result<JValue, string>): (o: Outcome)
    ensures o.Located? ==>
      body.Success? && ParseRequest(body.value).Success?
      && backend.findLinea(ParseRequest(body.value).value.lineaId).Some?
      && RangeError(backend.findLinea(ParseRequest(body.value).value.lineaId).value, ParseRequest(body.value).value.km).None?
    ensures o.NotFound? <==>
      body.Success? && ParseRequest(body.value).Success?
      && backend.findLinea(ParseRequest(body.value).value.lineaId).None?
  {
    match body
    case Failure(m) => ServerError(m)
    case Success(b) =>
      match ParseRequest(b)
      case Failure(o) => o
      case Success(req) =>
        match backend.findLinea(req.lineaId)
        case None => NotFound
        case Some(line) =>
          match RangeError(line, req.km)
          case Some(e) => BadRequest(e)
          case None =>
            match backend.listEstructuras(req.lineaId)
            case Failure(m) => ServerError(m)
            case Success(rows) =>
              match TryStructures(backend, rows, req.km)
              case Failure(m) => ServerError(m)
              case Success(Some((at, strategy))) => Located(at, strategy)
              case Success(None) =>
                match TryLine(backend, line, req.km)
                case Failure(m) => ServerError(m)
                case Success(Some(at)) => Located(at, LineGeometry)
                case Success(None) => BadRequest(NoCoordinates)
  }

  /** The handler: the early returns in order, with the bracket scan as a loop. */
  method Locate(backend: Backend, body: Result<JValue, string>) returns (out: Outcome)
    ensures out == Resolve(backend, body)
  {
    if body.Failure? {
      return ServerError(body.error);
    }
    var request := ParseRequest(body.value);
    if request.Failure? {
      return request.error;
    }
    var lineaId, km := request.value.lineaId, request.value.km;
    var linea := backend.findLinea(lineaId);
    if linea.None? {
      return NotFound;
    }
    var line := linea.value;
    var range := RangeError(line, km);
    if range.Some? {
      return BadRequest(range.value);
    }
    var estructuras := backend.listEstructuras(lineaId);
    if estructuras.Failure? {
      return ServerError(estructuras.error);
    }
    var rows := estructuras.value;
    if |rows| > 0 {
      var e1, e2 := ScanBracket(rows, km);
      if TriesInterpolation(e1, e2) {
        var reply := backend.interpolatePoint(e1.value.geom, e2.value.geom, RowKm(e1.value), RowKm(e2.value), km);
        if reply.Failure? {
          return ServerError(reply.error);
        }
        var coords := ExtractLatLon(reply.value);
        if coords.Some? {
          return Located(coords.value, Interpolation);
        }
      }
      var single := Single(e1, e2);
      if single.Some? {
        var reply := backend.getPointCoords(single.value.geom);
        if reply.Failure? {
          return ServerError(reply.error);
        }
        var coords := ExtractLatLon(reply.value);
        if coords.Some? {
          return Located(coords.value, SingleStructure);
        }
      }
    }
    if TriesLine(line) {
      var fraction := LineFraction(km, KmBound(line.kmInicio).value, KmBound(line.kmFin).value);
      var reply := backend.interpolateLinePoint(line.geom, fraction);
      if reply.Failure? {
        return ServerError(reply.error);
      }
      var coords := ExtractLatLon(reply.value);
      if coords.Some? {
        return Located(coords.value, LineGeometry);
      }
    }
    return BadRequest(NoCoordinates);
  }

  // ---------------------------------------------------------------------------
  // Properties of the handler

  /** A body without a truthy `lineaId` or a finite `km` is answered with 400
      before any lookup: the backend plays no part. */
  lemma InvalidRequestNeedsNoLookup(backend: Backend, other: Backend, body: JValue)
    requires ParseRequest(body).Failure?
    ensures Resolve(backend, Success(body)) == Resolve(other, Success(body)) == BadRequest(MissingInput)
  {
  }

  /** A km outside a finite `[km_inicio, km_fin]` is answered with 400 before the
      structures are read: no other part of the backend affects the reply. */
  lemma RangeCheckComesFirst(backend: Backend, body: JValue,
                             list: JValue -> Result<seq<EstructuraRow>, string>)
    requires ParseRequest(body).Success?
    requires backend.findLinea(ParseRequest(body).value.lineaId).Some?
    requires RangeError(backend.findLinea(ParseRequest(body).value.lineaId).value, ParseRequest(body).value.km).Some?
    ensures Resolve(backend, Success(body)).BadRequest?
    ensures Resolve(backend, Success(body)).why.OutOfRange?
    ensures Resolve(backend.(listEstructuras := list), Success(body)) == Resolve(backend, Success(body))
  {
  }

  /** A located point tagged `line_geometry` comes from a line with a geometry and
      `km_fin > km_inicio`, after both structure strategies gave nothing. */
  lemma LineStrategyCondition(backend: Backend, body: JValue)
    requires Resolve(backend, Success(body)).Located? && Resolve(backend, Success(body)).strategy == LineGeometry
    ensures ParseRequest(body).Success?
    ensures backend.findLinea(ParseRequest(body).value.lineaId).Some?
    ensures TriesLine(backend.findLinea(ParseRequest(body).value.lineaId).value)
    ensures backend.listEstructuras(ParseRequest(body).value.lineaId).Success?
    ensures TryStructures(backend, backend.listEstructuras(ParseRequest(body).value.lineaId).value,
                          ParseRequest(body).value.km) == Success(None)
  {
  }

  /** A target km equal to a structure's km, over ascending structures, skips
      both structure strategies: the bracket has two sides of the same km, so
      neither interpolation nor a single structure is tried. */
  lemma ExactHitSkipsStructures(backend: Backend, rows: seq<EstructuraRow>, km: real, j: nat)
    requires Ascending(rows)
    requires j < |rows| && RowKm(rows[j]) == Finite(km)
    ensures TryStructures(backend, rows, km) == Success(None)
  {
    ExactHitBracket(rows, km, j);
    var (e1, e2) := Bracket(rows, km);
    assert !TriesInterpolation(e1, e2);
    assert Single(e1, e2).None?;
  }

  /** A failing structure query, after a valid in-range request for an existing
      line, is answered with 500 and the query's message. */
  lemma StructureQueryFailureIs500(backend: Backend, body: JValue)
    requires ParseRequest(body).Success?
    requires backend.findLinea(ParseRequest(body).value.lineaId).Some?
    requires RangeError(backend.findLinea(ParseRequest(body).value.lineaId).value, ParseRequest(body).value.km).None?
    requires backend.listEstructuras(ParseRequest(body).value.lineaId).Failure?
    ensures Resolve(backend, Success(body)) == ServerError(backend.listEstructuras(ParseRequest(body).value.lineaId).error)
  {
  }

  /** A request that reaches the strategies: valid, for an existing line, with
      `km` in the line's range, and with a successful structure query. */
  predicate Reaches(backend: Backend, body: JValue, line: LineaRow, rows: seq<EstructuraRow>, km: real)
  {
    ParseRequest(body).Success? && ParseRequest(body).value.km == km
    && backend.findLinea(ParseRequest(body).value.lineaId) == Some(line)
    && RangeError(line, km).None?
    && backend.listEstructuras(ParseRequest(body).value.lineaId) == Success(rows)
  }

  /** Interpolation comes first: when the bracket has two sides of different km
      and `interpolate_point` between them yields a point, that point is the
      reply, tagged interpolation. */
  lemma InterpolationLocates(backend: Backend, body: JValue, line: LineaRow, rows: seq<EstructuraRow>, km: real, at: LatLon)
    requires Reaches(backend, body, line, rows, km)
    requires TriesInterpolation(Bracket(rows, km).0, Bracket(rows, km).1)
    requires Interpolated(backend, Bracket(rows, km).0.value, Bracket(rows, km).1.value, km) == Success(Some(at))
    ensures Resolve(backend, Success(body)) == Located(at, Interpolation)
  {
  }

  /** With exactly one side of the bracket, interpolation is not tried and the
      reply is the point `get_point_coords` yields for that structure, tagged
      single structure. */
  lemma SingleStructureLocates(backend: Backend, body: JValue, line: LineaRow, rows: seq<EstructuraRow>, km: real,
                               s: EstructuraRow, at: LatLon)
    requires Reaches(backend, body, line, rows, km)
    requires Single(Bracket(rows, km).0, Bracket(rows, km).1) == Some(s)
    requires PointCoords(backend, s) == Success(Some(at))
    ensures !TriesInterpolation(Bracket(rows, km).0, Bracket(rows, km).1)
    ensures Resolve(backend, Success(body)) == Located(at, SingleStructure)
  {
  }

  /** When the structures give nothing and the line qualifies, the reply is the
      point `interpolate_line_point` yields at the clamped fraction of the
      target along the line, tagged line geometry. */
  lemma LineGeometryLocates(backend: Backend, body: JValue, line: LineaRow, rows: seq<EstructuraRow>, km: real, at: LatLon)
    requires Reaches(backend, body, line, rows, km)
    requires TryStructures(backend, rows, km) == Success(None)
    requires TriesLine(line)
    requires LinePoint(backend, line, km) == Success(Some(at))
    ensures Resolve(backend, Success(body)) == Located(at, LineGeometry)
  {
  }

  /** Every procedure the handler reaches throws into a 500 carrying its own
      message: `interpolate_point`, `get_point_coords` on the single structure,
      and `interpolate_line_point` after the structures gave nothing. */
  lemma RpcFailureIs500(backend: Backend, body: JValue, line: LineaRow, rows: seq<EstructuraRow>, km: real, m: string)
    requires Reaches(backend, body, line, rows, km)
    ensures TriesInterpolation(Bracket(rows, km).0, Bracket(rows, km).1)
      && Interpolated(backend, Bracket(rows, km).0.value, Bracket(rows, km).1.value, km) == Failure(m)
      ==> Resolve(backend, Success(body)) == ServerError(m)
    ensures Single(Bracket(rows, km).0, Bracket(rows, km).1).Some?
      && PointCoords(backend, Single(Bracket(rows, km).0, Bracket(rows, km).1).value) == Failure(m)
      ==> Resolve(backend, Success(body)) == ServerError(m)
    ensures TryStructures(backend, rows, km) == Success(None) && TriesLine(line)
      && LinePoint(backend, line, km) == Failure(m)
      ==> Resolve(backend, Success(body)) == ServerError(m)
  {
  }

  /** The 400 "cannot compute location" is given exactly when both the
      structure strategies and the line strategy give nothing. */
  lemma NoCoordinatesExactly(backend: Backend, body: JValue, line: LineaRow, rows: seq<EstructuraRow>, km: real)
    requires Reaches(backend, body, line, rows, km)
    ensures Resolve(backend, Success(body)) == BadRequest(NoCoordinates)
      <==> TryStructures(backend, rows, km) == Success(None) && TryLine(backend, line, km) == Success(None)
  {
  }

  /** Two sides of the bracket with the same km, whatever the order of the
      rows, leave nothing to try among the structures. */
  lemma EqualSidesSkipStructures(backend: Backend, rows: seq<EstructuraRow>, km: real)
    requires Bracket(rows, km).0.Some? && Bracket(rows, km).1.Some?
    requires RowKm(Bracket(rows, km).0.value) == RowKm(Bracket(rows, km).1.value)
    ensures TryStructures(backend, rows, km) == Success(None)
  {
  }
}
