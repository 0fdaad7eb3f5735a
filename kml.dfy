/**
 * What the KMZ import reads from an upload and from the parsed KML before it
 * touches the database: the file kind, the KML member of a KMZ archive, the
 * document layout, ExtendedData values and, per layout, the candidate line
 * segments ("tramos") and structures ("estructuras") of every line.
 */
module Kml {
  import opened Wrappers
  import opened Text
  import opened Xml
  import opened Coordinates

  // ---------------------------------------------------------------- file kind

  datatype FileKind = Kmz | PlainKml

  /** The extension test of the handler: case-sensitive ".kmz" or ".kml". */
  function FileKindOf(name: string): (k: Option<FileKind>)
    ensures k.None? <==> !EndsWith(name, ".kmz") && !EndsWith(name, ".kml")
    ensures k == Some(Kmz) <==> EndsWith(name, ".kmz")
    ensures k == Some(PlainKml) ==> EndsWith(name, ".kml")
  {
    if EndsWith(name, ".kmz") then Some(Kmz)
    else if EndsWith(name, ".kml") then Some(PlainKml)
    else None
  }

  // ---------------------------------------------------------------- KMZ members

  /** An archive entry as the zip reader lists it, with its content decoded as text. */
  datatype ZipMember = ZipMember(name: string, isDir: bool, content: string)

  /** A KML candidate: not a directory, and the lower-cased name ends in ".kml". */
  predicate IsKmlMember(m: ZipMember)
  {
    !m.isDir && EndsWith(ToLower(m.name), ".kml")
  }

  /** The KML candidates of an archive, in archive order. */
  function KmlCandidates(members: seq<ZipMember>): (c: seq<ZipMember>)
    ensures forall k :: 0 <= k < |c| ==> IsKmlMember(c[k])
  {
    if members == [] then []
    else
      var last := members[|members| - 1];
      KmlCandidates(members[..|members| - 1]) + (if IsKmlMember(last) then [last] else [])
  }

  /** A member is a candidate exactly when it is a KML member of the archive. */
  lemma {:induction false} KmlCandidatesMembers(members: seq<ZipMember>, m: ZipMember)
    ensures m in KmlCandidates(members) <==> m in members && IsKmlMember(m)
  {
    if members != [] {
      var init := members[..|members| - 1];
      KmlCandidatesMembers(init, m);
      assert members == init + [members[|members| - 1]];
    }
  }

  /** `i` is the first of the longest contents, measured as JavaScript measures a
      string: what a stable sort by descending length puts first. */
  predicate IsFirstLongest(c: seq<ZipMember>, i: int)
  {
    0 <= i < |c|
    && (forall k :: 0 <= k < |c| ==> Utf16Length(c[k].content) <= Utf16Length(c[i].content))
    && (forall k :: 0 <= k < i ==> Utf16Length(c[k].content) < Utf16Length(c[i].content))
  }

  /** The position of the first longest content. */
  function FirstLongest(c: seq<ZipMember>): (i: nat)
    requires c != []
    ensures IsFirstLongest(c, i)
  {
    if |c| == 1 then 0
    else
      var j := FirstLongest(c[..|c| - 1]);
      FirstLongestStep(c, j);
      if Utf16Length(c[|c| - 1].content) > Utf16Length(c[j].content) then |c| - 1 else j
  }

  /** The first longest of `c` is the first longest of all but its last member,
      unless the last is strictly longer. */
  lemma FirstLongestStep(c: seq<ZipMember>, j: nat)
    requires |c| > 1 && IsFirstLongest(c[..|c| - 1], j)
    ensures IsFirstLongest(c, if Utf16Length(c[|c| - 1].content) > Utf16Length(c[j].content) then |c| - 1 else j)
  {
  }

  lemma EarlierNotFirstLongest(c: seq<ZipMember>, i: int, j: int)
    requires 0 <= i < j && IsFirstLongest(c, j)
    ensures !IsFirstLongest(c, i)
  {
    assert Utf16Length(c[i].content) < Utf16Length(c[j].content);
  }

  /** Only one position is the first longest. */
  lemma FirstLongestUnique(c: seq<ZipMember>, i: int, j: int)
    requires IsFirstLongest(c, i) && IsFirstLongest(c, j)
    ensures i == j
  {
    if i < j {
      EarlierNotFirstLongest(c, i, j);
    } else if j < i {
      EarlierNotFirstLongest(c, j, i);
    }
  }

  /** The KMZ payload, or None when the archive has no KML member. */
  function KmzPayload(members: seq<ZipMember>): Option<string>
  {
    var c := KmlCandidates(members);
    if c == [] then None else Some(c[FirstLongest(c)].content)
  }

  /** The payload of a KMZ: the content of the longest KML member (the first of
      them on a tie), or None ("No KML file found in KMZ") when there is none. */
  method SelectKml(members: seq<ZipMember>) returns (kml: Option<string>)
    ensures kml == KmzPayload(members)
    ensures kml.None? <==> KmlCandidates(members) == []
    ensures kml.Some? ==> exists i :: IsFirstLongest(KmlCandidates(members), i)
                                      && kml.value == KmlCandidates(members)[i].content
  {
    var kmlFiles: seq<ZipMember> := [];
    for i := 0 to |members|
      invariant kmlFiles == KmlCandidates(members[..i])
    {
      assert members[..i + 1][..i] == members[..i];
      if !members[i].isDir && EndsWith(ToLower(members[i].name), ".kml") {
        kmlFiles := kmlFiles + [members[i]];
      }
    }
    assert members[..|members|] == members;
    if |kmlFiles| == 0 {
      return None;
    }
    var best := PickLongest(kmlFiles);
    kml := Some(kmlFiles[best].content);
  }

  /** The sort's first element: one pass keeping the first longest seen so far. */
  method PickLongest(kmlFiles: seq<ZipMember>) returns (best: nat)
    requires kmlFiles != []
    ensures best == FirstLongest(kmlFiles)
  {
    best := 0;
    for i := 1 to |kmlFiles|
      invariant 0 <= best < i
      invariant forall k :: 0 <= k < i ==> Utf16Length(kmlFiles[k].content) <= Utf16Length(kmlFiles[best].content)
      invariant forall k :: 0 <= k < best ==> Utf16Length(kmlFiles[k].content) < Utf16Length(kmlFiles[best].content)
    {
      if Utf16Length(kmlFiles[i].content) > Utf16Length(kmlFiles[best].content) {
        best := i;
      }
    }
    FirstLongestUnique(kmlFiles, best, FirstLongest(kmlFiles));
  }

  // ---------------------------------------------------------------- layout dispatch

  datatype Layout =
    | Folders(document: XValue)     // nested Folders, one per line
    | Placemarks(document: XValue)  // flat Placemarks tagged through ExtendedData

  datatype DocumentError = NoDocument | NoFoldersOrPlacemarks

  function DocumentErrorMessage(e: DocumentError): string
  {
    match e
    case NoDocument => "Invalid KML structure: no Document element found"
    case NoFoldersOrPlacemarks => "No Folders or Placemarks found in KML document"
  }

  function DocumentOf(root: XValue): Option<XValue>
  {
    Prop(Prop(Some(root), "kml"), "Document")
  }

  /** The handler's layout choice: `kml.Document` must exist, Folders take
      precedence over Placemarks, and a document with neither is rejected. */
  function ChooseLayout(root: XValue): (r: Result<Layout, DocumentError>)
    ensures r == Failure(NoDocument) <==> !Truthy(DocumentOf(root))
    ensures r.Success? ==> r.value.document == DocumentOf(root).value
    ensures r.Success? && r.value.Folders? <==> Truthy(DocumentOf(root)) && Truthy(Prop(DocumentOf(root), "Folder"))
    ensures r.Success? && r.value.Placemarks? <==>
      Truthy(DocumentOf(root)) && !Truthy(Prop(DocumentOf(root), "Folder")) && Truthy(Prop(DocumentOf(root), "Placemark"))
  {
    var document := DocumentOf(root);
    if !Truthy(document) then Failure(NoDocument)
    else if Truthy(Prop(document, "Folder")) then Success(Folders(document.value))
    else if Truthy(Prop(document, "Placemark")) then Success(Placemarks(document.value))
    else Failure(NoFoldersOrPlacemarks)
  }

  // ---------------------------------------------------------------- ExtendedData

  /** A `Data` entry whose "@_name" attribute is exactly `key` and whose value is truthy. */
  predicate DataMatches(data: XValue, key: string)
  {
    Prop(Some(data), "@_name") == Some(XStr(key)) && Truthy(Prop(Some(data), "value"))
  }

  function DataText(data: XValue): string
    requires Truthy(Prop(Some(data), "value"))
  {
    Trim(ToStr(Prop(Some(data), "value").value))
  }

  /** The trimmed value of the first matching entry. */
  function FirstDataValue(entries: seq<XValue>, key: string): Option<string>
  {
    if entries == [] then None
    else if DataMatches(entries[0], key) then Some(DataText(entries[0]))
    else FirstDataValue(entries[1..], key)
  }

  function DataEntries(extendedData: Option<XValue>): seq<XValue>
  {
    if !Truthy(extendedData) || !Truthy(Prop(extendedData, "Data")) then []
    else EnsureArray(Prop(extendedData, "Data"))
  }

  /** `getExtendedDataValue(extendedData, key)`, None for `null`. */
  function DataValue(extendedData: Option<XValue>, key: string): Option<string>
  {
    FirstDataValue(DataEntries(extendedData), key)
  }

  /** The value is that of the FIRST matching entry, and there is one exactly when
      some entry matches. */
  lemma {:induction false} FirstDataValueIsFirstMatch(entries: seq<XValue>, key: string)
    ensures FirstDataValue(entries, key).Some? <==> exists i :: 0 <= i < |entries| && DataMatches(entries[i], key)
    ensures FirstDataValue(entries, key).Some? ==>
      exists i :: 0 <= i < |entries| && DataMatches(entries[i], key)
        && (forall j :: 0 <= j < i ==> !DataMatches(entries[j], key))
        && FirstDataValue(entries, key).value == DataText(entries[i])
  {
    if entries != [] && !DataMatches(entries[0], key) {
      var rest := entries[1..];
      FirstDataValueIsFirstMatch(rest, key);
      if FirstDataValue(rest, key).Some? {
        var i :| 0 <= i < |rest| && DataMatches(rest[i], key)
          && (forall j :: 0 <= j < i ==> !DataMatches(rest[j], key))
          && FirstDataValue(rest, key).value == DataText(rest[i]);
        assert entries[i + 1] == rest[i];
        assert forall j :: 0 <= j < i + 1 ==> !DataMatches(entries[j], key) by {
          forall j | 0 <= j < i + 1 ensures !DataMatches(entries[j], key) {
            if j > 0 { assert entries[j] == rest[j - 1]; }
          }
        }
      } else {
        forall i | 0 <= i < |entries| ensures !DataMatches(entries[i], key) {
          if i > 0 { assert entries[i] == rest[i - 1]; }
        }
      }
    }
  }

  /** `getExtendedDataValue`: a loop over the `Data` entries that returns at the
      first match. */
  method GetExtendedDataValue(extendedData: Option<XValue>, key: string) returns (r: Option<string>)
    ensures r == DataValue(extendedData, key)
  {
    if !Truthy(extendedData) || !Truthy(Prop(extendedData, "Data")) {
      return None;
    }
    var dataArray := EnsureArray(Prop(extendedData, "Data"));
    for i := 0 to |dataArray|
      invariant FirstDataValue(dataArray, key) == FirstDataValue(dataArray[i..], key)
    {
      var data := dataArray[i];
      if Prop(Some(data), "@_name") == Some(XStr(key)) && Truthy(Prop(Some(data), "value")) {
        return Some(Trim(ToStr(Prop(Some(data), "value").value)));
      }
      assert dataArray[i..][1..] == dataArray[i + 1..];
    }
    return None;
  }

  // ---------------------------------------------------------------- layout A: nested folders

  /** The folders that have a (truthy) name: the others are skipped. */
  function NamedFolders(folders: seq<XValue>): (r: seq<XValue>)
    ensures forall k :: 0 <= k < |r| ==> Truthy(Prop(Some(r[k]), "name"))
  {
    if folders == [] then []
    else
      var last := folders[|folders| - 1];
      NamedFolders(folders[..|folders| - 1]) + (if Truthy(Prop(Some(last), "name")) then [last] else [])
  }

  /** The line key of a named folder: its name as text, trimmed. */
  function FolderKey(folder: XValue): string
    requires Truthy(Prop(Some(folder), "name"))
  {
    Trim(ToStr(Prop(Some(folder), "name").value))
  }

  /** A sub-folder's name lower-cased, or "" when it has none. */
  function SubFolderName(sub: XValue): string
  {
    var n := Prop(Some(sub), "name");
    if n.Some? then ToLower(ToStr(n.value)) else ""
  }

  predicate IsLineaFolder(sub: XValue)
  {
    Contains(SubFolderName(sub), "lineaarea") || Contains(SubFolderName(sub), "linea")
  }

  predicate IsEstructurasFolder(sub: XValue)
  {
    !IsLineaFolder(sub) && Contains(SubFolderName(sub), "estructura")
  }

  /** The last element satisfying `p`. */
  function LastWhere(subs: seq<XValue>, p: XValue -> bool): Option<XValue>
  {
    if subs == [] then None
    else if p(subs[|subs| - 1]) then Some(subs[|subs| - 1])
    else LastWhere(subs[..|subs| - 1], p)
  }

  /** `LastWhere` finds none exactly when nothing matches. */
  lemma {:induction false} LastWhereNone(subs: seq<XValue>, p: XValue -> bool)
    ensures LastWhere(subs, p).None? <==> forall k :: 0 <= k < |subs| ==> !p(subs[k])
  {
    if subs == [] {
    } else if p(subs[|subs| - 1]) {
      assert LastWhere(subs, p).Some?;
    } else {
      var init := subs[..|subs| - 1];
      LastWhereNone(init, p);
      assert forall k :: 0 <= k < |init| ==> init[k] == subs[k];
    }
  }

  /** What `LastWhere` finds is a match with no match after it. */
  lemma {:induction false} LastWhereFound(subs: seq<XValue>, p: XValue -> bool)
    requires LastWhere(subs, p).Some?
    ensures exists i :: (0 <= i < |subs| && subs[i] == LastWhere(subs, p).value && p(subs[i])
      && forall k :: i < k < |subs| ==> !p(subs[k]))
  {
    var n := |subs| - 1;
    if p(subs[n]) {
      assert subs[n] == LastWhere(subs, p).value && p(subs[n]);
    } else {
      var init := subs[..n];
      assert LastWhere(subs, p) == LastWhere(init, p);
      LastWhereFound(init, p);
      var i :| 0 <= i < |init| && init[i] == LastWhere(init, p).value && p(init[i])
        && forall k :: i < k < |init| ==> !p(init[k]);
      assert subs[i] == init[i];
      assert forall k :: i < k < n ==> init[k] == subs[k];
    }
  }

  /** `LastWhere` picks the last match, and finds none exactly when nothing matches. */
  lemma LastWhereIsLast(subs: seq<XValue>, p: XValue -> bool)
    ensures LastWhere(subs, p).None? <==> forall k :: 0 <= k < |subs| ==> !p(subs[k])
    ensures LastWhere(subs, p).Some? ==>
      exists i :: 0 <= i < |subs| && subs[i] == LastWhere(subs, p).value && p(subs[i])
        && forall k :: i < k < |subs| ==> !p(subs[k])
  {
    LastWhereNone(subs, p);
    if LastWhere(subs, p).Some? {
      LastWhereFound(subs, p);
    }
  }

  /** The "lineaarea" test of the line-folder choice adds nothing to the "linea" test. */
  lemma LineaFolderTest(sub: XValue)
    ensures IsLineaFolder(sub) <==> Contains(SubFolderName(sub), "linea")
  {
    if Contains(SubFolderName(sub), "lineaarea") {
      ContainsLineaareaContainsLinea(SubFolderName(sub));
    }
  }

  /** The line-path folder is the LAST sub-folder whose name contains "linea",
      and there is none exactly when no name contains it. */
  lemma LastLineaFolderIsLast(subs: seq<XValue>)
    ensures LastWhere(subs, IsLineaFolder).None? <==> forall k :: 0 <= k < |subs| ==> !Contains(SubFolderName(subs[k]), "linea")
    ensures LastWhere(subs, IsLineaFolder).Some? ==>
      exists i :: 0 <= i < |subs| && subs[i] == LastWhere(subs, IsLineaFolder).value
        && Contains(SubFolderName(subs[i]), "linea")
        && forall k :: i < k < |subs| ==> !Contains(SubFolderName(subs[k]), "linea")
  {
    LastWhereIsLast(subs, IsLineaFolder);
    forall k | 0 <= k < |subs| ensures IsLineaFolder(subs[k]) <==> Contains(SubFolderName(subs[k]), "linea") {
      LineaFolderTest(subs[k]);
    }
  }

  /** The sub-folder loop of `processFolderStructure`: each match overwrites the
      previous one. */
  method SelectSubFolders(subs: seq<XValue>) returns (lineaFolder: Option<XValue>, estructurasFolder: Option<XValue>)
    ensures lineaFolder == LastWhere(subs, IsLineaFolder)
    ensures estructurasFolder == LastWhere(subs, IsEstructurasFolder)
  {
    lineaFolder, estructurasFolder := None, None;
    for i := 0 to |subs|
      invariant lineaFolder == LastWhere(subs[..i], IsLineaFolder)
      invariant estructurasFolder == LastWhere(subs[..i], IsEstructurasFolder)
    {
      assert subs[..i + 1][..i] == subs[..i];
      var name := SubFolderName(subs[i]);
      if Contains(name, "lineaarea") || Contains(name, "linea") {
        lineaFolder := Some(subs[i]);
      } else if Contains(name, "estructura") {
        estructurasFolder := Some(subs[i]);
      }
    }
    assert subs[..|subs|] == subs;
  }

  /** `placemark.LineString.coordinates`. */
  function LineCoordinates(placemark: XValue): Option<XValue>
  {
    Prop(Prop(Some(placemark), "LineString"), "coordinates")
  }

  /** `placemark.Point.coordinates`. */
  function PointCoordinates(placemark: XValue): Option<XValue>
  {
    Prop(Prop(Some(placemark), "Point"), "coordinates")
  }

  /** The parsed coordinates of a coordinates element. The caller trims the text
      before `parseCoordinates` trims it again; `CoordsOfValueTrimmed` shows the
      extra trim changes nothing, so it is left out here. */
  function CoordsOfValue(c: XValue): seq<Coord>
  {
    CoordinatesOf(ToStr(c))
  }

  /** The coordinates read as the import code reads them, `toString().trim()`
      then `parseCoordinates`, are those of `CoordsOfValue`. */
  lemma CoordsOfValueTrimmed(c: XValue)
    ensures CoordinatesOf(Trim(ToStr(c))) == CoordsOfValue(c)
  {
    CoordinatesOfTrimmed(ToStr(c));
  }

  /** The segment a line-folder placemark contributes: it needs truthy LineString
      coordinates that parse to at least two pairs. */
  function FolderTramoPath(placemark: XValue): (p: Option<seq<Coord>>)
    ensures p.Some? ==> |p.value| >= 2
  {
    var c := LineCoordinates(placemark);
    if !Truthy(c) || |CoordsOfValue(c.value)| < 2 then None else Some(CoordsOfValue(c.value))
  }

  /** The segments of a line folder's placemarks, in document order. */
  function FolderTramoPaths(placemarks: seq<XValue>): (r: seq<seq<Coord>>)
    ensures forall k :: 0 <= k < |r| ==> |r[k]| >= 2
  {
    if placemarks == [] then []
    else
      var p := FolderTramoPath(placemarks[|placemarks| - 1]);
      FolderTramoPaths(placemarks[..|placemarks| - 1]) + (if p.Some? then [p.value] else [])
  }

  /** A structure to insert: its trimmed name and the first parsed pair. */
  datatype EstructuraCandidate = EstructuraCandidate(name: string, point: Coord)

  /** The structure a structures-folder placemark contributes: it needs a non-empty
      trimmed name, truthy Point coordinates and at least one parsed pair. */
  function FolderEstructura(placemark: XValue): (e: Option<EstructuraCandidate>)
    ensures e.Some? ==> e.value.name != ""
  {
    var name := TrimmedText(Prop(Some(placemark), "name"));
    var c := PointCoordinates(placemark);
    if !NonEmpty(name) || !Truthy(c) || |CoordsOfValue(c.value)| == 0 then None
    else Some(EstructuraCandidate(name.value, CoordsOfValue(c.value)[0]))
  }

  function FolderEstructuras(placemarks: seq<XValue>): (r: seq<EstructuraCandidate>)
    ensures forall k :: 0 <= k < |r| ==> r[k].name != ""
  {
    if placemarks == [] then []
    else
      var e := FolderEstructura(placemarks[|placemarks| - 1]);
      FolderEstructuras(placemarks[..|placemarks| - 1]) + (if e.Some? then [e.value] else [])
  }

  /** The body of the line-folder loop up to the insert: read and parse the
      LineString coordinates, skipping a placemark without them or with fewer than
      two pairs. */
  method ReadFolderTramo(placemark: XValue) returns (path: Option<seq<Coord>>)
    ensures path == FolderTramoPath(placemark)
  {
    var coordinates := Prop(Prop(Some(placemark), "LineString"), "coordinates");
    if !Truthy(coordinates) {
      return None;
    }
    var coords := ParseCoordinates(Trim(ToStr(coordinates.value)));
    CoordsOfValueTrimmed(coordinates.value);
    if |coords| < 2 {
      return None;
    }
    return Some(coords);
  }

  /** The body of the structures-folder loop up to the insert. */
  method ReadFolderEstructura(placemark: XValue) returns (cand: Option<EstructuraCandidate>)
    ensures cand == FolderEstructura(placemark)
  {
    var name := TrimmedText(Prop(Some(placemark), "name"));
    var point := Prop(Some(placemark), "Point");
    if !NonEmpty(name) || !Truthy(Prop(point, "coordinates")) {
      return None;
    }
    var coordinates := Prop(point, "coordinates").value;
    var coords := ParseCoordinates(Trim(ToStr(coordinates)));
    CoordsOfValueTrimmed(coordinates);
    if |coords| == 0 {
      return None;
    }
    return Some(EstructuraCandidate(name.value, coords[0]));
  }

  // ---------------------------------------------------------------- layout B: flat placemarks

  /** The line key of a flat placemark: its non-empty "linea" ExtendedData value. */
  function LineaKeyOf(placemark: XValue): (k: Option<string>)
    ensures k.Some? ==> k.value != ""
  {
    var v := DataValue(Prop(Some(placemark), "ExtendedData"), "linea");
    if NonEmpty(v) then v else None
  }

  predicate IsTramoPlacemark(placemark: XValue)
  {
    Truthy(Prop(Some(placemark), "LineString"))
  }

  predicate IsEstructuraPlacemark(placemark: XValue)
  {
    !IsTramoPlacemark(placemark) && Truthy(Prop(Some(placemark), "Point"))
    && NonEmpty(DataValue(Prop(Some(placemark), "ExtendedData"), "estructura"))
  }

  /** The placemarks of one line: segment candidates and structure candidates. */
  datatype Bucket = Bucket(tramos: seq<XValue>, estructuras: seq<XValue>)

  /** The buckets in first-appearance order of their keys (a JavaScript `Map`). */
  datatype Grouping = Grouping(keys: seq<string>, buckets: map<string, Bucket>)

  /** Adds one placemark to a grouping: placemarks without a line key are skipped;
      one with a key opens its bucket if needed, then joins its segments, its
      structures, or neither. */
  function AddPlacemark(g: Grouping, placemark: XValue): Grouping
  {
    match LineaKeyOf(placemark)
    case None => g
    case Some(k) =>
      var keys := if k in g.buckets then g.keys else g.keys + [k];
      var b := if k in g.buckets then g.buckets[k] else Bucket([], []);
      var b' :=
        if IsTramoPlacemark(placemark) then b.(tramos := b.tramos + [placemark])
        else if IsEstructuraPlacemark(placemark) then b.(estructuras := b.estructuras + [placemark])
        else b;
      Grouping(keys, g.buckets[k := b'])
  }

  function Group(placemarks: seq<XValue>): Grouping
  {
    if placemarks == [] then Grouping([], map[])
    else AddPlacemark(Group(placemarks[..|placemarks| - 1]), placemarks[|placemarks| - 1])
  }

  /** One iteration of the grouping loop of `processPlacemarkStructure`. */
  method AddToGrouping(keys: seq<string>, buckets: map<string, Bucket>, placemark: XValue)
    returns (keys': seq<string>, buckets': map<string, Bucket>)
    ensures Grouping(keys', buckets') == AddPlacemark(Grouping(keys, buckets), placemark)
  {
    keys', buckets' := keys, buckets;
    var lineaNumero := GetExtendedDataValue(Prop(Some(placemark), "ExtendedData"), "linea");
    if lineaNumero.None? || lineaNumero.value == "" {
      return;
    }
    var k := lineaNumero.value;
    if k !in buckets' {
      keys' := keys' + [k];
      buckets' := buckets'[k := Bucket([], [])];
    }
    var lineaData := buckets'[k];
    var isEstructura := GetExtendedDataValue(Prop(Some(placemark), "ExtendedData"), "estructura");
    if Truthy(Prop(Some(placemark), "LineString")) {
      buckets' := buckets'[k := lineaData.(tramos := lineaData.tramos + [placemark])];
    } else if Truthy(Prop(Some(placemark), "Point")) && isEstructura.Some? && isEstructura.value != "" {
      buckets' := buckets'[k := lineaData.(estructuras := lineaData.estructuras + [placemark])];
    }
  }

  lemma GroupStep(placemarks: seq<XValue>, i: nat)
    requires i < |placemarks|
    ensures Group(placemarks[..i + 1]) == AddPlacemark(Group(placemarks[..i]), placemarks[i])
  {
    assert placemarks[..i + 1][..i] == placemarks[..i];
  }

  /** The grouping loop of `processPlacemarkStructure`. */
  method GroupPlacemarks(placemarks: seq<XValue>) returns (keys: seq<string>, buckets: map<string, Bucket>)
    ensures Grouping(keys, buckets) == Group(placemarks)
  {
    keys, buckets := [], map[];
    for i := 0 to |placemarks|
      invariant Grouping(keys, buckets) == Group(placemarks[..i])
    {
      GroupStep(placemarks, i);
      keys, buckets := AddToGrouping(keys, buckets, placemarks[i]);
    }
    assert placemarks[..|placemarks|] == placemarks;
  }

  /** The placemarks of `placemarks` carrying line key `k` and kept by `keep`, in order. */
  function Tagged(placemarks: seq<XValue>, k: string, keep: XValue -> bool): seq<XValue>
  {
    if placemarks == [] then []
    else
      var last := placemarks[|placemarks| - 1];
      Tagged(placemarks[..|placemarks| - 1], k, keep) + (if LineaKeyOf(last) == Some(k) && keep(last) then [last] else [])
  }

  predicate HasKey(placemarks: seq<XValue>, k: string)
  {
    exists i :: 0 <= i < |placemarks| && LineaKeyOf(placemarks[i]) == Some(k)
  }

  lemma HasKeyAppend(init: seq<XValue>, last: XValue, k: string)
    ensures HasKey(init + [last], k) <==> HasKey(init, k) || LineaKeyOf(last) == Some(k)
  {
    var s := init + [last];
    assert forall j :: 0 <= j < |init| ==> s[j] == init[j];
    assert s[|init|] == last;
    if HasKey(init, k) {
      var i :| 0 <= i < |init| && LineaKeyOf(init[i]) == Some(k);
      assert s[i] == init[i];
    }
  }

  /** There is a bucket exactly for the line keys that occur, and each of them is
      listed once in `keys`. */
  lemma {:induction false} GroupKeys(placemarks: seq<XValue>)
    ensures forall k :: k in Group(placemarks).buckets <==> HasKey(placemarks, k)
    ensures forall k :: k in Group(placemarks).keys <==> k in Group(placemarks).buckets
    ensures forall i, j :: 0 <= i < j < |Group(placemarks).keys| ==> Group(placemarks).keys[i] != Group(placemarks).keys[j]
  {
    if placemarks != [] {
      var init := placemarks[..|placemarks| - 1];
      var last := placemarks[|placemarks| - 1];
      assert placemarks == init + [last];
      GroupKeys(init);
      forall k ensures HasKey(placemarks, k) <==> HasKey(init, k) || LineaKeyOf(last) == Some(k) {
        HasKeyAppend(init, last, k);
      }
      var g0 := Group(init);
      var g := Group(placemarks);
      if LineaKeyOf(last).Some? && LineaKeyOf(last).value !in g0.buckets {
        forall i, j | 0 <= i < j < |g.keys| ensures g.keys[i] != g.keys[j] {
          if j == |g.keys| - 1 { assert g.keys[i] in g0.keys; }
        }
      }
    }
  }

  lemma {:induction false} TaggedWithoutKey(placemarks: seq<XValue>, k: string, keep: XValue -> bool)
    requires !HasKey(placemarks, k)
    ensures Tagged(placemarks, k, keep) == []
  {
    if placemarks != [] {
      var init := placemarks[..|placemarks| - 1];
      var last := placemarks[|placemarks| - 1];
      assert placemarks == init + [last];
      HasKeyAppend(init, last, k);
      TaggedWithoutKey(init, k, keep);
    }
  }

  /** A bucket holds, in document order, exactly the placemarks with its key that
      are LineStrings (segments) or tagged Points (structures). */
  lemma {:induction false} GroupBucketIsFilter(placemarks: seq<XValue>, k: string)
    requires k in Group(placemarks).buckets
    ensures Group(placemarks).buckets[k].tramos == Tagged(placemarks, k, IsTramoPlacemark)
    ensures Group(placemarks).buckets[k].estructuras == Tagged(placemarks, k, IsEstructuraPlacemark)
  {
    var init := placemarks[..|placemarks| - 1];
    var last := placemarks[|placemarks| - 1];
    var g0 := Group(init);
    if k in g0.buckets {
      GroupBucketIsFilter(init, k);
    } else {
      GroupKeys(init);
      TaggedWithoutKey(init, k, IsTramoPlacemark);
      TaggedWithoutKey(init, k, IsEstructuraPlacemark);
    }
  }

  lemma HasKeyTail(placemarks: seq<XValue>, k: string)
    requires HasKey(placemarks, k) && LineaKeyOf(placemarks[0]) != Some(k)
    ensures HasKey(placemarks[1..], k)
  {
    var i :| 0 <= i < |placemarks| && LineaKeyOf(placemarks[i]) == Some(k);
    assert placemarks[1..][i - 1] == placemarks[i];
  }

  lemma NoKeyBeforeTail(placemarks: seq<XValue>, k: string, n: nat)
    requires 0 < |placemarks| && n < |placemarks| && LineaKeyOf(placemarks[0]) != Some(k)
    requires forall j :: 0 <= j < n ==> LineaKeyOf(placemarks[1..][j]) != Some(k)
    ensures forall j :: 0 <= j < n + 1 ==> LineaKeyOf(placemarks[j]) != Some(k)
  {
    forall j | 1 <= j < n + 1 ensures LineaKeyOf(placemarks[j]) != Some(k) {
      assert placemarks[j] == placemarks[1..][j - 1];
    }
  }

  /** Position of the first placemark carrying key `k`. */
  function FirstWithKey(placemarks: seq<XValue>, k: string): (i: nat)
    requires HasKey(placemarks, k)
    ensures i < |placemarks| && LineaKeyOf(placemarks[i]) == Some(k)
    ensures forall j :: 0 <= j < i ==> LineaKeyOf(placemarks[j]) != Some(k)
  {
    if LineaKeyOf(placemarks[0]) == Some(k) then 0
    else
      HasKeyTail(placemarks, k);
      var n := FirstWithKey(placemarks[1..], k);
      NoKeyBeforeTail(placemarks, k, n);
      1 + n
  }

  lemma FirstWithKeyOld(init: seq<XValue>, last: XValue, k: string)
    requires HasKey(init, k)
    ensures HasKey(init + [last], k) && FirstWithKey(init + [last], k) == FirstWithKey(init, k)
  {
    var s := init + [last];
    var f := FirstWithKey(init, k);
    assert s[f] == init[f];
    assert forall j :: 0 <= j < f ==> s[j] == init[j];
    FirstWithKeyUnique(s, k, f);
  }

  lemma FirstWithKeyNew(init: seq<XValue>, last: XValue, k: string)
    requires !HasKey(init, k) && LineaKeyOf(last) == Some(k)
    ensures HasKey(init + [last], k) && FirstWithKey(init + [last], k) == |init|
  {
    var s := init + [last];
    assert s[|init|] == last;
    forall j | 0 <= j < |init| ensures LineaKeyOf(s[j]) != Some(k) {
      assert s[j] == init[j];
    }
    FirstWithKeyUnique(s, k, |init|);
  }

  /** Every key occurs, and the keys are listed in the order of their first occurrence. */
  predicate InFirstAppearanceOrder(placemarks: seq<XValue>, keys: seq<string>)
  {
    (forall k :: k in keys ==> HasKey(placemarks, k))
    && forall i, j :: 0 <= i < j < |keys| ==> FirstWithKey(placemarks, keys[i]) < FirstWithKey(placemarks, keys[j])
  }

  lemma OrderKeep(init: seq<XValue>, last: XValue, keys: seq<string>)
    requires InFirstAppearanceOrder(init, keys)
    ensures InFirstAppearanceOrder(init + [last], keys)
  {
    forall k | k in keys ensures HasKey(init + [last], k) && FirstWithKey(init + [last], k) == FirstWithKey(init, k) {
      FirstWithKeyOld(init, last, k);
    }
  }

  lemma OrderExtend(init: seq<XValue>, last: XValue, keys: seq<string>, k: string)
    requires InFirstAppearanceOrder(init, keys)
    requires !HasKey(init, k) && LineaKeyOf(last) == Some(k)
    ensures InFirstAppearanceOrder(init + [last], keys + [k])
  {
    OrderKeep(init, last, keys);
    FirstWithKeyNew(init, last, k);
    var s := keys + [k];
    forall i, j | 0 <= i < j < |s| ensures FirstWithKey(init + [last], s[i]) < FirstWithKey(init + [last], s[j]) {
      assert s[i] == keys[i];
      if j < |keys| { assert s[j] == keys[j]; }
    }
  }

  /** Buckets are processed in the order in which their keys first appear. */
  lemma {:induction false} GroupKeysInFirstAppearanceOrder(placemarks: seq<XValue>)
    ensures InFirstAppearanceOrder(placemarks, Group(placemarks).keys)
  {
    if placemarks != [] {
      var init := placemarks[..|placemarks| - 1];
      var last := placemarks[|placemarks| - 1];
      assert placemarks == init + [last];
      GroupKeysInFirstAppearanceOrder(init);
      GroupKeys(init);
      var g0 := Group(init);
      if LineaKeyOf(last).Some? && LineaKeyOf(last).value !in g0.buckets {
        OrderExtend(init, last, g0.keys, LineaKeyOf(last).value);
      } else {
        OrderKeep(init, last, g0.keys);
      }
    }
  }

  lemma FirstWithKeyUnique(placemarks: seq<XValue>, k: string, f: nat)
    requires f < |placemarks| && LineaKeyOf(placemarks[f]) == Some(k)
    requires forall j :: 0 <= j < f ==> LineaKeyOf(placemarks[j]) != Some(k)
    ensures HasKey(placemarks, k) && FirstWithKey(placemarks, k) == f
  {
  }

  /** A segment candidate whose LineString has no `coordinates` makes the
      unguarded `.coordinates.toString()` throw. */
  predicate TramoThrows(placemark: XValue)
  {
    LineCoordinates(placemark).None?
  }

  /** The same for a structure candidate's Point. */
  predicate EstructuraThrows(placemark: XValue)
  {
    PointCoordinates(placemark).None?
  }

  /** The segment a bucket's LineString placemark contributes (when it does not throw). */
  function BucketTramoPath(placemark: XValue): (p: Option<seq<Coord>>)
    requires !TramoThrows(placemark)
    ensures p.Some? ==> |p.value| >= 2
  {
    var coords := CoordsOfValue(LineCoordinates(placemark).value);
    if |coords| < 2 then None else Some(coords)
  }

  /** The structure a bucket's Point placemark contributes (when it does not throw). */
  function BucketEstructura(placemark: XValue): (e: Option<EstructuraCandidate>)
    requires !EstructuraThrows(placemark)
    ensures e.Some? ==> e.value.name != ""
  {
    var name := TrimmedText(Prop(Some(placemark), "name"));
    var coords := CoordsOfValue(PointCoordinates(placemark).value);
    if |coords| == 0 || !NonEmpty(name) then None
    else Some(EstructuraCandidate(name.value, coords[0]))
  }

  /** Index of the first element satisfying `p`, or `|xs|` when none does. */
  function FirstWhere(xs: seq<XValue>, p: XValue -> bool): (i: nat)
    ensures i <= |xs|
    ensures forall k :: 0 <= k < i ==> !p(xs[k])
    ensures i < |xs| ==> p(xs[i])
  {
    if xs == [] then 0 else if p(xs[0]) then 0 else 1 + FirstWhere(xs[1..], p)
  }

  /** The segments of a bucket's LineString placemarks, none of which throws. */
  function BucketTramoPaths(placemarks: seq<XValue>): (r: seq<seq<Coord>>)
    requires forall k :: 0 <= k < |placemarks| ==> !TramoThrows(placemarks[k])
    ensures forall k :: 0 <= k < |r| ==> |r[k]| >= 2
  {
    if placemarks == [] then []
    else
      var n := |placemarks| - 1;
      var init := BucketTramoPaths(placemarks[..n]);
      match BucketTramoPath(placemarks[n])
      case None => init
      case Some(path) => PathsSnoc(init, path); init + [path]
  }

  lemma PathsSnoc(paths: seq<seq<Coord>>, path: seq<Coord>)
    requires forall k :: 0 <= k < |paths| ==> |paths[k]| >= 2
    requires |path| >= 2
    ensures forall k :: 0 <= k < |paths| + 1 ==> |(paths + [path])[k]| >= 2
  {
  }

  /** The structures of a bucket's Point placemarks, none of which throws. */
  function BucketEstructuras(placemarks: seq<XValue>): (r: seq<EstructuraCandidate>)
    requires forall k :: 0 <= k < |placemarks| ==> !EstructuraThrows(placemarks[k])
    ensures forall k :: 0 <= k < |r| ==> r[k].name != ""
  {
    if placemarks == [] then []
    else
      var e := BucketEstructura(placemarks[|placemarks| - 1]);
      BucketEstructuras(placemarks[..|placemarks| - 1]) + (if e.Some? then [e.value] else [])
  }

  /** The segments a bucket's segment loop reaches: those of the placemarks before
      the first one that throws. */
  function BucketPaths(placemarks: seq<XValue>): seq<seq<Coord>>
  {
    BucketTramoPaths(placemarks[..FirstWhere(placemarks, TramoThrows)])
  }

  /** The structures a bucket's structure loop reaches. */
  function BucketCandidates(placemarks: seq<XValue>): seq<EstructuraCandidate>
  {
    BucketEstructuras(placemarks[..FirstWhere(placemarks, EstructuraThrows)])
  }

  lemma FolderTramoPathsStep(placemarks: seq<XValue>, i: nat)
    requires i < |placemarks|
    ensures FolderTramoPaths(placemarks[..i + 1]) == FolderTramoPaths(placemarks[..i])
      + (if FolderTramoPath(placemarks[i]).Some? then [FolderTramoPath(placemarks[i]).value] else [])
  {
    assert placemarks[..i + 1][..i] == placemarks[..i];
  }

  lemma FolderEstructurasStep(placemarks: seq<XValue>, i: nat)
    requires i < |placemarks|
    ensures FolderEstructuras(placemarks[..i + 1]) == FolderEstructuras(placemarks[..i])
      + (if FolderEstructura(placemarks[i]).Some? then [FolderEstructura(placemarks[i]).value] else [])
  {
    assert placemarks[..i + 1][..i] == placemarks[..i];
  }

  /** The reading half of a line folder's segment loop. */
  method ReadFolderTramos(placemarks: seq<XValue>) returns (paths: seq<seq<Coord>>)
    ensures paths == FolderTramoPaths(placemarks)
  {
    paths := [];
    for i := 0 to |placemarks|
      invariant paths == FolderTramoPaths(placemarks[..i])
    {
      FolderTramoPathsStep(placemarks, i);
      var path := ReadFolderTramo(placemarks[i]);
      if path.Some? {
        paths := paths + [path.value];
      }
    }
    assert placemarks[..|placemarks|] == placemarks;
  }

  /** The reading half of a structures folder's loop. */
  method ReadFolderEstructuras(placemarks: seq<XValue>) returns (cands: seq<EstructuraCandidate>)
    ensures cands == FolderEstructuras(placemarks)
  {
    cands := [];
    for i := 0 to |placemarks|
      invariant cands == FolderEstructuras(placemarks[..i])
    {
      FolderEstructurasStep(placemarks, i);
      var cand := ReadFolderEstructura(placemarks[i]);
      if cand.Some? {
        cands := cands + [cand.value];
      }
    }
    assert placemarks[..|placemarks|] == placemarks;
  }

  /** The body of a bucket's segment loop up to the insert, for a placemark whose
      LineString has coordinates. */
  method ReadBucketTramo(placemark: XValue) returns (path: Option<seq<Coord>>)
    requires !TramoThrows(placemark)
    ensures path == BucketTramoPath(placemark)
  {
    var coordinates := LineCoordinates(placemark).value;
    var coords := ParseCoordinates(Trim(ToStr(coordinates)));
    CoordsOfValueTrimmed(coordinates);
    if |coords| < 2 {
      return None;
    }
    return Some(coords);
  }

  /** The body of a bucket's structure loop up to the insert, for a placemark whose
      Point has coordinates. */
  method ReadBucketEstructura(placemark: XValue) returns (cand: Option<EstructuraCandidate>)
    requires !EstructuraThrows(placemark)
    ensures cand == BucketEstructura(placemark)
  {
    var name := TrimmedText(Prop(Some(placemark), "name"));
    var coordinates := PointCoordinates(placemark).value;
    var coords := ParseCoordinates(Trim(ToStr(coordinates)));
    CoordsOfValueTrimmed(coordinates);
    if |coords| == 0 || !NonEmpty(name) {
      return None;
    }
    return Some(EstructuraCandidate(name.value, coords[0]));
  }

  lemma BucketTramoPathsStep(placemarks: seq<XValue>, i: nat)
    requires i < FirstWhere(placemarks, TramoThrows)
    ensures forall k :: 0 <= k < i + 1 ==> !TramoThrows(placemarks[k])
    ensures BucketTramoPaths(placemarks[..i + 1]) == BucketTramoPaths(placemarks[..i])
      + (if BucketTramoPath(placemarks[i]).Some? then [BucketTramoPath(placemarks[i]).value] else [])
  {
    assert placemarks[..i + 1][..i] == placemarks[..i];
  }

  lemma BucketEstructurasStep(placemarks: seq<XValue>, i: nat)
    requires i < FirstWhere(placemarks, EstructuraThrows)
    ensures forall k :: 0 <= k < i + 1 ==> !EstructuraThrows(placemarks[k])
    ensures BucketEstructuras(placemarks[..i + 1]) == BucketEstructuras(placemarks[..i])
      + (if BucketEstructura(placemarks[i]).Some? then [BucketEstructura(placemarks[i]).value] else [])
  {
    assert placemarks[..i + 1][..i] == placemarks[..i];
  }

  /** The reading half of a bucket's segment loop: it stops at the first placemark
      whose LineString has no coordinates, where the source throws. */
  method ReadBucketTramos(placemarks: seq<XValue>) returns (paths: seq<seq<Coord>>, throws: bool)
    ensures throws <==> FirstWhere(placemarks, TramoThrows) < |placemarks|
    ensures paths == BucketPaths(placemarks)
  {
    paths := [];
    for i := 0 to |placemarks|
      invariant i <= FirstWhere(placemarks, TramoThrows)
      invariant paths == BucketTramoPaths(placemarks[..i])
    {
      if LineCoordinates(placemarks[i]).None? {
        return paths, true;
      }
      BucketTramoPathsStep(placemarks, i);
      var path := ReadBucketTramo(placemarks[i]);
      if path.Some? {
        paths := paths + [path.value];
      }
    }
    assert placemarks[..|placemarks|] == placemarks;
    return paths, false;
  }

  /** The reading half of a bucket's structure loop, stopping where the source throws. */
  method ReadBucketEstructuras(placemarks: seq<XValue>) returns (cands: seq<EstructuraCandidate>, throws: bool)
    ensures throws <==> FirstWhere(placemarks, EstructuraThrows) < |placemarks|
    ensures cands == BucketCandidates(placemarks)
  {
    cands := [];
    for i := 0 to |placemarks|
      invariant i <= FirstWhere(placemarks, EstructuraThrows)
      invariant cands == BucketEstructuras(placemarks[..i])
    {
      if PointCoordinates(placemarks[i]).None? {
        return cands, true;
      }
      BucketEstructurasStep(placemarks, i);
      var cand := ReadBucketEstructura(placemarks[i]);
      if cand.Some? {
        cands := cands + [cand.value];
      }
    }
    assert placemarks[..|placemarks|] == placemarks;
    return cands, false;
  }
}
