/**
 * The request handler of the KMZ import: the upload checks, the KML payload of
 * the upload, XML parsing and the layout dispatch, then one of the two layout
 * imports against the store and the response.
 */
module KmzHandler {
  import opened Wrappers
  import opened Text
  import opened Xml
  import opened Kml
  import opened TopologyStore
  import opened ImportReport
  import opened ImportKmz

  /** The multipart field `file`: its name and raw bytes. */
  datatype Upload = Upload(name: string, bytes: seq<bv8>)

  /** The libraries the handler calls: the zip reader (the members with their
      text, or the message it throws), `File.text()`, and the XML parser (the
      tree, or the message it throws). */
  datatype Libraries = Libraries(
    unzip: seq<bv8> -> Result<seq<ZipMember>, string>,
    text: seq<bv8> -> string,
    parseXml: string -> Result<XValue, string>)

  /** The reply: the report with status 200, or a body `{ error }` with 400 or 500. */
  datatype Response =
    | Imported(report: Report)
    | BadRequest(error: string)
    | ServerError(error: string)

  function Status(r: Response): (code: int)
    ensures code == 200 <==> r.Imported?
    ensures code == 400 <==> r.BadRequest?
  {
    match r
    case Imported(_) => 200
    case BadRequest(_) => 400
    case ServerError(_) => 500
  }

  const NoFileMessage := "No file provided"
  const ExtensionMessage := "File must be .kmz or .kml"
  const NoKmlMessage := "No KML file found in KMZ"
  /** The message of the TypeError the runtime raises for `undefined.toString()`. */
  const TypeErrorMessage := "Cannot read properties of undefined (reading 'toString')"

  /** The KML text of an upload: the file's text for a ".kml", the chosen member
      for a ".kmz". */
  function KmlText(upload: Upload, kind: FileKind, libs: Libraries): Result<string, string>
  {
    match kind
    case PlainKml => Success(libs.text(upload.bytes))
    case Kmz =>
      match libs.unzip(upload.bytes)
      case Failure(m) => Failure(m)
      case Success(members) =>
        match KmzPayload(members)
        case None => Failure(NoKmlMessage)
        case Some(content) => Success(content)
  }

  /** Everything the handler does before it touches the database: the layout to
      import, or the response that ends the request. Only a missing file or a
      wrong extension is the client's fault (400); every later failure is a 500. */
  function Prepare(file: Option<Upload>, libs: Libraries): (r: Result<Layout, Response>)
    ensures r.Failure? ==> !r.error.Imported?
    ensures (r.Failure? && r.error.BadRequest?) <==> file.None? || FileKindOf(file.value.name).None?
  {
    if file.None? then Failure(BadRequest(NoFileMessage))
    else
      match FileKindOf(file.value.name)
      case None => Failure(BadRequest(ExtensionMessage))
      case Some(kind) =>
        match KmlText(file.value, kind, libs)
        case Failure(m) => Failure(ServerError(m))
        case Success(kml) =>
          match libs.parseXml(kml)
          case Failure(m) => Failure(ServerError(m))
          case Success(root) =>
            match ChooseLayout(root)
            case Failure(e) => Failure(ServerError(DocumentErrorMessage(e)))
            case Success(layout) => Success(layout)
  }

  /** A KMZ without a KML member ends in a 500 "No KML file found in KMZ". */
  lemma KmzWithoutKml(upload: Upload, libs: Libraries)
    requires EndsWith(upload.name, ".kmz")
    requires libs.unzip(upload.bytes).Success? && KmlCandidates(libs.unzip(upload.bytes).value) == []
    ensures Prepare(Some(upload), libs) == Failure(ServerError(NoKmlMessage))
  {
  }

  /** A parsed tree is imported with the layout `ChooseLayout` gives it, and a
      tree `ChooseLayout` rejects ends in a 500 with its message. */
  lemma PrepareDispatches(upload: Upload, kind: FileKind, libs: Libraries, root: XValue)
    requires FileKindOf(upload.name) == Some(kind)
    requires KmlText(upload, kind, libs).Success?
    requires libs.parseXml(KmlText(upload, kind, libs).value) == Success(root)
    ensures ChooseLayout(root).Success? ==> Prepare(Some(upload), libs) == Success(ChooseLayout(root).value)
    ensures ChooseLayout(root).Failure? ==>
      Prepare(Some(upload), libs) == Failure(ServerError(DocumentErrorMessage(ChooseLayout(root).error)))
  {
  }

  /** The lines of a flat-placemark document. */
  function DocumentLines(document: XValue): seq<(string, Bucket)>
  {
    Lines(Group(EnsureArray(Prop(Some(document), "Placemark"))))
  }

  /** The KML text of an upload, as the handler reads it. */
  method ReadKmlText(upload: Upload, libs: Libraries) returns (r: Result<string, string>)
    requires FileKindOf(upload.name).Some?
    ensures r == KmlText(upload, FileKindOf(upload.name).value, libs)
  {
    if EndsWith(upload.name, ".kmz") {
      var zip := libs.unzip(upload.bytes);
      if zip.Failure? {
        return Failure(zip.error);
      }
      var kml := SelectKml(zip.value);
      if kml.None? {
        return Failure(NoKmlMessage);
      }
      return Success(kml.value);
    }
    return Success(libs.text(upload.bytes));
  }

  /** The handler's checks before it touches the database, in the order it makes
      them, each ending the request with its response. */
  method Load(file: Option<Upload>, libs: Libraries) returns (r: Result<Layout, Response>)
    ensures r == Prepare(file, libs)
  {
    if file.None? {
      return Failure(BadRequest(NoFileMessage));
    }
    var upload := file.value;
    if !EndsWith(upload.name, ".kmz") && !EndsWith(upload.name, ".kml") {
      return Failure(BadRequest(ExtensionMessage));
    }
    var kmlContent := ReadKmlText(upload, libs);
    if kmlContent.Failure? {
      return Failure(ServerError(kmlContent.error));
    }
    var kmlData := libs.parseXml(kmlContent.value);
    if kmlData.Failure? {
      return Failure(ServerError(kmlData.error));
    }
    var document := DocumentOf(kmlData.value);
    if !Truthy(document) {
      return Failure(ServerError(DocumentErrorMessage(NoDocument)));
    }
    if Truthy(Prop(document, "Folder")) {
      return Success(Folders(document.value));
    } else if Truthy(Prop(document, "Placemark")) {
      return Success(Placemarks(document.value));
    }
    return Failure(ServerError(DocumentErrorMessage(NoFoldersOrPlacemarks)));
  }

  /** The response and the line runs of importing `layout` into an empty report:
      Layout A imports every named folder; Layout B imports its lines in order
      until one throws, which ends the request in a 500. Exactly the first line
      that was opened and whose bucket throws stops the loop. */
  predicate ImportedAs(layout: Layout, resp: Response, runs: seq<LineRun>,
                      before: Tables, after: Tables, tables: seq<Tables>, thrown: LineRun)
  {
    match layout
    case Folders(document) =>
      resp == Imported(AfterLines(EmptyReport, runs))
      && RunsFit(EmptyReport, NamedFolders(EnsureArray(Prop(Some(document), "Folder"))), runs, FolderRunFits)
      && TablesFit(tables, NamedFolders(EnsureArray(Prop(Some(document), "Folder"))), runs, FolderEffect)
      && tables[0] == before && tables[|runs|] == after
    case Placemarks(document) =>
      var lines := DocumentLines(document);
      |runs| <= |lines|
      && RunsFit(EmptyReport, lines[..|runs|], runs, LineRunFits)
      && TablesFit(tables, lines[..|runs|], runs, BucketEffect) && tables[0] == before
      && (|runs| < |lines| ==>
            resp == ServerError(TypeErrorMessage) && BucketThrows(lines[|runs|].1)
            && BucketRunFits(lines[|runs|].0, lines[|runs|].1, thrown) && !thrown.opening.CreateFailed?
            && BucketEffect(tables[|runs|], after, lines[|runs|], thrown))
      && (|runs| == |lines| ==> resp == Imported(AfterLines(EmptyReport, runs)) && tables[|runs|] == after)
  }

  /** Layout A with a fresh result. */
  method ImportFolders(store: Store, document: XValue)
    returns (resp: Response, ghost runs: seq<LineRun>, ghost tables: seq<Tables>, ghost thrown: LineRun)
    requires store.Valid()
    modifies store
    ensures store.Valid()
    ensures ImportedAs(Folders(document), resp, runs, old(store.Contents()), store.Contents(), tables, thrown)
  {
    thrown := LineRun("", CreateFailed(None), [], [], Skipped);
    var result := new ImportResult();
    runs, tables := ProcessFolderStructure(store, result, document);
    resp := Imported(result.Snapshot());
  }

  /** Layout B with a fresh result; a line that throws ends the request in a 500. */
  method ImportPlacemarks(store: Store, document: XValue)
    returns (resp: Response, ghost runs: seq<LineRun>, ghost tables: seq<Tables>, ghost thrown: LineRun)
    requires store.Valid()
    modifies store
    ensures store.Valid()
    ensures ImportedAs(Placemarks(document), resp, runs, old(store.Contents()), store.Contents(), tables, thrown)
  {
    var result := new ImportResult();
    var throws;
    throws, runs, tables, thrown := ProcessPlacemarkStructure(store, result, document);
    if throws {
      return ServerError(TypeErrorMessage), runs, tables, thrown;
    }
    resp := Imported(result.Snapshot());
  }

  /** The handler, from the upload to the response: a request the checks end
      leaves the store as it was. */
  method HandleImport(store: Store, file: Option<Upload>, libs: Libraries)
    returns (resp: Response, ghost runs: seq<LineRun>, ghost tables: seq<Tables>, ghost thrown: LineRun)
    requires store.Valid()
    modifies store
    ensures store.Valid()
    ensures Prepare(file, libs).Failure? ==>
      resp == Prepare(file, libs).error && runs == [] && store.Contents() == old(store.Contents())
    ensures Prepare(file, libs).Success? ==>
      ImportedAs(Prepare(file, libs).value, resp, runs, old(store.Contents()), store.Contents(), tables, thrown)
  {
    var layout := Load(file, libs);
    if layout.Failure? {
      return layout.error, [], [store.Contents()], LineRun("", CreateFailed(None), [], [], Skipped);
    }
    match layout.value
    case Folders(document) =>
      resp, runs, tables, thrown := ImportFolders(store, document);
    case Placemarks(document) =>
      resp, runs, tables, thrown := ImportPlacemarks(store, document);
  }
}
