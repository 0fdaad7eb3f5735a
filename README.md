# Linergy topology import and fault location, modelled in Dafny

This project models the server-side logic of a power-line network tool.

- **KMZ/KML topology import** (`supabase/functions/import-kmz/index.ts`). An uploaded
  KMZ archive or KML file is turned into *lineas* (lines), *linea_tramos* (line
  segments) and *estructuras* (towers). There are two document layouts: nested
  Folders (one folder per line) and flat Placemarks tagged by `ExtendedData`.
  The import re-imports a known line by replacing its rows. It accumulates
  counters, errors and warnings in one mutable report.
- **Fault location by kilometre** (`supabase/functions/compute-fault-location/index.ts`).
  It validates a `(lineaId, km)` request and checks the line's km range. It then
  brackets the km between the line's structures and tries three strategies in
  turn: interpolation between two structures, a single structure, and a fraction
  of the line geometry.
- **GeoJSON shape validator** (`src/types/geo.ts`): `isPosition`, `isGeoJSONGeometry`
  and `isGeoJSONPoint` over untyped JSON.

The model keeps the source's form:

- The import's `ImportResult` is a class whose counters and lists the methods update.
- The database is a `Store` class with `lineas`, `linea_tramos`, `estructuras`
  and finalized-line tables. Its insert, delete and finalize operations may fail
  nondeterministically.
- The source's loops are `while`/`for` loops. Each is proved against a
  specification function: coordinate tokenising, the `ExtendedData` lookup,
  sub-folder selection, the KMZ member choice, placemark grouping, the per-line
  insert loops and the bracket scan.
- The fault-location handler is a method of early returns, proved equal to the
  function `Resolve`. Its properties are stated as lemmas about `Resolve`.
- The XML parser's output is an `XValue` tree of strings, arrays and objects.
- JSON values are a `JValue` datatype. JavaScript numbers are `Num`: an exact
  real, either infinity, or NaN.

Modules:

| file | module |
|---|---|
| wrappers.dfy | `Wrappers`: `Option`, `Result` |
| text.dfy | `Text`: `trim`, `split(/\s+/)`, `split(",")`, `toLowerCase`, `endsWith`, `includes` |
| js_number.dfy | `JsNumber`: `parseFloat`, `Number(string)` |
| json.dfy | `Json`: JSON values, truthiness, `??`, `Number(v)` |
| xml.dfy | `Xml`: parser tree, truthiness, `?.`, `ensureArray`, `String(v)` |
| coordinates.dfy | `Coordinates`: `parseCoordinates` |
| kml.dfy | `Kml`: extension test, KMZ member choice, layout choice, `getExtendedDataValue`, sub-folder choice, candidate reading, placemark grouping |
| store.dfy | `TopologyStore`: the tables and their operations |
| import_report.dfy | `ImportReport`: `ImportResult` and its accounting |
| import_kmz.dfy | `ImportKmz`: `processFolderStructure`, `processPlacemarkStructure` |
| kmz_handler.dfy | `KmzHandler`: the import request handler |
| fault_location.dfy | `FaultLocation`: the fault-location handler |
| geo.dfy | `Geo`: the GeoJSON validator |

## Model

| member | source | states |
|---|---|---|
| Text.TrimStart | supabase/functions/import-kmz/index.ts:23 | leading part of `trim`: the result is a suffix, it starts with a non-space, and everything dropped is white space |
| Text.TrimEnd | supabase/functions/import-kmz/index.ts:23 | trailing part of `trim`: the result is a prefix, it ends with a non-space, and everything dropped is white space |
| Text.TrimIdempotent | supabase/functions/import-kmz/index.ts:124 | trimming twice (the caller's trim, then the trim inside `parseCoordinates`) equals trimming once |
| Text.FirstSpace | supabase/functions/import-kmz/index.ts:23 | the first white-space position: no space before it, and a space at it |
| Text.SpaceRunEnd | supabase/functions/import-kmz/index.ts:23 | the end of a run of white space: every character in the run is a space, and the next one is not |
| Text.SplitWs | supabase/functions/import-kmz/index.ts:23 | `split(/\s+/)` gives at least one token, and no token contains white space |
| Text.SplitWsWord | supabase/functions/import-kmz/index.ts:23 | a word followed by one space splits off as the first token |
| Text.SplitWsJoin | supabase/functions/import-kmz/index.ts:23 | words joined by single spaces split back into the same words |
| Text.JoinTrimmed | supabase/functions/import-kmz/index.ts:23 | words joined by single spaces have nothing for `trim` to remove |
| Text.JoinEnds | supabase/functions/import-kmz/index.ts:23 | a join of non-empty words starts with the first word's first character and ends with the last word's last character |
| Text.IndexOf | supabase/functions/import-kmz/index.ts:26 | the first position of the separator, with none before it |
| Text.Split | supabase/functions/import-kmz/index.ts:26 | `split(",")` gives at least one field, and no field contains the separator |
| Text.JoinSplit | supabase/functions/import-kmz/index.ts:26 | joining the fields of `split(sep)` with `sep` gives the string back |
| Text.SplitAtSeparator | supabase/functions/import-kmz/index.ts:26 | a separator-free prefix followed by the separator is the first field |
| Text.ToLower | supabase/functions/import-kmz/index.ts:108 | `toLowerCase` on the ASCII letters: A–Z become a–z and every other character is kept, one for one |
| Text.Utf16Length | supabase/functions/import-kmz/index.ts:399 | JavaScript's `length`: between one and two code units per character |
| Text.BmpUtf16Length | supabase/functions/import-kmz/index.ts:399 | for text inside the Basic Multilingual Plane, `length` is the number of characters |
| Text.ContainsLineaareaContainsLinea | supabase/functions/import-kmz/index.ts:109 | a name containing "lineaarea" contains "linea", so the first disjunct of the sub-folder test is subsumed |
| JsNumber.DigitRunEnd | supabase/functions/import-kmz/index.ts:28 | the end of a run of digits: all digits inside the run, and a non-digit or the end after it |
| JsNumber.ParseFloat | supabase/functions/import-kmz/index.ts:28-30 | `parseFloat` is NaN exactly when the string, after leading white space, has no numeric prefix |
| JsNumber.ParseFloatDigits | supabase/functions/import-kmz/index.ts:28-29 | `parseFloat` of a string of decimal digits is the value of those digits |
| JsNumber.StringToNumber | supabase/functions/compute-fault-location/index.ts:59 | `Number(s)` of an empty or all-space string is 0 |
| Json.Coalesce | supabase/functions/compute-fault-location/index.ts:40-41 | `a ?? b` keeps `a` unless it is null or undefined, in which case it gives `b` |
| Json.ToNumber | supabase/functions/compute-fault-location/index.ts:59 | `Number(null)` is 0, and `Number(undefined)` and `Number` of an object are NaN |
| Xml.EnsureArray | supabase/functions/import-kmz/index.ts:39-42 | `ensureArray`: a falsy value gives no elements, an array its elements, anything else a one-element list |
| Xml.EnsureArrayIdempotent | supabase/functions/import-kmz/index.ts:39-42 | `ensureArray` returns an array's elements unchanged, so applying it to its own result changes nothing |
| Xml.EnsureArrayElements | supabase/functions/import-kmz/index.ts:39-42 | every element of `ensureArray(v)` is `v` itself or one of `v`'s elements |
| Coordinates.TupleOf | supabase/functions/import-kmz/index.ts:26-31 | a token gives a pair only when both of its first two fields parse to numbers |
| Coordinates.ReadPair | supabase/functions/import-kmz/index.ts:26-33 | one iteration of the token loop gives exactly the token's pair, or nothing |
| Coordinates.Collect | supabase/functions/import-kmz/index.ts:25-34 | there is at most one pair per token |
| Coordinates.CollectAppend | supabase/functions/import-kmz/index.ts:25-34 | the pairs of concatenated token lists are the concatenated pairs, so input order is kept |
| Coordinates.CollectOne | supabase/functions/import-kmz/index.ts:27-33 | one token contributes its pair, or nothing when it is dropped |
| Coordinates.ParseCoordinates | supabase/functions/import-kmz/index.ts:21-37 | the loop's result is the pairs of the whitespace tokens of the trimmed string |
| Coordinates.NoCommaNoPair | supabase/functions/import-kmz/index.ts:27 | a token without a comma is dropped silently |
| Coordinates.AltitudeIgnored | supabase/functions/import-kmz/index.ts:27-29 | a third ordinate does not change the pair |
| Coordinates.CoordinatesOfWords | supabase/functions/import-kmz/index.ts:21-37 | the parse of words joined by spaces is the pairs of those words |
| Coordinates.PairOfDigits | supabase/functions/import-kmz/index.ts:26-31 | "lon,lat" made of digits gives exactly those two numbers |
| Coordinates.ParseExample | supabase/functions/import-kmz/index.ts:21-37 | `"10,20 bad 30,40"` parses to `[(10,20),(30,40)]` |
| Coordinates.CoordinatesOfTrimmed | supabase/functions/import-kmz/index.ts:124-125 | parsing a trimmed string gives the same pairs as parsing the untrimmed one |
| Kml.FileKindOf | supabase/functions/import-kmz/index.ts:370-382 | a name is rejected exactly when it ends neither in ".kmz" nor ".kml" (case-sensitive), and it is a KMZ exactly when it ends in ".kmz" |
| Kml.KmlCandidates | supabase/functions/import-kmz/index.ts:388-393 | every candidate is a non-directory member whose lower-cased name ends in ".kml" |
| Kml.KmlCandidatesMembers | supabase/functions/import-kmz/index.ts:388-393 | a member is a candidate if and only if it is a KML member of the archive |
| Kml.FirstLongest | supabase/functions/import-kmz/index.ts:399-400 | the chosen position holds a content of maximum `length` (UTF-16 code units), and no earlier position has one as long |
| Kml.EarlierNotFirstLongest | supabase/functions/import-kmz/index.ts:399 | no position before the first longest is itself first longest |
| Kml.FirstLongestUnique | supabase/functions/import-kmz/index.ts:399-400 | the stable sort's choice is unique |
| Kml.SelectKml | supabase/functions/import-kmz/index.ts:383-400 | there is no payload exactly when there are no candidates; otherwise the payload is the content of the first candidate with the greatest `length` in UTF-16 code units |
| Kml.PickLongest | supabase/functions/import-kmz/index.ts:399-400 | the pass over the candidates picks the position the stable descending sort puts first |
| Kml.ChooseLayout | supabase/functions/import-kmz/index.ts:414-434 | a falsy `kml.Document` is an error; a truthy `Folder` wins over `Placemark`; having neither is the "No Folders or Placemarks" error |
| Kml.FirstDataValueIsFirstMatch | supabase/functions/import-kmz/index.ts:48-52 | a value is found if and only if some `Data` entry matches, and the value found is the trimmed value of the first matching entry |
| Kml.GetExtendedDataValue | supabase/functions/import-kmz/index.ts:44-55 | the loop with early return gives the first match's trimmed value, or null |
| Kml.NamedFolders | supabase/functions/import-kmz/index.ts:64-66 | only folders with a truthy name are processed |
| Kml.LastWhereIsLast | supabase/functions/import-kmz/index.ts:107-114 | the chosen sub-folder satisfies the test and no later one does; nothing is chosen only when none satisfies it |
| Kml.LineaFolderTest | supabase/functions/import-kmz/index.ts:108-109 | the "linea" test on the lower-cased name is exactly "contains linea" |
| Kml.LastLineaFolderIsLast | supabase/functions/import-kmz/index.ts:107-114 | the segment folder is the last sub-folder whose lower-cased name contains "linea" |
| Kml.SelectSubFolders | supabase/functions/import-kmz/index.ts:103-114 | the loop picks the last "linea" sub-folder and the last "estructura" sub-folder that is not a "linea" one |
| Kml.CoordsOfValueTrimmed | supabase/functions/import-kmz/index.ts:124-125 | reading coordinates with the caller's trim gives the same pairs as reading them without it |
| Kml.FolderTramoPath | supabase/functions/import-kmz/index.ts:121-127 | a Layout A segment candidate has at least two coordinates |
| Kml.FolderTramoPaths | supabase/functions/import-kmz/index.ts:120-127 | every surviving Layout A segment has at least two coordinates |
| Kml.FolderEstructura | supabase/functions/import-kmz/index.ts:151-159 | a Layout A structure candidate has a non-empty trimmed name |
| Kml.FolderEstructuras | supabase/functions/import-kmz/index.ts:150-159 | every surviving Layout A structure has a non-empty name |
| Kml.ReadFolderTramo | supabase/functions/import-kmz/index.ts:121-127 | reading one placemark gives its segment candidate |
| Kml.ReadFolderEstructura | supabase/functions/import-kmz/index.ts:151-161 | reading one placemark gives its structure candidate, at its first coordinate |
| Kml.ReadFolderTramos | supabase/functions/import-kmz/index.ts:117-127 | the loop gives the segment candidates of the folder's placemarks in order |
| Kml.ReadFolderEstructuras | supabase/functions/import-kmz/index.ts:148-159 | the loop gives the structure candidates of the folder's placemarks in order |
| Kml.LineaKeyOf | supabase/functions/import-kmz/index.ts:214-216 | a placemark's line key, when present, is non-empty |
| Kml.GroupPlacemarks | supabase/functions/import-kmz/index.ts:209-232 | the loop's keys and buckets are the grouping of the placemarks |
| Kml.AddToGrouping | supabase/functions/import-kmz/index.ts:213-231 | one iteration of the grouping loop changes the grouping as `AddPlacemark` says: a keyless placemark is skipped, a new key opens an empty bucket at the end, and the placemark joins its bucket's segment list, its structure list, or neither |
| Kml.HasKeyAppend | supabase/functions/import-kmz/index.ts:213-220 | a key occurs in a longer list if and only if it occurred before or the new placemark carries it |
| Kml.GroupKeys | supabase/functions/import-kmz/index.ts:213-220 | there is a bucket exactly for each key some placemark carries, the keys list exactly the buckets, and no key repeats |
| Kml.TaggedWithoutKey | supabase/functions/import-kmz/index.ts:216 | placemarks without the key contribute nothing to its bucket |
| Kml.GroupBucketIsFilter | supabase/functions/import-kmz/index.ts:222-231 | a bucket's segments are that key's LineString placemarks in order; its structures are that key's Points with a truthy `estructura`; anything else is dropped |
| Kml.FirstWithKey | supabase/functions/import-kmz/index.ts:218-219 | a key's first appearance carries the key, and no earlier placemark does |
| Kml.FirstWithKeyOld | supabase/functions/import-kmz/index.ts:218 | appending a placemark does not move an existing key's first appearance |
| Kml.FirstWithKeyNew | supabase/functions/import-kmz/index.ts:218-219 | a new key first appears at the appended placemark |
| Kml.OrderKeep | supabase/functions/import-kmz/index.ts:218-220 | appending a placemark keeps the keys in first-appearance order |
| Kml.OrderExtend | supabase/functions/import-kmz/index.ts:218-220 | a new key goes after all earlier keys |
| Kml.GroupKeysInFirstAppearanceOrder | supabase/functions/import-kmz/index.ts:234 | buckets are processed in the order their keys first appear |
| Kml.FirstWithKeyUnique | supabase/functions/import-kmz/index.ts:218 | the first appearance is determined by its defining property |
| Kml.BucketTramoPath | supabase/functions/import-kmz/index.ts:270-273 | a Layout B segment candidate has at least two coordinates |
| Kml.BucketEstructura | supabase/functions/import-kmz/index.ts:296-300 | a Layout B structure candidate has a non-empty name |
| Kml.FirstWhere | supabase/functions/import-kmz/index.ts:269-270 | the first placemark that throws: none before it throws, and the one at it does |
| Kml.BucketTramoPaths | supabase/functions/import-kmz/index.ts:269-273 | every Layout B segment candidate has at least two coordinates |
| Kml.BucketEstructuras | supabase/functions/import-kmz/index.ts:295-300 | every Layout B structure candidate has a non-empty name |
| Kml.ReadBucketTramo | supabase/functions/import-kmz/index.ts:270-273 | reading a segment placemark that does not throw gives its candidate |
| Kml.ReadBucketEstructura | supabase/functions/import-kmz/index.ts:296-302 | reading a structure placemark that does not throw gives its candidate |
| Kml.BucketTramoPathsStep | supabase/functions/import-kmz/index.ts:269-273 | before the first throwing placemark, one more placemark extends the candidates by its own |
| Kml.BucketEstructurasStep | supabase/functions/import-kmz/index.ts:295-300 | before the first throwing placemark, one more placemark extends the candidates by its own |
| Kml.ReadBucketTramos | supabase/functions/import-kmz/index.ts:269-273 | the loop throws exactly when some placemark's LineString has no coordinates; it gives the candidates read before that placemark |
| Kml.ReadBucketEstructuras | supabase/functions/import-kmz/index.ts:295-300 | the loop throws exactly when some structure's Point has no coordinates; it gives the candidates read before that structure |
| TopologyStore.RowsOf | supabase/functions/import-kmz/index.ts:80-81 | a line's rows all belong to that line |
| TopologyStore.RowsNotOf | supabase/functions/import-kmz/index.ts:80-81 | after `delete().eq("linea_id", id)`, no row of the line is left, and only existing rows remain |
| TopologyStore.RowsOfAppend | supabase/functions/import-kmz/index.ts:131-135 | appended rows keep their line's rows in order |
| TopologyStore.RowsOfNone | supabase/functions/import-kmz/index.ts:80-81 | a table without rows of the line has none to select |
| TopologyStore.RowsOfAll | supabase/functions/import-kmz/index.ts:131-135 | rows that all belong to the line are all selected |
| TopologyStore.RowsOfAfterDelete | supabase/functions/import-kmz/index.ts:80-81 | a delete empties its own line and leaves every other line's rows as they were |
| TopologyStore.ReplaceLeavesExactlyNew | supabase/functions/import-kmz/index.ts:78-135 | delete-then-insert leaves exactly the new rows for the line, and leaves other lines alone |
| TopologyStore.Store.constructor | supabase/functions/import-kmz/index.ts:355 | an empty store |
| TopologyStore.Store.Lookup | supabase/functions/import-kmz/index.ts:70-74 | a line is found if and only if some line has that `numero`, and the line found has it |
| TopologyStore.Store.SelectByNumero | supabase/functions/import-kmz/index.ts:70-74 | a line the query gives is the line with that `numero`; when none has it, none is given; a failed query (whose `error` is not read) also gives none |
| TopologyStore.Store.InsertLinea | supabase/functions/import-kmz/index.ts:83-90 | a successful insert adds one fresh line with `numero = nombre = key` and no other change; a failure changes nothing |
| TopologyStore.Store.DeleteTramos | supabase/functions/import-kmz/index.ts:80 | a successful delete removes exactly the line's segments; a failure changes nothing |
| TopologyStore.Store.DeleteEstructuras | supabase/functions/import-kmz/index.ts:81 | a successful delete removes exactly the line's structures; a failure changes nothing |
| TopologyStore.Store.InsertTramo | supabase/functions/import-kmz/index.ts:131-135 | a successful insert appends the row, and an insert for an unknown line fails |
| TopologyStore.Store.InsertEstructura | supabase/functions/import-kmz/index.ts:164-169 | a successful insert appends the row, and an insert for an unknown line fails |
| TopologyStore.Store.Finalize | supabase/functions/import-kmz/index.ts:182-187 | a successful finalize records the line, and nothing else changes |
| ImportReport.ImportResult.constructor | supabase/functions/import-kmz/index.ts:419-426 | all counters are zero and both lists are empty |
| ImportReport.CreateFailedMessage | supabase/functions/import-kmz/index.ts:94 | the error text "Failed to create linea <key>: <message>" |
| ImportReport.TramoFailedMessage | supabase/functions/import-kmz/index.ts:139 | the error text "Failed to insert tramo for linea <key>: <message>" |
| ImportReport.EstructuraFailedMessage | supabase/functions/import-kmz/index.ts:173 | the error text "Failed to insert estructura <name> for linea <key>: <message>" |
| ImportReport.FinalizeFailedMessage | supabase/functions/import-kmz/index.ts:191 | the error text "Failed to finalize linea <key>: <message>" |
| ImportReport.NoSegmentsWarning | supabase/functions/import-kmz/index.ts:198 | the warning "No line segments found for linea <key>, skipping finalization" |
| ImportReport.CreateErrorText | supabase/functions/import-kmz/index.ts:94 | `error?.message \|\| "Unknown error"`: a non-empty message is kept, otherwise the text is "Unknown error" |
| ImportReport.Outcomes | supabase/functions/import-kmz/index.ts:171-177 | the structure attempts' outcomes in order |
| ImportReport.EveryAttemptCounted | supabase/functions/import-kmz/index.ts:137-143 | every attempt is either an insert or a failure |
| ImportReport.AfterTramosAccounting | supabase/functions/import-kmz/index.ts:137-143 | each segment attempt adds one to `tramos_inserted` or appends one error; errors are append-only, and nothing else changes |
| ImportReport.AfterEstructurasAccounting | supabase/functions/import-kmz/index.ts:171-177 | each structure attempt adds one to `estructuras_inserted` or appends one error; nothing else changes |
| ImportReport.CreateFailureSkipsLine | supabase/functions/import-kmz/index.ts:92-97 | a failed creation appends exactly one error, with no inserts, finalization or warning |
| ImportReport.OpenedLineAccounting | supabase/functions/import-kmz/index.ts:78-200 | for an opened line, `lineas_created` grows by one exactly when it was created; the insert counters grow by the successful inserts; exactly one of finalized, finalize error, or warning occurs; there is one error per failed insert |
| ImportReport.ExtendsTransitive | supabase/functions/import-kmz/index.ts:64-201 | "counters do not decrease and lists only grow" is transitive |
| ImportReport.AfterLineExtends | supabase/functions/import-kmz/index.ts:64-201 | one line's run never decreases a counter, and it only appends to `errores` and `warnings` |
| ImportReport.AfterLinesExtends | supabase/functions/import-kmz/index.ts:64-201 | the same holds over any number of lines |
| ImportReport.AfterLinesAppend | supabase/functions/import-kmz/index.ts:64-201 | running two batches of lines is running them one after the other |
| ImportReport.AfterLinesPrefix | supabase/functions/import-kmz/index.ts:64-201 | a later report extends every earlier one |
| ImportReport.RunsFitStep | supabase/functions/import-kmz/index.ts:64 | the per-line fit of the runs extends by one line |
| ImportKmz.TramoRowsShape | supabase/functions/import-kmz/index.ts:118-135 | one segment per successful attempt, all of the line, in strictly increasing `orden`; each carries the path of the candidate at its `orden`, so a failed attempt leaves a gap |
| ImportKmz.TramoRowsDense | supabase/functions/import-kmz/index.ts:118-135 | when every insert succeeds, the segments carry `orden` 0, 1, 2, … in candidate order |
| ImportKmz.EstructuraRowsOfLine | supabase/functions/import-kmz/index.ts:161-169 | one structure per successful attempt, all of the line and all with km 0 |
| ImportKmz.ReimportReplacesRows | supabase/functions/import-kmz/index.ts:78-81 | when the line was created, or found with both deletes succeeding, it holds exactly the rows of this import afterwards, and other lines keep theirs |
| ImportKmz.FailedPurgeKeepsOldRows | supabase/functions/import-kmz/index.ts:78-81 | the delete results are not checked: when a purge fails, the reused line holds its old rows followed by the new ones |
| ImportKmz.OpenLine | supabase/functions/import-kmz/index.ts:70-101 | a line is reused (and purged, without a creation count) only when the lookup found a line with that `numero`; one is created (`lineas_created` + 1) only when none had it; a failed creation appends one error and gives no id |
| ImportKmz.TryInsertTramo | supabase/functions/import-kmz/index.ts:131-143 | one segment insert: the row on success, and the report updated by the attempt's outcome |
| ImportKmz.TryInsertEstructura | supabase/functions/import-kmz/index.ts:164-177 | one structure insert with km 0: the row on success, and the report updated by the outcome |
| ImportKmz.FinalizeLine | supabase/functions/import-kmz/index.ts:181-200 | finalization is skipped exactly when the gate is false, with a warning; otherwise the RPC either records the line or appends one error |
| ImportKmz.TramoRowsStep | supabase/functions/import-kmz/index.ts:131-135 | one more attempt adds at most its own row |
| ImportKmz.EstructuraRowsStep | supabase/functions/import-kmz/index.ts:164-169 | one more attempt adds at most its own row |
| ImportKmz.AfterTramosStep | supabase/functions/import-kmz/index.ts:137-143 | the report after one more segment attempt |
| ImportKmz.AfterEstructurasStep | supabase/functions/import-kmz/index.ts:171-177 | the report after one more structure attempt |
| ImportKmz.InsertTramos | supabase/functions/import-kmz/index.ts:118-144 | one attempt per candidate, with `orden` counting every attempt including failed ones; the successful rows are appended in order |
| ImportKmz.InsertTramoAt | supabase/functions/import-kmz/index.ts:119-143 | one segment attempt, numbered by `orden`, extends the rows and the report by that attempt |
| ImportKmz.InsertFolderTramos | supabase/functions/import-kmz/index.ts:116-145 | the segment loop of a Layout A line over its "linea" folder's candidates |
| ImportKmz.InsertEstructuras | supabase/functions/import-kmz/index.ts:150-178 | one attempt per structure candidate; the successful rows are appended in order |
| ImportKmz.InsertEstructuraAt | supabase/functions/import-kmz/index.ts:150-177 | one structure attempt extends the rows and the report by that attempt, under the candidate's name |
| ImportKmz.InsertFolderEstructuras | supabase/functions/import-kmz/index.ts:147-179 | the structure loop of a Layout A line over its "estructura" folder's candidates |
| ImportKmz.FillFolderLine | supabase/functions/import-kmz/index.ts:103-200 | an opened Layout A line inserts its candidates; it is finalized unless the cumulative `tramos_inserted` is still 0 |
| ImportKmz.ProcessFolder | supabase/functions/import-kmz/index.ts:65-200 | one folder's run fits the folder (key, attempt counts, cumulative gate); its opening matches the `lineas` table; the report and tables change exactly as the run says |
| ImportKmz.TablesFitStep | supabase/functions/import-kmz/index.ts:64 | the table snapshots of the runs extend by one line's effect |
| ImportKmz.PrefixStep | supabase/functions/import-kmz/index.ts:234-341 | one more line extends both the fitted runs and the table snapshots |
| ImportKmz.NamedFoldersStep | supabase/functions/import-kmz/index.ts:64-66 | a folder without a name adds no line |
| ImportKmz.ProcessFolderAt | supabase/functions/import-kmz/index.ts:64-201 | one iteration of the folder loop: an unnamed folder adds no run and leaves the tables alone; a named one adds the run that fits it and the tables it leaves |
| ImportKmz.ProcessFolderStructure | supabase/functions/import-kmz/index.ts:57-202 | one run per named folder, in order, each fitting its folder; the report is the runs' accumulation and only grows; the tables go from the old contents to the new through each run's effect in turn |
| ImportKmz.CumulativeGateAfterInsert | supabase/functions/import-kmz/index.ts:181 | once any earlier line inserted a segment, no later opened line skips finalization |
| ImportKmz.EffectKeepsLines | supabase/functions/import-kmz/index.ts:70-101 | a run never removes or changes a line, and an opened line is in the table under its key |
| ImportKmz.KeepsLinesChain | supabase/functions/import-kmz/index.ts:64-201 | lines kept by every run are kept across any stretch of runs |
| ImportKmz.SameNameCreatedOnce | supabase/functions/import-kmz/index.ts:64-101 | two folders with the same name share a line: once the first opened it, a later one is never created again, so it reuses and purges it |
| ImportKmz.FolderGateIsCumulative | supabase/functions/import-kmz/index.ts:181 | the same, for the runs of a Layout A import: a line with no segments of its own is still finalized |
| ImportKmz.FillBucketLine | supabase/functions/import-kmz/index.ts:268-340 | an opened Layout B line inserts the candidates it reaches, throws at a placemark without coordinates, and is finalized exactly when the bucket has a LineString placemark |
| ImportKmz.ProcessBucket | supabase/functions/import-kmz/index.ts:235-340 | one bucket's run fits the bucket; a throw happens only after the line opened; its opening matches the `lineas` table; the tables change exactly as the run says, up to the throw |
| ImportKmz.Lines | supabase/functions/import-kmz/index.ts:234 | the lines are the grouping's keys, in order |
| ImportKmz.ProcessLine | supabase/functions/import-kmz/index.ts:234-341 | a line that does not throw extends the fitted runs and the tables by its own run, and if its bucket would throw, its line was not opened; a line that throws was opened, has a throwing bucket, and leaves the tables its partial run made |
| ImportKmz.ProcessLines | supabase/functions/import-kmz/index.ts:234-341 | the line loop runs the buckets in key order, each fitting its bucket, and stops exactly at the first bucket that was opened and throws (a throwing bucket whose line could not be created is passed); the tables go through each run's effect, including the throwing bucket's partial one |
| ImportKmz.ProcessPlacemarkStructure | supabase/functions/import-kmz/index.ts:204-342 | the buckets run in first-appearance order, each fitting its bucket; the run stops exactly at the first bucket that was opened and throws, keeping the rows written before it; otherwise the report is the runs' accumulation; the tables change through each run's effect |
| ImportKmz.BucketGateIgnoresInserts | supabase/functions/import-kmz/index.ts:321 | a Layout B line whose LineString placemarks give no segment is still finalized |
| KmzHandler.Status | supabase/functions/import-kmz/index.ts:360-452 | 200 exactly for an import, 400 exactly for a bad request |
| KmzHandler.Prepare | supabase/functions/import-kmz/index.ts:360-434 | only a missing file or a wrong extension gives 400; every later failure before the import is a 500 |
| KmzHandler.ReadKmlText | supabase/functions/import-kmz/index.ts:380-403 | the KML text is the chosen member of a KMZ (or its zip error or "No KML file found in KMZ"), or the text of a .kml file |
| KmzHandler.Load | supabase/functions/import-kmz/index.ts:360-434 | the handler's checks, made in the source's order, end the request exactly as `Prepare` says |
| KmzHandler.KmzWithoutKml | supabase/functions/import-kmz/index.ts:395-397 | a KMZ without a KML member gives a 500 "No KML file found in KMZ" |
| KmzHandler.PrepareDispatches | supabase/functions/import-kmz/index.ts:412-434 | a parsed document is imported in the layout `ChooseLayout` picks, or rejected with its message |
| KmzHandler.ImportFolders | supabase/functions/import-kmz/index.ts:419-439 | a Folder document gives 200 with the report of one run per named folder, each fitting its folder; the store ends as those runs leave it |
| KmzHandler.ImportPlacemarks | supabase/functions/import-kmz/index.ts:419-439 | a Placemark document gives 200 with the report of runs fitting its lines, none of them an opened throwing bucket, or a 500 TypeError at the first bucket that was opened and throws; the store ends as the runs (and the throwing bucket's partial run) leave it |
| KmzHandler.HandleImport | supabase/functions/import-kmz/index.ts:357-452 | a rejected upload gets the response `Prepare` gives and leaves the store untouched; an accepted one is imported in its layout, with the response and the store contents `ImportedAs` states |
| FaultLocation.Status | supabase/functions/compute-fault-location/index.ts:61-198 | 200 exactly for a located point |
| FaultLocation.FirstRow | supabase/functions/compute-fault-location/index.ts:22-26 | `firstRow`: a row comes only from a truthy reply and is never null; an object is its own row |
| FaultLocation.ToNum | supabase/functions/compute-fault-location/index.ts:28-31 | `toNum` is finite or NaN, and it equals `Number(v)` when that is finite |
| FaultLocation.ExtractLatLon | supabase/functions/compute-fault-location/index.ts:35-45 | a falsy reply or an empty array gives no coordinates |
| FaultLocation.ExtractLatLonFirstOfArray | supabase/functions/compute-fault-location/index.ts:22-26 | a reply that is a list of rows reads as its first row |
| FaultLocation.ExtractLatLonPrefersShortKeys | supabase/functions/compute-fault-location/index.ts:40-41 | a non-null `lat` hides `latitude`, and a non-null `lon` hides `lng` and `longitude` |
| FaultLocation.ExtractLatLonLng | supabase/functions/compute-fault-location/index.ts:39-43 | `{lat, lng}` reads as a point |
| FaultLocation.ExtractLatLonLongKeys | supabase/functions/compute-fault-location/index.ts:40-43 | `latitude`/`longitude` are read when `lat` is missing and `lon` is null |
| FaultLocation.ExtractLatLonRejects | supabase/functions/compute-fault-location/index.ts:43-44 | a missing longitude or an infinite latitude gives null |
| FaultLocation.ParseRequest | supabase/functions/compute-fault-location/index.ts:57-66 | a request is valid if and only if `lineaId` is truthy and `Number(km)` is finite; otherwise it is a 400 |
| FaultLocation.Bounds | supabase/functions/compute-fault-location/index.ts:82-85 | the range exists exactly when both ends are non-null and finite |
| FaultLocation.RangeError | supabase/functions/compute-fault-location/index.ts:85-92 | an error exactly when a range exists and km lies outside `[km_inicio, km_fin]` |
| FaultLocation.LastBelow | supabase/functions/compute-fault-location/index.ts:107-109 | `e1` is the last structure with finite km ≤ target; none exists only when no structure qualifies |
| FaultLocation.FirstAbove | supabase/functions/compute-fault-location/index.ts:107-110 | `e2` is the first structure with finite km ≥ target; none exists only when no structure qualifies |
| FaultLocation.ScanBracket | supabase/functions/compute-fault-location/index.ts:104-111 | the loop's `e1`/`e2` are the last structure at or before the target and the first at or after it |
| FaultLocation.BracketIsTight | supabase/functions/compute-fault-location/index.ts:103-111 | `e1.km ≤ km ≤ e2.km`, and over ascending structures none lies strictly between them |
| FaultLocation.ExactHitBracket | supabase/functions/compute-fault-location/index.ts:107-111 | a target equal to a structure's km brackets it between two structures of that km |
| FaultLocation.BracketExample | supabase/functions/compute-fault-location/index.ts:107-111 | kms 5, 10, 15 with target 12 give `e1` at 10 and `e2` at 15 |
| FaultLocation.LineFraction | supabase/functions/compute-fault-location/index.ts:162-165 | a finite fraction lies in `[0,1]`, and a finite range always gives a finite fraction |
| FaultLocation.LineFractionInterpolates | supabase/functions/compute-fault-location/index.ts:163-165 | inside the range `inicio + fraction·(fin − inicio) = km`; before it the fraction is 0, past it 1 |
| FaultLocation.QuotientBounds | supabase/functions/compute-fault-location/index.ts:163 | where `x / d` lies against 0 and 1 for a positive `d` |
| FaultLocation.LineFractionExample | supabase/functions/compute-fault-location/index.ts:162-165 | range 0–10 with target 15 gives fraction 1 |
| FaultLocation.Single | supabase/functions/compute-fault-location/index.ts:139 | a single structure exists exactly when one side of the bracket exists, and it is that side |
| FaultLocation.TryStructures | supabase/functions/compute-fault-location/index.ts:103-158 | no structures means nothing to try; with two sides of different km the outcome is `interpolate_point`'s (its point tagged `interpolation`, its error, or nothing); with exactly one side it is `get_point_coords`' on that structure (tagged `single_structure`); otherwise nothing; never `line_geometry` |
| FaultLocation.TryLine | supabase/functions/compute-fault-location/index.ts:160-185 | nothing unless the line has a geometry and `km_fin > km_inicio`; otherwise the outcome of `interpolate_line_point` at the clamped fraction of the target, a failure being that procedure's own error |
| FaultLocation.Resolve | supabase/functions/compute-fault-location/index.ts:57-199 | a point is located only for a valid request whose line exists and whose km is in range; 404 exactly for a valid request whose line the lookup does not return |
| FaultLocation.Locate | supabase/functions/compute-fault-location/index.ts:57-199 | the handler's chain of early returns gives the reply `Resolve` describes, which the lemmas below pin down strategy by strategy |
| FaultLocation.InvalidRequestNeedsNoLookup | supabase/functions/compute-fault-location/index.ts:61-66 | an invalid request is a 400 before any lookup, whatever the backend |
| FaultLocation.RangeCheckComesFirst | supabase/functions/compute-fault-location/index.ts:85-101 | an out-of-range km is a 400 whatever the structure query would return |
| FaultLocation.LineStrategyCondition | supabase/functions/compute-fault-location/index.ts:161-185 | `line_geometry` only for a line with a geometry and `km_fin > km_inicio`, after both structure strategies gave nothing |
| FaultLocation.ExactHitSkipsStructures | supabase/functions/compute-fault-location/index.ts:114-140 | a target exactly on a structure's km skips both structure strategies |
| FaultLocation.StructureQueryFailureIs500 | supabase/functions/compute-fault-location/index.ts:101 | a failing structure query gives 500 with its message |
| FaultLocation.InterpolationLocates | supabase/functions/compute-fault-location/index.ts:114-136 | for a request that reaches the strategies, two bracket sides of different km and a point from `interpolate_point` give that point, tagged `interpolation` |
| FaultLocation.SingleStructureLocates | supabase/functions/compute-fault-location/index.ts:138-158 | with exactly one bracket side, interpolation is not tried, and a point from `get_point_coords` on that structure is the reply, tagged `single_structure` |
| FaultLocation.LineGeometryLocates | supabase/functions/compute-fault-location/index.ts:160-185 | when the structures give nothing and the line qualifies, the point `interpolate_line_point` gives at the clamped fraction is the reply, tagged `line_geometry` |
| FaultLocation.RpcFailureIs500 | supabase/functions/compute-fault-location/index.ts:114-198 | an error from any procedure the chain reaches is answered with 500 and that error's message |
| FaultLocation.NoCoordinatesExactly | supabase/functions/compute-fault-location/index.ts:187-192 | the 400 "cannot compute location" is given if and only if both the structure strategies and the line strategy give nothing |
| FaultLocation.EqualSidesSkipStructures | supabase/functions/compute-fault-location/index.ts:114-139 | a bracket whose two sides have the same km tries neither interpolation nor a single structure, whatever the order of the rows |
| Geo.IsPosition | src/types/geo.ts:25-34 | `isPosition`: an array of at least two elements whose first two are finite numbers |
| Geo.IsGeoJSONGeometry | src/types/geo.ts:36-58 | `isGeoJSONGeometry`: an object whose `type` is Point, LineString or MultiLineString with coordinates of the matching shape |
| Geo.IsGeoJSONPoint | src/types/geo.ts:60-62 | `isGeoJSONPoint`: a valid geometry of type Point |
| Geo.Decode | src/types/geo.ts:36-58 | a typed geometry is obtained exactly when `isGeoJSONGeometry` holds, and it is a Point exactly when `isGeoJSONPoint` holds |
| Geo.DecodeEncodePath | src/types/geo.ts:44-46 | every encoded path is an array of Positions and decodes back |
| Geo.DecodeEncode | src/types/geo.ts:36-58 | every typed geometry encodes to a value the validator accepts, and it decodes back to the same geometry |
| Geo.PositionIgnoresExtraElements | src/types/geo.ts:25-34 | elements after the first two do not affect `isPosition` |
| Geo.EmptyCoordinatesAccepted | src/types/geo.ts:44-55 | an empty LineString and a MultiLineString of one empty segment are accepted |
| Geo.RejectsOtherInputs | src/types/geo.ts:37-57 | non-objects, null, arrays and objects of an unknown `type` are rejected |

## Left out

- HTTP plumbing is not modelled: `Deno.serve`, the OPTIONS preflight, CORS headers, `req.formData()`/`req.json()` and response construction. The handlers return status outcomes as datatypes (`KmzHandler.Response`, `FaultLocation.Outcome`). A body that fails to parse is a `Result` failure.
- The zip reader, `File.text()`, the XML parser and the PostGIS procedures are parameters: function values in `KmzHandler.Libraries` and `FaultLocation.Backend`. The Supabase client is the `Store` class. Each of its calls may fail, as a nondeterministic choice; the line lookup's failure reads as "no such line", because its `error` is not read.
- TopologyStore.Store: the database schema is assumed to hold a UNIQUE index on `lineas.numero` and foreign keys from `linea_tramos` and `estructuras` to `lineas`. `Valid`'s one-to-one `byNumero` index and `InsertLinea` failing on a duplicate `numero` model that index; `ImportKmz.OpenLine` (`Created` only when the line was absent) and `ImportKmz.SameNameCreatedOnce` depend on it. Without such an index, a failed lookup followed by a successful insert would create a second line with the same `numero`, which this model does not capture.
- WKT text is not modelled. This covers `LINESTRING(...)`, `POINT(lon lat)` and the number-to-string formatting inside them and inside the out-of-range message. Rows carry the coordinates themselves, and the out-of-range error carries the three numbers.
- Floating point is not modelled. Numbers are exact reals with the infinities and NaN; rounding, `-0`, and the decimal precision of `parseFloat`/`Number` are not modelled. `Number` of hexadecimal, binary and octal literals is also left out.
- `ImportKmz.ProcessPlacemarkStructure`: when a bucket throws, the runs before it are stated, but the partly done run of the throwing bucket is not part of `runs`. Its table changes are stated through the separate `thrown` run; its report changes are stated per bucket by `ImportKmz.ProcessBucket` only, since the 500 response does not carry the report.
- `Text.ToLower`: lower-cases the ASCII letters only. JavaScript's `toLowerCase` covers all of Unicode (the KELVIN SIGN becomes "k", so "doc.\u212AML" names a KML member) and may change the length ("İ" becomes two code units); those names are not modelled.
- `KmzHandler.HandleImport`: the thrown message of a Layout B placemark without coordinates is the runtime's TypeError text. It is modelled as one constant. The error response's `stack` field is not modelled.
- The per-line loops first read all candidates of the line, then make the inserts. The source reads each placemark just before its insert. Reading is free of effects, so the store sees the same calls in the same order.
- `Kml.CoordsOfValue`: the source trims the coordinate text before `parseCoordinates` trims it again. The model parses with one trim, and `Kml.CoordsOfValueTrimmed` proves this gives the same pairs.
- `console.error` logging in the import handler is not modelled.
- Concurrency and atomicity of re-imports are not modelled. Each request runs sequentially, without a transaction.
