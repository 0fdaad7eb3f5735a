/**
 * The KMZ/KML import: per line key, find or create the line, purge its old
 * segments and structures, insert the new ones, and finalize it; both KML
 * layouts; and the request handler around them.
 */
module ImportKmz {
  import opened Wrappers
  import opened Text
  import opened Xml
  import opened Coordinates
  import opened Kml
  import opened TopologyStore
  import opened ImportReport

  // ---------------------------------------------------------------- rows a line receives

  /** The segment rows a line's inserts add: the i-th surviving candidate is sent
      with `orden` i, whether or not its insert succeeds. */
  function TramoRows(id: LineaId, paths: seq<seq<Coord>>, attempts: seq<Attempt>): seq<Tramo>
    requires |paths| == |attempts|
  {
    if paths == [] then []
    else
      TramoRows(id, paths[..|paths| - 1], attempts[..|attempts| - 1])
      + (if attempts[|attempts| - 1].Inserted? then [Tramo(id, |paths| - 1, paths[|paths| - 1])] else [])
  }

  /** The structure rows a line's inserts add, all with `km` 0. */
  function EstructuraRows(id: LineaId, cands: seq<EstructuraCandidate>, attempts: seq<NamedAttempt>): seq<Estructura>
    requires |cands| == |attempts|
  {
    if cands == [] then []
    else
      EstructuraRows(id, cands[..|cands| - 1], attempts[..|attempts| - 1])
      + (if attempts[|attempts| - 1].attempt.Inserted?
         then [Estructura(id, cands[|cands| - 1].name, 0, cands[|cands| - 1].point)] else [])
  }

  /** The inserted segments belong to the line, one per successful attempt, in
      strictly increasing `orden`, each with the path of the candidate at that
      `orden`. */
  lemma {:induction false} TramoRowsShape(id: LineaId, paths: seq<seq<Coord>>, attempts: seq<Attempt>)
    requires |paths| == |attempts|
    ensures var rows := TramoRows(id, paths, attempts);
      && |rows| == CountInserted(attempts)
      && (forall k :: 0 <= k < |rows| ==>
            rows[k].lineaId == id && rows[k].orden < |paths|
            && rows[k].path == paths[rows[k].orden] && attempts[rows[k].orden].Inserted?)
      && (forall k, l :: 0 <= k < l < |rows| ==> rows[k].orden < rows[l].orden)
  {
    if paths != [] {
      TramoRowsShape(id, paths[..|paths| - 1], attempts[..|attempts| - 1]);
    }
  }

  /** When every insert succeeds the line's segments are numbered densely
      0, 1, 2, ... in encounter order. */
  lemma {:induction false} TramoRowsDense(id: LineaId, paths: seq<seq<Coord>>, attempts: seq<Attempt>)
    requires |paths| == |attempts|
    requires forall k :: 0 <= k < |attempts| ==> attempts[k].Inserted?
    ensures |TramoRows(id, paths, attempts)| == |paths|
    ensures forall k :: 0 <= k < |paths| ==> TramoRows(id, paths, attempts)[k] == Tramo(id, k, paths[k])
  {
    if paths != [] {
      TramoRowsDense(id, paths[..|paths| - 1], attempts[..|attempts| - 1]);
    }
  }

  lemma {:induction false} EstructuraRowsOfLine(id: LineaId, cands: seq<EstructuraCandidate>, attempts: seq<NamedAttempt>)
    requires |cands| == |attempts|
    ensures var rows := EstructuraRows(id, cands, attempts);
      |rows| == CountInserted(Outcomes(attempts))
      && forall k :: 0 <= k < |rows| ==> rows[k].lineaId == id && rows[k].km == 0
  {
    if cands != [] {
      var init := attempts[..|attempts| - 1];
      EstructuraRowsOfLine(id, cands[..|cands| - 1], init);
      assert Outcomes(attempts)[..|attempts| - 1] == Outcomes(init);
    }
  }

  predicate NamesMatch(attempts: seq<NamedAttempt>, cands: seq<EstructuraCandidate>)
  {
    |attempts| == |cands| && forall k :: 0 <= k < |cands| ==> attempts[k].name == cands[k].name
  }

  lemma NamesMatchStep(attempts: seq<NamedAttempt>, cands: seq<EstructuraCandidate>, i: nat, a: NamedAttempt)
    requires i < |cands| && NamesMatch(attempts, cands[..i]) && a.name == cands[i].name
    ensures NamesMatch(attempts + [a], cands[..i + 1])
  {
  }

  function LineasAfterOpening(lineas: map<LineaId, Linea>, key: string, opening: Opening): map<LineaId, Linea>
  {
    if opening.Created? then lineas[opening.id := Linea(key, key)] else lineas
  }

  function TramosAfterOpening(rows: seq<Tramo>, opening: Opening): seq<Tramo>
  {
    if opening.Reused? && opening.tramosPurged then RowsNotOf(rows, TramoLine, opening.id) else rows
  }

  function EstructurasAfterOpening(rows: seq<Estructura>, opening: Opening): seq<Estructura>
  {
    if opening.Reused? && opening.estructurasPurged then RowsNotOf(rows, EstructuraLine, opening.id) else rows
  }

  /** What a run's opening found in the `lineas` table: a reused line is one with
      that `numero`, and a line is created only when none has it. */
  predicate OpeningFits(before: Tables, key: string, opening: Opening)
  {
    match opening
    case Reused(id, _, _) => id in before.lineas && before.lineas[id].numero == key
    case Created(id) => id !in before.lineas && forall i :: i in before.lineas ==> before.lineas[i].numero != key
    case CreateFailed(_) => true
  }

  /** What one line's run does to the tables, given the candidates it inserted. */
  predicate LineEffect(before: Tables, after: Tables, run: LineRun, paths: seq<seq<Coord>>, cands: seq<EstructuraCandidate>)
  {
    if run.opening.CreateFailed? then after == before
    else
      var id := run.opening.id;
      |paths| == |run.tramos| && |cands| == |run.estructuras|
      && after.lineas == LineasAfterOpening(before.lineas, run.key, run.opening)
      && after.tramos == TramosAfterOpening(before.tramos, run.opening) + TramoRows(id, paths, run.tramos)
      && after.estructuras == EstructurasAfterOpening(before.estructuras, run.opening) + EstructuraRows(id, cands, run.estructuras)
      && after.finalized == before.finalized + (if run.finalization.Finalized? then [id] else [])
  }

  /** A re-import replaces: once a line is opened (created, or found with both
      purges succeeding), it holds exactly the rows of this import, never a union
      of old and new, and no other line's rows change. */
  lemma ReimportReplacesRows(before: Tables, after: Tables, run: LineRun, paths: seq<seq<Coord>>,
                             cands: seq<EstructuraCandidate>, other: LineaId)
    requires LineEffect(before, after, run, paths, cands)
    requires !run.opening.CreateFailed?
    requires run.opening.Reused? ==> run.opening.tramosPurged && run.opening.estructurasPurged
    requires run.opening.Created? ==>
      (forall k :: 0 <= k < |before.tramos| ==> before.tramos[k].lineaId != run.opening.id)
      && (forall k :: 0 <= k < |before.estructuras| ==> before.estructuras[k].lineaId != run.opening.id)
    ensures RowsOf(after.tramos, TramoLine, run.opening.id) == TramoRows(run.opening.id, paths, run.tramos)
    ensures RowsOf(after.estructuras, EstructuraLine, run.opening.id) == EstructuraRows(run.opening.id, cands, run.estructuras)
    ensures other != run.opening.id ==>
      RowsOf(after.tramos, TramoLine, other) == RowsOf(before.tramos, TramoLine, other)
      && RowsOf(after.estructuras, EstructuraLine, other) == RowsOf(before.estructuras, EstructuraLine, other)
  {
    var id := run.opening.id;
    var newTramos := TramoRows(id, paths, run.tramos);
    var newEstructuras := EstructuraRows(id, cands, run.estructuras);
    TramoRowsShape(id, paths, run.tramos);
    EstructuraRowsOfLine(id, cands, run.estructuras);
    if run.opening.Reused? {
      ReplaceLeavesExactlyNew(before.tramos, TramoLine, id, newTramos, other);
      ReplaceLeavesExactlyNew(before.estructuras, EstructuraLine, id, newEstructuras, other);
    } else {
      RowsOfAppend(before.tramos, newTramos, TramoLine, id);
      RowsOfAppend(before.tramos, newTramos, TramoLine, other);
      RowsOfNone(before.tramos, TramoLine, id);
      RowsOfAll(newTramos, TramoLine, id);
      RowsOfAppend(before.estructuras, newEstructuras, EstructuraLine, id);
      RowsOfAppend(before.estructuras, newEstructuras, EstructuraLine, other);
      RowsOfNone(before.estructuras, EstructuraLine, id);
      RowsOfAll(newEstructuras, EstructuraLine, id);
      if other != id {
        RowsOfNone(newTramos, TramoLine, other);
        RowsOfNone(newEstructuras, EstructuraLine, other);
      }
    }
  }

  /** A purge whose delete failed is not noticed: the reused line then holds its
      old rows followed by the new ones. */
  lemma FailedPurgeKeepsOldRows(before: Tables, after: Tables, run: LineRun, paths: seq<seq<Coord>>,
                                cands: seq<EstructuraCandidate>)
    requires LineEffect(before, after, run, paths, cands)
    requires run.opening.Reused?
    ensures !run.opening.tramosPurged ==>
      RowsOf(after.tramos, TramoLine, run.opening.id)
      == RowsOf(before.tramos, TramoLine, run.opening.id) + TramoRows(run.opening.id, paths, run.tramos)
    ensures !run.opening.estructurasPurged ==>
      RowsOf(after.estructuras, EstructuraLine, run.opening.id)
      == RowsOf(before.estructuras, EstructuraLine, run.opening.id) + EstructuraRows(run.opening.id, cands, run.estructuras)
  {
    var id := run.opening.id;
    var newTramos := TramoRows(id, paths, run.tramos);
    var newEstructuras := EstructuraRows(id, cands, run.estructuras);
    TramoRowsShape(id, paths, run.tramos);
    EstructuraRowsOfLine(id, cands, run.estructuras);
    RowsOfAppend(before.tramos, newTramos, TramoLine, id);
    RowsOfAll(newTramos, TramoLine, id);
    RowsOfAppend(before.estructuras, newEstructuras, EstructuraLine, id);
    RowsOfAll(newEstructuras, EstructuraLine, id);
  }

  // ---------------------------------------------------------------- one line, step by step

  /** Find the line by `numero`; if it exists purge its children (ignoring the
      delete results), otherwise create it with `numero = nombre = key`, or
      record the creation error. */
  method OpenLine(store: Store, result: ImportResult, key: string) returns (id: Option<LineaId>, ghost opening: Opening)
    requires store.Valid()
    modifies store, result
    ensures store.Valid()
    ensures result.Snapshot() == AfterOpening(old(result.Snapshot()), key, opening)
    ensures id.None? <==> opening.CreateFailed?
    ensures id.Some? ==> id.value == opening.id && id.value in store.lineas
    ensures opening.Reused? ==> old(store.Lookup(key)) == Some(opening.id)
    ensures opening.Created? ==> old(store.Lookup(key)).None? && opening.id !in old(store.lineas)
    ensures OpeningFits(old(store.Contents()), key, opening)
    ensures store.lineas == LineasAfterOpening(old(store.lineas), key, opening)
    ensures store.tramos == TramosAfterOpening(old(store.tramos), opening)
    ensures store.estructuras == EstructurasAfterOpening(old(store.estructuras), opening)
    ensures store.finalized == old(store.finalized)
  {
    var existing := store.SelectByNumero(key);
    if existing.Some? {
      var lineaId := existing.value;
      var tramosError := store.DeleteTramos(lineaId);
      var estructurasError := store.DeleteEstructuras(lineaId);
      return existing, Reused(lineaId, tramosError.None?, estructurasError.None?);
    }
    var newLinea, error := store.InsertLinea(key, key);
    if error.Some? || newLinea.None? {
      result.errores := result.errores + [CreateFailedMessage(key, error)];
      return None, CreateFailed(error);
    }
    result.lineasCreated := result.lineasCreated + 1;
    return newLinea, Created(newLinea.value);
  }

  /** Insert one segment: count it, or record its error. */
  method TryInsertTramo(store: Store, result: ImportResult, id: LineaId, key: string, orden: nat, path: seq<Coord>)
    returns (ghost a: Attempt)
    requires store.Valid()
    modifies store, result
    ensures store.Valid()
    ensures result.Snapshot() == AfterTramo(old(result.Snapshot()), key, a)
    ensures store.tramos == old(store.tramos) + (if a.Inserted? then [Tramo(id, orden, path)] else [])
    ensures store.lineas == old(store.lineas) && store.estructuras == old(store.estructuras)
    ensures store.finalized == old(store.finalized)
  {
    var error := store.InsertTramo(Tramo(id, orden, path));
    if error.Some? {
      result.errores := result.errores + [TramoFailedMessage(key, error.value)];
      a := Failed(error.value);
    } else {
      result.tramosInserted := result.tramosInserted + 1;
      a := Inserted;
    }
  }

  /** Insert one structure with `km` 0: count it, or record its error. */
  method TryInsertEstructura(store: Store, result: ImportResult, id: LineaId, key: string, cand: EstructuraCandidate)
    returns (ghost a: NamedAttempt)
    requires store.Valid()
    modifies store, result
    ensures store.Valid()
    ensures a.name == cand.name
    ensures result.Snapshot() == AfterEstructura(old(result.Snapshot()), key, a)
    ensures store.estructuras == old(store.estructuras)
      + (if a.attempt.Inserted? then [Estructura(id, cand.name, 0, cand.point)] else [])
    ensures store.lineas == old(store.lineas) && store.tramos == old(store.tramos)
    ensures store.finalized == old(store.finalized)
  {
    var error := store.InsertEstructura(Estructura(id, cand.name, 0, cand.point));
    if error.Some? {
      result.errores := result.errores + [EstructuraFailedMessage(cand.name, key, error.value)];
      a := NamedAttempt(cand.name, Failed(error.value));
    } else {
      result.estructurasInserted := result.estructurasInserted + 1;
      a := NamedAttempt(cand.name, Inserted);
    }
  }

  /** Finalize the line when the gate is open, else warn. */
  method FinalizeLine(store: Store, result: ImportResult, id: LineaId, key: string, gate: bool)
    returns (ghost f: Finalization)
    requires store.Valid()
    modifies store, result
    ensures store.Valid()
    ensures f.Skipped? <==> !gate
    ensures result.Snapshot() == AfterFinalize(old(result.Snapshot()), key, f)
    ensures store.finalized == old(store.finalized) + (if f.Finalized? then [id] else [])
    ensures store.lineas == old(store.lineas) && store.tramos == old(store.tramos)
    ensures store.estructuras == old(store.estructuras)
  {
    if gate {
      var error := store.Finalize(id);
      if error.Some? {
        result.errores := result.errores + [FinalizeFailedMessage(key, error.value)];
        f := FinalizeFailed(error.value);
      } else {
        result.lineasFinalized := result.lineasFinalized + 1;
        f := Finalized;
      }
    } else {
      result.warnings := result.warnings + [NoSegmentsWarning(key)];
      f := Skipped;
    }
  }

  lemma TramoRowsStep(id: LineaId, paths: seq<seq<Coord>>, i: nat, attempts: seq<Attempt>, a: Attempt)
    requires i < |paths| && |attempts| == i
    ensures TramoRows(id, paths[..i + 1], attempts + [a])
         == TramoRows(id, paths[..i], attempts) + (if a.Inserted? then [Tramo(id, i, paths[i])] else [])
  {
    assert paths[..i + 1][..i] == paths[..i];
    assert (attempts + [a])[..i] == attempts;
  }

  lemma EstructuraRowsStep(id: LineaId, cands: seq<EstructuraCandidate>, i: nat, attempts: seq<NamedAttempt>,
                           a: NamedAttempt)
    requires i < |cands| && |attempts| == i
    ensures EstructuraRows(id, cands[..i + 1], attempts + [a])
         == EstructuraRows(id, cands[..i], attempts)
            + (if a.attempt.Inserted? then [Estructura(id, cands[i].name, 0, cands[i].point)] else [])
  {
    assert cands[..i + 1][..i] == cands[..i];
    assert (attempts + [a])[..i] == attempts;
  }

  lemma AfterTramosStep(r: Report, key: string, attempts: seq<Attempt>, a: Attempt)
    ensures AfterTramos(r, key, attempts + [a]) == AfterTramo(AfterTramos(r, key, attempts), key, a)
  {
    assert (attempts + [a])[..|attempts|] == attempts;
  }

  lemma AfterEstructurasStep(r: Report, key: string, attempts: seq<NamedAttempt>, a: NamedAttempt)
    ensures AfterEstructuras(r, key, attempts + [a]) == AfterEstructura(AfterEstructuras(r, key, attempts), key, a)
  {
    assert (attempts + [a])[..|attempts|] == attempts;
  }

  // ---------------------------------------------------------------- layout A: nested folders

  /** The segment candidates of a line folder: those of its last "linea" sub-folder. */
  function FolderPaths(folder: XValue): seq<seq<Coord>>
  {
    var lineaFolder := LastWhere(EnsureArray(Prop(Some(folder), "Folder")), IsLineaFolder);
    if Truthy(lineaFolder) then FolderTramoPaths(EnsureArray(Prop(lineaFolder, "Placemark"))) else []
  }

  /** The structure candidates of a line folder: those of its last "estructura" sub-folder. */
  function FolderStructures(folder: XValue): seq<EstructuraCandidate>
  {
    var estructurasFolder := LastWhere(EnsureArray(Prop(Some(folder), "Folder")), IsEstructurasFolder);
    if Truthy(estructurasFolder) then FolderEstructuras(EnsureArray(Prop(estructurasFolder, "Placemark"))) else []
  }

  /** A failed creation ends the line's run before any insert or finalization. */
  predicate RunShape(run: LineRun)
  {
    run.opening.CreateFailed? ==> run.tramos == [] && run.estructuras == [] && run.finalization.Skipped?
  }

  /** Layout A's gate: finalization is skipped exactly when the CUMULATIVE
      `tramos_inserted` of the whole import is still 0 after this line's inserts. */
  predicate CumulativeGate(r: Report, run: LineRun)
  {
    !run.opening.CreateFailed? ==> (run.finalization.Skipped? <==> BeforeFinalize(r, run).tramosInserted == 0)
  }

  /** A Layout A run of `folder` started with report `r`: the key is the trimmed
      folder name, there is one attempt per candidate, and the gate is cumulative. */
  predicate FolderRunFits(r: Report, folder: XValue, run: LineRun)
  {
    Truthy(Prop(Some(folder), "name"))
    && run.key == FolderKey(folder)
    && RunShape(run)
    && CumulativeGate(r, run)
    && (!run.opening.CreateFailed? ==>
          |run.tramos| == |FolderPaths(folder)| && NamesMatch(run.estructuras, FolderStructures(folder)))
  }

  /** One iteration of the segment loop: the attempt for `paths[orden]`. */
  method InsertTramoAt(store: Store, result: ImportResult, lineaId: LineaId, key: string, paths: seq<seq<Coord>>,
                       orden: nat, ghost t0: seq<Tramo>, ghost r0: Report, ghost attempts: seq<Attempt>)
    returns (ghost attempts': seq<Attempt>)
    requires store.Valid()
    requires orden < |paths| && |attempts| == orden
    requires store.tramos == t0 + TramoRows(lineaId, paths[..orden], attempts)
    requires result.Snapshot() == AfterTramos(r0, key, attempts)
    modifies store, result
    ensures store.Valid()
    ensures |attempts'| == orden + 1
    ensures store.tramos == t0 + TramoRows(lineaId, paths[..orden + 1], attempts')
    ensures result.Snapshot() == AfterTramos(r0, key, attempts')
    ensures store.lineas == old(store.lineas) && store.estructuras == old(store.estructuras)
    ensures store.finalized == old(store.finalized)
  {
    var a := TryInsertTramo(store, result, lineaId, key, orden, paths[orden]);
    TramoRowsStep(lineaId, paths, orden, attempts, a);
    AfterTramosStep(r0, key, attempts, a);
    attempts' := attempts + [a];
  }

  /** One iteration of the structure loop: the attempt for `cands[i]`. */
  method InsertEstructuraAt(store: Store, result: ImportResult, lineaId: LineaId, key: string,
                            cands: seq<EstructuraCandidate>, i: nat,
                            ghost e0: seq<Estructura>, ghost r0: Report, ghost attempts: seq<NamedAttempt>)
    returns (ghost attempts': seq<NamedAttempt>)
    requires store.Valid()
    requires i < |cands| && NamesMatch(attempts, cands[..i])
    requires store.estructuras == e0 + EstructuraRows(lineaId, cands[..i], attempts)
    requires result.Snapshot() == AfterEstructuras(r0, key, attempts)
    modifies store, result
    ensures store.Valid()
    ensures NamesMatch(attempts', cands[..i + 1])
    ensures store.estructuras == e0 + EstructuraRows(lineaId, cands[..i + 1], attempts')
    ensures result.Snapshot() == AfterEstructuras(r0, key, attempts')
    ensures store.lineas == old(store.lineas) && store.tramos == old(store.tramos)
    ensures store.finalized == old(store.finalized)
  {
    var a := TryInsertEstructura(store, result, lineaId, key, cands[i]);
    EstructuraRowsStep(lineaId, cands, i, attempts, a);
    NamesMatchStep(attempts, cands, i, a);
    AfterEstructurasStep(r0, key, attempts, a);
    attempts' := attempts + [a];
  }

  /** The segment inserts of one line, over its segments in order; `orden` counts
      the attempts. */
  method InsertTramos(store: Store, result: ImportResult, lineaId: LineaId, key: string, paths: seq<seq<Coord>>)
    returns (ghost attempts: seq<Attempt>)
    requires store.Valid()
    modifies store, result
    ensures store.Valid()
    ensures |attempts| == |paths|
    ensures store.tramos == old(store.tramos) + TramoRows(lineaId, paths, attempts)
    ensures result.Snapshot() == AfterTramos(old(result.Snapshot()), key, attempts)
    ensures store.lineas == old(store.lineas) && store.estructuras == old(store.estructuras)
    ensures store.finalized == old(store.finalized)
  {
    attempts := [];
    var orden := 0;
    for i := 0 to |paths|
      invariant store.Valid()
      invariant orden == |attempts| == i
      invariant store.tramos == old(store.tramos) + TramoRows(lineaId, paths[..i], attempts)
      invariant result.Snapshot() == AfterTramos(old(result.Snapshot()), key, attempts)
      invariant store.lineas == old(store.lineas) && store.estructuras == old(store.estructuras)
      invariant store.finalized == old(store.finalized)
    {
      attempts := InsertTramoAt(store, result, lineaId, key, paths, orden, old(store.tramos), old(result.Snapshot()), attempts);
      orden := orden + 1;
    }
    assert paths[..|paths|] == paths;
  }

  /** The segment loop of a line folder. */
  method InsertFolderTramos(store: Store, result: ImportResult, lineaId: LineaId, key: string, placemarks: seq<XValue>)
    returns (ghost attempts: seq<Attempt>)
    requires store.Valid()
    modifies store, result
    ensures store.Valid()
    ensures |attempts| == |FolderTramoPaths(placemarks)|
    ensures store.tramos == old(store.tramos) + TramoRows(lineaId, FolderTramoPaths(placemarks), attempts)
    ensures result.Snapshot() == AfterTramos(old(result.Snapshot()), key, attempts)
    ensures store.lineas == old(store.lineas) && store.estructuras == old(store.estructuras)
    ensures store.finalized == old(store.finalized)
  {
    var paths := ReadFolderTramos(placemarks);
    attempts := InsertTramos(store, result, lineaId, key, paths);
  }

  /** The structure inserts of a line folder, over its candidates in order. */
  method InsertEstructuras(store: Store, result: ImportResult, lineaId: LineaId, key: string, cands: seq<EstructuraCandidate>)
    returns (ghost attempts: seq<NamedAttempt>)
    requires store.Valid()
    modifies store, result
    ensures store.Valid()
    ensures NamesMatch(attempts, cands)
    ensures store.estructuras == old(store.estructuras) + EstructuraRows(lineaId, cands, attempts)
    ensures result.Snapshot() == AfterEstructuras(old(result.Snapshot()), key, attempts)
    ensures store.lineas == old(store.lineas) && store.tramos == old(store.tramos)
    ensures store.finalized == old(store.finalized)
  {
    attempts := [];
    for i := 0 to |cands|
      invariant store.Valid()
      invariant NamesMatch(attempts, cands[..i])
      invariant store.estructuras == old(store.estructuras) + EstructuraRows(lineaId, cands[..i], attempts)
      invariant result.Snapshot() == AfterEstructuras(old(result.Snapshot()), key, attempts)
      invariant store.lineas == old(store.lineas) && store.tramos == old(store.tramos)
      invariant store.finalized == old(store.finalized)
    {
      attempts := InsertEstructuraAt(store, result, lineaId, key, cands, i, old(store.estructuras), old(result.Snapshot()), attempts);
    }
    assert cands[..|cands|] == cands;
  }

  /** The structure loop of a line folder. */
  method InsertFolderEstructuras(store: Store, result: ImportResult, lineaId: LineaId, key: string, placemarks: seq<XValue>)
    returns (ghost attempts: seq<NamedAttempt>)
    requires store.Valid()
    modifies store, result
    ensures store.Valid()
    ensures NamesMatch(attempts, FolderEstructuras(placemarks))
    ensures store.estructuras == old(store.estructuras) + EstructuraRows(lineaId, FolderEstructuras(placemarks), attempts)
    ensures result.Snapshot() == AfterEstructuras(old(result.Snapshot()), key, attempts)
    ensures store.lineas == old(store.lineas) && store.tramos == old(store.tramos)
    ensures store.finalized == old(store.finalized)
  {
    var cands := ReadFolderEstructuras(placemarks);
    attempts := InsertEstructuras(store, result, lineaId, key, cands);
  }

  /** The part of a folder's iteration after its line is open: the segments of
      the last "linea" sub-folder, the structures of the last "estructura"
      sub-folder, then finalization gated on the import's running segment count. */
  method FillFolderLine(store: Store, result: ImportResult, lineaId: LineaId, key: string, folder: XValue)
    returns (ghost tramos: seq<Attempt>, ghost estructuras: seq<NamedAttempt>, ghost f: Finalization)
    requires store.Valid()
    modifies store, result
    ensures store.Valid()
    ensures |tramos| == |FolderPaths(folder)| && NamesMatch(estructuras, FolderStructures(folder))
    ensures store.lineas == old(store.lineas)
    ensures store.tramos == old(store.tramos) + TramoRows(lineaId, FolderPaths(folder), tramos)
    ensures store.estructuras == old(store.estructuras) + EstructuraRows(lineaId, FolderStructures(folder), estructuras)
    ensures store.finalized == old(store.finalized) + (if f.Finalized? then [lineaId] else [])
    ensures var before := AfterEstructuras(AfterTramos(old(result.Snapshot()), key, tramos), key, estructuras);
      (f.Skipped? <==> before.tramosInserted == 0) && result.Snapshot() == AfterFinalize(before, key, f)
  {
    var subFolders := EnsureArray(Prop(Some(folder), "Folder"));
    var lineaAereaFolder, estructurasFolder := SelectSubFolders(subFolders);

    tramos := [];
    if Truthy(lineaAereaFolder) {
      tramos := InsertFolderTramos(store, result, lineaId, key, EnsureArray(Prop(lineaAereaFolder, "Placemark")));
    }
    estructuras := [];
    if Truthy(estructurasFolder) {
      estructuras := InsertFolderEstructuras(store, result, lineaId, key, EnsureArray(Prop(estructurasFolder, "Placemark")));
    }
    f := FinalizeLine(store, result, lineaId, key, result.tramosInserted > 0);
  }

  /** What a folder's run does to the tables it starts from. */
  predicate FolderEffect(before: Tables, after: Tables, folder: XValue, run: LineRun)
  {
    OpeningFits(before, run.key, run.opening)
    && LineEffect(before, after, run, FolderPaths(folder), FolderStructures(folder))
  }

  /** `tables[k]` is what the tables held when run `k` started, and run `k`, made
      for `items[k]`, took them to `tables[k + 1]`. */
  predicate TablesFit<X>(tables: seq<Tables>, items: seq<X>, runs: seq<LineRun>,
                         effect: (Tables, Tables, X, LineRun) -> bool)
  {
    |tables| == |runs| + 1 && |items| == |runs|
    && forall k :: 0 <= k < |runs| ==> effect(tables[k], tables[k + 1], items[k], runs[k])
  }

  lemma TablesFitStep<X>(tables: seq<Tables>, items: seq<X>, runs: seq<LineRun>, t: Tables, item: X, run: LineRun,
                         effect: (Tables, Tables, X, LineRun) -> bool)
    requires TablesFit(tables, items, runs, effect)
    requires effect(tables[|runs|], t, item, run)
    ensures TablesFit(tables + [t], items + [item], runs + [run], effect)
    ensures (tables + [t])[0] == tables[0]
  {
  }

  /** Both fits extend from `items[..i]` to `items[..i + 1]` by the run of `items[i]`. */
  lemma PrefixStep<X>(r0: Report, items: seq<X>, i: nat, runs: seq<LineRun>, tables: seq<Tables>, run: LineRun, t: Tables,
                      fits: (Report, X, LineRun) -> bool, effect: (Tables, Tables, X, LineRun) -> bool)
    requires i < |items|
    requires RunsFit(r0, items[..i], runs, fits) && TablesFit(tables, items[..i], runs, effect)
    requires fits(AfterLines(r0, runs), items[i], run) && effect(tables[|runs|], t, items[i], run)
    ensures RunsFit(r0, items[..i + 1], runs + [run], fits)
    ensures TablesFit(tables + [t], items[..i + 1], runs + [run], effect)
  {
    assert items[..i + 1] == items[..i] + [items[i]];
    RunsFitStep(r0, items[..i], runs, items[i], run, fits);
    TablesFitStep(tables, items[..i], runs, t, items[i], run, effect);
  }

  /** One iteration of `processFolderStructure`'s folder loop. */
  method ProcessFolder(store: Store, result: ImportResult, folder: XValue) returns (ghost run: LineRun)
    requires store.Valid()
    requires Truthy(Prop(Some(folder), "name"))
    modifies store, result
    ensures store.Valid()
    ensures FolderRunFits(old(result.Snapshot()), folder, run)
    ensures result.Snapshot() == AfterLine(old(result.Snapshot()), run)
    ensures FolderEffect(old(store.Contents()), store.Contents(), folder, run)
  {
    var lineaNumero := Trim(ToStr(Prop(Some(folder), "name").value));
    var id, opening := OpenLine(store, result, lineaNumero);
    if id.None? {
      run := LineRun(lineaNumero, opening, [], [], Skipped);
      return;
    }
    var tramos, estructuras, f := FillFolderLine(store, result, id.value, lineaNumero, folder);
    run := LineRun(lineaNumero, opening, tramos, estructuras, f);
  }

  lemma NamedFoldersStep(folders: seq<XValue>, i: nat)
    requires i < |folders|
    ensures NamedFolders(folders[..i + 1]) == NamedFolders(folders[..i])
      + (if Truthy(Prop(Some(folders[i]), "name")) then [folders[i]] else [])
  {
    assert folders[..i + 1][..i] == folders[..i];
  }

  /** The body of `processFolderStructure`'s folder loop for `folders[i]`: an
      unnamed folder is skipped, a named one adds its line's run. */
  method ProcessFolderAt(store: Store, result: ImportResult, folders: seq<XValue>, i: nat,
                         ghost r0: Report, ghost runs: seq<LineRun>, ghost tables: seq<Tables>)
    returns (ghost runs': seq<LineRun>, ghost tables': seq<Tables>)
    requires store.Valid()
    requires i < |folders|
    requires RunsFit(r0, NamedFolders(folders[..i]), runs, FolderRunFits)
    requires result.Snapshot() == AfterLines(r0, runs)
    requires TablesFit(tables, NamedFolders(folders[..i]), runs, FolderEffect) && tables[|runs|] == store.Contents()
    modifies store, result
    ensures store.Valid()
    ensures RunsFit(r0, NamedFolders(folders[..i + 1]), runs', FolderRunFits)
    ensures result.Snapshot() == AfterLines(r0, runs')
    ensures TablesFit(tables', NamedFolders(folders[..i + 1]), runs', FolderEffect) && tables'[|runs'|] == store.Contents()
    ensures tables'[0] == tables[0]
  {
    NamedFoldersStep(folders, i);
    runs', tables' := runs, tables;
    var folder := folders[i];
    if !Truthy(Prop(Some(folder), "name")) {
      return;
    }
    var run := ProcessFolder(store, result, folder);
    RunsFitStep(r0, NamedFolders(folders[..i]), runs, folder, run, FolderRunFits);
    TablesFitStep(tables, NamedFolders(folders[..i]), runs, store.Contents(), folder, run, FolderEffect);
    runs', tables' := runs + [run], tables + [store.Contents()];
    assert runs'[..|runs|] == runs;
  }

  /** `processFolderStructure`: every named folder is one line, in document order. */
  method ProcessFolderStructure(store: Store, result: ImportResult, document: XValue)
    returns (ghost runs: seq<LineRun>, ghost tables: seq<Tables>)
    requires store.Valid()
    modifies store, result
    ensures store.Valid()
    ensures RunsFit(old(result.Snapshot()), NamedFolders(EnsureArray(Prop(Some(document), "Folder"))), runs, FolderRunFits)
    ensures result.Snapshot() == AfterLines(old(result.Snapshot()), runs)
    ensures Extends(old(result.Snapshot()), result.Snapshot())
    ensures TablesFit(tables, NamedFolders(EnsureArray(Prop(Some(document), "Folder"))), runs, FolderEffect)
    ensures tables[0] == old(store.Contents()) && tables[|runs|] == store.Contents()
  {
    var folders := EnsureArray(Prop(Some(document), "Folder"));
    ghost var r0 := result.Snapshot();
    runs, tables := [], [store.Contents()];
    for i := 0 to |folders|
      invariant store.Valid()
      invariant RunsFit(r0, NamedFolders(folders[..i]), runs, FolderRunFits)
      invariant result.Snapshot() == AfterLines(r0, runs)
      invariant TablesFit(tables, NamedFolders(folders[..i]), runs, FolderEffect)
      invariant tables[0] == old(store.Contents()) && tables[|runs|] == store.Contents()
    {
      runs, tables := ProcessFolderAt(store, result, folders, i, r0, runs, tables);
    }
    assert folders[..|folders|] == folders;
    AfterLinesExtends(r0, runs);
  }

  /** With a cumulative gate, once any earlier line has inserted a segment, every
      later line that opens attempts finalization, even one that inserted no
      segment of its own. */
  lemma CumulativeGateAfterInsert(r: Report, runs: seq<LineRun>, i: nat, j: nat)
    requires forall k :: 0 <= k < |runs| ==> RunShape(runs[k]) && CumulativeGate(AfterLines(r, runs[..k]), runs[k])
    requires i < j < |runs|
    requires CountInserted(runs[i].tramos) > 0
    requires !runs[j].opening.CreateFailed?
    ensures !runs[j].finalization.Skipped?
  {
    var before := AfterLines(r, runs[..i]);
    assert runs[..i + 1][..i] == runs[..i];
    assert RunShape(runs[i]);
    assert !runs[i].opening.CreateFailed?;
    OpenedLineAccounting(before, runs[i]);
    AfterLinesPrefix(r, runs, i + 1, j);
    var rj := AfterLines(r, runs[..j]);
    var run := runs[j];
    assert CumulativeGate(rj, run);
    var r1 := AfterOpening(rj, run.key, run.opening);
    AfterTramosAccounting(r1, run.key, run.tramos);
    AfterEstructurasAccounting(AfterTramos(r1, run.key, run.tramos), run.key, run.estructuras);
  }

  /** Layout A's finalize gate is cumulative over the whole document. */
  lemma FolderGateIsCumulative(r: Report, folders: seq<XValue>, runs: seq<LineRun>, i: nat, j: nat)
    requires RunsFit(r, folders, runs, FolderRunFits)
    requires i < j < |runs|
    requires CountInserted(runs[i].tramos) > 0
    requires !runs[j].opening.CreateFailed?
    ensures !runs[j].finalization.Skipped?
  {
    forall k | 0 <= k < |runs| ensures RunShape(runs[k]) && CumulativeGate(AfterLines(r, runs[..k]), runs[k]) {
      assert FolderRunFits(AfterLines(r, runs[..k]), folders[k], runs[k]);
    }
    CumulativeGateAfterInsert(r, runs, i, j);
  }

  /** Every line in `before` is in `after`, unchanged. */
  predicate KeepsLines(before: Tables, after: Tables)
  {
    forall id :: id in before.lineas ==> id in after.lineas && after.lineas[id] == before.lineas[id]
  }

  /** A run never removes or alters a line, and a run that opened its line leaves
      a line with its key in the table. */
  lemma EffectKeepsLines(before: Tables, after: Tables, run: LineRun, paths: seq<seq<Coord>>,
                         cands: seq<EstructuraCandidate>)
    requires OpeningFits(before, run.key, run.opening)
    requires LineEffect(before, after, run, paths, cands)
    ensures KeepsLines(before, after)
    ensures !run.opening.CreateFailed? ==>
      run.opening.id in after.lineas && after.lineas[run.opening.id].numero == run.key
  {
  }

  lemma {:induction false} KeepsLinesChain(tables: seq<Tables>, i: nat, j: nat)
    requires i <= j < |tables|
    requires forall k :: 0 <= k < |tables| - 1 ==> KeepsLines(tables[k], tables[k + 1])
    ensures KeepsLines(tables[i], tables[j])
    decreases j - i
  {
    if i < j {
      KeepsLinesChain(tables, i + 1, j);
      assert KeepsLines(tables[i], tables[i + 1]);
    }
  }

  /** Two folders with the same name write to one line: once the first has opened
      it, a later one finds it and never creates a second line with that `numero`. */
  lemma SameNameCreatedOnce(tables: seq<Tables>, folders: seq<XValue>, runs: seq<LineRun>, i: nat, j: nat)
    requires TablesFit(tables, folders, runs, FolderEffect)
    requires i < j < |runs|
    requires runs[i].key == runs[j].key && !runs[i].opening.CreateFailed?
    ensures !runs[j].opening.Created?
  {
    forall k | 0 <= k < |tables| - 1 ensures KeepsLines(tables[k], tables[k + 1]) {
      assert FolderEffect(tables[k], tables[k + 1], folders[k], runs[k]);
      EffectKeepsLines(tables[k], tables[k + 1], runs[k], FolderPaths(folders[k]), FolderStructures(folders[k]));
    }
    var id := runs[i].opening.id;
    assert FolderEffect(tables[i], tables[i + 1], folders[i], runs[i]);
    EffectKeepsLines(tables[i], tables[i + 1], runs[i], FolderPaths(folders[i]), FolderStructures(folders[i]));
    KeepsLinesChain(tables, i + 1, j);
    assert id in tables[j].lineas && tables[j].lineas[id].numero == runs[j].key;
    assert FolderEffect(tables[j], tables[j + 1], folders[j], runs[j]);
  }

  // ---------------------------------------------------------------- layout B: flat placemarks

  /** Whether a bucket's line, once open, throws: a LineString placemark without
      coordinates, or a structure placemark whose Point has none. */
  predicate BucketThrows(bucket: Bucket)
  {
    FirstWhere(bucket.tramos, TramoThrows) < |bucket.tramos|
    || FirstWhere(bucket.estructuras, EstructuraThrows) < |bucket.estructuras|
  }

  /** The structure candidates a bucket's run reaches: none when its segment loop
      throws first. */
  function BucketReached(bucket: Bucket): seq<EstructuraCandidate>
  {
    if FirstWhere(bucket.tramos, TramoThrows) < |bucket.tramos| then [] else BucketCandidates(bucket.estructuras)
  }

  /** A Layout B run of `bucket` under `key`: one attempt per candidate reached, and
      (when nothing throws) finalization attempted exactly when the bucket holds a
      LineString placemark, however many segments were inserted. */
  predicate BucketRunFits(key: string, bucket: Bucket, run: LineRun)
  {
    run.key == key
    && RunShape(run)
    && (!run.opening.CreateFailed? ==>
          |run.tramos| == |BucketPaths(bucket.tramos)| && NamesMatch(run.estructuras, BucketReached(bucket))
          && (BucketThrows(bucket) ==> run.finalization.Skipped?)
          && (!BucketThrows(bucket) ==> (run.finalization.Skipped? <==> bucket.tramos == [])))
  }

  /** The part of a bucket's iteration after its line is open. */
  method FillBucketLine(store: Store, result: ImportResult, lineaId: LineaId, key: string, bucket: Bucket)
    returns (throws: bool, ghost tramos: seq<Attempt>, ghost estructuras: seq<NamedAttempt>, ghost f: Finalization)
    requires store.Valid()
    modifies store, result
    ensures store.Valid()
    ensures throws <==> BucketThrows(bucket)
    ensures |tramos| == |BucketPaths(bucket.tramos)| && NamesMatch(estructuras, BucketReached(bucket))
    ensures throws ==> f.Skipped?
    ensures !throws ==> (f.Skipped? <==> bucket.tramos == [])
    ensures store.lineas == old(store.lineas)
    ensures store.tramos == old(store.tramos) + TramoRows(lineaId, BucketPaths(bucket.tramos), tramos)
    ensures store.estructuras == old(store.estructuras) + EstructuraRows(lineaId, BucketReached(bucket), estructuras)
    ensures store.finalized == old(store.finalized) + (if f.Finalized? then [lineaId] else [])
    ensures !throws ==>
      result.Snapshot() == AfterFinalize(AfterEstructuras(AfterTramos(old(result.Snapshot()), key, tramos), key, estructuras), key, f)
  {
    var paths, tramoThrows := ReadBucketTramos(bucket.tramos);
    tramos := InsertTramos(store, result, lineaId, key, paths);
    if tramoThrows {
      return true, tramos, [], Skipped;
    }
    var cands, estructuraThrows := ReadBucketEstructuras(bucket.estructuras);
    estructuras := InsertEstructuras(store, result, lineaId, key, cands);
    if estructuraThrows {
      return true, tramos, estructuras, Skipped;
    }
    f := FinalizeLine(store, result, lineaId, key, |bucket.tramos| > 0);
    throws := false;
  }

  /** What a line's run does to the tables it starts from. */
  predicate BucketEffect(before: Tables, after: Tables, line: (string, Bucket), run: LineRun)
  {
    OpeningFits(before, run.key, run.opening)
    && LineEffect(before, after, run, BucketPaths(line.1.tramos), BucketReached(line.1))
  }

  /** One iteration of `processPlacemarkStructure`'s line loop. A throw ends the
      whole import; the rows written before it stay. */
  method ProcessBucket(store: Store, result: ImportResult, key: string, bucket: Bucket)
    returns (throws: bool, ghost run: LineRun)
    requires store.Valid()
    modifies store, result
    ensures store.Valid()
    ensures BucketRunFits(key, bucket, run)
    ensures throws <==> !run.opening.CreateFailed? && BucketThrows(bucket)
    ensures !throws ==> result.Snapshot() == AfterLine(old(result.Snapshot()), run)
    ensures BucketEffect(old(store.Contents()), store.Contents(), (key, bucket), run)
  {
    var id, opening := OpenLine(store, result, key);
    if id.None? {
      return false, LineRun(key, opening, [], [], Skipped);
    }
    ghost var tramos, estructuras, f;
    throws, tramos, estructuras, f := FillBucketLine(store, result, id.value, key, bucket);
    run := LineRun(key, opening, tramos, estructuras, f);
  }

  /** The lines of a grouping in first-appearance order, each with its bucket. */
  function Lines(g: Grouping): (lines: seq<(string, Bucket)>)
    ensures |lines| == |g.keys|
    ensures forall i :: 0 <= i < |lines| ==> lines[i].0 == g.keys[i]
  {
    seq(|g.keys|, i requires 0 <= i < |g.keys| =>
      (g.keys[i], if g.keys[i] in g.buckets then g.buckets[g.keys[i]] else Bucket([], [])))
  }

  /** A line the loop got past: its run fits its bucket, and a bucket that
      would throw was passed only because its line could not be opened. */
  predicate LineRunFits(r: Report, line: (string, Bucket), run: LineRun)
  {
    BucketRunFits(line.0, line.1, run) && (BucketThrows(line.1) ==> run.opening.CreateFailed?)
  }

  /** `ProcessBucket` for line `i` of the loop, extending the runs of the lines
      before it. */
  method ProcessLine(store: Store, result: ImportResult, line: (string, Bucket),
                     ghost r0: Report, ghost lines: seq<(string, Bucket)>, ghost i: nat, ghost runs: seq<LineRun>,
                     ghost tables: seq<Tables>)
    returns (throws: bool, ghost run: LineRun, ghost runs': seq<LineRun>, ghost tables': seq<Tables>)
    requires store.Valid()
    requires i < |lines| && line == lines[i]
    requires RunsFit(r0, lines[..i], runs, LineRunFits)
    requires result.Snapshot() == AfterLines(r0, runs)
    requires TablesFit(tables, lines[..i], runs, BucketEffect) && tables[|runs|] == store.Contents()
    modifies store, result
    ensures store.Valid()
    ensures throws ==> BucketThrows(lines[i].1) && !run.opening.CreateFailed?
    ensures throws ==> BucketRunFits(line.0, line.1, run) && BucketEffect(tables[|runs|], store.Contents(), line, run)
    ensures !throws ==> RunsFit(r0, lines[..i + 1], runs', LineRunFits) && result.Snapshot() == AfterLines(r0, runs')
    ensures !throws ==> TablesFit(tables', lines[..i + 1], runs', BucketEffect) && tables'[|runs'|] == store.Contents()
    ensures |tables'| > 0 && tables'[0] == tables[0]
  {
    throws, run := ProcessBucket(store, result, line.0, line.1);
    runs', tables' := runs + [run], tables + [store.Contents()];
    if !throws {
      PrefixStep(r0, lines, i, runs, tables, run, store.Contents(), LineRunFits, BucketEffect);
      assert runs'[..|runs|] == runs;
    }
  }

  /** The line loop of `processPlacemarkStructure` over a grouping whose every key
      has its bucket. */
  method ProcessLines(store: Store, result: ImportResult, keys: seq<string>, buckets: map<string, Bucket>)
    returns (throws: bool, ghost runs: seq<LineRun>, ghost tables: seq<Tables>, ghost thrown: LineRun)
    requires store.Valid()
    requires forall k :: k in keys ==> k in buckets
    modifies store, result
    ensures store.Valid()
    ensures var lines := Lines(Grouping(keys, buckets));
      |runs| <= |lines|
      && RunsFit(old(result.Snapshot()), lines[..|runs|], runs, LineRunFits)
      && (throws <==> |runs| < |lines|)
      && (throws ==> BucketThrows(lines[|runs|].1))
    ensures !throws ==> result.Snapshot() == AfterLines(old(result.Snapshot()), runs)
    ensures var lines := Lines(Grouping(keys, buckets));
      TablesFit(tables, lines[..|runs|], runs, BucketEffect) && tables[0] == old(store.Contents())
      && (!throws ==> tables[|runs|] == store.Contents())
      && (throws ==> |runs| < |lines| && BucketRunFits(lines[|runs|].0, lines[|runs|].1, thrown)
                     && !thrown.opening.CreateFailed?
                     && BucketEffect(tables[|runs|], store.Contents(), lines[|runs|], thrown))
  {
    ghost var lines := Lines(Grouping(keys, buckets));
    ghost var r0 := result.Snapshot();
    runs, tables := [], [store.Contents()];
    for i := 0 to |keys|
      invariant store.Valid()
      invariant |runs| == i
      invariant RunsFit(r0, lines[..i], runs, LineRunFits)
      invariant result.Snapshot() == AfterLines(r0, runs)
      invariant TablesFit(tables, lines[..i], runs, BucketEffect)
      invariant tables[0] == old(store.Contents()) && tables[|runs|] == store.Contents()
    {
      var key := keys[i];
      var t;
      ghost var run, runs', tables';
      t, run, runs', tables' := ProcessLine(store, result, (key, buckets[key]), r0, lines, i, runs, tables);
      if t {
        return true, runs, tables, run;
      }
      runs, tables := runs', tables';
    }
    assert lines[..|keys|] == lines;
    throws, thrown := false, LineRun("", CreateFailed(None), [], [], Skipped);
  }

  /** `processPlacemarkStructure`: group the placemarks by line key, then process
      the lines in first-appearance order until one throws. */
  method ProcessPlacemarkStructure(store: Store, result: ImportResult, document: XValue)
    returns (throws: bool, ghost runs: seq<LineRun>, ghost tables: seq<Tables>, ghost thrown: LineRun)
    requires store.Valid()
    modifies store, result
    ensures store.Valid()
    ensures var lines := Lines(Group(EnsureArray(Prop(Some(document), "Placemark"))));
      |runs| <= |lines|
      && RunsFit(old(result.Snapshot()), lines[..|runs|], runs, LineRunFits)
      && (throws <==> |runs| < |lines|)
      && (throws ==> BucketThrows(lines[|runs|].1))
    ensures !throws ==> result.Snapshot() == AfterLines(old(result.Snapshot()), runs)
    ensures var lines := Lines(Group(EnsureArray(Prop(Some(document), "Placemark"))));
      TablesFit(tables, lines[..|runs|], runs, BucketEffect) && tables[0] == old(store.Contents())
      && (!throws ==> tables[|runs|] == store.Contents())
      && (throws ==> |runs| < |lines| && BucketRunFits(lines[|runs|].0, lines[|runs|].1, thrown)
                     && !thrown.opening.CreateFailed?
                     && BucketEffect(tables[|runs|], store.Contents(), lines[|runs|], thrown))
  {
    var placemarks := EnsureArray(Prop(Some(document), "Placemark"));
    var keys, buckets := GroupPlacemarks(placemarks);
    GroupKeys(placemarks);
    throws, runs, tables, thrown := ProcessLines(store, result, keys, buckets);
  }

  /** Layout B's gate counts LineString placemarks, not inserted segments: a line
      whose every LineString parses to fewer than two pairs inserts no segment yet
      still attempts finalization. */
  lemma BucketGateIgnoresInserts(key: string, bucket: Bucket, run: LineRun)
    requires BucketRunFits(key, bucket, run)
    requires !run.opening.CreateFailed? && !BucketThrows(bucket)
    requires bucket.tramos != [] && BucketPaths(bucket.tramos) == []
    ensures run.tramos == [] && !run.finalization.Skipped?
  {
  }
}
