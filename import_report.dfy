/**
 * The `ImportResult` an import returns: four counters and the ordered error and
 * warning lists. How one line's run changes it is stated over a trace of the
 * outcomes of that run's store calls.
 */
module ImportReport {
  import opened Wrappers
  import opened TopologyStore

  datatype Report = Report(
    lineasCreated: nat,
    tramosInserted: nat,
    estructurasInserted: nat,
    lineasFinalized: nat,
    errores: seq<string>,
    warnings: seq<string>)

  const EmptyReport := Report(0, 0, 0, 0, [], [])

  /** `after` grows `before`: no counter decreases, and both lists are only appended to. */
  predicate Extends(before: Report, after: Report)
  {
    before.lineasCreated <= after.lineasCreated
    && before.tramosInserted <= after.tramosInserted
    && before.estructurasInserted <= after.estructurasInserted
    && before.lineasFinalized <= after.lineasFinalized
    && before.errores <= after.errores
    && before.warnings <= after.warnings
  }

  /** The mutable record the import threads through every line. */
  class ImportResult {
    var lineasCreated: nat
    var tramosInserted: nat
    var estructurasInserted: nat
    var lineasFinalized: nat
    var errores: seq<string>
    var warnings: seq<string>

    constructor ()
      ensures Snapshot() == EmptyReport
    {
      lineasCreated, tramosInserted, estructurasInserted, lineasFinalized := 0, 0, 0, 0;
      errores, warnings := [], [];
    }

    function Snapshot(): Report
      reads this
    {
      Report(lineasCreated, tramosInserted, estructurasInserted, lineasFinalized, errores, warnings)
    }
  }

  // ---------------------------------------------------------------- run traces

  /** The outcome of one insert. */
  datatype Attempt = Inserted | Failed(message: string)

  /** A structure insert, with the structure's name for its error message. */
  datatype NamedAttempt = NamedAttempt(name: string, attempt: Attempt)

  /** How a line was opened: an existing line with the outcome of its two purges,
      a newly created line, or a failed creation with the store's error, if any. */
  datatype Opening =
    | Reused(id: LineaId, tramosPurged: bool, estructurasPurged: bool)
    | Created(id: LineaId)
    | CreateFailed(error: Option<string>)

  datatype Finalization = Finalized | FinalizeFailed(message: string) | Skipped

  /** What the import did for one line key. */
  datatype LineRun = LineRun(
    key: string,
    opening: Opening,
    tramos: seq<Attempt>,
    estructuras: seq<NamedAttempt>,
    finalization: Finalization)

  // ---------------------------------------------------------------- messages

  /** `error?.message || "Unknown error"`. */
  function CreateErrorText(error: Option<string>): (t: string)
    ensures t != ""
    ensures error.Some? && error.value != "" ==> t == error.value
  {
    if error.Some? && error.value != "" then error.value else "Unknown error"
  }

  function CreateFailedMessage(key: string, error: Option<string>): string
  {
    "Failed to create linea " + key + ": " + CreateErrorText(error)
  }

  function TramoFailedMessage(key: string, message: string): string
  {
    "Failed to insert tramo for linea " + key + ": " + message
  }

  function EstructuraFailedMessage(name: string, key: string, message: string): string
  {
    "Failed to insert estructura " + name + " for linea " + key + ": " + message
  }

  function FinalizeFailedMessage(key: string, message: string): string
  {
    "Failed to finalize linea " + key + ": " + message
  }

  function NoSegmentsWarning(key: string): string
  {
    "No line segments found for linea " + key + ", skipping finalization"
  }

  // ---------------------------------------------------------------- accounting

  function AfterOpening(r: Report, key: string, opening: Opening): Report
  {
    match opening
    case Reused(_, _, _) => r
    case Created(_) => r.(lineasCreated := r.lineasCreated + 1)
    case CreateFailed(error) => r.(errores := r.errores + [CreateFailedMessage(key, error)])
  }

  function AfterTramo(r: Report, key: string, a: Attempt): Report
  {
    match a
    case Inserted => r.(tramosInserted := r.tramosInserted + 1)
    case Failed(m) => r.(errores := r.errores + [TramoFailedMessage(key, m)])
  }

  function AfterTramos(r: Report, key: string, attempts: seq<Attempt>): Report
  {
    if attempts == [] then r
    else AfterTramo(AfterTramos(r, key, attempts[..|attempts| - 1]), key, attempts[|attempts| - 1])
  }

  function AfterEstructura(r: Report, key: string, a: NamedAttempt): Report
  {
    match a.attempt
    case Inserted => r.(estructurasInserted := r.estructurasInserted + 1)
    case Failed(m) => r.(errores := r.errores + [EstructuraFailedMessage(a.name, key, m)])
  }

  function AfterEstructuras(r: Report, key: string, attempts: seq<NamedAttempt>): Report
  {
    if attempts == [] then r
    else AfterEstructura(AfterEstructuras(r, key, attempts[..|attempts| - 1]), key, attempts[|attempts| - 1])
  }

  function AfterFinalize(r: Report, key: string, f: Finalization): Report
  {
    match f
    case Finalized => r.(lineasFinalized := r.lineasFinalized + 1)
    case FinalizeFailed(m) => r.(errores := r.errores + [FinalizeFailedMessage(key, m)])
    case Skipped => r.(warnings := r.warnings + [NoSegmentsWarning(key)])
  }

  /** The report after a line's inserts, when its finalize gate is evaluated. */
  function BeforeFinalize(r: Report, run: LineRun): Report
  {
    AfterEstructuras(AfterTramos(AfterOpening(r, run.key, run.opening), run.key, run.tramos), run.key, run.estructuras)
  }

  /** The report after a whole line: a failed creation skips the rest of the line. */
  function AfterLine(r: Report, run: LineRun): Report
  {
    if run.opening.CreateFailed? then AfterOpening(r, run.key, run.opening)
    else AfterFinalize(BeforeFinalize(r, run), run.key, run.finalization)
  }

  function AfterLines(r: Report, runs: seq<LineRun>): Report
  {
    if runs == [] then r
    else AfterLine(AfterLines(r, runs[..|runs| - 1]), runs[|runs| - 1])
  }

  function CountInserted(attempts: seq<Attempt>): nat
  {
    if attempts == [] then 0
    else CountInserted(attempts[..|attempts| - 1]) + (if attempts[|attempts| - 1].Inserted? then 1 else 0)
  }

  function CountFailed(attempts: seq<Attempt>): nat
  {
    if attempts == [] then 0
    else CountFailed(attempts[..|attempts| - 1]) + (if attempts[|attempts| - 1].Failed? then 1 else 0)
  }

  function Outcomes(attempts: seq<NamedAttempt>): (r: seq<Attempt>)
    ensures |r| == |attempts|
    ensures forall k :: 0 <= k < |r| ==> r[k] == attempts[k].attempt
  {
    if attempts == [] then []
    else Outcomes(attempts[..|attempts| - 1]) + [attempts[|attempts| - 1].attempt]
  }

  /** Every attempt is counted exactly once: as an insert or as a failure. */
  lemma {:induction false} EveryAttemptCounted(attempts: seq<Attempt>)
    ensures CountInserted(attempts) + CountFailed(attempts) == |attempts|
  {
    if attempts != [] {
      EveryAttemptCounted(attempts[..|attempts| - 1]);
    }
  }

  /** The segment inserts of a line: each success adds one to `tramos_inserted`,
      each failure appends one error, and nothing else changes. */
  lemma {:induction false} AfterTramosAccounting(r: Report, key: string, attempts: seq<Attempt>)
    ensures var r' := AfterTramos(r, key, attempts);
      && r'.tramosInserted == r.tramosInserted + CountInserted(attempts)
      && |r'.errores| == |r.errores| + CountFailed(attempts)
      && r.errores <= r'.errores
      && r'.(tramosInserted := r.tramosInserted, errores := r.errores) == r
  {
    if attempts != [] {
      AfterTramosAccounting(r, key, attempts[..|attempts| - 1]);
    }
  }

  /** The same for structure inserts and `estructuras_inserted`. */
  lemma {:induction false} AfterEstructurasAccounting(r: Report, key: string, attempts: seq<NamedAttempt>)
    ensures var r' := AfterEstructuras(r, key, attempts);
      && r'.estructurasInserted == r.estructurasInserted + CountInserted(Outcomes(attempts))
      && |r'.errores| == |r.errores| + CountFailed(Outcomes(attempts))
      && r.errores <= r'.errores
      && r'.(estructurasInserted := r.estructurasInserted, errores := r.errores) == r
  {
    if attempts != [] {
      var init := attempts[..|attempts| - 1];
      AfterEstructurasAccounting(r, key, init);
      assert Outcomes(attempts)[..|attempts| - 1] == Outcomes(init);
    }
  }

  /** A line whose creation failed appends exactly one error and changes nothing else. */
  lemma CreateFailureSkipsLine(r: Report, run: LineRun)
    requires run.opening.CreateFailed?
    ensures AfterLine(r, run) == r.(errores := r.errores + [CreateFailedMessage(run.key, run.opening.error)])
  {
  }

  /** A line that was opened: `lineas_created` grows by one exactly for a created
      line; the insert counters by the successful inserts; exactly one of
      `lineas_finalized` + 1, one finalize error, or one warning; and one error
      per failed insert. */
  lemma OpenedLineAccounting(r: Report, run: LineRun)
    requires !run.opening.CreateFailed?
    ensures var r' := AfterLine(r, run);
      && r'.lineasCreated == r.lineasCreated + (if run.opening.Created? then 1 else 0)
      && r'.tramosInserted == r.tramosInserted + CountInserted(run.tramos)
      && r'.estructurasInserted == r.estructurasInserted + CountInserted(Outcomes(run.estructuras))
      && r'.lineasFinalized == r.lineasFinalized + (if run.finalization.Finalized? then 1 else 0)
      && |r'.warnings| == |r.warnings| + (if run.finalization.Skipped? then 1 else 0)
      && |r'.errores| == |r.errores| + CountFailed(run.tramos) + CountFailed(Outcomes(run.estructuras))
                         + (if run.finalization.FinalizeFailed? then 1 else 0)
  {
    var r1 := AfterOpening(r, run.key, run.opening);
    AfterTramosAccounting(r1, run.key, run.tramos);
    AfterEstructurasAccounting(AfterTramos(r1, run.key, run.tramos), run.key, run.estructuras);
  }

  lemma ExtendsTransitive(a: Report, b: Report, c: Report)
    requires Extends(a, b) && Extends(b, c)
    ensures Extends(a, c)
  {
    assert a.errores <= c.errores by {
      assert c.errores[..|a.errores|] == b.errores[..|b.errores|][..|a.errores|];
    }
    assert a.warnings <= c.warnings by {
      assert c.warnings[..|a.warnings|] == b.warnings[..|b.warnings|][..|a.warnings|];
    }
  }

  lemma AfterOpeningExtends(r: Report, key: string, opening: Opening)
    ensures Extends(r, AfterOpening(r, key, opening))
  {
  }

  lemma AfterFinalizeExtends(r: Report, key: string, f: Finalization)
    ensures Extends(r, AfterFinalize(r, key, f))
  {
  }

  /** One line never takes anything away from the report. */
  lemma AfterLineExtends(r: Report, run: LineRun)
    ensures Extends(r, AfterLine(r, run))
  {
    var r1 := AfterOpening(r, run.key, run.opening);
    AfterOpeningExtends(r, run.key, run.opening);
    if !run.opening.CreateFailed? {
      AfterTramosAccounting(r1, run.key, run.tramos);
      var r2 := AfterTramos(r1, run.key, run.tramos);
      AfterEstructurasAccounting(r2, run.key, run.estructuras);
      var r3 := AfterEstructuras(r2, run.key, run.estructuras);
      ExtendsTransitive(r, r1, r2);
      ExtendsTransitive(r, r2, r3);
      AfterFinalizeExtends(r3, run.key, run.finalization);
      ExtendsTransitive(r, r3, AfterFinalize(r3, run.key, run.finalization));
    }
  }

  /** Counters never decrease and `errores`/`warnings` are append-only over a
      whole import. */
  lemma {:induction false} AfterLinesExtends(r: Report, runs: seq<LineRun>)
    ensures Extends(r, AfterLines(r, runs))
  {
    if runs != [] {
      var init := runs[..|runs| - 1];
      AfterLinesExtends(r, init);
      AfterLineExtends(AfterLines(r, init), runs[|runs| - 1]);
      ExtendsTransitive(r, AfterLines(r, init), AfterLines(r, runs));
    }
  }

  lemma {:induction false} AfterLinesAppend(r: Report, a: seq<LineRun>, b: seq<LineRun>)
    ensures AfterLines(r, a + b) == AfterLines(AfterLines(r, a), b)
  {
    if b == [] {
      assert a + b == a;
    } else {
      var b0 := b[..|b| - 1];
      assert (a + b)[..|a + b| - 1] == a + b0;
      AfterLinesAppend(r, a, b0);
    }
  }

  /** The report after any prefix of the lines is extended by the report after a
      longer prefix. */
  lemma AfterLinesPrefix(r: Report, runs: seq<LineRun>, i: nat, j: nat)
    requires i <= j <= |runs|
    ensures Extends(AfterLines(r, runs[..i]), AfterLines(r, runs[..j]))
  {
    assert runs[..j] == runs[..i] + runs[i..j];
    AfterLinesAppend(r, runs[..i], runs[i..j]);
    AfterLinesExtends(AfterLines(r, runs[..i]), runs[i..j]);
  }

  /** Runs over a list of items (folders, line keys), each run fitted by `fits` to
      the report the import had reached when the run started. */
  predicate RunsFit<X>(r: Report, items: seq<X>, runs: seq<LineRun>, fits: (Report, X, LineRun) -> bool)
  {
    |runs| == |items| && forall i :: 0 <= i < |runs| ==> fits(AfterLines(r, runs[..i]), items[i], runs[i])
  }

  lemma RunsFitStep<X>(r: Report, items: seq<X>, runs: seq<LineRun>, item: X, run: LineRun,
                       fits: (Report, X, LineRun) -> bool)
    requires RunsFit(r, items, runs, fits)
    requires fits(AfterLines(r, runs), item, run)
    ensures RunsFit(r, items + [item], runs + [run], fits)
  {
    var runs' := runs + [run];
    var items' := items + [item];
    assert runs'[..|runs|] == runs;
    forall i | 0 <= i < |runs'| ensures fits(AfterLines(r, runs'[..i]), items'[i], runs'[i]) {
      if i < |runs| {
        assert runs'[..i] == runs[..i];
      }
    }
  }
}
