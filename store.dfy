/**
 * The spatial store as the KMZ import sees it: the `lineas` table with its
 * unique `numero`, the child tables `linea_tramos` and `estructuras`, and the
 * finalize procedure. Every write may fail; a failed write changes nothing.
 */
module TopologyStore {
  import opened Wrappers
  import opened Coordinates

  type LineaId = nat

  datatype Linea = Linea(numero: string, nombre: string)

  /** A line segment row: `orden` is its position among the line's segments. */
  datatype Tramo = Tramo(lineaId: LineaId, orden: nat, path: seq<Coord>)

  /** A structure row. */
  datatype Estructura = Estructura(lineaId: LineaId, numeroEstructura: string, km: int, point: Coord)

  function TramoLine(t: Tramo): LineaId { t.lineaId }
  function EstructuraLine(e: Estructura): LineaId { e.lineaId }

  /** The rows of line `id`, in table order. */
  function RowsOf<T>(rows: seq<T>, lineOf: T -> LineaId, id: LineaId): (r: seq<T>)
    ensures forall k :: 0 <= k < |r| ==> lineOf(r[k]) == id
  {
    if rows == [] then []
    else RowsOf(rows[..|rows| - 1], lineOf, id) + (if lineOf(rows[|rows| - 1]) == id then [rows[|rows| - 1]] else [])
  }

  /** The rows of every other line: what `delete().eq("linea_id", id)` leaves. */
  function RowsNotOf<T>(rows: seq<T>, lineOf: T -> LineaId, id: LineaId): (r: seq<T>)
    ensures forall k :: 0 <= k < |r| ==> lineOf(r[k]) != id
    ensures forall k :: 0 <= k < |r| ==> r[k] in rows
  {
    if rows == [] then []
    else RowsNotOf(rows[..|rows| - 1], lineOf, id) + (if lineOf(rows[|rows| - 1]) != id then [rows[|rows| - 1]] else [])
  }

  lemma {:induction false} RowsOfAppend<T>(a: seq<T>, b: seq<T>, lineOf: T -> LineaId, id: LineaId)
    ensures RowsOf(a + b, lineOf, id) == RowsOf(a, lineOf, id) + RowsOf(b, lineOf, id)
  {
    if b != [] {
      var b0 := b[..|b| - 1];
      assert (a + b)[..|a + b| - 1] == a + b0;
      RowsOfAppend(a, b0, lineOf, id);
    } else {
      assert a + b == a;
    }
  }

  lemma {:induction false} RowsOfNone<T>(rows: seq<T>, lineOf: T -> LineaId, id: LineaId)
    requires forall k :: 0 <= k < |rows| ==> lineOf(rows[k]) != id
    ensures RowsOf(rows, lineOf, id) == []
  {
    if rows != [] {
      RowsOfNone(rows[..|rows| - 1], lineOf, id);
    }
  }

  lemma {:induction false} RowsOfAll<T>(rows: seq<T>, lineOf: T -> LineaId, id: LineaId)
    requires forall k :: 0 <= k < |rows| ==> lineOf(rows[k]) == id
    ensures RowsOf(rows, lineOf, id) == rows
  {
    if rows != [] {
      RowsOfAll(rows[..|rows| - 1], lineOf, id);
    }
  }

  /** Deleting a line's rows leaves the other lines' rows as they were. */
  lemma {:induction false} RowsOfAfterDelete<T>(rows: seq<T>, lineOf: T -> LineaId, id: LineaId, other: LineaId)
    ensures RowsOf(RowsNotOf(rows, lineOf, id), lineOf, other) == if other == id then [] else RowsOf(rows, lineOf, other)
  {
    if rows != [] {
      var init := rows[..|rows| - 1];
      var last := rows[|rows| - 1];
      RowsOfAfterDelete(init, lineOf, id, other);
      var kept := if lineOf(last) != id then [last] else [];
      RowsOfAppend(RowsNotOf(init, lineOf, id), kept, lineOf, other);
    }
  }

  /** Replacing a line's rows: after the delete and the appends, the line holds
      exactly the new rows, never a union of old and new, and every other line
      holds what it held before. */
  lemma ReplaceLeavesExactlyNew<T>(rows: seq<T>, lineOf: T -> LineaId, id: LineaId, added: seq<T>, other: LineaId)
    requires forall k :: 0 <= k < |added| ==> lineOf(added[k]) == id
    ensures RowsOf(RowsNotOf(rows, lineOf, id) + added, lineOf, id) == added
    ensures other != id ==> RowsOf(RowsNotOf(rows, lineOf, id) + added, lineOf, other) == RowsOf(rows, lineOf, other)
  {
    RowsOfAppend(RowsNotOf(rows, lineOf, id), added, lineOf, id);
    RowsOfAfterDelete(rows, lineOf, id, id);
    RowsOfAll(added, lineOf, id);
    RowsOfAppend(RowsNotOf(rows, lineOf, id), added, lineOf, other);
    RowsOfAfterDelete(rows, lineOf, id, other);
    if other != id {
      RowsOfNone(added, lineOf, other);
    }
  }

  /** The store's tables as a value. */
  datatype Tables = Tables(
    lineas: map<LineaId, Linea>,
    tramos: seq<Tramo>,
    estructuras: seq<Estructura>,
    finalized: seq<LineaId>)

  class Store {
    var lineas: map<LineaId, Linea>
    /** The unique index on `lineas.numero`. */
    var byNumero: map<string, LineaId>
    var tramos: seq<Tramo>
    var estructuras: seq<Estructura>
    /** The lines on which the finalize procedure has succeeded, in call order. */
    var finalized: seq<LineaId>
    var nextId: LineaId

    /** Ids are allocated below `nextId`, `numero` is unique, and every child row
        refers to an existing line. */
    ghost predicate Valid()
      reads this
    {
      (forall id :: id in lineas ==> id < nextId)
      && (forall n :: n in byNumero ==> byNumero[n] in lineas && lineas[byNumero[n]].numero == n)
      && (forall id :: id in lineas ==> lineas[id].numero in byNumero && byNumero[lineas[id].numero] == id)
      && (forall k :: 0 <= k < |tramos| ==> tramos[k].lineaId in lineas)
      && (forall k :: 0 <= k < |estructuras| ==> estructuras[k].lineaId in lineas)
    }

    function Contents(): Tables
      reads this
    {
      Tables(lineas, tramos, estructuras, finalized)
    }

    constructor ()
      ensures Valid()
      ensures lineas == map[] && byNumero == map[] && tramos == [] && estructuras == [] && finalized == []
    {
      lineas, byNumero, tramos, estructuras, finalized, nextId := map[], map[], [], [], [], 0;
    }

    /** The line whose `numero` is `numero`, if any. */
    function Lookup(numero: string): (id: Option<LineaId>)
      reads this
      requires Valid()
      ensures id.Some? <==> exists i :: i in lineas && lineas[i].numero == numero
      ensures id.Some? ==> id.value in lineas && lineas[id.value].numero == numero
    {
      if numero in byNumero then Some(byNumero[numero]) else None
    }

    /** `select("id").eq("numero", numero).maybeSingle()`, of which the caller
        reads only `data`: a failed query reads as "no such line". */
    method SelectByNumero(numero: string) returns (id: Option<LineaId>)
      requires Valid()
      ensures id.Some? ==> id == Lookup(numero)
      ensures Lookup(numero).None? ==> id.None?
    {
      var fails: bool :| true;
      if numero in byNumero && !fails {
        id := Some(byNumero[numero]);
      } else {
        id := None;
      }
    }

    /** `insert({numero, nombre}).select("id").single()`. It fails on a duplicate
        `numero` and may fail for any other reason; on failure the error may or
        may not carry a message. */
    method InsertLinea(numero: string, nombre: string) returns (id: Option<LineaId>, error: Option<string>)
      requires Valid()
      modifies this
      ensures Valid()
      ensures old(Lookup(numero)).Some? ==> id.None?
      ensures id.Some? ==>
        (error.None? && id.value !in old(lineas)
         && lineas == old(lineas)[id.value := Linea(numero, nombre)] && Lookup(numero) == id)
      ensures id.None? ==> lineas == old(lineas)
      ensures tramos == old(tramos) && estructuras == old(estructuras) && finalized == old(finalized)
    {
      var fails: bool :| true;
      if numero in byNumero || fails {
        var reported: bool :| true;
        var message: string :| true;
        return None, if reported then Some(message) else None;
      }
      id := Some(nextId);
      lineas := lineas[nextId := Linea(numero, nombre)];
      byNumero := byNumero[numero := nextId];
      nextId := nextId + 1;
      error := None;
    }

    /** `delete().eq("linea_id", id)` on `linea_tramos`. */
    method DeleteTramos(id: LineaId) returns (error: Option<string>)
      requires Valid()
      modifies this
      ensures Valid()
      ensures tramos == if error.None? then RowsNotOf(old(tramos), TramoLine, id) else old(tramos)
      ensures lineas == old(lineas) && byNumero == old(byNumero)
      ensures estructuras == old(estructuras) && finalized == old(finalized)
    {
      var fails: bool :| true;
      if fails {
        var message: string :| true;
        return Some(message);
      }
      tramos := RowsNotOf(tramos, TramoLine, id);
      error := None;
    }

    /** `delete().eq("linea_id", id)` on `estructuras`. */
    method DeleteEstructuras(id: LineaId) returns (error: Option<string>)
      requires Valid()
      modifies this
      ensures Valid()
      ensures estructuras == if error.None? then RowsNotOf(old(estructuras), EstructuraLine, id) else old(estructuras)
      ensures lineas == old(lineas) && byNumero == old(byNumero)
      ensures tramos == old(tramos) && finalized == old(finalized)
    {
      var fails: bool :| true;
      if fails {
        var message: string :| true;
        return Some(message);
      }
      estructuras := RowsNotOf(estructuras, EstructuraLine, id);
      error := None;
    }

    /** `insert` into `linea_tramos`: fails on a missing line, may fail otherwise. */
    method InsertTramo(row: Tramo) returns (error: Option<string>)
      requires Valid()
      modifies this
      ensures Valid()
      ensures row.lineaId !in lineas ==> error.Some?
      ensures tramos == if error.None? then old(tramos) + [row] else old(tramos)
      ensures lineas == old(lineas) && byNumero == old(byNumero)
      ensures estructuras == old(estructuras) && finalized == old(finalized)
    {
      var fails: bool :| true;
      if row.lineaId !in lineas || fails {
        var message: string :| true;
        return Some(message);
      }
      tramos := tramos + [row];
      error := None;
    }

    /** `insert` into `estructuras`: fails on a missing line, may fail otherwise. */
    method InsertEstructura(row: Estructura) returns (error: Option<string>)
      requires Valid()
      modifies this
      ensures Valid()
      ensures row.lineaId !in lineas ==> error.Some?
      ensures estructuras == if error.None? then old(estructuras) + [row] else old(estructuras)
      ensures lineas == old(lineas) && byNumero == old(byNumero)
      ensures tramos == old(tramos) && finalized == old(finalized)
    {
      var fails: bool :| true;
      if row.lineaId !in lineas || fails {
        var message: string :| true;
        return Some(message);
      }
      estructuras := estructuras + [row];
      error := None;
    }

    /** The `finalize_kmz_import_for_linea` procedure; only its success is recorded. */
    method Finalize(id: LineaId) returns (error: Option<string>)
      requires Valid()
      modifies this
      ensures Valid()
      ensures finalized == if error.None? then old(finalized) + [id] else old(finalized)
      ensures lineas == old(lineas) && byNumero == old(byNumero)
      ensures tramos == old(tramos) && estructuras == old(estructuras)
    {
      var fails: bool :| true;
      if fails {
        var message: string :| true;
        return Some(message);
      }
      finalized := finalized + [id];
      error := None;
    }
  }
}
