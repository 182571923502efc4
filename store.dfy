/**
 * The part of the document store the modelled code relies on: each table holds
 * documents in insertion order, and each document carries the system fields `_id`
 * (fresh, never reused) and `_creationTime` next to the record itself.
 */
module Store {
  import opened Wrappers
  import Seqs

  type Id = nat

  datatype Doc<T> = Doc(id: Id, creationTime: int, value: T)

  /** An index key value: a string field, or `undefined` for an optional field that is absent. */
  datatype IndexKey = Str(s: string) | Undefined

  /** A named index and the fields it is keyed on, in order. */
  datatype Index<F> = Index(name: string, fields: seq<F>)

  /** No two documents share an id. */
  predicate DistinctIds<T>(rows: seq<Doc<T>>)
  {
    forall i, j :: 0 <= i < j < |rows| ==> rows[i].id != rows[j].id
  }

  /** Every id is below the next one to hand out, and no two documents share an id. */
  predicate WellFormed<T>(rows: seq<Doc<T>>, nextId: Id)
  {
    (forall i :: 0 <= i < |rows| ==> rows[i].id < nextId) && DistinctIds(rows)
  }

  /** `withoutSystemFields`: the record without `_id` and `_creationTime`, and nothing else dropped. */
  function WithoutSystemFields<T>(d: Doc<T>): (r: T)
    ensures Doc(d.id, d.creationTime, r) == d
  {
    d.value
  }

  /** `withoutSystemFields` over a query's documents. */
  function Values<T>(rows: seq<Doc<T>>): (r: seq<T>)
    ensures |r| == |rows|
    ensures forall i :: 0 <= i < |rows| ==> r[i] == rows[i].value
  {
    Seqs.Map(rows, WithoutSystemFields)
  }

  /** Appending a document under the next id keeps ids fresh and distinct. */
  lemma AppendFresh<T>(rows: seq<Doc<T>>, nextId: Id, creationTime: int, value: T)
    requires WellFormed(rows, nextId)
    ensures WellFormed(rows + [Doc(nextId, creationTime, value)], nextId + 1)
  {
  }

  /** Replacing a document's record under the same id keeps ids fresh and distinct. */
  lemma ReplaceKeepsIds<T>(rows: seq<Doc<T>>, nextId: Id, i: nat, value: T)
    requires WellFormed(rows, nextId) && i < |rows|
    ensures WellFormed(rows[i := rows[i].(value := value)], nextId)
  {
  }

  /** The position of the document with id `id` (what `db.patch` looks up). */
  function PositionOf<T>(rows: seq<Doc<T>>, id: Id): (r: Option<nat>)
    ensures r.None? <==> forall i :: 0 <= i < |rows| ==> rows[i].id != id
    ensures r.Some? ==> r.value < |rows| && rows[r.value].id == id
  {
    Seqs.FirstIndex(rows, (d: Doc<T>) => d.id == id)
  }

  /** With distinct ids, the document with a given id is the one at its position. */
  lemma PositionOfUnique<T>(rows: seq<Doc<T>>, nextId: Id, i: nat)
    requires WellFormed(rows, nextId) && i < |rows|
    ensures PositionOf(rows, rows[i].id) == Some(i)
  {
  }
}
