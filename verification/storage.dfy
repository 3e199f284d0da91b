/** The `characters` table and the upsert that writes one row of it:
    `INSERT ... ON CONFLICT (id) DO UPDATE` setting every column. */
module Storage {
  import opened Wrappers
  import opened Normalizer

  /** The table, keyed by its primary key `id`. */
  type Table = map<int, Row>

  /** Inserts the row, or overwrites every column of the row with the same
      id; no other row is touched. */
  function Upsert(t: Table, row: Row): (r: Table)
    ensures row.id in r && r[row.id] == row
    ensures r.Keys == t.Keys + {row.id}
    ensures forall k :: k in t && k != row.id ==> r[k] == t[k]
  {
    t[row.id := row]
  }

  /** Writing the same row twice is writing it once. */
  lemma UpsertIdempotent(t: Table, row: Row)
    ensures Upsert(Upsert(t, row), row) == Upsert(t, row)
  {
  }

  /** The second write to an id replaces the first entirely: the table
      converges to the latest row rather than accumulating. */
  lemma UpsertLastWins(t: Table, first: Row, second: Row)
    requires first.id == second.id
    ensures Upsert(Upsert(t, first), second) == Upsert(t, second)
  {
  }

  /** Writes to different ids do not interfere. */
  lemma UpsertCommutes(t: Table, a: Row, b: Row)
    requires a.id != b.id
    ensures Upsert(Upsert(t, a), b) == Upsert(Upsert(t, b), a)
  {
  }

  /** The ids of a sequence of rows. */
  function IdsOf(rows: seq<Row>): (ids: set<int>)
    ensures forall i :: 0 <= i < |rows| ==> rows[i].id in ids
    decreases |rows|
  {
    if rows == [] then {} else {rows[0].id} + IdsOf(rows[1..])
  }

  /** The rows written one after another, in order, each one committed. */
  function UpsertAll(t: Table, rows: seq<Row>): (r: Table)
    ensures r.Keys == t.Keys + IdsOf(rows)
    ensures forall k :: k in t && k !in IdsOf(rows) ==> r[k] == t[k]
    decreases |rows|
  {
    if rows == [] then t else UpsertAll(Upsert(t, rows[0]), rows[1..])
  }

  /** The last row in `rows` with id `k`, if any. */
  function Latest(rows: seq<Row>, k: int): (r: Option<Row>)
    ensures r.Some? <==> k in IdsOf(rows)
    ensures r.Some? ==> r.value.id == k && r.value in rows
    decreases |rows|
  {
    if rows == [] then None
    else
      match Latest(rows[1..], k)
      case Some(row) => Some(row)
      case None => if rows[0].id == k then Some(rows[0]) else None
  }

  /** After a sequence of writes, each written id holds the last row written
      to it. */
  lemma {:induction false} UpsertAllLatest(t: Table, rows: seq<Row>, k: int)
    requires k in IdsOf(rows)
    ensures UpsertAll(t, rows)[k] == Latest(rows, k).value
    decreases |rows|
  {
    if k in IdsOf(rows[1..]) {
      UpsertAllLatest(Upsert(t, rows[0]), rows[1..], k);
    }
  }

  /** Replaying a batch of writes over its own result changes nothing. */
  lemma UpsertAllIdempotent(t: Table, rows: seq<Row>)
    ensures UpsertAll(UpsertAll(t, rows), rows) == UpsertAll(t, rows)
  {
    var once := UpsertAll(t, rows);
    var twice := UpsertAll(once, rows);
    forall k | k in IdsOf(rows)
      ensures twice[k] == once[k]
    {
      UpsertAllLatest(t, rows, k);
      UpsertAllLatest(once, rows, k);
    }
    assert twice.Keys == once.Keys;
  }
}
