/**
 * The `cronogramas` table: an append-only list of records whose ids are
 * assigned by an auto-incrementing counter that starts at 1. Records are
 * never updated or deleted.
 */
module Store {
  import opened Wrappers

  /** One row: its id and the uploaded text, kept verbatim. */
  datatype Record = Record(id: nat, data: string)

  /** Ids strictly increase in insertion order. */
  ghost predicate Increasing(rows: seq<Record>) {
    forall i, j :: 0 <= i < j < |rows| ==> rows[i].id < rows[j].id
  }

  /** Every id was handed out before `next`. */
  ghost predicate Below(rows: seq<Record>, next: nat) {
    forall i :: 0 <= i < |rows| ==> rows[i].id < next
  }

  /** The row `ORDER BY id DESC LIMIT 1` reads: one with the largest id. */
  function Newest(rows: seq<Record>): (r: Option<Record>)
    ensures r.None? <==> rows == []
    ensures r.Some? ==> r.value in rows
    ensures r.Some? ==> forall k :: 0 <= k < |rows| ==> rows[k].id <= r.value.id
  {
    if rows == [] then None
    else
      match Newest(rows[1..])
      case None => Some(rows[0])
      case Some(n) => if n.id > rows[0].id then Some(n) else Some(rows[0])
  }

  /** With increasing ids, the newest row is the one appended last. */
  lemma NewestIsLast(rows: seq<Record>)
    requires Increasing(rows) && rows != []
    ensures Newest(rows) == Some(rows[|rows| - 1])
  {
    var n := Newest(rows).value;
    var k :| 0 <= k < |rows| && rows[k] == n;
    assert rows[|rows| - 1].id <= rows[k].id;
  }

  /** Appending a row with a fresh, larger id makes it the newest. */
  lemma NewestAfterAppend(rows: seq<Record>, next: nat, data: string)
    requires Increasing(rows) && Below(rows, next)
    ensures Increasing(rows + [Record(next, data)])
    ensures Newest(rows + [Record(next, data)]) == Some(Record(next, data))
  {
    var rows' := rows + [Record(next, data)];
    assert forall i :: 0 <= i < |rows| ==> rows'[i] == rows[i];
    NewestIsLast(rows');
  }

  /** The table with its auto-increment counter. */
  class Table {
    var rows: seq<Record>
    var nextId: nat

    ghost predicate Valid()
      reads this
    {
      nextId >= 1 && Increasing(rows) && Below(rows, nextId) &&
      forall i :: 0 <= i < |rows| ==> rows[i].id >= 1
    }

    /** A freshly created, empty table. */
    constructor ()
      ensures Valid() && rows == [] && nextId == 1
    {
      rows := [];
      nextId := 1;
    }

    /** `INSERT INTO cronogramas (data) VALUES (?)`: appends one row and returns its id. */
    method Insert(data: string) returns (id: nat)
      requires Valid()
      modifies this
      ensures Valid()
      ensures id == old(nextId) && nextId == old(nextId) + 1
      ensures rows == old(rows) + [Record(id, data)]
      ensures Newest(rows) == Some(Record(id, data))
    {
      NewestAfterAppend(rows, nextId, data);
      id := nextId;
      rows := rows + [Record(id, data)];
      nextId := nextId + 1;
    }
  }
}
