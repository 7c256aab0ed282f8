/**
 * The remote spreadsheet, held in memory. Row 0 of `rows` is sheet row 1
 * (the header); sheet row n is `rows[n - 1]`. A cell that a row does not
 * reach reads as the empty string, as a missing value in the Sheets API
 * response does after `row[k] || ''`.
 */
module SheetTable {
  import opened Wrappers

  type Row = seq<string>
  type Table = seq<Row>

  /** An A1-notation cell address such as `G5`. */
  datatype CellRef = CellRef(column: char, row: int)

  /** One entry of a values update: the range and the value put there. */
  datatype CellUpdate = CellUpdate(at: CellRef, value: string)

  /** The sheet accepts a single-letter column and a row number from 1 on;
      `G0` or `G-1` is an invalid range and the request is refused. */
  predicate ValidRef(at: CellRef) {
    'A' <= at.column <= 'Z' && at.row >= 1
  }

  predicate AllValid(updates: seq<CellUpdate>) {
    forall k :: 0 <= k < |updates| ==> ValidRef(updates[k].at)
  }

  function ColumnIndex(c: char): nat
    requires 'A' <= c <= 'Z'
  {
    c as int - 'A' as int
  }

  /** Cell `j` of a row, or `''` past its end. */
  function Cell(row: Row, j: nat): string {
    if j < |row| then row[j] else ""
  }

  /** Cell `(i, j)` of a table, or `''` where the table has none. */
  function CellAt(t: Table, i: nat, j: nat): string {
    if i < |t| then Cell(t[i], j) else ""
  }

  function Blanks(n: nat): (r: Row)
    ensures |r| == n && forall k :: 0 <= k < n ==> r[k] == ""
  {
    if n == 0 then [] else Blanks(n - 1) + [""]
  }

  function EmptyRows(n: nat): (r: Table)
    ensures |r| == n && forall k :: 0 <= k < n ==> r[k] == []
  {
    if n == 0 then [] else EmptyRows(n - 1) + [[]]
  }

  /** Puts `v` in cell `j`, padding the row with empty cells if it is short. */
  function SetCell(row: Row, j: nat, v: string): (r: Row)
    ensures |r| == if j < |row| then |row| else j + 1
    ensures Cell(r, j) == v
    ensures forall k: nat :: k != j ==> Cell(r, k) == Cell(row, k)
  {
    if j < |row| then row[j := v] else row + Blanks(j - |row|) + [v]
  }

  /** The sheet after the single-cell write `at := v`; rows are added below
      the last one when the address lies beyond it. */
  function Write(t: Table, at: CellRef, v: string): (t': Table)
    requires ValidRef(at)
    ensures |t'| == if at.row <= |t| then |t| else at.row
  {
    var i := at.row - 1;
    var padded := if i < |t| then t else t + EmptyRows(i + 1 - |t|);
    padded[i := SetCell(padded[i], ColumnIndex(at.column), v)]
  }

  /** A single-cell write sets that cell and no other. */
  lemma WriteCells(t: Table, at: CellRef, v: string)
    requires ValidRef(at)
    ensures CellAt(Write(t, at, v), at.row - 1, ColumnIndex(at.column)) == v
    ensures forall i: nat, j: nat :: i != at.row - 1 || j != ColumnIndex(at.column) ==>
      CellAt(Write(t, at, v), i, j) == CellAt(t, i, j)
  {
  }

  /** A single-cell write replaces the addressed row only. */
  lemma WriteRows(t: Table, at: CellRef, v: string)
    requires ValidRef(at)
    ensures forall i :: 0 <= i < |t| && i != at.row - 1 ==> Write(t, at, v)[i] == t[i]
    ensures at.row - 1 < |t| ==> Write(t, at, v)[at.row - 1] == SetCell(t[at.row - 1], ColumnIndex(at.column), v)
  {
  }

  /** A batch of writes, applied in order. */
  function ApplyUpdates(t: Table, updates: seq<CellUpdate>): Table
    requires AllValid(updates)
    decreases |updates|
  {
    if updates == [] then t
    else ApplyUpdates(Write(t, updates[0].at, updates[0].value), updates[1..])
  }

  lemma ApplyTwo(t: Table, u: CellUpdate, w: CellUpdate)
    requires ValidRef(u.at) && ValidRef(w.at)
    ensures ApplyUpdates(t, [u, w]) == Write(Write(t, u.at, u.value), w.at, w.value)
  {
    var t1 := Write(t, u.at, u.value);
    assert [u, w][1..] == [w];
    assert ApplyUpdates(t, [u, w]) == ApplyUpdates(t1, [w]);
    assert [w][1..] == [];
    assert ApplyUpdates(t1, [w]) == ApplyUpdates(Write(t1, w.at, w.value), []);
  }

  /** What a read of the range `A2:N` returns: every row below the header. */
  function DataRows(t: Table): Table {
    if t == [] then [] else t[1..]
  }

  /** The spreadsheet behind the Sheets API. `up` says whether the remote
      answers the request; a refused request changes nothing. */
  class Spreadsheet {
    var rows: Table

    constructor (rows: Table)
      ensures this.rows == rows
    {
      this.rows := rows;
    }

    /** `spreadsheets.values.get` of `A2:N` */
    method GetValues(up: bool) returns (r: Option<Table>)
      ensures r == if up then Some(DataRows(rows)) else None
    {
      r := if up then Some(DataRows(rows)) else None;
    }

    /** `spreadsheets.values.update` of one cell */
    method Update(at: CellRef, value: string, up: bool) returns (ok: bool)
      modifies this
      ensures ok == (up && ValidRef(at))
      ensures rows == if ok then Write(old(rows), at, value) else old(rows)
    {
      ok := up && ValidRef(at);
      if ok {
        rows := Write(rows, at, value);
      }
    }

    /** `spreadsheets.values.batchUpdate`: all of the batch or none of it */
    method BatchUpdate(data: seq<CellUpdate>, up: bool) returns (ok: bool)
      modifies this
      ensures ok == (up && AllValid(data))
      ensures rows == if ok then ApplyUpdates(old(rows), data) else old(rows)
    {
      ok := up && AllValid(data);
      if ok {
        rows := ApplyUpdates(rows, data);
      }
    }
  }
}
