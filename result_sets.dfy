/**
 * How query results become the text the views hold: the rows snapshot of
 * db_populate_rows (every value as text, NULL as "") and the table list of
 * db_fill_table_list (first column of each row, in engine order).
 */
module ResultSets {
  import opened Sqlite
  import opened Alloc

  /** The text stored for one cell: the value, or "" when the engine yields NULL. */
  function CellText(row: seq<Option<string>>, i: int): string
  {
    match ColumnText(row, i)
    case Some(t) => t
    case None => ""
  }

  /** The first `n` cells of a result row as text. */
  function RowText(row: seq<Option<string>>, n: nat): (cells: seq<string>)
    ensures |cells| == n
    ensures forall i :: 0 <= i < n ==> cells[i] == CellText(row, i)
  {
    if n == 0 then [] else RowText(row, n - 1) + [CellText(row, n - 1)]
  }

  /**
   * The rows snapshot: one entry per row the engine produced, none dropped
   * and none added, each with exactly `ncol` cells.
   */
  function Snapshot(rows: seq<seq<Option<string>>>, ncol: nat): (store: seq<seq<string>>)
    ensures |store| == |rows|
    ensures forall k :: 0 <= k < |rows| ==> |store[k]| == ncol
    ensures forall k, i :: 0 <= k < |rows| && 0 <= i < ncol ==>
      store[k][i] == (if i < |rows[k]| && rows[k][i].Some? then rows[k][i].value else "")
  {
    if rows == [] then []
    else Snapshot(rows[..|rows| - 1], ncol) + [RowText(rows[|rows| - 1], ncol)]
  }

  /**
   * For a well-formed statement read with its own column count, as
   * db_populate_rows does, every cell is the engine's value, or "" exactly
   * where the engine yields NULL.
   */
  lemma SnapshotOfStatement(stmt: Statement)
    requires WellFormed(stmt)
    ensures var store := Snapshot(stmt.rows, |stmt.columns|);
      forall k, i :: 0 <= k < |stmt.rows| && 0 <= i < |stmt.columns| ==>
        store[k][i] == (if stmt.rows[k][i].Some? then stmt.rows[k][i].value else "")
  {
  }

  /** The table list: the first column of every row, NULL kept as NULL, in the order stepped. */
  function TableNames(rows: seq<seq<Option<string>>>): (names: seq<Option<string>>)
    ensures |names| == |rows|
    ensures forall k :: 0 <= k < |rows| ==>
      names[k] == (if |rows[k]| > 0 then rows[k][0] else None)
  {
    if rows == [] then []
    else TableNames(rows[..|rows| - 1]) + [ColumnText(rows[|rows| - 1], 0)]
  }

  /** The title given to a view column and the name kept for it: the engine name, or "" for NULL. */
  function ColumnTitle(name: Option<string>): string
  {
    match name
    case Some(n) => n
    case None => ""
  }

  /** The column name recorded at index i: a copy of its title, or NULL when that strdup fails. */
  function NameCopy(columns: seq<Option<string>>, i: nat, mem: Memory): Option<string>
    requires i < |columns|
  {
    if mem.Grants(ColumnNameCopy(i)) then Some(ColumnTitle(columns[i])) else None
  }

  /**
   * The fill loop of db_populate_rows: step the statement, append one row
   * per SQLITE_ROW with `ncol` text cells, and stop at the first other code,
   * which is returned (the caller ignores it).
   */
  method ReadRows(stmt: Statement, ncol: nat) returns (store: seq<seq<string>>, finish: int)
    ensures store == Snapshot(stmt.rows, ncol)
    ensures finish == stmt.finish
  {
    store := [];
    var k := 0;
    var rc := StepCode(stmt, k);
    while rc == ROW
      invariant 0 <= k <= |stmt.rows|
      invariant rc == StepCode(stmt, k)
      invariant store == Snapshot(stmt.rows[..k], ncol)
      decreases |stmt.rows| - k
    {
      var row := stmt.rows[k];
      var cells := [];
      var i := 0;
      while i < ncol
        invariant 0 <= i <= ncol
        invariant cells == RowText(row, i)
      {
        cells := cells + [CellText(row, i)];
        i := i + 1;
      }
      assert stmt.rows[..k + 1][..k] == stmt.rows[..k];
      store := store + [cells];
      k := k + 1;
      rc := StepCode(stmt, k);
    }
    assert stmt.rows[..k] == stmt.rows;
    finish := rc;
  }
}
