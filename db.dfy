/**
 * The database session layer: the db_* operations over the shared context
 * record. Each C function that takes `context_td *s` is a method taking a
 * `Context?`, so the NULL context is part of the model; the engine and the
 * allocator are oracles passed in, and each method returns the engine calls
 * it made.
 */
module Db {
  import opened Sqlite
  import opened Alloc
  import opened SqlText
  import opened ResultSets

  /** The statement db_is_sqlite prepares to probe a file. */
  const ProbeSql: string := "PRAGMA schema_version;"

  /** The catalog query of db_fill_table_list; its filter and order are the engine's business. */
  const TableListSql: string :=
    "SELECT name FROM sqlite_master WHERE type='table' AND name NOT LIKE 'sqlite_%' ORDER BY name;"

  /**
   * The database part of context_td. The two GTK stores are reduced to
   * whether they exist and what rows they hold; the rows view also keeps
   * the titles of its columns and the model attached to it (None: no model).
   */
  class Context {
    var db: Option<Handle>
    var hasTablesStore: bool
    var tableNames: seq<Option<string>>
    var hasRowsView: bool
    var viewColumns: seq<string>
    var viewModel: Option<seq<seq<string>>>
    var currentNcols: nat
    var currentColnames: array?<Option<string>>
    var currentTablename: Option<string>

    /** The column-name array, when present, holds exactly current_ncols entries. */
    ghost predicate Valid()
      reads this
    {
      currentColnames != null ==> currentColnames.Length == currentNcols
    }

    /** No column state and an empty rows view. */
    ghost predicate Cleared()
      reads this
    {
      currentColnames == null && currentNcols == 0 && viewColumns == [] && viewModel.None?
    }

    /**
     * The column state and rows view built from the prepared statement
     * `stmt`: one name per result column (a copy of the engine's name, ""
     * for NULL, or NULL where the copy failed), one view column titled
     * with each name, and the rows snapshot as the view's model.
     */
    ghost predicate Shows(stmt: Statement, mem: Memory)
      reads this, currentColnames
    {
      && currentColnames != null
      && currentNcols == |stmt.columns| == currentColnames.Length
      && (forall i :: 0 <= i < |stmt.columns| ==> currentColnames[i] == NameCopy(stmt.columns, i, mem))
      && |viewColumns| == |stmt.columns|
      && (forall i :: 0 <= i < |stmt.columns| ==> viewColumns[i] == ColumnTitle(stmt.columns[i]))
      && viewModel == Some(Snapshot(stmt.rows, |stmt.columns|))
    }

    /** The zeroed context of main, with the two stores ui_build creates. */
    constructor (tablesStore: bool, rowsView: bool)
      ensures Valid()
      ensures db.None? && currentColnames == null && currentTablename.None? && currentNcols == 0
      ensures hasTablesStore == tablesStore && tableNames == []
      ensures hasRowsView == rowsView && viewColumns == [] && viewModel.None?
    {
      db := None;
      hasTablesStore := tablesStore;
      tableNames := [];
      hasRowsView := rowsView;
      viewColumns := [];
      viewModel := None;
      currentNcols := 0;
      currentColnames := null;
      currentTablename := None;
    }
  }

  /** The objects a context pointer refers to: none for NULL. */
  function Frame(s: Context?): set<Context>
  {
    if s == null then {} else {s}
  }

  /**
   * db_is_sqlite: 1 exactly when the read-only open and the probe prepare
   * both succeed. It touches no context, and the probe connection is closed
   * on every path on which the engine left one, as the last call.
   */
  method IsSqlite(e: Engine, filename: string) returns (valid: bool, calls: seq<Event>)
    ensures valid <==>
      e.openReadOnly(filename).OpenOk? && e.prepare(e.openReadOnly(filename).handle, ProbeSql).Accepted?
    ensures |calls| >= 1 && calls[0] == OpenProbe(filename)
    ensures HeldAfter(e.openReadOnly(filename)).None? ==> calls == [OpenProbe(filename)]
    ensures HeldAfter(e.openReadOnly(filename)).Some? ==>
      calls[|calls| - 1] == CloseDb(HeldAfter(e.openReadOnly(filename)).value)
    ensures forall i :: 0 <= i < |calls| - 1 ==> !calls[i].CloseDb?
    ensures StatementsReleased(calls)
  {
    var probe := e.openReadOnly(filename);
    calls := [OpenProbe(filename)];
    match probe {
      case OpenFailed(_, leftover) =>
        if leftover.Some? {
          CountsPush(calls, CloseDb(leftover.value));
          calls := calls + [CloseDb(leftover.value)];
        }
        valid := false;
      case OpenOk(tmp) =>
        var prepared := e.prepare(tmp, ProbeSql);
        if prepared.Rejected? {
          CountsPush(calls, PrepareFailed(tmp, ProbeSql));
          calls := calls + [PrepareFailed(tmp, ProbeSql)];
          CountsPush(calls, CloseDb(tmp));
          calls := calls + [CloseDb(tmp)];
          valid := false;
        } else {
          CountsPush(calls, PrepareOk(tmp, ProbeSql));
          calls := calls + [PrepareOk(tmp, ProbeSql)];
          CountsPush(calls, Finalize);
          calls := calls + [Finalize];
          CountsPush(calls, CloseDb(tmp));
          calls := calls + [CloseDb(tmp)];
          valid := true;
        }
    }
  }

  /**
   * db_open: SQLITE_MISUSE on a NULL context; otherwise close the current
   * connection, if any, exactly once, then open `filename`. The code and the
   * handle left in the context are whatever the engine's open produced.
   */
  method Open(s: Context?, e: Engine, filename: string) returns (rc: int, calls: seq<Event>)
    modifies Frame(s)`db
    ensures s == null ==> rc == MISUSE && calls == []
    ensures s != null ==> rc == OpenCode(e.open(filename)) && s.db == HeldAfter(e.open(filename))
    ensures s != null ==>
      calls == (if old(s.db).Some? then [CloseDb(old(s.db).value)] else []) + [OpenDb(filename)]
  {
    if s == null {
      return MISUSE, [];
    }
    calls := [];
    if s.db.Some? {
      calls := [CloseDb(s.db.value)];
      s.db := None;
    }
    var outcome := e.open(filename);
    s.db := HeldAfter(outcome);
    rc := OpenCode(outcome);
    calls := calls + [OpenDb(filename)];
  }

  /** db_close: safe on a NULL context; afterwards there is no connection, and one was closed only if there was one. */
  method Close(s: Context?) returns (calls: seq<Event>)
    modifies Frame(s)`db
    ensures s != null ==> s.db.None?
    ensures calls == if s != null && old(s.db).Some? then [CloseDb(old(s.db).value)] else []
  {
    calls := [];
    if s == null {
      return;
    }
    if s.db.Some? {
      calls := [CloseDb(s.db.value)];
      s.db := None;
    }
  }

  /**
   * db_fill_table_list: SQLITE_MISUSE without a connection or a store. A
   * failed prepare returns the engine's code and leaves the store as it was.
   * Otherwise the store is replaced by the first column of every stepped row,
   * in engine order, and the result is SQLITE_OK even when the last step
   * reported an error rather than SQLITE_DONE.
   */
  method FillTableList(s: Context?, e: Engine) returns (rc: int, calls: seq<Event>)
    modifies Frame(s)`tableNames
    ensures s == null || s.db.None? || !s.hasTablesStore ==> rc == MISUSE && calls == []
    ensures s != null && (s.db.None? || !s.hasTablesStore) ==> s.tableNames == old(s.tableNames)
    ensures s != null && s.db.Some? && s.hasTablesStore && e.prepare(s.db.value, TableListSql).Rejected? ==>
      && rc == e.prepare(s.db.value, TableListSql).code
      && calls == [PrepareFailed(s.db.value, TableListSql)]
      && s.tableNames == old(s.tableNames)
    ensures s != null && s.db.Some? && s.hasTablesStore && e.prepare(s.db.value, TableListSql).Accepted? ==>
      && rc == OK
      && calls == [PrepareOk(s.db.value, TableListSql), Finalize]
      && s.tableNames == TableNames(e.run(s.db.value, TableListSql, []).rows)
  {
    if s == null || s.db.None? || !s.hasTablesStore {
      return MISUSE, [];
    }
    var h := s.db.value;
    var prepared := e.prepare(h, TableListSql);
    if prepared.Rejected? {
      return prepared.code, [PrepareFailed(h, TableListSql)];
    }
    var stmt := e.run(h, TableListSql, []);
    s.tableNames := [];
    var k := 0;
    var step := StepCode(stmt, k);
    while step == ROW
      invariant 0 <= k <= |stmt.rows|
      invariant step == StepCode(stmt, k)
      invariant s.tableNames == TableNames(stmt.rows[..k])
      decreases |stmt.rows| - k
    {
      assert stmt.rows[..k + 1][..k] == stmt.rows[..k];
      s.tableNames := s.tableNames + [ColumnText(stmt.rows[k], 0)];
      k := k + 1;
      step := StepCode(stmt, k);
    }
    assert stmt.rows[..k] == stmt.rows;
    return OK, [PrepareOk(h, TableListSql), Finalize];
  }

  /**
   * db_free_columns: whatever the state, it ends with no column names, no
   * table name and a zero count. Each of the current_ncols names is freed
   * once, in order (returned as `freed`); with no name array nothing is.
   */
  method FreeColumns(s: Context?) returns (freed: seq<Option<string>>)
    requires s != null ==> s.Valid()
    modifies Frame(s)`currentColnames, Frame(s)`currentNcols, Frame(s)`currentTablename
    ensures s != null ==> s.Valid()
    ensures s != null ==> s.currentColnames == null && s.currentTablename.None? && s.currentNcols == 0
    ensures freed == if s != null && old(s.currentColnames) != null then old(s.currentColnames[..]) else []
  {
    freed := [];
    if s == null {
      return;
    }
    if s.currentColnames == null {
      s.currentTablename := None;
      s.currentNcols := 0;
      return;
    }
    var names := s.currentColnames;
    for i := 0 to s.currentNcols
      invariant freed == names[..i]
    {
      freed := freed + [names[i]];
    }
    assert names[..names.Length] == names[..];
    s.currentColnames := null;
    s.currentNcols := 0;
    s.currentTablename := None;
  }

  /**
   * The part of db_populate_rows after the SELECT is prepared: record the
   * column count, allocate the name array, copy each name and add a view
   * column titled with it, then attach one text row per row stepped.
   */
  method LoadStatement(s: Context, stmt: Statement, mem: Memory) returns (rc: int)
    requires s.Cleared()
    modifies s`currentColnames, s`currentNcols, s`viewColumns, s`viewModel
    ensures s.Valid()
    ensures !mem.Grants(ColumnArray) ==>
      && rc == NOMEM && s.currentColnames == null && s.currentNcols == |stmt.columns|
      && s.viewColumns == [] && s.viewModel.None?
    ensures mem.Grants(ColumnArray) ==> rc == OK && fresh(s.currentColnames) && s.Shows(stmt, mem)
  {
    var ncol := |stmt.columns|;
    s.currentNcols := ncol;
    if !mem.Grants(ColumnArray) {
      s.currentColnames := null;
      return NOMEM;
    }
    var names := new Option<string>[ncol](_ => None);
    s.currentColnames := names;

    for i := 0 to ncol
      invariant |s.viewColumns| == i
      invariant forall j :: 0 <= j < i ==> names[j] == NameCopy(stmt.columns, j, mem)
      invariant forall j :: 0 <= j < i ==> s.viewColumns[j] == ColumnTitle(stmt.columns[j])
      modifies names, s`viewColumns
    {
      names[i] := NameCopy(stmt.columns, i, mem);
      s.viewColumns := s.viewColumns + [ColumnTitle(stmt.columns[i])];
    }

    var store, _ := ReadRows(stmt, ncol);
    s.viewModel := Some(store);
    return OK;
  }

  /**
   * db_populate_rows. SQLITE_MISUSE, with nothing changed, without a
   * connection, a rows view or a table name. Otherwise the old column state
   * is released and the table name recorded before anything is queried, so
   * a failure afterwards leaves the new table name with no column names.
   * On success the count is the engine's column count, each name the
   * engine's name or "" for NULL, and the view holds one row of `ncol` text
   * cells per row stepped. The SELECT text is the same on both buffer paths.
   */
  method PopulateRows(s: Context?, e: Engine, mem: Memory, table: Option<string>)
    returns (rc: int, calls: seq<Event>)
    requires s != null ==> s.Valid()
    modifies Frame(s)`currentColnames, Frame(s)`currentNcols, Frame(s)`currentTablename,
             Frame(s)`viewColumns, Frame(s)`viewModel
    ensures s != null ==> s.Valid()
    ensures s == null || s.db.None? || !s.hasRowsView || table.None? ==> rc == MISUSE && calls == []
    ensures s != null && (s.db.None? || !s.hasRowsView || table.None?) ==> unchanged(s)
    ensures s != null && s.db.Some? && s.hasRowsView && table.Some? ==>
      && s.currentTablename == (if mem.Grants(TableNameCopy) then table else None)
      && StatementsReleased(calls)
    // the SELECT text could not be built
    ensures s != null && s.db.Some? && s.hasRowsView && table.Some? && MakeSelect(table.value, mem).None? ==>
      rc == NOMEM && calls == [] && s.Cleared()
    // the engine refused the SELECT
    ensures s != null && s.db.Some? && s.hasRowsView && table.Some? && MakeSelect(table.value, mem).Some? ==>
      var sql := SelectSql(table.value);
      e.prepare(s.db.value, sql).Rejected? ==>
        && rc == e.prepare(s.db.value, sql).code
        && calls == [PrepareFailed(s.db.value, sql)]
        && s.Cleared()
    // the SELECT was prepared
    ensures s != null && s.db.Some? && s.hasRowsView && table.Some? && MakeSelect(table.value, mem).Some? ==>
      var sql := SelectSql(table.value);
      var stmt := e.run(s.db.value, sql, []);
      e.prepare(s.db.value, sql).Accepted? ==>
        && calls == [PrepareOk(s.db.value, sql), Finalize]
        && (!mem.Grants(ColumnArray) ==>
              && rc == NOMEM && s.currentColnames == null && s.currentNcols == |stmt.columns|
              && s.viewColumns == [] && s.viewModel.None?)
        && (mem.Grants(ColumnArray) ==> rc == OK && fresh(s.currentColnames) && s.Shows(stmt, mem))
  {
    if s == null || s.db.None? || !s.hasRowsView {
      return MISUSE, [];
    }
    if table.None? {
      return MISUSE, [];
    }
    var _ := FreeColumns(s);
    s.currentTablename := if mem.Grants(TableNameCopy) then table else None;
    s.viewModel := None;
    s.viewColumns := [];

    var sql := MakeSelect(table.value, mem);
    if sql.None? {
      return NOMEM, [];
    }
    var h := s.db.value;
    var prepared := e.prepare(h, sql.value);
    if prepared.Rejected? {
      return prepared.code, [PrepareFailed(h, sql.value)];
    }
    rc := LoadStatement(s, e.run(h, sql.value, []), mem);
    CountsPush([PrepareOk(h, sql.value)], Finalize);
    calls := [PrepareOk(h, sql.value), Finalize];
  }

  /**
   * db_apply_update_cell. SQLITE_MISUSE without a connection, a table name
   * or column names; SQLITE_OK with no statement for column 0 (rowid);
   * SQLITE_MISUSE when the stored name is NULL. Otherwise it prepares
   * UPDATE "<table>" SET "<column>" = ? WHERE rowid = ?; (the same text
   * whichever buffer held it), binds the new text to parameter 1 and the
   * rowid text to parameter 2, and succeeds only when the step reports
   * SQLITE_DONE; any other step code is returned. The index is not checked
   * against the column count: staying in range is the caller's duty.
   */
  method ApplyUpdateCell(s: Context?, e: Engine, mem: Memory, colidx: int, rowidText: string, newText: string)
    returns (rc: int, calls: seq<Event>)
    requires s != null && s.db.Some? && s.currentTablename.Some? && s.currentColnames != null && colidx != 0 ==>
      0 <= colidx < s.currentColnames.Length
    ensures StatementsReleased(calls)
    ensures s == null || s.db.None? || s.currentTablename.None? || s.currentColnames == null ==>
      rc == MISUSE && calls == []
    ensures s != null && s.db.Some? && s.currentTablename.Some? && s.currentColnames != null && colidx == 0 ==>
      rc == OK && calls == []
    ensures s != null && s.db.Some? && s.currentTablename.Some? && s.currentColnames != null && colidx != 0 ==>
      s.currentColnames[colidx].None? ==> rc == MISUSE && calls == []
    ensures s != null && s.db.Some? && s.currentTablename.Some? && s.currentColnames != null && colidx != 0 ==>
      var h, table := s.db.value, s.currentTablename.value;
      s.currentColnames[colidx].Some? ==>
        var column := s.currentColnames[colidx].value;
        var sql := UpdateSql(table, column);
        && (MakeUpdate(table, column, mem).None? ==> rc == NOMEM && calls == [])
        && (MakeUpdate(table, column, mem).Some? && e.prepare(h, sql).Rejected? ==>
              rc == e.prepare(h, sql).code && calls == [PrepareFailed(h, sql)])
        && (MakeUpdate(table, column, mem).Some? && e.prepare(h, sql).Accepted? ==>
              && calls == [PrepareOk(h, sql), BindText(1, newText), BindText(2, rowidText), Finalize]
              && var step := StepCode(e.run(h, sql, [newText, rowidText]), 0);
                 rc == if step == DONE then OK else step)
  {
    if s == null || s.db.None? || s.currentTablename.None? || s.currentColnames == null {
      return MISUSE, [];
    }
    if colidx == 0 {
      return OK, [];
    }
    var colname := s.currentColnames[colidx];
    if colname.None? {
      return MISUSE, [];
    }
    var sql := MakeUpdate(s.currentTablename.value, colname.value, mem);
    if sql.None? {
      return NOMEM, [];
    }
    var h := s.db.value;
    var prepared := e.prepare(h, sql.value);
    if prepared.Rejected? {
      return prepared.code, [PrepareFailed(h, sql.value)];
    }
    calls := [PrepareOk(h, sql.value)];
    CountsPush(calls, BindText(1, newText));
    calls := calls + [BindText(1, newText)];
    CountsPush(calls, BindText(2, rowidText));
    calls := calls + [BindText(2, rowidText)];
    rc := StepCode(e.run(h, sql.value, [newText, rowidText]), 0);
    CountsPush(calls, Finalize);
    calls := calls + [Finalize];
    if rc != DONE {
      return rc, calls;
    }
    return OK, calls;
  }

  // ---------------------------------------------------------------- guarantees over several calls

  /** db_close is idempotent: a second call closes nothing and there is still no connection. */
  method CloseTwice(s: Context?) returns (first: seq<Event>, second: seq<Event>)
    modifies Frame(s)`db
    ensures s != null ==> s.db.None?
    ensures first == if s != null && old(s.db).Some? then [CloseDb(old(s.db).value)] else []
    ensures second == []
  {
    first := Close(s);
    second := Close(s);
  }

  /** db_free_columns is idempotent: a second call frees nothing and leaves the same cleared state. */
  method FreeColumnsTwice(s: Context?) returns (first: seq<Option<string>>, second: seq<Option<string>>)
    requires s != null ==> s.Valid()
    modifies Frame(s)`currentColnames, Frame(s)`currentNcols, Frame(s)`currentTablename
    ensures s != null ==> s.currentColnames == null && s.currentTablename.None? && s.currentNcols == 0
    ensures first == if s != null && old(s.currentColnames) != null then old(s.currentColnames[..]) else []
    ensures second == []
  {
    first := FreeColumns(s);
    second := FreeColumns(s);
  }

  /**
   * Once db_close has run, listing tables, loading rows and updating a cell
   * all refuse with SQLITE_MISUSE, make no engine call and leave the
   * context as it was.
   */
  method QueriesAfterClose(s: Context, e: Engine, mem: Memory, table: Option<string>, colidx: int)
    returns (listRc: int, loadRc: int, updateRc: int, queryCalls: seq<Event>)
    requires s.Valid()
    modifies s`db, s`tableNames, s`currentColnames, s`currentNcols, s`currentTablename,
             s`viewColumns, s`viewModel
    ensures s.db.None?
    ensures listRc == MISUSE && loadRc == MISUSE && updateRc == MISUSE
    ensures queryCalls == []
    ensures s.tableNames == old(s.tableNames) && s.viewModel == old(s.viewModel)
    ensures s.viewColumns == old(s.viewColumns)
    ensures s.currentColnames == old(s.currentColnames) && s.currentTablename == old(s.currentTablename)
    ensures s.currentNcols == old(s.currentNcols)
  {
    var _ := Close(s);
    var listCalls, loadCalls, updateCalls;
    listRc, listCalls := FillTableList(s, e);
    loadRc, loadCalls := PopulateRows(s, e, mem, table);
    updateRc, updateCalls := ApplyUpdateCell(s, e, mem, colidx, "1", "");
    queryCalls := listCalls + loadCalls + updateCalls;
  }
}
