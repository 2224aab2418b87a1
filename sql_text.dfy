/**
 * The SQL texts the database layer formats: the row fetch built by
 * s_make_select_rowid_all and the cell update built by db_apply_update_cell.
 * Identifiers are wrapped in double quotes and NOT escaped; the lemmas here
 * say what that does and does not determine.
 */
module SqlText {
  import opened Sqlite
  import opened Alloc

  /** SQL_QUERY_MAX_LIMIT: the only cap on the rows fetched for a table. */
  const SqlQueryMaxLimit: nat := 100

  /** Sizes of the stack buffers tried before the heap. */
  const SelectBufferSize: nat := 256
  const UpdateBufferSize: nat := 512

  /**
   * snprintf(buf, capacity, ...) when the fully formatted text is `text`:
   * the length it reports and what it leaves in the buffer.
   */
  function Snprintf(capacity: nat, text: string): (out: (nat, string))
    requires capacity > 0
    ensures out.0 == |text|
    ensures |out.1| < capacity && out.1 <= text
    ensures |text| < capacity ==> out.1 == text
  {
    (|text|, if |text| < capacity then text else text[..capacity - 1])
  }

  // ---------------------------------------------------------------- %d

  function Digit(d: nat): char
    requires d < 10
  {
    ('0' as int + d) as char
  }

  /** The decimal text "%d" produces for a non-negative value. */
  function DecimalText(n: nat): (s: string)
    ensures |s| >= 1
    ensures forall i :: 0 <= i < |s| ==> '0' <= s[i] <= '9'
  {
    if n < 10 then [Digit(n)] else DecimalText(n / 10) + [Digit(n % 10)]
  }

  lemma LimitText()
    ensures DecimalText(SqlQueryMaxLimit) == "100"
  {
  }

  // ---------------------------------------------------------------- SELECT

  const SelectHead: string := "SELECT rowid, * FROM \""

  /** What follows the table name: the closing quote and the LIMIT clause. */
  function SelectTail(): string
  {
    "\" LIMIT " + DecimalText(SqlQueryMaxLimit) + ";"
  }

  /** The text of "SELECT rowid, * FROM \"%s\" LIMIT %d;" for `table`. */
  function SelectSql(table: string): string
  {
    SelectHead + table + SelectTail()
  }

  /**
   * s_make_select_rowid_all: format into a 256-byte buffer; if the text did
   * not fit, format again into a heap block of the reported size, otherwise
   * duplicate the buffer. None is the NULL the caller turns into SQLITE_NOMEM.
   */
  function MakeSelect(table: string, mem: Memory): (sql: Option<string>)
    ensures sql.Some? ==> sql.value == SelectSql(table)
    ensures sql.None? <==>
      !mem.Grants(if |SelectSql(table)| < SelectBufferSize then SelectCopy else SelectHeap)
  {
    var first := Snprintf(SelectBufferSize, SelectSql(table));
    if first.0 >= SelectBufferSize then
      if !mem.Grants(SelectHeap) then None
      else Some(Snprintf(first.0 + 1, SelectSql(table)).1)
    else if !mem.Grants(SelectCopy) then None
    else Some(first.1)
  }

  /**
   * Recovers the table name from a fetch text as the string between the fixed
   * head and tail, so it inverts SelectSql on strings. SQL itself ends a quoted
   * name at the first `"`, so for a name holding a quote this is not what SQL
   * reads, and nothing here makes the text safe against injection.
   */
  function SelectTable(sql: string): (table: Option<string>)
    ensures table.Some? ==> SelectSql(table.value) == sql
  {
    var tail := SelectTail();
    if |sql| >= |SelectHead| + |tail|
       && sql[..|SelectHead|] == SelectHead
       && sql[|sql| - |tail|..] == tail
    then
      var t := sql[|SelectHead|..|sql| - |tail|];
      assert sql == sql[..|SelectHead|] + t + sql[|sql| - |tail|..];
      Some(t)
    else None
  }

  /**
   * Every table name, quotes included, appears verbatim in the fetch text and
   * the string-level reader SelectTable returns it; this is not what SQL reads
   * for a name holding a quote.
   */
  lemma SelectRoundTrip(table: string)
    ensures SelectTable(SelectSql(table)) == Some(table)
  {
    var sql := SelectSql(table);
    assert sql[..|SelectHead|] == SelectHead;
    assert sql[|sql| - |SelectTail()|..] == SelectTail();
    assert sql[|SelectHead|..|sql| - |SelectTail()|] == table;
  }

  /** The fetch text ends with the LIMIT clause carrying SQL_QUERY_MAX_LIMIT. */
  lemma SelectLimit(table: string)
    ensures SelectSql(table) == "SELECT rowid, * FROM \"" + table + "\" LIMIT 100;"
  {
    LimitText();
  }

  // ---------------------------------------------------------------- UPDATE

  const UpdateHead: string := "UPDATE \""
  /** The end of one assignment: closing quote, `=`, parameter marker. */
  const AssignEnd: string := "\" = ?"
  const UpdateMid: string := "\" SET \""
  const UpdateTail: string := AssignEnd + " WHERE rowid = ?;"

  /** The text of "UPDATE \"%s\" SET \"%s\" = ? WHERE rowid = ?;". */
  function UpdateSql(table: string, column: string): string
  {
    UpdateHead + table + UpdateMid + column + UpdateTail
  }

  /**
   * The UPDATE text of db_apply_update_cell: format into a 512-byte stack
   * buffer and use it directly when it fits; otherwise format again into a
   * heap block of the reported size. None is the SQLITE_NOMEM return.
   */
  function MakeUpdate(table: string, column: string, mem: Memory): (sql: Option<string>)
    ensures sql.Some? ==> sql.value == UpdateSql(table, column)
    ensures sql.None? <==> |UpdateSql(table, column)| >= UpdateBufferSize && !mem.Grants(UpdateHeap)
  {
    var first := Snprintf(UpdateBufferSize, UpdateSql(table, column));
    if first.0 >= UpdateBufferSize then
      if !mem.Grants(UpdateHeap) then None
      else Some(Snprintf(first.0 + 1, UpdateSql(table, column)).1)
    else Some(first.1)
  }

  /** Index of the first `c` in `s`, or |s| when there is none. */
  function FirstIndex(s: string, c: char): (i: nat)
    ensures i <= |s|
    ensures i < |s| ==> s[i] == c
    ensures forall j :: 0 <= j < i ==> s[j] != c
  {
    if s == [] then 0
    else if s[0] == c then 0
    else 1 + FirstIndex(s[1..], c)
  }

  /**
   * Splits an UPDATE text at the first quote after `UPDATE "`: the table is
   * what comes before it, the column everything up to the closing tail. This
   * is not how SQL parses a column part that itself holds a quote; see
   * UpdateColumnQuote and UpdateColumnQuoteRead.
   */
  function UpdateTarget(sql: string): (target: Option<(string, string)>)
    ensures target.Some? ==> UpdateSql(target.value.0, target.value.1) == sql
  {
    if |sql| >= |UpdateHead| + |UpdateTail|
       && sql[..|UpdateHead|] == UpdateHead
       && sql[|sql| - |UpdateTail|..] == UpdateTail
    then
      var body := sql[|UpdateHead|..|sql| - |UpdateTail|];
      var q := FirstIndex(body, '"');
      if |body| - q >= |UpdateMid| && body[q..q + |UpdateMid|] == UpdateMid then
        var t, c := body[..q], body[q + |UpdateMid|..];
        assert body == t + UpdateMid + c;
        assert sql == sql[..|UpdateHead|] + body + sql[|sql| - |UpdateTail|..];
        Some((t, c))
      else None
    else None
  }

  /**
   * A table name without a double quote determines the two strings the
   * UPDATE text was built from. It says nothing about what SQL makes of a
   * column string that holds a quote.
   */
  lemma UpdateRoundTrip(table: string, column: string)
    requires '"' !in table
    ensures UpdateTarget(UpdateSql(table, column)) == Some((table, column))
  {
    var sql := UpdateSql(table, column);
    assert sql[..|UpdateHead|] == UpdateHead;
    assert sql[|sql| - |UpdateTail|..] == UpdateTail;
    var body := sql[|UpdateHead|..|sql| - |UpdateTail|];
    assert body == table + UpdateMid + column;
    assert body[|table|] == '"';
    assert FirstIndex(body, '"') == |table|;
    assert body[|table|..|table| + |UpdateMid|] == UpdateMid;
    assert body[..|table|] == table;
    assert body[|table| + |UpdateMid|..] == column;
  }

  /**
   * Without escaping, a quote inside a name changes which identifier the
   * text names: a table name that carries `" SET "` gives the same UPDATE as
   * a different (table, column) pair, and the text is read as that other pair.
   */
  lemma UpdateNotInjective(table: string, inner: string, column: string)
    requires '"' !in table
    ensures UpdateSql(table + UpdateMid + inner, column) == UpdateSql(table, inner + UpdateMid + column)
    ensures UpdateTarget(UpdateSql(table + UpdateMid + inner, column)) == Some((table, inner + UpdateMid + column))
    ensures table + UpdateMid + inner != table
  {
    assert UpdateSql(table + UpdateMid + inner, column) == UpdateSql(table, inner + UpdateMid + column);
    UpdateRoundTrip(table, inner + UpdateMid + column);
  }

  /** The SET list `"c1" = ?, "c2" = ?, ...` assigning one parameter to each column. */
  function SetList(columns: seq<string>): string
    requires |columns| >= 1
  {
    if |columns| == 1 then "\"" + columns[0] + AssignEnd
    else SetList(columns[..|columns| - 1]) + ", " + "\"" + columns[|columns| - 1] + AssignEnd
  }

  /** An UPDATE of several columns of the row `rowid = ?`, as SQL reads one. */
  function AssignmentsSql(table: string, columns: seq<string>): string
    requires |columns| >= 1
  {
    UpdateHead + table + "\" SET " + SetList(columns) + " WHERE rowid = ?;"
  }

  /** The quote that opens the column name ends UpdateMid. */
  lemma MidSplit()
    ensures UpdateMid == "\" SET " + "\""
  {
  }

  /**
   * The UPDATE text for one column is the one-assignment UPDATE; but a
   * column name of the form `x" = ?, "y`, which the engine may report for a
   * column declared with quotes in its name, makes the same text assign two
   * columns with three placeholders, while only parameters 1 and 2 are bound.
   */
  lemma UpdateColumnQuote(table: string, x: string, y: string)
    requires '"' !in table
    ensures UpdateSql(table, x) == AssignmentsSql(table, [x])
    ensures UpdateSql(table, x + AssignEnd + ", " + "\"" + y) == AssignmentsSql(table, [x, y])
  {
    MidSplit();
    assert [x, y][..1] == [x];
  }

  /** The splitting reader takes such a column string as one column, not the two SQL assigns. */
  lemma UpdateColumnQuoteRead(table: string, x: string, y: string)
    requires '"' !in table
    ensures UpdateTarget(UpdateSql(table, x + AssignEnd + ", " + "\"" + y)) ==
      Some((table, x + AssignEnd + ", " + "\"" + y))
  {
    var column := x + AssignEnd + ", " + "\"" + y;
    UpdateRoundTrip(table, column);
  }
}
