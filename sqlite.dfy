/**
 * The SQLite C interface as the database layer sees it: result codes, an
 * opaque connection handle, and an abstract engine that answers open,
 * prepare and step. Nothing about how the engine evaluates SQL is modelled;
 * its answers are inputs to the model.
 */
module Sqlite {

  /** A C pointer that may be NULL. */
  datatype Option<+T> = None | Some(value: T)

  // Result codes of sqlite3.h that the layer produces or tests for.
  const OK: int := 0
  const ERROR: int := 1
  const NOMEM: int := 7
  const MISUSE: int := 21
  const ROW: int := 100
  const DONE: int := 101

  /** What a failing sqlite3_open or sqlite3_prepare_v2 returns. */
  type ErrorCode = c: int | c != OK witness ERROR

  /** What sqlite3_step returns once it stops producing rows. */
  type EndCode = c: int | c != ROW witness DONE

  /** An opaque sqlite3* connection. */
  datatype Handle = Handle(id: nat)

  /**
   * The outcome of sqlite3_open / sqlite3_open_v2. On failure the engine may
   * or may not leave a connection object behind in the out-parameter.
   */
  datatype Opened =
    | OpenOk(handle: Handle)
    | OpenFailed(code: ErrorCode, leftover: Option<Handle>)

  /** The connection the out-parameter holds after the open returns. */
  function HeldAfter(o: Opened): Option<Handle>
  {
    match o
    case OpenOk(handle) => Some(handle)
    case OpenFailed(_, leftover) => leftover
  }

  /** The result code the open returns. */
  function OpenCode(o: Opened): (rc: int)
    ensures rc == OK <==> o.OpenOk?
  {
    match o
    case OpenOk(_) => OK
    case OpenFailed(code, _) => code
  }

  /** The outcome of sqlite3_prepare_v2: a statement, or an error code and no statement. */
  datatype Prepared = Accepted | Rejected(code: ErrorCode)

  /**
   * A prepared statement as observed through the C interface, for one set of
   * bound parameters: its result columns (sqlite3_column_name may yield
   * NULL), the rows sqlite3_step produces one by one (sqlite3_column_text
   * may yield NULL for any cell), and the code step returns after the last row.
   */
  datatype Statement = Statement(
    columns: seq<Option<string>>,
    rows: seq<seq<Option<string>>>,
    finish: EndCode)

  /** The code returned by the (k+1)-th call of sqlite3_step. */
  function StepCode(stmt: Statement, k: nat): (rc: int)
    ensures rc == ROW <==> k < |stmt.rows|
  {
    if k < |stmt.rows| then ROW else stmt.finish
  }

  /**
   * A statement as SQLite produces one: every row has one value per result
   * column. The layer only asks for columns below sqlite3_column_count.
   */
  predicate WellFormed(stmt: Statement)
  {
    forall k :: 0 <= k < |stmt.rows| ==> |stmt.rows[k]| == |stmt.columns|
  }

  /**
   * sqlite3_column_text of the current row. For an index out of range the C
   * interface leaves the result undefined; the model reads NULL there, a
   * case no well-formed statement reaches from the layer's calls.
   */
  function ColumnText(row: seq<Option<string>>, i: int): Option<string>
  {
    if 0 <= i < |row| then row[i] else None
  }

  /**
   * The engine oracle. `open` is sqlite3_open (read-write, create), and
   * `openReadOnly` is sqlite3_open_v2 with SQLITE_OPEN_READONLY | SQLITE_OPEN_URI.
   * `prepare` says whether a text compiles on a connection; `run` gives what
   * the statement yields once the listed texts are bound to parameters 1, 2, ...
   */
  datatype Engine = Engine(
    open: string -> Opened,
    openReadOnly: string -> Opened,
    prepare: (Handle, string) -> Prepared,
    run: (Handle, string, seq<string>) -> Statement)

  /**
   * The open, close, prepare, bind and finalize calls an operation makes, in
   * order. Calls to sqlite3_step and the column accessors are not recorded;
   * their results come from the `Statement` the engine runs.
   */
  datatype Event =
    | OpenDb(path: string)                    // sqlite3_open
    | OpenProbe(path: string)                 // sqlite3_open_v2, read-only
    | CloseDb(handle: Handle)                 // sqlite3_close
    | PrepareOk(handle: Handle, sql: string)  // sqlite3_prepare_v2 that produced a statement
    | PrepareFailed(handle: Handle, sql: string)
    | BindText(index: nat, text: string)      // sqlite3_bind_text
    | Finalize                                // sqlite3_finalize

  /** Number of statements a trace prepares. */
  function Prepares(calls: seq<Event>): nat
  {
    if calls == [] then 0
    else (if calls[0].PrepareOk? then 1 else 0) + Prepares(calls[1..])
  }

  /** Number of statements a trace finalizes. */
  function Finalizes(calls: seq<Event>): nat
  {
    if calls == [] then 0
    else (if calls[0].Finalize? then 1 else 0) + Finalizes(calls[1..])
  }

  /** Counting prepares and finalizes distributes over the concatenation of traces. */
  lemma {:induction false} CountsAppend(a: seq<Event>, b: seq<Event>)
    ensures Prepares(a + b) == Prepares(a) + Prepares(b)
    ensures Finalizes(a + b) == Finalizes(a) + Finalizes(b)
  {
    if a == [] {
      assert a + b == b;
    } else {
      assert (a + b)[1..] == a[1..] + b;
      CountsAppend(a[1..], b);
    }
  }

  /** The counts after one more call. */
  lemma CountsPush(a: seq<Event>, x: Event)
    ensures Prepares(a + [x]) == Prepares(a) + (if x.PrepareOk? then 1 else 0)
    ensures Finalizes(a + [x]) == Finalizes(a) + (if x.Finalize? then 1 else 0)
  {
    CountsAppend(a, [x]);
  }

  /** Every statement prepared by the trace is finalized before it ends. */
  predicate StatementsReleased(calls: seq<Event>)
  {
    Prepares(calls) == Finalizes(calls)
  }
}

/** Allocation outcomes (malloc, calloc, strdup) as an oracle over the call sites of the layer. */
module Alloc {

  datatype Site =
    | SelectCopy              // strdup of the short SELECT text
    | SelectHeap              // malloc of the long SELECT text
    | TableNameCopy           // strdup of the table name
    | ColumnArray             // calloc of the column-name array
    | ColumnNameCopy(i: nat)  // strdup of the i-th column name
    | UpdateHeap              // malloc of the long UPDATE text

  /** The sites at which allocation fails in one call. */
  datatype Memory = Memory(exhausted: set<Site>) {
    predicate Grants(site: Site) {
      site !in exhausted
    }
  }
}
