# sqliteview database session layer, modelled in Dafny

sqliteview is a small GTK viewer and editor for SQLite files. Its database
layer (`src/db.c`, declared in `include/db.h`) works on the shared context
record `context_td`. This layer does five things:

- it probes a file with a read-only open;
- it opens and closes the one session connection;
- it fills the table list from `sqlite_master`;
- it loads up to `SQL_QUERY_MAX_LIMIT` rows of a table, with its column names, into the rows view;
- it writes one edited cell back with a parameterised `UPDATE`.

The model follows that code function by function:

- `sqlite.dfy`, module `Sqlite`: result codes, connection handles and NULL-able values. SQLite itself is an oracle (`Engine`): for each call it says whether open and prepare succeed, which columns and rows a statement yields and which code ends the stepping. Each `db_*` method that talks to the engine returns, in order, the open, close, prepare, bind and finalize calls it makes (`Event`), so the model can state which handle is closed, what is bound and that every statement is finalized; step and column reads are not recorded, and their results come from the `Statement` oracle. Module `Alloc` is a second oracle that says which `malloc`, `calloc` and `strdup` calls fail.
- `sql_text.dfy`, module `SqlText`: the two SQL texts, built the way `snprintf` builds them into a stack buffer or a heap block. Each text comes with a reader that proves what the text determines. Names are quoted but never escaped, and lemmas exhibit two different `(table, column)` pairs that give the same `UPDATE` text, and a column name holding a quote that turns the `UPDATE` into a two-column assignment with an unbound placeholder. Nothing in the model claims the texts are safe against injection.
- `result_sets.dfy`, module `ResultSets`: the text snapshot of a result and the table list. The loop that fills the rows store lives here.
- `db.dfy`, module `Db`: the context as a class, plus one method per `db_*` function. The methods for the functions that take a `context_td *` accept a possibly-NULL `Context?` and change only the fields named in their `modifies` clause; `IsSqlite` takes no context.

In these places the code does something one might not expect, and the model follows the code:

- After a failed `db_open`, the context holds whatever handle `sqlite3_open` left behind (`src/db.c:95`). It is not forced to NULL.
- `db_apply_update_cell` does not check the column index against the column count (`src/db.c:265`). Staying in range is a precondition of `ApplyUpdateCell`, and no `SQLITE_MISUSE` result is invented for it.
- `db_populate_rows` refuses only a NULL table name. An empty name reaches the engine.
- When a load fails after the old columns are released, the new table name stays recorded (`src/db.c:181`). Only the column names and the view are empty.
- `db_fill_table_list` returns `SQLITE_OK` even when the last step ended in an error rather than `SQLITE_DONE` (`src/db.c:131-141`).

## Model

| member | source | states |
|---|---|---|
| `SqlText.Snprintf` | src/db.c:33-40 | snprintf reports the full length of the formatted text and leaves a prefix of it, shorter than the buffer, that is the whole text whenever the text fits |
| `SqlText.DecimalText` | src/db.c:34-35 | `%d` yields at least one character, every one a decimal digit |
| `SqlText.LimitText` | include/db.h:19 | SQL_QUERY_MAX_LIMIT prints as `100` |
| `SqlText.SelectLimit` | include/db.h:86-88 | the fetch text is exactly `SELECT rowid, * FROM "` + table + `" LIMIT 100;`, so the LIMIT clause is the only row cap |
| `SqlText.MakeSelect` | src/db.c:30-53 | both the stack-buffer path and the heap path yield exactly the fetch text; NULL comes back only when the allocation of the path taken fails |
| `SqlText.SelectTable` | src/db.c:34 | any name it reads from a fetch text rebuilds that same text |
| `SqlText.SelectRoundTrip` | src/db.c:34 | every table name, embedded quotes included, appears verbatim between the quotes and the string-level reader returns it unchanged; SQL ends a quoted name at its first `"`, so this is no claim about what SQL reads |
| `SqlText.MakeUpdate` | src/db.c:270-290 | the 512-byte stack path and the heap path yield the identical UPDATE text; SQLITE_NOMEM only when the text does not fit and the heap allocation fails |
| `SqlText.UpdateTarget` | src/db.c:271-273 | a (table, column) pair it reads from an UPDATE text rebuilds that same text |
| `SqlText.UpdateRoundTrip` | src/db.c:271-273 | when the table name has no double quote, the UPDATE text determines its table and its column |
| `SqlText.UpdateNotInjective` | src/db.c:272 | names are not escaped: a table name holding `" SET "` followed by more text gives the same UPDATE text as a different (table, column) pair, and the text is then read as that other pair |
| `SqlText.UpdateColumnQuote` | src/db.c:272 | the UPDATE text for one column is the one-assignment UPDATE; a column name `x" = ?, "y` makes it an UPDATE assigning both `x` and `y`, with three placeholders of which only two are bound (src/db.c:301-302) |
| `SqlText.UpdateColumnQuoteRead` | src/db.c:272 | the splitting reader takes such a column name as one column, so what it recovers is not what SQL parses |
| `ResultSets.RowText` | src/db.c:239-243 | a stored row has exactly `ncol` cells; cell i is the engine's text, or "" for a NULL value (or for an index past the row, which a well-formed statement never has) |
| `ResultSets.Snapshot` | src/db.c:236-244 | the snapshot has one row per row stepped (no client-side truncation), each with exactly `ncol` cells, and NULL values stored as "" |
| `ResultSets.SnapshotOfStatement` | src/db.c:206-244 | for a well-formed statement read with its own column count, every stored cell is the engine's value, or "" exactly where the engine yields NULL |
| `ResultSets.TableNames` | src/db.c:131-137 | the table list holds the first column of every stepped row, in engine order, one entry per row |
| `ResultSets.ReadRows` | src/db.c:236-244 | the stepping loop stores exactly the snapshot of the engine's rows and stops at the code that ends them |
| `Db.Context.constructor` | src/main.c:25-27 | the zeroed context: no connection, no column names, no table name, zero columns, empty stores |
| `Db.IsSqlite` | src/db.c:57-81 | 1 exactly when the read-only open and the `PRAGMA schema_version` prepare both succeed; the probe handle, whenever the engine left one, is closed as the last call and nothing is closed before; every prepared statement is finalized; no context is involved |
| `Db.Open` | src/db.c:85-96 | SQLITE_MISUSE on a NULL context; otherwise an existing connection is closed exactly once before the new open, and the code and handle are the engine's; only `db` changes |
| `Db.Close` | src/db.c:100-110 | afterwards `db` is NULL; a connection is closed only if there was one; a NULL context is a no-op |
| `Db.FillTableList` | src/db.c:114-142 | SQLITE_MISUSE without a connection or store; a prepare failure returns the engine's code with the store unchanged; otherwise the store becomes the stepped names in engine order and the result is SQLITE_OK; only the store changes |
| `Db.FreeColumns` | src/db.c:146-166 | always ends with no column names, no table name and a zero count; frees each of the `current_ncols` names once, in order, and nothing when there is no name array |
| `Db.LoadStatement` | src/db.c:206-250 | the count becomes the engine's column count; without the name array the result is SQLITE_NOMEM, otherwise SQLITE_OK with each name the engine's or "" (NULL where its copy failed), the view columns titled alike, and the snapshot as the model |
| `Db.PopulateRows` | src/db.c:171-251 | SQLITE_MISUSE with nothing changed when `db`, `rows_view` or the table is missing; otherwise the old columns are released and the table name recorded before querying, a build or prepare failure leaves no column names and zero columns, and success is as in LoadStatement; the statement is always finalized |
| `Db.ApplyUpdateCell` | src/db.c:256-312 | SQLITE_MISUSE without `db`, table name or column names; SQLITE_OK with no engine call for column 0; SQLITE_MISUSE for a NULL name; otherwise it prepares `UPDATE "<t>" SET "<c>" = ? WHERE rowid = ?;`, binds the new text to 1 and the rowid text to 2, finalizes, and returns SQLITE_OK only when the step gives SQLITE_DONE (otherwise that code) |
| `Db.CloseTwice` | include/db.h:52-53 | closing twice closes nothing the second time and leaves `db` NULL |
| `Db.FreeColumnsTwice` | include/db.h:77-79 | freeing twice frees nothing the second time and leaves the cleared state |
| `Db.QueriesAfterClose` | include/db.h:63-116 | after db_close, listing, loading and updating all return SQLITE_MISUSE, make no engine call, and leave the table list, the view columns and model, the column names, their count and the table name as they were |

## Left out

- GTK: the window, the tables view, tree-view columns and cell renderers, and the UI and bootstrap in `src/ui.c` and `src/main.c`. The two stores are reduced to "present" plus their rows. The rows view is reduced to "present" plus its column titles and attached model. The rule that the UI writes the edited cell into its store only after a successful update belongs to the caller.
- SQLite semantics: what `sqlite_master` contains, the `NOT LIKE 'sqlite_%'` filter, `ORDER BY name`, enforcement of `LIMIT`, and the effect of the `UPDATE` on stored data. These are oracle outputs. That the table list is sorted and free of internal tables, and that a load has at most 100 rows, are assumptions about the engine, not proved facts.
- `PRAGMA`/prepare-failure statements: SQLite leaves no statement after a failed prepare, so the `if (stmt) sqlite3_finalize(stmt)` guards after a failed prepare never fire and are not modelled.
- `snprintf` returning a negative value (the NULL return of `s_make_select_rowid_all` at `src/db.c:37-39` and the SQLITE_ERROR return at `src/db.c:276-278`): formatting into memory does not fail here, so those paths are not modelled.
- Byte-level memory management: `free` is modelled as the field becoming NULL, plus the list of column names `FreeColumns` frees. Leaks and dangling pointers are not modelled. Allocation failure is an oracle per call site.
- NULL `rowid_text` or `new_text` pointers in `db_apply_update_cell`: the texts are plain strings.
- Text encoding: strings are sequences of characters, each standing for one byte, so buffer-fit tests compare character counts.
- The result of `sqlite3_close` is ignored, as in the source. A connection that refuses to close is not modelled.
- Engine call traces: calls to `sqlite3_step`, `sqlite3_column_count`, `sqlite3_column_name` and `sqlite3_column_text` are not recorded in the returned `Event` lists (for example the step at `src/db.c:304`); their results are read from the `Statement` oracle instead. `FreeColumns`, `LoadStatement` and `ReadRows` return no trace.
- SQL-injection safety: nothing about it is proved, because the code does not escape embedded quotes.
