# COMA database access, modelled in Dafny

This project models the database-access class `COMADB` of the COMA PDS export
tool (`comadb.py`) and the record assembly in its `main`. The class opens a
PostgreSQL connection and runs SQL through a cursor. When a statement answers
with return code 2006, it reconnects and replays the statement once. It reads
the column names and the rows of the result, and removes every carriage
return from string cells. `main` fetches one object by its PDS4 LID and zips
the column names with the first row into a dictionary, which keeps its keys
in insertion order.

Files:

- `wrappers.dfy`: module `Wrappers`, the `Option` type (Python's `None`).
- `cells.dfy`: module `Cells`. A cell is `Str(s)` or `Other(v)`. It holds
  `StripCR` (`str.replace('\r', "")`) and the cleaning of a fetched result set.
- `queries.dfy`: module `Queries`. These are the SQL texts of `GetObject`,
  `GetObjectID`, `GetInstrumentID` and `ListObjects`. The identifier is spliced
  in verbatim, without escaping. A small reader of SQL single-quoted literals
  (`ReadLiteral`, with `Escape` as its inverse) states what that splice means.
- `comadb.dfy`: module `ComaDatabase`. It holds the class `ComaDb` with the
  fields of a `COMADB` object and of its cursor, and a `Session` value that
  snapshots them. Pure functions `AfterOpen`, `AfterRun`, `AfterHeaders`,
  `AfterResults`, `AfterQuery` and `AfterIdLookup` give each operation's new
  state and result. Every method is proved to produce exactly that. The module
  also holds the dictionary of `main` as a `Record`, its entries in insertion
  order, the loop that fills it (`AssembleRecord`, with `Zip` as its
  specification) and `main` itself (`MainObjectRecord`).

The driver is a parameter, not code. A `Driver` function answers each
`cursor.execute` call, given every call made before it. It either raises, or
returns a code and leaves a description and rows on the cursor. A boolean says
whether `psycopg2.connect` succeeds. Python exceptions become
`Err(AttributeError | TypeError | IndexError | DriverError(msg))`.

The model follows the code as written, including these behaviours:

- The replay after code 2006 runs on the cursor opened before the reconnect.
  That cursor belongs to the old connection, not the newly opened one
  (`RunReplaysOnOldConnection`).
- `GetObjectID` and `GetInstrumentID` run their query and then index the list
  of rows with a string. That always raises `TypeError`, so they never return
  an id (`IdLookupNeverSucceeds`).
- `main` indexes the first row only inside `for i in range(len(keys))`. With
  no column names it builds an empty dictionary even when there are no rows.
- psycopg2's `execute` returns `None`, so the return code is an
  `Option<int>`. Only `Some(2006)` triggers the replay.

## Model

| member | source | states |
|---|---|---|
| `Cells.StripCR` | comadb.py:80 | the cleaned string holds no `'\r'` and is no longer than the input |
| `Cells.StripCRAppend` | comadb.py:80 | removal works piece by piece: `StripCR(a + b) == StripCR(a) + StripCR(b)`, so the kept characters stay in order |
| `Cells.StripCRFixesClean` | comadb.py:80 | a string without `'\r'` is returned unchanged |
| `Cells.StripCRIdempotent` | comadb.py:80 | cleaning a cleaned string changes nothing |
| `Cells.StripCRCounts` | comadb.py:80 | every character other than `'\r'` keeps its number of occurrences; the length drops by exactly the number of `'\r'` |
| `Cells.CleanCell` | comadb.py:79-82 | a string cell stays a string cell with no `'\r'`; any other cell is returned unchanged |
| `Cells.CleanRows` | comadb.py:72-85 | as many rows as fetched, each as long as its input row; no string cell holds `'\r'`; non-string cells are unchanged at the same position; a string cell becomes its input with the `'\r'` removed |
| `Cells.CleanRowsFixesClean` | comadb.py:76-83 | rows with no `'\r'` in any string cell come back unchanged |
| `Cells.CleanRowsIdempotent` | comadb.py:76-83 | cleaning an already cleaned result set changes nothing |
| `Queries.ObjectQuery` | comadb.py:121-124 | the text is `SELECT * from objects WHERE pds4_lid = '<lid>';` with the LID verbatim |
| `Queries.ObjectIdQuery` | comadb.py:130-133 | the text is `SELECT objectid from objects WHERE pds4_lid = '<lid>';` |
| `Queries.InstrumentIdQuery` | comadb.py:140-144 | the text is `SELECT instrumentid from instruments WHERE acronym = '<lid>';` |
| `Queries.ListObjectsQuery` | comadb.py:190-195 | the text is `SELECT objectid, defaultobjectname, sbn_targetname, pds4_lid, objecttype_jpl, objecttype_coma from objects ORDER BY defaultobjectname;` |
| `Queries.SelectWhereLiteral` | comadb.py:124 | the identifier follows the opening quote verbatim, then `';`; the literal SQL reads back equals the identifier exactly when the identifier has no quote (no escaping) |
| `ComaDatabase.Names` | comadb.py:67 | the headers are the first component of each description entry, same count, same order |
| `ComaDatabase.RunRetryRule` | comadb.py:52-63 | without a connection nothing runs (`AttributeError`); otherwise one execution, and a second identical one (same cursor, SQL, data) exactly when the first returns 2006; never a third; the result is that of the last execution |
| `ComaDatabase.RunReplaysOnOldConnection` | comadb.py:53-62 | after 2006 and a successful reconnect, the replay goes to the cursor of the old connection, which differs from the new `self.conn` |
| `ComaDatabase.InitialValid` | comadb.py:13-25 | a new object has its connections and cursors numbered in opening order |
| `ComaDatabase.StepsKeepValid` | comadb.py:31-85 | `OpenDB`, `CloseDB`, `GetResultHeaders` and `GetResults` keep that numbering |
| `ComaDatabase.RunKeepsValid` | comadb.py:52-63 | `Run` keeps connections and cursors numbered in opening order |
| `ComaDatabase.QueryKeepsValid` | comadb.py:121-148 | the query methods keep that numbering too |
| `ComaDatabase.QueryReturnsCleanRows` | comadb.py:125-128 | a successful `GetObject`/`ListObjects` returns the description's names as keys and the cleaned cursor rows as values, carriage-free, and stores both in the object |
| `ComaDatabase.QueryRowsMatchKeys` | comadb.py:121-128 | when the driver leaves rows as long as the description, every returned row has one cell per key; the code itself does not check row lengths, and a short first row surfaces in `main` as `IndexError` |
| `ComaDatabase.IdLookupNeverSucceeds` | comadb.py:134-137 | `GetObjectID`/`GetInstrumentID` always end in an error |
| `ComaDatabase.PutKeys` | comadb.py:246 | assigning to a key already present keeps the key order; a new key is appended at the end |
| `ComaDatabase.PutLookup` | comadb.py:246 | after `d[k] = v`, `d[k]` is `v` and every other key keeps its value |
| `ComaDatabase.LookupKeys` | comadb.py:246 | a key has a value exactly when it is among the record's keys |
| `ComaDatabase.FirstOccurrencesMeaning` | comadb.py:244-246 | the first-occurrence list of the headers holds every header, each exactly once |
| `ComaDatabase.FirstOccurrencesPrefix` | comadb.py:244-246 | the keys inserted after any number of loop steps are a prefix of the final key order, so a key never moves once inserted |
| `ComaDatabase.ZipMeaning` | comadb.py:244-246 | the dictionary's keys are the headers, each once, in the order of their first occurrence; a key has a value exactly when it is a header; each header maps to the row value at its last position (a later duplicate overwrites an earlier one) |
| `ComaDatabase.AssembleRecord` | comadb.py:244-246 | the loop succeeds exactly when there are no keys or the first row is at least as long as the keys, and raises `IndexError` otherwise; on success the key order is the headers' first occurrences, exactly the headers have values, and `keys[i]` maps to `values[0][i]` at its last position `i` |
| `ComaDatabase.MainObjectRecord` | comadb.py:232-246 | `main` up to `dict2xml`: a fresh `COMADB` fetches `coma.c-2017-k2` and zips its headers with the first row |
| `ComaDatabase.MainWithoutPortFails` | comadb.py:23-25 | with no positive port the database is never opened, and `main` fails with `AttributeError` |
| `ComaDatabase.ComaDb.constructor` | comadb.py:13-25 | the object starts with nothing open, and `OpenDB` is called only when the port is positive |
| `ComaDatabase.ComaDb.OpenDB` | comadb.py:31-46 | a successful connect sets a new connection; a failed one leaves `conn` as it was |
| `ComaDatabase.ComaDb.CloseDB` | comadb.py:48-50 | `conn` becomes `None`, nothing else changes |
| `ComaDatabase.ComaDb.Execute` | comadb.py:57 | the execution is recorded in `executions`; a returning call leaves its description and rows on the cursor |
| `ComaDatabase.ComaDb.Run` | comadb.py:52-63 | new state and result are exactly `AfterRun`, the retry rule above |
| `ComaDatabase.ComaDb.GetResultHeaders` | comadb.py:65-68 | `AttributeError` without a cursor, `TypeError` on a `None` description, otherwise `column_headers` and the result are `Names(description)` |
| `ComaDatabase.ComaDb.GetResults` | comadb.py:70-85 | the nested loops set `column_values` and the result to `CleanRows` of the pending rows and empty the cursor |
| `ComaDatabase.ComaDb.GetObject` | comadb.py:121-128 | runs `ObjectQuery(lid)` and returns keys and values as `AfterQuery` says |
| `ComaDatabase.ComaDb.GetObjectID` | comadb.py:130-137 | runs `ObjectIdQuery(lid)`, then fails as `AfterIdLookup` says |
| `ComaDatabase.ComaDb.GetInstrumentID` | comadb.py:140-148 | runs `InstrumentIdQuery(lid)`, then fails as `AfterIdLookup` says |
| `ComaDatabase.ComaDb.ListObjects` | comadb.py:190-199 | runs `ListObjectsQuery()` and returns keys and values as `AfterQuery` says |

## Left out

- The psycopg2 driver (`connect`, `cursor`, `execute`, `description`,
  `fetchall`) is foreign code. It is a `Driver` parameter and a `connects`
  flag. Errors raised by `fetchall` itself, such as a statement with no
  result, are not modelled: fetching returns the rows left on the cursor.
- The environment variables and the `config` dictionary are OS input. Only
  the port is kept, as a constructor parameter. The failure of
  `int(COMA_DB_PORT)` on a non-number is not modelled.
- Logging, the `print` calls and the `debug` flag are I/O only.
- The `finally` block of `OpenDB` tests a local `conn` that is never bound.
  It is dead code and is not modelled.
- `__del__` depends on garbage-collection timing and is not modelled.
- The serialisation by `dict2xml` and the printing in `main` call a library
  whose code is not part of this model.
- Cell values other than strings (numbers, dates, floats, binary) are not
  interpreted. `Other(v)` carries them unchanged, and floats and dates are
  opaque tokens.
- `column_headers` and `column_values` do not exist on a new Python object.
  The model starts them as empty sequences. Nothing reads them before they
  are set.
- The commented-out lookups and inserts, and the schema comment, are not
  live code.
- No escaping is added to the query text. The model keeps the verbatim
  splice and states its consequence.
- When `main` raises `IndexError`, Python has already filled part of the
  dictionary. The model returns only the error, because the exception
  discards that dictionary.
