/**
 * The `COMADB` database-access class of comadb.py and the record assembly of
 * its `main`. The PostgreSQL driver underneath is not modelled: a `Driver`
 * function stands for what `cursor.execute` answers, and a boolean stands for
 * whether `psycopg2.connect` succeeds.
 */
module ComaDatabase {
  import opened Wrappers
  import opened Cells
  import opened Queries

  /** The return code on which `Run` reconnects and replays the statement. */
  const ReconnectCode := 2006

  /** The LID that `main` looks up. */
  const MainBundleLid := "coma.c-2017-k2"

  /** The Python exceptions the modelled code lets escape. */
  datatype Error =
    | AttributeError          // `self.conn` or `self.cursor` is not there
    | TypeError               // iterating a `None` description, or a list indexed by a string
    | IndexError              // `main` indexes past the fetched rows
    | DriverError(message: string)  // `cursor.execute` raised

  datatype Result<T> = Ok(value: T) | Err(error: Error)

  /** The n-th connection this object has opened. */
  datatype Connection = Connection(generation: nat)

  /** A cursor, tied for good to the connection it was opened on. */
  datatype Cursor = Cursor(conn: Connection, serial: nat)

  /** One entry of `cursor.description`; `x[0]` is the column name. */
  datatype Column = Column(name: string, typeCode: int)

  /** One call of `cursor.execute(dmlSQL, dmlData)`. */
  datatype Execution = Execution(cursor: Cursor, sql: string, data: Option<seq<Cell>>)

  /** What the driver does with one execution: it raises, or it returns a
      code (psycopg2 returns `None`) and leaves a description and rows on the
      cursor. */
  datatype Response =
    | Raised(message: string)
    | Returned(code: Option<int>, description: Option<seq<Column>>, rows: seq<Row>)

  /** The driver's answer to an execution, given every execution before it. */
  type Driver = (seq<Execution>, Execution) -> Response

  /** The `{'keys': ..., 'values': ...}` dictionary of `GetObject` and `ListObjects`. */
  datatype ObjectData = ObjectData(keys: seq<string>, values: seq<Row>)

  /** The state of a `COMADB` object together with the cursor it holds:
      `description` and `pending` are the current cursor's description and
      its rows not yet fetched; `executions` is every statement sent to the
      driver, in order. */
  datatype Session = Session(
    conn: Option<Connection>,
    generation: nat,
    cursor: Option<Cursor>,
    cursorsOpened: nat,
    description: Option<seq<Column>>,
    pending: seq<Row>,
    executions: seq<Execution>,
    columnHeaders: seq<string>,
    columnValues: seq<Row>)
  {
    /** Connections and cursors are numbered in the order they were opened. */
    predicate Valid()
    {
      (conn.Some? ==> conn.value.generation < generation) &&
      (cursor.Some? ==> cursor.value.conn.generation < generation && cursor.value.serial < cursorsOpened)
    }
  }

  /** A `COMADB` that has not opened anything yet. */
  function Fresh(): Session
  {
    Session(None, 0, None, 0, None, [], [], [], [])
  }

  /** `OpenDB`: a successful connect replaces `self.conn`; a failed one is
      caught and printed, and `self.conn` stays as it was. */
  function AfterOpen(s: Session, connects: bool): Session
  {
    if connects then s.(conn := Some(Connection(s.generation)), generation := s.generation + 1)
    else s
  }

  /** `CloseDB`: `self.conn = None`. */
  function AfterClose(s: Session): Session
  {
    s.(conn := None)
  }

  /** `__init__`: the connection is opened only when the configured port is
      positive. */
  function Initial(port: int, connects: bool): Session
  {
    if port > 0 then AfterOpen(Fresh(), connects) else Fresh()
  }

  /** One call of `cursor.execute`: it is recorded in `executions`,
      and a call that returns leaves its description and rows on the cursor. */
  function Executed(s: Session, e: Execution, resp: Response): Session
  {
    if resp.Returned? then s.(executions := s.executions + [e], description := resp.description, pending := resp.rows)
    else s.(executions := s.executions + [e])
  }

  /** What `Run` returns for the response of its last execution. */
  function Outcome(resp: Response): Result<Option<int>>
  {
    if resp.Raised? then Err(DriverError(resp.message)) else Ok(resp.code)
  }

  predicate IsDisconnect(resp: Response)
  {
    resp.Returned? && resp.code == Some(ReconnectCode)
  }

  /** `Run(dmlSQL, dmlData)`: open a cursor on the current connection and
      execute once; on the reconnect code, close and reopen the connection
      and execute the same statement again on the cursor opened before. */
  function AfterRun(s: Session, sql: string, data: Option<seq<Cell>>, driver: Driver, reconnects: bool)
    : (Session, Result<Option<int>>)
  {
    if s.conn.None? then (s, Err(AttributeError))
    else
      var c := Cursor(s.conn.value, s.cursorsOpened);
      var e := Execution(c, sql, data);
      var started := s.(cursor := Some(c), cursorsOpened := s.cursorsOpened + 1, description := None, pending := []);
      var first := driver(started.executions, e);
      var once := Executed(started, e, first);
      if !IsDisconnect(first) then (once, Outcome(first))
      else
        var reopened := AfterOpen(AfterClose(once), reconnects);
        var second := driver(reopened.executions, e);
        (Executed(reopened, e, second), Outcome(second))
  }

  /** The names of a description, in order: `[x[0] for x in description]`. */
  function Names(description: seq<Column>): (r: seq<string>)
    ensures |r| == |description|
    ensures forall i :: 0 <= i < |description| ==> r[i] == description[i].name
  {
    if description == [] then [] else [description[0].name] + Names(description[1..])
  }

  /** `GetResultHeaders`. */
  function AfterHeaders(s: Session): (Session, Result<seq<string>>)
  {
    if s.cursor.None? then (s, Err(AttributeError))
    else if s.description.None? then (s, Err(TypeError))
    else
      var headers := Names(s.description.value);
      (s.(columnHeaders := headers), Ok(headers))
  }

  /** `GetResults`: fetch every pending row and clean it. */
  function AfterResults(s: Session): (Session, Result<seq<Row>>)
  {
    if s.cursor.None? then (s, Err(AttributeError))
    else
      var rows := CleanRows(s.pending);
      (s.(pending := [], columnValues := rows), Ok(rows))
  }

  /** `Run`, `GetResultHeaders`, `GetResults` in a row, the return code of
      `Run` ignored: the body of `GetObject` and of `ListObjects`. */
  function AfterQuery(s: Session, sql: string, driver: Driver, reconnects: bool): (Session, Result<ObjectData>)
  {
    var ran := AfterRun(s, sql, None, driver, reconnects);
    if ran.1.Err? then (ran.0, Err(ran.1.error))
    else
      var headed := AfterHeaders(ran.0);
      if headed.1.Err? then (headed.0, Err(headed.1.error))
      else
        var fetched := AfterResults(headed.0);
        if fetched.1.Err? then (fetched.0, Err(fetched.1.error))
        else (fetched.0, Ok(ObjectData(headed.1.value, fetched.1.value)))
  }

  /** `GetObjectID` and `GetInstrumentID`: the same three steps, then
      `int(row[idStr])` indexes the list of rows with a string, which raises. */
  function AfterIdLookup(s: Session, sql: string, driver: Driver, reconnects: bool): (Session, Result<int>)
  {
    var queried := AfterQuery(s, sql, driver, reconnects);
    (queried.0, if queried.1.Err? then Err(queried.1.error) else Err(TypeError))
  }

  /** `Run` keeps the numbering of connections and cursors. */
  lemma RunKeepsValid(s: Session, sql: string, data: Option<seq<Cell>>, driver: Driver, reconnects: bool)
    requires s.Valid()
    ensures AfterRun(s, sql, data, driver, reconnects).0.Valid()
  {
  }

  /** So does every query method built on it. */
  lemma QueryKeepsValid(s: Session, sql: string, driver: Driver, reconnects: bool)
    requires s.Valid()
    ensures AfterQuery(s, sql, driver, reconnects).0.Valid()
    ensures AfterIdLookup(s, sql, driver, reconnects).0.Valid()
  {
    RunKeepsValid(s, sql, None, driver, reconnects);
  }

  /** A new object starts with its numbering in order. */
  lemma InitialValid(port: int, connects: bool)
    ensures Initial(port, connects).Valid()
  {
  }

  /** Opening, closing, reading the headers and fetching the rows keep the
      numbering of connections and cursors. */
  lemma StepsKeepValid(s: Session, connects: bool)
    requires s.Valid()
    ensures AfterOpen(s, connects).Valid()
    ensures AfterClose(s).Valid()
    ensures AfterHeaders(s).0.Valid()
    ensures AfterResults(s).0.Valid()
  {
  }

  /** When the driver leaves rows as long as the description, every row
      `GetObject` and `ListObjects` hand back has one cell per key; the code
      does not check this itself. */
  lemma QueryRowsMatchKeys(s: Session, sql: string, driver: Driver, reconnects: bool)
    ensures var q := AfterQuery(s, sql, driver, reconnects);
      var ran := AfterRun(s, sql, None, driver, reconnects).0;
      q.1.Ok? && ran.description.Some? &&
      (forall j :: 0 <= j < |ran.pending| ==> |ran.pending[j]| == |ran.description.value|) ==>
        forall j :: 0 <= j < |q.1.value.values| ==> |q.1.value.values[j]| == |q.1.value.keys|
  {
    QueryReturnsCleanRows(s, sql, driver, reconnects);
  }

  /** The reconnect rule: without a connection nothing is executed; otherwise
      the statement is executed once, and a second time, identically, exactly
      when the first answer is the reconnect code; there is never a third
      execution, and the result is that of the last one. */
  lemma RunRetryRule(s: Session, sql: string, data: Option<seq<Cell>>, driver: Driver, reconnects: bool)
    ensures s.conn.None? ==> AfterRun(s, sql, data, driver, reconnects) == (s, Err(AttributeError))
    ensures s.conn.Some? ==>
      var e := Execution(Cursor(s.conn.value, s.cursorsOpened), sql, data);
      var first := driver(s.executions, e);
      var after := AfterRun(s, sql, data, driver, reconnects);
      after.0.executions == s.executions + (if IsDisconnect(first) then [e, e] else [e]) &&
      after.1 == (if IsDisconnect(first) then Outcome(driver(s.executions + [e], e)) else Outcome(first))
  {
  }

  /** The replay goes to the cursor opened before the reconnect, so it is
      sent on the old connection, not on the one `OpenDB` has just opened. */
  lemma RunReplaysOnOldConnection(s: Session, sql: string, data: Option<seq<Cell>>, driver: Driver)
    requires s.Valid() && s.conn.Some?
    requires IsDisconnect(driver(s.executions, Execution(Cursor(s.conn.value, s.cursorsOpened), sql, data)))
    ensures var after := AfterRun(s, sql, data, driver, true).0;
      |after.executions| == |s.executions| + 2 &&
      after.conn == Some(Connection(s.generation)) &&
      after.executions[|s.executions| + 1].cursor.conn == s.conn.value != after.conn.value
  {
  }

  /** What `GetObject` and `ListObjects` hand back are the cleaned rows the
      driver left on the cursor, under the column names of its description. */
  lemma QueryReturnsCleanRows(s: Session, sql: string, driver: Driver, reconnects: bool)
    ensures var q := AfterQuery(s, sql, driver, reconnects);
      q.1.Ok? ==>
        var ran := AfterRun(s, sql, None, driver, reconnects).0;
        ran.description.Some? &&
        q.1.value.keys == Names(ran.description.value) &&
        q.1.value.values == CleanRows(ran.pending) &&
        CarriageFree(q.1.value.values) &&
        q.0.columnHeaders == q.1.value.keys && q.0.columnValues == q.1.value.values
  {
  }

  /** `GetObjectID` and `GetInstrumentID` never return a value. */
  lemma IdLookupNeverSucceeds(s: Session, sql: string, driver: Driver, reconnects: bool)
    ensures AfterIdLookup(s, sql, driver, reconnects).1.Err?
  {
  }

  /** Key `keys[i]` is not repeated after position `i`. */
  predicate LastAt(keys: seq<string>, i: int)
  {
    0 <= i < |keys| && forall j :: i < j < |keys| ==> keys[j] != keys[i]
  }

  /** A Python dictionary from column names to cells: its entries in
      insertion order. */
  type Record = seq<(string, Cell)>

  /** The keys of a record, in insertion order. */
  function KeysOf(d: Record): seq<string>
  {
    if d == [] then [] else [d[0].0] + KeysOf(d[1..])
  }

  /** `d[k]`, or `None` when `k` is not a key. */
  function Lookup(d: Record, k: string): Option<Cell>
  {
    if d == [] then None
    else if d[0].0 == k then Some(d[0].1)
    else Lookup(d[1..], k)
  }

  /** `d[k] = v`: an existing key keeps its position and takes the new
      value; a new key goes at the end. */
  function Put(d: Record, k: string, v: Cell): Record
  {
    if d == [] then [(k, v)]
    else if d[0].0 == k then [(k, v)] + d[1..]
    else [d[0]] + Put(d[1..], k, v)
  }

  lemma {:induction false} PutKeys(d: Record, k: string, v: Cell)
    ensures KeysOf(Put(d, k, v)) == if k in KeysOf(d) then KeysOf(d) else KeysOf(d) + [k]
  {
    if d != [] && d[0].0 != k {
      PutKeys(d[1..], k, v);
      assert KeysOf(d) == [d[0].0] + KeysOf(d[1..]);
      assert k in KeysOf(d) <==> k in KeysOf(d[1..]);
    }
  }

  lemma {:induction false} PutLookup(d: Record, k: string, v: Cell, k': string)
    ensures Lookup(Put(d, k, v), k') == if k' == k then Some(v) else Lookup(d, k')
  {
    if d != [] && d[0].0 != k {
      PutLookup(d[1..], k, v, k');
    }
  }

  lemma {:induction false} LookupKeys(d: Record, k: string)
    ensures Lookup(d, k).Some? <==> k in KeysOf(d)
  {
    if d != [] {
      LookupKeys(d[1..], k);
    }
  }

  /** The distinct elements of `keys`, in the order of their first
      occurrence. */
  function FirstOccurrences(keys: seq<string>): seq<string>
  {
    if keys == [] then []
    else
      var init := keys[..|keys| - 1];
      if keys[|keys| - 1] in init then FirstOccurrences(init)
      else FirstOccurrences(init) + [keys[|keys| - 1]]
  }

  /** Each key listed once, and no other. */
  lemma {:induction false} FirstOccurrencesMeaning(keys: seq<string>)
    ensures forall k :: k in FirstOccurrences(keys) <==> k in keys
    ensures forall i, j :: 0 <= i < j < |FirstOccurrences(keys)| ==> FirstOccurrences(keys)[i] != FirstOccurrences(keys)[j]
  {
    if keys != [] {
      var n := |keys| - 1;
      var init := keys[..n];
      FirstOccurrencesMeaning(init);
      assert keys == init + [keys[n]];
    }
  }

  /** A key, once listed, keeps its place: the keys of a prefix come first. */
  lemma {:induction false} FirstOccurrencesPrefix(keys: seq<string>, i: nat)
    requires i <= |keys|
    ensures FirstOccurrences(keys[..i]) <= FirstOccurrences(keys)
  {
    if i < |keys| {
      var init := keys[..|keys| - 1];
      assert init[..i] == keys[..i];
      FirstOccurrencesPrefix(init, i);
    } else {
      assert keys[..i] == keys;
    }
  }

  /** The dictionary `main` builds from the headers and one row, filled in
      header order so that a later entry overwrites an earlier one. */
  function Zip(keys: seq<string>, row: Row): Record
    requires |keys| <= |row|
  {
    if keys == [] then []
    else Put(Zip(keys[..|keys| - 1], row), keys[|keys| - 1], row[|keys| - 1])
  }

  /** The keys of that dictionary are the headers, each once, in the order
      of their first occurrence; a header that repeats takes the value at
      its last position. */
  lemma {:induction false} ZipMeaning(keys: seq<string>, row: Row)
    requires |keys| <= |row|
    ensures KeysOf(Zip(keys, row)) == FirstOccurrences(keys)
    ensures forall k :: Lookup(Zip(keys, row), k).Some? <==> k in keys
    ensures forall i :: LastAt(keys, i) ==> Lookup(Zip(keys, row), keys[i]) == Some(row[i])
  {
    if keys != [] {
      var n := |keys| - 1;
      var init := keys[..n];
      ZipMeaning(init, row);
      FirstOccurrencesMeaning(init);
      var m := Zip(init, row);
      assert Zip(keys, row) == Put(m, keys[n], row[n]);
      assert keys == init + [keys[n]];
      PutKeys(m, keys[n], row[n]);
      forall k
        ensures Lookup(Zip(keys, row), k).Some? <==> k in keys
      {
        PutLookup(m, keys[n], row[n], k);
      }
      forall i | LastAt(keys, i)
        ensures Lookup(Zip(keys, row), keys[i]) == Some(row[i])
      {
        PutLookup(m, keys[n], row[n], keys[i]);
        if i < n {
          assert init[i] == keys[i];
          assert LastAt(init, i);
        }
      }
    }
  }

  /** The loop of `main` over `range(len(keys))`: with no keys nothing is
      indexed; otherwise it needs a first row at least as long as the keys,
      and raises `IndexError` when there is none. */
  function Assemble(keys: seq<string>, values: seq<Row>): Result<Record>
  {
    if |keys| == 0 then Ok([])
    else if |values| == 0 || |values[0]| < |keys| then Err(IndexError)
    else Ok(Zip(keys, values[0]))
  }

  /** `obj_dict[keys[i]] = values[0][i]` for each `i`, in order. */
  method AssembleRecord(keys: seq<string>, values: seq<Row>) returns (r: Result<Record>)
    ensures r == Assemble(keys, values)
    ensures r.Ok? <==> |keys| == 0 || (|values| > 0 && |keys| <= |values[0]|)
    ensures r.Err? ==> r.error == IndexError
    ensures r.Ok? ==> KeysOf(r.value) == FirstOccurrences(keys)
    ensures r.Ok? ==> forall k :: Lookup(r.value, k).Some? <==> k in keys
    ensures r.Ok? ==> forall i :: LastAt(keys, i) ==> Lookup(r.value, keys[i]) == Some(values[0][i])
  {
    var record: Record := [];
    var i := 0;
    while i < |keys|
      invariant 0 <= i <= |keys|
      invariant i > 0 ==> |values| > 0 && i <= |values[0]| && record == Zip(keys[..i], values[0])
      invariant i == 0 ==> record == []
    {
      if |values| == 0 || i >= |values[0]| {
        return Err(IndexError);
      }
      assert keys[..i + 1][..i] == keys[..i];
      record := Put(record, keys[i], values[0][i]);
      i := i + 1;
    }
    assert i > 0 ==> keys[..i] == keys;
    if i > 0 {
      ZipMeaning(keys, values[0]);
    }
    return Ok(record);
  }

  /** A `COMADB` object: the connection and cursor it holds, and the headers
      and values of the last result set it read. */
  class ComaDb {
    const port: int
    var conn: Option<Connection>
    var generation: nat
    var cursor: Option<Cursor>
    var cursorsOpened: nat
    var description: Option<seq<Column>>
    var pending: seq<Row>
    var executions: seq<Execution>
    var columnHeaders: seq<string>
    var columnValues: seq<Row>

    function State(): Session
      reads this
    {
      Session(conn, generation, cursor, cursorsOpened, description, pending, executions, columnHeaders, columnValues)
    }

    /** `__init__`, with the port read from the environment given as
        `port`, and whether the connect succeeds as `connects`. */
    constructor (port: int, connects: bool)
      ensures this.port == port
      ensures State() == Initial(port, connects)
    {
      this.port := port;
      conn, generation, cursor, cursorsOpened := None, 0, None, 0;
      description, pending, executions := None, [], [];
      columnHeaders, columnValues := [], [];
      new;
      if port > 0 {
        OpenDB(connects);
      }
    }

    method OpenDB(connects: bool)
      modifies this
      ensures State() == AfterOpen(old(State()), connects)
    {
      if connects {
        conn := Some(Connection(generation));
        generation := generation + 1;
      }
    }

    method CloseDB()
      modifies this
      ensures State() == AfterClose(old(State()))
    {
      conn := None;
    }

    /** `self.cursor.execute(dmlSQL, dmlData)`, answered by the driver. */
    method Execute(e: Execution, driver: Driver) returns (resp: Response)
      modifies this
      ensures resp == driver(old(executions), e)
      ensures State() == Executed(old(State()), e, resp)
    {
      resp := driver(executions, e);
      executions := executions + [e];
      if resp.Returned? {
        description, pending := resp.description, resp.rows;
      }
    }

    method Run(dmlSQL: string, dmlData: Option<seq<Cell>>, driver: Driver, reconnects: bool)
      returns (r: Result<Option<int>>)
      modifies this
      ensures (State(), r) == AfterRun(old(State()), dmlSQL, dmlData, driver, reconnects)
    {
      if conn.None? {
        return Err(AttributeError);
      }
      cursor := Some(Cursor(conn.value, cursorsOpened));
      cursorsOpened := cursorsOpened + 1;
      description, pending := None, [];
      var statement := Execution(cursor.value, dmlSQL, dmlData);
      var resp := Execute(statement, driver);
      if resp.Raised? {
        return Err(DriverError(resp.message));
      }
      var ret := resp.code;
      if ret == Some(ReconnectCode) {
        CloseDB();
        OpenDB(reconnects);
        resp := Execute(Execution(cursor.value, dmlSQL, dmlData), driver);
        if resp.Raised? {
          return Err(DriverError(resp.message));
        }
        ret := resp.code;
      }
      return Ok(ret);
    }

    method GetResultHeaders() returns (r: Result<seq<string>>)
      modifies this
      ensures (State(), r) == AfterHeaders(old(State()))
    {
      if cursor.None? {
        return Err(AttributeError);
      }
      if description.None? {
        return Err(TypeError);
      }
      var entries := description.value;
      var headers := [];
      var i := 0;
      while i < |entries|
        invariant 0 <= i <= |entries|
        invariant headers == Names(entries[..i])
        invariant State() == old(State())
      {
        assert entries[..i + 1] == entries[..i] + [entries[i]];
        headers := headers + [entries[i].name];
        i := i + 1;
      }
      assert entries[..i] == entries;
      columnHeaders := headers;
      return Ok(headers);
    }

    method GetResults() returns (r: Result<seq<Row>>)
      modifies this
      ensures (State(), r) == AfterResults(old(State()))
    {
      if cursor.None? {
        return Err(AttributeError);
      }
      var rv := pending;
      pending := [];
      columnValues := [];
      var i := 0;
      while i < |rv|
        invariant 0 <= i <= |rv|
        invariant State() == old(State()).(pending := [], columnValues := CleanRows(rv[..i]))
      {
        var results := rv[i];
        var row := [];
        var j := 0;
        while j < |results|
          invariant 0 <= j <= |results|
          invariant row == CleanRow(results[..j])
        {
          var cell := results[j];
          if cell.Str? {
            row := row + [Str(StripCR(cell.s))];
          } else {
            row := row + [cell];
          }
          j := j + 1;
        }
        assert results[..j] == results;
        assert rv[..i + 1] == rv[..i] + [results];
        columnValues := columnValues + [row];
        i := i + 1;
      }
      assert rv[..i] == rv;
      return Ok(columnValues);
    }

    method GetObject(bundleLid: string, driver: Driver, reconnects: bool) returns (r: Result<ObjectData>)
      modifies this
      ensures (State(), r) == AfterQuery(old(State()), ObjectQuery(bundleLid), driver, reconnects)
    {
      r := Query(ObjectQuery(bundleLid), driver, reconnects);
    }

    method GetObjectID(bundleLid: string, driver: Driver, reconnects: bool) returns (r: Result<int>)
      modifies this
      ensures (State(), r) == AfterIdLookup(old(State()), ObjectIdQuery(bundleLid), driver, reconnects)
    {
      var data := Query(ObjectIdQuery(bundleLid), driver, reconnects);
      r := if data.Err? then Err(data.error) else Err(TypeError);
    }

    method GetInstrumentID(collectionLid: string, driver: Driver, reconnects: bool) returns (r: Result<int>)
      modifies this
      ensures (State(), r) == AfterIdLookup(old(State()), InstrumentIdQuery(collectionLid), driver, reconnects)
    {
      var data := Query(InstrumentIdQuery(collectionLid), driver, reconnects);
      r := if data.Err? then Err(data.error) else Err(TypeError);
    }

    method ListObjects(driver: Driver, reconnects: bool) returns (r: Result<ObjectData>)
      modifies this
      ensures (State(), r) == AfterQuery(old(State()), ListObjectsQuery(), driver, reconnects)
    {
      r := Query(ListObjectsQuery(), driver, reconnects);
    }

    /** The three calls the query methods share. */
    method Query(sql: string, driver: Driver, reconnects: bool) returns (r: Result<ObjectData>)
      modifies this
      ensures (State(), r) == AfterQuery(old(State()), sql, driver, reconnects)
    {
      var ret := Run(sql, None, driver, reconnects);
      if ret.Err? {
        return Err(ret.error);
      }
      var colKeys := GetResultHeaders();
      if colKeys.Err? {
        return Err(colKeys.error);
      }
      var colValues := GetResults();
      if colValues.Err? {
        return Err(colValues.error);
      }
      return Ok(ObjectData(colKeys.value, colValues.value));
    }
  }

  /** What `main` computes before serialising: the object `MainBundleLid`
      fetched through a fresh `COMADB`, as a dictionary. */
  function MainOutcome(port: int, connects: bool, driver: Driver, reconnects: bool): Result<Record>
  {
    var fetched := AfterQuery(Initial(port, connects), ObjectQuery(MainBundleLid), driver, reconnects).1;
    if fetched.Err? then Err(fetched.error) else Assemble(fetched.value.keys, fetched.value.values)
  }

  /** `main` up to `dict2xml`: build a `COMADB`, fetch the object, zip its
      headers with the first row. */
  method MainObjectRecord(port: int, connects: bool, driver: Driver, reconnects: bool)
    returns (r: Result<Record>)
    ensures r == MainOutcome(port, connects, driver, reconnects)
  {
    var db := new ComaDb(port, connects);
    var objData := db.GetObject(MainBundleLid, driver, reconnects);
    if objData.Err? {
      return Err(objData.error);
    }
    r := AssembleRecord(objData.value.keys, objData.value.values);
  }

  /** With no port configured the database is never opened, so `main` fails
      on the missing connection before anything is executed. */
  lemma MainWithoutPortFails(port: int, connects: bool, driver: Driver, reconnects: bool)
    requires port <= 0
    ensures MainOutcome(port, connects, driver, reconnects) == Err(AttributeError)
  {
  }
}
