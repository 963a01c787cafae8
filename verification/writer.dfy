/** The ClickHouse writer: projecting a processed event onto the writer's
    column list, and building the INSERT statement that a batch of rows is
    sent with. */
module Writer {
  import opened Wrappers

  /** The Python values an event dictionary can hold. `DateTime` is the
      opaque result of converting a timestamp. */
  datatype Value = Null | Int(i: int) | Str(s: string) | List(items: seq<Value>) | DateTime(id: int)

  type Row = seq<Value>

  /** The Python exceptions the writer raises: `event[key]` on a missing
      key, `random.choice` on an empty pool, and an attribute lookup on an
      object that lacks the attribute. */
  datatype PythonError = KeyError(key: string) | IndexError | AttributeError(attribute: string)

  /** A processed event: a dictionary that `RowFromProcessedEvent` updates in place. */
  class Event {
    var entries: map<string, Value>

    constructor (entries: map<string, Value>)
      ensures this.entries == entries
    {
      this.entries := entries;
    }
  }

  /** The value `event.get(column, None)` yields, or `None` when the key is absent. */
  function Lookup(entries: map<string, Value>, column: string): Value
  {
    if column in entries then entries[column] else Null
  }

  /** `values` is the row for `columns`: one entry per column, in order; the
      event's value when it is present and not `None`; otherwise `[]` for an
      array column (its name contains a dot) and `None` for any other. */
  ghost predicate IsProjection(entries: map<string, Value>, columns: seq<string>, values: Row)
  {
    && |values| == |columns|
    && (forall k :: 0 <= k < |columns| && Lookup(entries, columns[k]) != Null ==>
          values[k] == entries[columns[k]])
    && (forall k :: 0 <= k < |columns| && Lookup(entries, columns[k]) == Null && '.' in columns[k] ==>
          values[k] == List([]))
    && (forall k :: 0 <= k < |columns| && Lookup(entries, columns[k]) == Null && '.' !in columns[k] ==>
          values[k] == Null)
  }

  /** The loop of `row_from_processed_event` that builds the row, one column at a time. */
  method ProjectRow(entries: map<string, Value>, columns: seq<string>) returns (values: Row)
    ensures IsProjection(entries, columns, values)
  {
    values := [];
    var i := 0;
    while i < |columns|
      invariant 0 <= i <= |columns|
      invariant |values| == i
      invariant forall k :: 0 <= k < i && Lookup(entries, columns[k]) != Null ==>
                  values[k] == entries[columns[k]]
      invariant forall k :: 0 <= k < i && Lookup(entries, columns[k]) == Null && '.' in columns[k] ==>
                  values[k] == List([])
      invariant forall k :: 0 <= k < i && Lookup(entries, columns[k]) == Null && '.' !in columns[k] ==>
                  values[k] == Null
    {
      var column := columns[i];
      var value := Lookup(entries, column);
      // array columns default to an empty list
      if value == Null && '.' in column {
        value := List([]);
      }
      values := values + [value];
      i := i + 1;
    }
  }

  /** `row_from_processed_event`: converts the event's `timestamp` and
      `received` in place with `fromTimestamp`, then projects it onto
      `columns`. A missing `timestamp` fails before anything changes; a
      missing `received` fails after `timestamp` was already converted. */
  method RowFromProcessedEvent(event: Event, columns: seq<string>, fromTimestamp: Value -> Value)
    returns (r: Result<Row, PythonError>)
    modifies event
    ensures "timestamp" !in old(event.entries) ==>
              r == Failure(KeyError("timestamp")) && event.entries == old(event.entries)
    ensures "timestamp" in old(event.entries) && "received" !in old(event.entries) ==>
              && r == Failure(KeyError("received"))
              && event.entries == old(event.entries)["timestamp" := fromTimestamp(old(event.entries)["timestamp"])]
    ensures "timestamp" in old(event.entries) && "received" in old(event.entries) ==>
              && event.entries == old(event.entries)
                   ["timestamp" := fromTimestamp(old(event.entries)["timestamp"])]
                   ["received" := fromTimestamp(old(event.entries)["received"])]
              && r.Success?
              && IsProjection(event.entries, columns, r.value)
    ensures r.Success? ==> forall k :: 0 <= k < |columns| && columns[k] == "timestamp" ==>
              r.value[k] == fromTimestamp(old(event.entries)["timestamp"])
    ensures r.Success? ==> forall k :: 0 <= k < |columns| && columns[k] == "received" ==>
              r.value[k] == fromTimestamp(old(event.entries)["received"])
  {
    if "timestamp" !in event.entries {
      return Failure(KeyError("timestamp"));
    }
    event.entries := event.entries["timestamp" := fromTimestamp(event.entries["timestamp"])];
    if "received" !in event.entries {
      return Failure(KeyError("received"));
    }
    event.entries := event.entries["received" := fromTimestamp(event.entries["received"])];
    var values := ProjectRow(event.entries, columns);
    r := Success(values);
  }

  /** `", ".join(columns)`. */
  function JoinColumns(columns: seq<string>): string
  {
    if |columns| == 0 then ""
    else if |columns| == 1 then columns[0]
    else columns[0] + ", " + JoinColumns(columns[1..])
  }

  /** `s.split(", ")`: the pieces of `s` between non-overlapping occurrences
      of ", ", found from the left; there is always at least one piece. */
  function SplitColumns(s: string): (pieces: seq<string>)
    ensures |pieces| >= 1
    decreases |s|
  {
    if |s| == 0 then [""]
    else if |s| >= 2 && s[0] == ',' && s[1] == ' ' then [""] + SplitColumns(s[2..])
    else
      var rest := SplitColumns(s[1..]);
      [[s[0]] + rest[0]] + rest[1..]
  }

  /** A piece that does not start a separator extends the first piece of the rest. */
  lemma SplitNonSeparator(s: string)
    requires |s| > 0 && s[0] != ','
    ensures SplitColumns(s) == [[s[0]] + SplitColumns(s[1..])[0]] + SplitColumns(s[1..])[1..]
  {
  }

  /** A comma-free prefix joins the first piece of whatever follows it. */
  lemma {:induction false} SplitCommaFreePrefix(c: string, t: string)
    requires ',' !in c
    ensures SplitColumns(c + t) == [c + SplitColumns(t)[0]] + SplitColumns(t)[1..]
    decreases |c|
  {
    var pieces := SplitColumns(t);
    if |c| == 0 {
      assert c + t == t;
      assert c + pieces[0] == pieces[0];
      assert pieces == [pieces[0]] + pieces[1..];
    } else {
      var tail := c[1..];
      assert ',' !in tail by {
        forall i | 0 <= i < |tail| ensures tail[i] != ',' { assert tail[i] == c[i + 1]; }
      }
      assert (c + t)[1..] == tail + t;
      SplitCommaFreePrefix(tail, t);
      SplitNonSeparator(c + t);
      assert [c[0]] + (tail + pieces[0]) == c + pieces[0];
    }
  }

  /** Splitting the joined column list on ", " gives the columns back, as long
      as no column name contains a comma (a list with no columns joins to ""
      just like the list holding one empty name, hence the non-empty list). */
  lemma {:induction false} SplitJoinColumns(columns: seq<string>)
    requires |columns| > 0
    requires forall k :: 0 <= k < |columns| ==> ',' !in columns[k]
    ensures SplitColumns(JoinColumns(columns)) == columns
    decreases |columns|
  {
    var first, others := columns[0], columns[1..];
    if |columns| == 1 {
      SplitCommaFreePrefix(first, "");
      assert first + "" == first;
    } else {
      assert forall k :: 0 <= k < |others| ==> ',' !in others[k] by {
        forall k | 0 <= k < |others| ensures ',' !in others[k] { assert others[k] == columns[k + 1]; }
      }
      SplitJoinColumns(others);
      var rest := JoinColumns(others);
      var sep := ", " + rest;
      assert JoinColumns(columns) == first + sep;
      assert sep[2..] == rest;
      assert SplitColumns(sep) == [""] + SplitColumns(rest);
      SplitCommaFreePrefix(first, sep);
      assert first + "" == first;
      assert columns == [first] + others;
    }
  }

  /** The text before the table name, a newline and eight spaces of indentation included. */
  const QueryLead: string := "\n        INSERT INTO "
  const QueryTail: string := ") VALUES"

  /** The statement `write_rows` sends: the table name and the joined
      column names are substituted verbatim, without any escaping. */
  function InsertQuery(table: string, columns: seq<string>): (q: string)
    ensures |q| == |QueryLead| + |table| + 2 + |JoinColumns(columns)| + |QueryTail|
    ensures q[..|QueryLead|] == QueryLead
    ensures q[|QueryLead|..|QueryLead| + |table|] == table
    ensures q[|QueryLead| + |table|..|QueryLead| + |table| + 2] == " ("
    ensures q[|QueryLead| + |table| + 2..|q| - |QueryTail|] == JoinColumns(columns)
    ensures q[|q| - |QueryTail|..] == QueryTail
  {
    QueryLead + table + " (" + JoinColumns(columns) + QueryTail
  }

  /** The column list of the statement, read back between the opening
      parenthesis and the closing ") VALUES", is exactly `columns`, in order. */
  lemma InsertQueryColumns(table: string, columns: seq<string>)
    requires |columns| > 0
    requires forall k :: 0 <= k < |columns| ==> ',' !in columns[k]
    ensures var q := InsertQuery(table, columns);
            SplitColumns(q[|QueryLead| + |table| + 2..|q| - |QueryTail|]) == columns
  {
    var q := InsertQuery(table, columns);
    var start := |QueryLead| + |table| + 2;
    assert q == (QueryLead + table + " (") + JoinColumns(columns) + QueryTail;
    assert q[start..|q| - |QueryTail|] == JoinColumns(columns);
    SplitJoinColumns(columns);
  }

  datatype Connection = Connection(host: string)

  /** The object `write_rows` calls `execute` on: a connection, or, as
      `SnubaWriter.write` passes it, the writer's `get_connection` method itself. */
  datatype ExecuteTarget = ConnectionTarget(connection: Connection) | GetConnectionMethod(writer: SnubaWriter)

  /** An `execute` call on a database connection. */
  datatype ExecuteCall = ExecuteCall(connection: Connection, query: string, rows: seq<Row>)

  /** `write_rows`: looks up `execute` on `connection` and calls it with the
      INSERT statement for `table` and `columns` and the rows passed through.
      A method object has no attribute `execute`, so the lookup fails with
      AttributeError before anything is sent. */
  function WriteRows(connection: ExecuteTarget, table: string, columns: seq<string>, rows: seq<Row>)
    : (r: Result<ExecuteCall, PythonError>)
    ensures r.Failure? <==> connection.GetConnectionMethod?
    ensures r.Failure? ==> r.error == AttributeError("execute")
    ensures r.Success? ==> r.value.connection == connection.connection
    ensures r.Success? ==> r.value.rows == rows
    ensures r.Success? ==> r.value.query == InsertQuery(table, columns)
  {
    match connection
    case GetConnectionMethod(_) => Failure(AttributeError("execute"))
    case ConnectionTarget(c) => Success(ExecuteCall(c, InsertQuery(table, columns), rows))
  }

  /** A writer bound to a pool of connections, a column list and a table. */
  class SnubaWriter {
    var connections: seq<Connection>
    var columns: seq<string>
    var table: string

    constructor (connections: seq<Connection>, columns: seq<string>, table: string)
      ensures this.connections == connections && this.columns == columns && this.table == table
    {
      this.connections := connections;
      this.columns := columns;
      this.table := table;
    }

    /** `random.choice(self.connections)`; the random draw is the parameter
        `draw`. Fails with IndexError on an empty pool. */
    method GetConnection(draw: nat) returns (r: Result<Connection, PythonError>)
      ensures r.Failure? <==> connections == []
      ensures r.Failure? ==> r.error == IndexError
      ensures r.Success? ==> r.value in connections
    {
      if |connections| == 0 {
        return Failure(IndexError);
      }
      r := Success(connections[draw % |connections|]);
    }

    /** `write` as written: it hands `write_rows` the `get_connection`
        method itself rather than a connection, so every call fails with
        AttributeError and nothing is sent. */
    method Write(rows: seq<Row>) returns (r: Result<ExecuteCall, PythonError>)
      ensures r == Failure(AttributeError("execute"))
    {
      r := WriteRows(GetConnectionMethod(this), table, columns, rows);
    }

    /** `write` as evidently intended, calling `self.get_connection()`: the
        INSERT statement for the stored table and columns and the given rows
        are sent to a connection of the pool; an empty pool fails with IndexError. */
    method WriteThroughConnection(rows: seq<Row>, draw: nat) returns (r: Result<ExecuteCall, PythonError>)
      ensures r.Failure? <==> connections == []
      ensures r.Failure? ==> r.error == IndexError
      ensures r.Success? ==> r.value.connection in connections
      ensures r.Success? ==> r.value.query == InsertQuery(table, columns) && r.value.rows == rows
    {
      var connection := GetConnection(draw);
      if connection.Failure? {
        return Failure(connection.error);
      }
      r := WriteRows(ConnectionTarget(connection.value), table, columns, rows);
    }
  }
}
