/**
  `execute_sql_async`: calls the structured-query backend and turns its
  reply into a record with `results`, `error` and `row_count`. The backend
  call and `json.loads` are parameters; either may raise.
 */
module SqlTool {
  import opened JsonValue

  const ErrorKey := "error"
  const FailurePrefix := "SQL execution failed: "

  /** The record the adapter returns. `error` is null (Python `None`) when there is none. */
  datatype SqlResult = SqlResult(results: Value, error: Value, rowCount: nat)

  /** The record as the dictionary the caller receives. */
  function AsDict(r: SqlResult): (d: Value)
    ensures d.Obj? && d.fields.Keys == {"results", "error", "row_count"}
    ensures d.fields["results"] == r.results && d.fields["error"] == r.error
    ensures d.fields["row_count"] == Int(r.rowCount)
  {
    Obj(map["results" := r.results, "error" := r.error, "row_count" := Int(r.rowCount)])
  }

  /** The arguments handed to the backend's `invoke`. */
  function InvokeArgs(query: string, dbName: string, catalog: Value): (args: Value)
    ensures args.Obj? && args.fields.Keys == {"query", "db_name", "state_catalog"}
    ensures args.fields["query"] == Str(query)
    ensures args.fields["db_name"] == Str(dbName)
    ensures args.fields["state_catalog"] == catalog
  {
    Obj(map["query" := Str(query), "db_name" := Str(dbName), "state_catalog" := catalog])
  }

  /**
    The dictionary built from a parsed reply: a dict with an "error" key
    becomes an error with no results; anything else is passed through as
    the results; only a list has a non-zero row count.
   */
  function Normalize(reply: Value): (r: SqlResult)
    ensures reply.Arr? ==> r == SqlResult(reply, Null, |reply.items|)
    ensures HasKey(reply, ErrorKey) ==> r == SqlResult(Arr([]), reply.fields[ErrorKey], 0)
    ensures reply.Obj? && !HasKey(reply, ErrorKey) ==> r == SqlResult(reply, Null, 0)
    ensures !reply.Arr? && !reply.Obj? ==> r == SqlResult(reply, Null, 0)
  {
    SqlResult(
      if !reply.Obj? || ErrorKey !in reply.fields then reply else Arr([]),
      if reply.Obj? then (if ErrorKey in reply.fields then reply.fields[ErrorKey] else Null) else Null,
      if reply.Arr? then |reply.items| else 0)
  }

  /** The record for an exception raised by the call or by the parse. */
  function Failed(message: string): (r: SqlResult)
    ensures r.results == Arr([]) && r.rowCount == 0
    ensures r.error == Str(FailurePrefix + message)
  {
    SqlResult(Arr([]), Str(FailurePrefix + message), 0)
  }

  /**
    `execute_sql_async(query, db_name, catalog)`, with the backend's
    `invoke` and `json.loads` as parameters. It never raises: every
    exception becomes a failure record.
   */
  function ExecuteSql(
    query: string, dbName: string, catalog: Value,
    invoke: Value -> Outcome<string>, loads: string -> Outcome<Value>)
    : (r: SqlResult)
    ensures invoke(InvokeArgs(query, dbName, catalog)).Exn? ==>
      r == Failed(invoke(InvokeArgs(query, dbName, catalog)).message)
    ensures invoke(InvokeArgs(query, dbName, catalog)).Ok? ==>
      var parsed := loads(invoke(InvokeArgs(query, dbName, catalog)).value);
      r == if parsed.Exn? then Failed(parsed.message) else Normalize(parsed.value)
  {
    match invoke(InvokeArgs(query, dbName, catalog))
    case Exn(message) => Failed(message)
    case Ok(text) =>
      match loads(text)
      case Exn(message) => Failed(message)
      case Ok(reply) => Normalize(reply)
  }

  /** The row count is the number of results when they are a list, and zero otherwise. */
  predicate RowCountConsistent(r: SqlResult)
  {
    r.rowCount == if r.results.Arr? then |r.results.items| else 0
  }

  /** Every record the adapter returns keeps its row count consistent; in particular it is non-zero only for a non-empty list. */
  lemma ExecuteSqlRowCount(
    query: string, dbName: string, catalog: Value,
    invoke: Value -> Outcome<string>, loads: string -> Outcome<Value>)
    ensures RowCountConsistent(ExecuteSql(query, dbName, catalog, invoke, loads))
    ensures var r := ExecuteSql(query, dbName, catalog, invoke, loads);
      r.rowCount > 0 ==> r.results.Arr? && |r.results.items| == r.rowCount
  {
  }

  /**
    A reply that is a dictionary with an "error" key whose value is null
    gives the same record as an empty list: the caller cannot tell the two
    apart.
   */
  lemma NullErrorLooksLikeEmptyResult(fields: map<string, Value>)
    requires ErrorKey in fields && fields[ErrorKey] == Null
    ensures Normalize(Obj(fields)) == Normalize(Arr([]))
  {
  }
}
