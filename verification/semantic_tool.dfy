/**
  `execute_semantic_async`: calls the semantic-search backend and turns its
  reply into a record with `results` and `error`. The backend call and
  `json.loads` are parameters; either may raise.
 */
module SemanticTool {
  import opened JsonValue
  import SqlTool

  const ErrorKey := "error"
  const FailurePrefix := "Semantic search failed: "

  /** The number of documents asked for when the caller does not say. */
  const DefaultResultCount := 5

  /** The record the adapter returns: `results` is always a list; `error` is null when there is none. */
  datatype SemanticResult = SemanticResult(results: seq<Value>, error: Value)

  /** The record as the dictionary the caller receives: no `row_count`. */
  function AsDict(r: SemanticResult): (d: Value)
    ensures d.Obj? && d.fields.Keys == {"results", "error"}
    ensures d.fields["results"] == Arr(r.results) && d.fields["error"] == r.error
  {
    Obj(map["results" := Arr(r.results), "error" := r.error])
  }

  /** The arguments handed to the backend's `invoke`. */
  function InvokeArgs(query: string, resultCount: int): (args: Value)
    ensures args.Obj? && args.fields.Keys == {"query", "n_results"}
    ensures args.fields["query"] == Str(query)
    ensures args.fields["n_results"] == Int(resultCount)
  {
    Obj(map["query" := Str(query), "n_results" := Int(resultCount)])
  }

  /**
    The record built from a parsed reply: a dict with an "error" key
    becomes that error; a list becomes the results; anything else gives no
    results and no error.
   */
  function Normalize(reply: Value): (r: SemanticResult)
    ensures HasKey(reply, ErrorKey) ==> r == SemanticResult([], reply.fields[ErrorKey])
    ensures reply.Arr? ==> r == SemanticResult(reply.items, Null)
    ensures !reply.Arr? && !HasKey(reply, ErrorKey) ==> r == SemanticResult([], Null)
  {
    if reply.Obj? && ErrorKey in reply.fields then
      SemanticResult([], reply.fields[ErrorKey])
    else
      SemanticResult(if reply.Arr? then reply.items else [], Null)
  }

  /** The record for an exception raised by the call or by the parse. */
  function Failed(message: string): (r: SemanticResult)
    ensures r.results == [] && r.error == Str(FailurePrefix + message)
  {
    SemanticResult([], Str(FailurePrefix + message))
  }

  /**
    `execute_semantic_async(query, n_results=5)`, with the backend's `invoke`
    and `json.loads` as parameters. It never raises.
   */
  function ExecuteSemantic(
    query: string, invoke: Value -> Outcome<string>, loads: string -> Outcome<Value>,
    resultCount: int := DefaultResultCount)
    : (r: SemanticResult)
    ensures invoke(InvokeArgs(query, resultCount)).Exn? ==>
      r == Failed(invoke(InvokeArgs(query, resultCount)).message)
    ensures invoke(InvokeArgs(query, resultCount)).Ok? ==>
      var parsed := loads(invoke(InvokeArgs(query, resultCount)).value);
      r == if parsed.Exn? then Failed(parsed.message) else Normalize(parsed.value)
  {
    match invoke(InvokeArgs(query, resultCount))
    case Exn(message) => Failed(message)
    case Ok(text) =>
      match loads(text)
      case Exn(message) => Failed(message)
      case Ok(reply) => Normalize(reply)
  }

  /** Called without `n_results`, the adapter asks the backend for five documents. */
  lemma DefaultAsksForFive(query: string, invoke: Value -> Outcome<string>, loads: string -> Outcome<Value>)
    ensures ExecuteSemantic(query, invoke, loads) == ExecuteSemantic(query, invoke, loads, 5)
    ensures invoke(InvokeArgs(query, 5)).Exn? ==>
      ExecuteSemantic(query, invoke, loads) == Failed(invoke(InvokeArgs(query, 5)).message)
  {
  }

  /**
    The two adapters on the same parsed reply: they always report the same
    error, and they give the same results exactly when the reply is a list
    or a dict with an "error" key. On any other reply the SQL adapter
    passes the reply through while this one gives no results. On an
    exception both give no results.
   */
  lemma AdaptersCompared(reply: Value, message: string)
    ensures SqlTool.Normalize(reply).error == Normalize(reply).error
    ensures SqlTool.Normalize(reply).results == Arr(Normalize(reply).results) <==>
      reply.Arr? || HasKey(reply, ErrorKey)
    ensures SqlTool.Failed(message).results == Arr(Failed(message).results)
  {
  }
}
