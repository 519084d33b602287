/** Running the queries a decision names and writing the one response of the request:
    `execute`, `executeOne`, `executeBatch` and `sendResponse`. The engine is a function from
    execution input to how the execution completed; how and where it runs is not modelled. */
module Execution {
  import opened GraphQLTypes
  import Dispatch

  function DefaultQueryContext(rc: Request): QueryContext {
    RoutingContextItself(rc)
  }

  function DefaultDataLoaderRegistry(rc: Request): Option<DataLoaderRegistry> {
    None
  }

  /** The input built for one query: its text and variables go to the engine as they are, and
      the context and registry come from the handler's factories applied to this request. */
  function BuildInput(q: Query, qc: ContextFactory, dlr: RegistryFactory, rc: Request): (r: ExecutionInput)
    ensures r.query == q.query && r.variables == q.variables
    ensures r.context == qc(rc) && r.dataLoaderRegistry == dlr(rc)
  {
    ExecutionInput(q.query, q.variables, qc(rc), dlr(rc))
  }

  /** With the default factories the resolvers see the routing context, and no registry is set. */
  lemma DefaultFactoriesInput(q: Query, rc: Request)
    ensures BuildInput(q, DefaultQueryContext, DefaultDataLoaderRegistry, rc)
         == ExecutionInput(q.query, q.variables, RoutingContextItself(rc), None)
  {
  }

  /** `execute`: one call of the engine, on the query's text and variables and the context and
      registry the factories give for this request. */
  function Execute(q: Query, engine: Engine, qc: ContextFactory, dlr: RegistryFactory, rc: Request): (r: Completion<JsonObject>)
    ensures r == engine(ExecutionInput(q.query, q.variables, qc(rc), dlr(rc)))
  {
    engine(BuildInput(q, qc, dlr, rc))
  }

  /** One execution per batch element, at the element's own position. */
  function ExecuteAll(queries: seq<Query>, engine: Engine, qc: ContextFactory, dlr: RegistryFactory, rc: Request): (r: seq<Completion<JsonObject>>)
    ensures |r| == |queries|
    ensures forall i :: 0 <= i < |queries| ==> r[i] == engine(BuildInput(queries[i], qc, dlr, rc))
  {
    if queries == [] then []
    else [Execute(queries[0], engine, qc, dlr, rc)] + ExecuteAll(queries[1..], engine, qc, dlr, rc)
  }

  /** `sendResponse`: a result is written as a JSON body, a failure is passed to the routing context. */
  function SendResponse(c: Completion<JsonBody>): (r: Response)
    ensures r.Sent? <==> c.Completed?
    ensures r.Sent? ==> r.contentType == Dispatch.ApplicationJson && r.body == c.value
    ensures c.CompletedExceptionally? ==> r == FailedWith(c.error)
  {
    match c
    case Completed(body) => Sent(Dispatch.ApplicationJson, body)
    case CompletedExceptionally(e) => FailedWith(e)
  }

  /** Waiting for all results and joining them in input order. The combined future completes
      exceptionally with the leftmost failure, and otherwise with every value at its position. */
  function JoinAll(results: seq<Completion<JsonObject>>): (r: Completion<seq<JsonObject>>)
    ensures r.Completed? <==> forall i :: 0 <= i < |results| ==> results[i].Completed?
    ensures r.Completed? ==> |r.value| == |results|
    ensures r.Completed? ==> forall i :: 0 <= i < |results| ==> results[i] == Completed(r.value[i])
    ensures r.CompletedExceptionally? ==>
      exists k :: 0 <= k < |results| && results[k] == CompletedExceptionally(r.error)
        && forall j :: 0 <= j < k ==> results[j].Completed?
  {
    if results == [] then Completed([])
    else match results[0]
      case CompletedExceptionally(e) => CompletedExceptionally(e)
      case Completed(v) =>
        match JoinAll(results[1..])
        case CompletedExceptionally(e) =>
          assert forall j :: 1 <= j <= |results[1..]| ==> results[j] == results[1..][j - 1];
          CompletedExceptionally(e)
        case Completed(vs) => Completed([v] + vs)
  }

  /** `executeBatch` as intended: exactly one response, the result array in input order when
      every execution completed, and the failure of the leftmost failed execution otherwise. */
  function ExecuteBatch(results: seq<Completion<JsonObject>>): (r: seq<Response>)
    ensures |r| == 1
    ensures r[0].Sent? <==> forall i :: 0 <= i < |results| ==> results[i].Completed?
    ensures r[0].Sent? ==>
      && r[0].contentType == Dispatch.ApplicationJson && r[0].body.Array?
      && |r[0].body.items| == |results|
      && forall i :: 0 <= i < |results| ==> results[i] == Completed(r[0].body.items[i])
    ensures !r[0].Sent? ==>
      && r[0].FailedWith?
      && exists k :: 0 <= k < |results| && results[k] == CompletedExceptionally(r[0].error)
           && forall j :: 0 <= j < k ==> results[j].Completed?
  {
    match JoinAll(results)
    case Completed(items) => [SendResponse(Completed(Array(items)))]
    case CompletedExceptionally(e) => [SendResponse(CompletedExceptionally(e))]
  }

  /** `executeBatch` as written: the completion callback joins every result before it calls
      `sendResponse`, and a join on a failed result throws out of the callback, so nothing is
      written at all. */
  function ExecuteBatchAsWritten(results: seq<Completion<JsonObject>>): (r: seq<Response>)
    ensures (forall i :: 0 <= i < |results| ==> results[i].Completed?) ==> r == ExecuteBatch(results)
    ensures (exists i :: 0 <= i < |results| && results[i].CompletedExceptionally?) ==> r == []
  {
    match JoinAll(results)
    case Completed(items) => [SendResponse(Completed(Array(items)))]
    case CompletedExceptionally(_) => []
  }

  /** A batch with one failed execution: the code as written leaves the request without any response. */
  lemma AsWrittenFailedBatchIsNeverAnswered()
    ensures ExecuteBatchAsWritten([Completed(map[]), CompletedExceptionally(EngineError("boom"))]) == []
  {
  }

  /** The responses written for a decision: one, whatever the decision and however the engine behaves. */
  function Respond(outcome: Outcome, engine: Engine, qc: ContextFactory, dlr: RegistryFactory, rc: Request): (r: seq<Response>)
    ensures |r| == 1
    ensures outcome.Fail? ==> r[0] == Failed(outcome.status, outcome.cause)
    ensures outcome.ExecOne? ==> (r[0].Sent? <==> engine(BuildInput(outcome.one, qc, dlr, rc)).Completed?)
    ensures outcome.ExecOne? && r[0].Sent? ==>
      && r[0].contentType == Dispatch.ApplicationJson
      && r[0].body == Single(engine(BuildInput(outcome.one, qc, dlr, rc)).value)
    ensures outcome.ExecOne? && !r[0].Sent? ==>
      r[0] == FailedWith(engine(BuildInput(outcome.one, qc, dlr, rc)).error)
    ensures outcome.ExecBatch? ==> r == ExecuteBatch(ExecuteAll(outcome.queries, engine, qc, dlr, rc))
    ensures outcome.ExecBatch? && r[0].Sent? ==>
      && r[0].contentType == Dispatch.ApplicationJson && r[0].body.Array?
      && |r[0].body.items| == |outcome.queries|
      && forall i :: 0 <= i < |outcome.queries| ==>
           engine(BuildInput(outcome.queries[i], qc, dlr, rc)) == Completed(r[0].body.items[i])
    ensures outcome.ExecBatch? && !r[0].Sent? ==>
      && r[0].FailedWith?
      && exists k :: 0 <= k < |outcome.queries|
           && engine(BuildInput(outcome.queries[k], qc, dlr, rc)) == CompletedExceptionally(r[0].error)
           && forall j :: 0 <= j < k ==> engine(BuildInput(outcome.queries[j], qc, dlr, rc)).Completed?
  {
    match outcome
    case Fail(status, cause) => [Failed(status, cause)]
    case ExecOne(q) =>
      [SendResponse(match Execute(q, engine, qc, dlr, rc)
                    case Completed(obj) => Completed(Single(obj))
                    case CompletedExceptionally(e) => CompletedExceptionally(e))]
    case ExecBatch(queries) => ExecuteBatch(ExecuteAll(queries, engine, qc, dlr, rc))
  }

  /** A batch is answered with an array only when every one of its executions completed. */
  lemma BatchAnsweredIffAllComplete(queries: seq<Query>, engine: Engine, qc: ContextFactory, dlr: RegistryFactory, rc: Request)
    ensures Respond(ExecBatch(queries), engine, qc, dlr, rc)[0].Sent?
        <==> forall i :: 0 <= i < |queries| ==> engine(BuildInput(queries[i], qc, dlr, rc)).Completed?
  {
  }

  /** Some query of `queries` completes exceptionally on `engine`. */
  predicate SomeExecutionFails(queries: seq<Query>, engine: Engine, qc: ContextFactory, dlr: RegistryFactory, rc: Request) {
    exists i :: 0 <= i < |queries| && engine(BuildInput(queries[i], qc, dlr, rc)).CompletedExceptionally?
  }

  /** The responses written for a decision by the code as written: the same as `Respond`, except
      that a batch with a failed execution gets no response at all. */
  function RespondAsWritten(outcome: Outcome, engine: Engine, qc: ContextFactory, dlr: RegistryFactory, rc: Request): (r: seq<Response>)
    ensures outcome.ExecBatch? && SomeExecutionFails(outcome.queries, engine, qc, dlr, rc) ==> r == []
    ensures !(outcome.ExecBatch? && SomeExecutionFails(outcome.queries, engine, qc, dlr, rc)) ==>
      r == Respond(outcome, engine, qc, dlr, rc)
  {
    match outcome
    case ExecBatch(queries) => ExecuteBatchAsWritten(ExecuteAll(queries, engine, qc, dlr, rc))
    case _ => Respond(outcome, engine, qc, dlr, rc)
  }
}
