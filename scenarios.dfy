/** Concrete requests and what the handler does with them. */
module Scenarios {
  import opened GraphQLTypes
  import Dispatch
  import Execution

  function EngineReturning(obj: JsonObject): Engine {
    (input: ExecutionInput) => Completed(obj)
  }

  /** GET `?query={hello}` against an engine answering `{"data":{"hello":"world"}}`. */
  lemma HelloWorld()
    ensures
      var rc := Request(GET, Some("{hello}"), Absent, None, "", DecodeError);
      var result := map["data" := JObject(map["hello" := JString("world")])];
      Execution.Respond(Dispatch.Handle(rc, false), EngineReturning(result),
                        Execution.DefaultQueryContext, Execution.DefaultDataLoaderRegistry, rc)
        == [Sent("application/json", Single(result))]
  {
  }

  /** A JSON body `{"query":"{a}"}` inherits the URL variables `{"x":1}`. */
  lemma BodyQueryInheritsUrlVariables()
    ensures
      var vars := map["x" := JNumber(1)];
      var rc := Request(POST, None, Parsed(vars), Some("application/json"), "{\"query\":\"{a}\"}",
                        SingleQuery(QueryInput(Some("{a}"), None)));
      Dispatch.Handle(rc, false) == ExecOne(Query("{a}", Some(vars)))
  {
  }

  /** A header with a charset parameter is not recognised as JSON. */
  lemma CharsetParameterIsUnsupported(decoded: BodyDecode)
    ensures
      var rc := Request(POST, None, Absent, Some("application/json; charset=utf-8"), "", decoded);
      Dispatch.Handle(rc, true) == Fail(UnsupportedMediaType, NoCause)
  {
  }

  /** Upper-case spellings of the media type are accepted. */
  lemma UpperCaseMediaTypeIsJson()
    ensures Dispatch.GetContentType(Some("Application/JSON")) == Dispatch.ApplicationJson
  {
  }

  /** Batch `[{"query":"{a}"},{"query":"{b}"}]` with batching enabled runs both, in order. */
  lemma TwoQueryBatch()
    ensures
      var rc := Request(POST, None, Absent, None, "",
                        BatchOfQueries([QueryInput(Some("{a}"), None), QueryInput(Some("{b}"), None)]));
      Dispatch.Handle(rc, true) == ExecBatch([Query("{a}", None), Query("{b}", None)])
  {
  }
}
