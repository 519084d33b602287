/** The handler object and the query objects it changes in place. Each method is proved to take
    the decision that the pure functions of `Dispatch` describe, and the methods that mutate
    say exactly what they leave behind. */
module Handler {
  import opened GraphQLTypes
  import Dispatch
  import Execution

  /** A decoded query object: `setVariables` overwrites its variables in place. */
  class GraphQLQuery {
    var query: Option<string>
    var variables: Option<Variables>

    /** The decoder's view: an object holding the decoded fields. */
    constructor (decoded: QueryInput)
      ensures query == decoded.query && variables == decoded.variables
    {
      query := decoded.query;
      variables := decoded.variables;
    }

    function Value(): QueryInput
      reads this
    {
      QueryInput(query, variables)
    }
  }

  function Values(batch: seq<GraphQLQuery>): (r: seq<QueryInput>)
    reads set q | q in batch
    ensures |r| == |batch|
    ensures forall i :: 0 <= i < |batch| ==> r[i] == batch[i].Value()
  {
    if batch == [] then [] else [batch[0].Value()] + Values(batch[1..])
  }

  /** The position at which the object `q` first occurs in `batch`. */
  function FirstOccurrence(batch: seq<GraphQLQuery>, q: GraphQLQuery): (k: nat)
    requires q in batch
    ensures k < |batch| && batch[k] == q
    ensures forall t :: 0 <= t < k ==> batch[t] != q
  {
    if batch[0] == q then 0 else 1 + FirstOccurrence(batch[1..], q)
  }

  /** The validation pass has reached object `q` before position `i`. */
  predicate ReachedBefore(batch: seq<GraphQLQuery>, i: int, q: GraphQLQuery)
    requires q in batch
  {
    FirstOccurrence(batch, q) < i
  }

  lemma ReachedBeforeStep(batch: seq<GraphQLQuery>, i: int)
    requires 0 <= i < |batch|
    ensures forall q :: q in batch ==>
      (ReachedBefore(batch, i + 1, q) <==> ReachedBefore(batch, i, q) || q == batch[i])
  {
  }

  /** The options object the handler is built with. Only the batching flag is read, and the
      caller keeps the object and may change the flag after the handler is built. */
  class GraphQLHandlerOptions {
    var requestBatchingEnabled: bool

    constructor (requestBatchingEnabled: bool)
      ensures this.requestBatchingEnabled == requestBatchingEnabled
    {
      this.requestBatchingEnabled := requestBatchingEnabled;
    }
  }

  /** The handler: the engine and the options object it keeps, and the two factories installed
      by the setters. */
  class GraphQLHandlerImpl {
    const graphQL: Engine
    const options: GraphQLHandlerOptions
    var queryContextFactory: ContextFactory
    var dataLoaderRegistryFactory: RegistryFactory

    /** The options object is kept by reference, not copied. */
    constructor (graphQL: Engine, options: GraphQLHandlerOptions)
      ensures this.graphQL == graphQL && this.options == options
      ensures queryContextFactory == Execution.DefaultQueryContext
      ensures dataLoaderRegistryFactory == Execution.DefaultDataLoaderRegistry
    {
      this.graphQL := graphQL;
      this.options := options;
      queryContextFactory := Execution.DefaultQueryContext;
      dataLoaderRegistryFactory := Execution.DefaultDataLoaderRegistry;
    }

    /** Installs `factory`, or the default (the routing context itself) for null. */
    method QueryContext(factory: Option<ContextFactory>) returns (self: GraphQLHandlerImpl)
      modifies this
      ensures self == this
      ensures factory.Some? ==> queryContextFactory == factory.value
      ensures factory.None? ==> forall rc :: queryContextFactory(rc) == RoutingContextItself(rc)
      ensures dataLoaderRegistryFactory == old(dataLoaderRegistryFactory)
    {
      if factory.Some? {
        queryContextFactory := factory.value;
      } else {
        queryContextFactory := Execution.DefaultQueryContext;
      }
      self := this;
    }

    /** Installs `factory`, or the default (no registry) for null. */
    method DataLoaderRegistry(factory: Option<RegistryFactory>) returns (self: GraphQLHandlerImpl)
      modifies this
      ensures self == this
      ensures factory.Some? ==> dataLoaderRegistryFactory == factory.value
      ensures factory.None? ==> forall rc :: dataLoaderRegistryFactory(rc) == None
      ensures queryContextFactory == old(queryContextFactory)
    {
      if factory.Some? {
        dataLoaderRegistryFactory := factory.value;
      } else {
        dataLoaderRegistryFactory := Execution.DefaultDataLoaderRegistry;
      }
      self := this;
    }

    /** A decoded single query: a missing query text fails before anything is changed; otherwise
        null variables are replaced by the URL variables and the query is executed. */
    method HandlePostQuery(query: GraphQLQuery, fromUrl: Option<Variables>) returns (outcome: Outcome)
      modifies query
      ensures outcome == Dispatch.HandlePostQuery(old(query.Value()), fromUrl)
      ensures query.query == old(query.query)
      ensures query.variables ==
        if old(query.query).None? then old(query.variables) else Dispatch.Inherit(old(query.variables), fromUrl)
    {
      if query.query.None? {
        return Fail(BadRequest, QueryMissing);
      }
      if query.variables.None? {
        query.variables := fromUrl;
      }
      outcome := ExecOne(Query(query.query.value, query.variables));
    }

    /** `handlePostBatch`: the batching flag is read from the options object at each call. With
        batching disabled any batch fails; otherwise the validation pass runs, and the batch is
        executed only when it reached the end. */
    method HandlePostBatch(batch: seq<GraphQLQuery>, fromUrl: Option<Variables>) returns (outcome: Outcome)
      modifies set q | q in batch
      ensures outcome == Dispatch.HandlePostBatch(old(Values(batch)), fromUrl, options.requestBatchingEnabled)
      ensures forall q :: q in batch ==> q.query == old(q.query)
      ensures forall q :: q in batch ==>
        q.variables ==
          if options.requestBatchingEnabled && ReachedBefore(batch, Dispatch.FirstMissing(old(Values(batch))), q)
          then Dispatch.Inherit(old(q.variables), fromUrl)
          else old(q.variables)
    {
      ghost var before := Values(batch);
      if !options.requestBatchingEnabled {
        return Fail(BadRequest, NoCause);
      }
      var stop := InheritUrlVariables(batch, fromUrl);
      Dispatch.FirstMissingIs(before, stop);
      if stop < |batch| {
        assert before[stop].query.None?;
        return Fail(BadRequest, QueryMissing);
      }
      var after := Values(batch);
      Dispatch.ValidatedBatch(before, after, fromUrl);
      outcome := ExecBatch(Dispatch.ExecutableBatch(after));
    }

    /** `handlePostJson`: the decoder's objects are fresh, so only they are changed. */
    method HandlePostJson(body: BodyDecode, fromUrl: Option<Variables>) returns (outcome: Outcome)
      ensures outcome == Dispatch.HandlePostJson(body, fromUrl, options.requestBatchingEnabled)
    {
      match body
      case DecodeError =>
        outcome := Fail(BadRequest, MalformedBody);
      case BatchOfQueries(decoded) =>
        var batch := Decode(decoded);
        outcome := HandlePostBatch(batch, fromUrl);
      case SingleQuery(decoded) =>
        var query := new GraphQLQuery(decoded);
        outcome := HandlePostQuery(query, fromUrl);
      case OtherShape =>
        outcome := Fail(InternalServerError, NoCause);
    }

    /** `handlePost`: malformed URL variables first, then a `query` URL parameter, then the media type. */
    method HandlePost(rc: Request) returns (outcome: Outcome)
      ensures outcome == Dispatch.HandlePost(rc, options.requestBatchingEnabled)
    {
      var fromUrl := Dispatch.GetVariablesFromQueryParam(rc.variablesParam);
      if fromUrl.None? {
        return Fail(BadRequest, MalformedVariables);
      }
      if rc.queryParam.Some? {
        return ExecOne(Query(rc.queryParam.value, fromUrl.value));
      }
      var contentType := Dispatch.GetContentType(rc.contentType);
      if contentType == Dispatch.ApplicationJson {
        outcome := HandlePostJson(rc.decodedBody, fromUrl.value);
      } else if contentType == Dispatch.ApplicationGraphQL {
        outcome := ExecOne(Query(rc.body, fromUrl.value));
      } else {
        outcome := Fail(UnsupportedMediaType, NoCause);
      }
    }

    /** `handle`: routes on the method, executes what the decision names on the handler's engine
        and writes exactly one response, built with the factories installed at that moment and
        with the corrected `executeBatch` of `Execution.Respond`. */
    method Handle(rc: Request) returns (written: seq<Response>)
      ensures written == Execution.Respond(Dispatch.Handle(rc, options.requestBatchingEnabled), graphQL,
                                           queryContextFactory, dataLoaderRegistryFactory, rc)
      ensures |written| == 1
    {
      var outcome: Outcome;
      if rc.httpMethod == GET {
        outcome := Dispatch.HandleGet(rc);
      } else if rc.httpMethod == POST {
        outcome := HandlePost(rc);
      } else {
        outcome := Fail(MethodNotAllowed, NoCause);
      }
      written := Execution.Respond(outcome, graphQL, queryContextFactory, dataLoaderRegistryFactory, rc);
    }
  }

  /** The loop of the batch validation pass. It walks the batch in order, stops at the first
      element without a query text, and sets the URL variables on every object it passed whose
      variables were null. An object that occurs twice is changed once, which gives it the same
      final variables. */
  method InheritUrlVariables(batch: seq<GraphQLQuery>, fromUrl: Option<Variables>) returns (stop: nat)
    modifies set q | q in batch
    ensures stop <= |batch|
    ensures forall t :: 0 <= t < stop ==> batch[t].query.Some?
    ensures stop < |batch| ==> batch[stop].query.None?
    ensures forall q :: q in batch ==> q.query == old(q.query)
    ensures forall q :: q in batch ==>
      q.variables == if ReachedBefore(batch, stop, q) then Dispatch.Inherit(old(q.variables), fromUrl) else old(q.variables)
  {
    var i := 0;
    while i < |batch|
      invariant 0 <= i <= |batch|
      invariant forall t :: 0 <= t < i ==> batch[t].query.Some?
      invariant forall q :: q in batch ==> q.query == old(q.query)
      invariant forall q :: q in batch ==>
        q.variables == if ReachedBefore(batch, i, q) then Dispatch.Inherit(old(q.variables), fromUrl) else old(q.variables)
    {
      if batch[i].query.None? {
        return i;
      }
      if batch[i].variables.None? {
        batch[i].variables := fromUrl;
      }
      ReachedBeforeStep(batch, i);
      i := i + 1;
    }
    stop := i;
  }

  /** The JSON decoder's result for an array body: one fresh object per element, in order. */
  method Decode(decoded: seq<QueryInput>) returns (batch: seq<GraphQLQuery>)
    ensures |batch| == |decoded|
    ensures forall j :: 0 <= j < |batch| ==> fresh(batch[j]) && batch[j].Value() == decoded[j]
    ensures Values(batch) == decoded
  {
    batch := [];
    var i := 0;
    while i < |decoded|
      invariant 0 <= i <= |decoded| && |batch| == i
      invariant forall j :: 0 <= j < i ==> fresh(batch[j]) && batch[j].Value() == decoded[j]
    {
      var query := new GraphQLQuery(decoded[i]);
      batch := batch + [query];
      i := i + 1;
    }
  }
}
