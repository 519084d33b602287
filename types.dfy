/** Values that flow through the GraphQL HTTP handler: the request as the handler sees it,
    the queries it hands to the execution engine, the decision it takes, and what it writes back. */
module GraphQLTypes {

  datatype Option<+T> = None | Some(value: T)

  /** A JSON value, as carried in a `variables` map or an execution result. */
  datatype JsonValue =
    | JNull
    | JBool(b: bool)
    | JNumber(n: int)
    | JString(s: string)
    | JArray(items: seq<JsonValue>)
    | JObject(fields: map<string, JsonValue>)

  type JsonObject = map<string, JsonValue>

  /** The variables of a query (a Java `Map<String, Object>`). */
  type Variables = map<string, JsonValue>

  datatype HttpMethod = GET | POST | PUT | DELETE | PATCH | HEAD | OPTIONS | TRACE | CONNECT | OTHER(name: string)

  /** What parsing the `variables` URL parameter as a JSON object gives. */
  datatype VariablesParam = Absent | Parsed(vars: Variables) | Malformed

  /** A query object as the JSON decoder builds it: both fields may be null. */
  datatype QueryInput = QueryInput(query: Option<string>, variables: Option<Variables>)

  /** What decoding the request body as a `GraphQLInput` gives. */
  datatype BodyDecode =
    | DecodeError
    | SingleQuery(single: QueryInput)
    | BatchOfQueries(batch: seq<QueryInput>)
    | OtherShape

  /** The routing context, reduced to what the handler reads from it. `body` is the raw body
      text and `decodedBody` what the JSON decoder makes of that same text. */
  datatype Request = Request(
    httpMethod: HttpMethod,
    queryParam: Option<string>,
    variablesParam: VariablesParam,
    contentType: Option<string>,
    body: string,
    decodedBody: BodyDecode)

  /** A query on its way to the engine: the query text is present, the variables may be null. */
  datatype Query = Query(query: string, variables: Option<Variables>)

  /** The cause passed along with a failure status. */
  datatype Cause = NoCause | QueryMissing | MalformedVariables | MalformedBody

  const BadRequest := 400
  const MethodNotAllowed := 405
  const UnsupportedMediaType := 415
  const InternalServerError := 500

  /** The decision the handler takes for one request. */
  datatype Outcome =
    | Fail(status: int, cause: Cause)
    | ExecOne(one: Query)
    | ExecBatch(queries: seq<Query>)

  /** The execution context handed to resolvers: by default the routing context itself. */
  datatype QueryContext = RoutingContextItself(rc: Request) | UserContext(id: nat)

  /** A data-loader registry, seen only as an identity. */
  datatype DataLoaderRegistry = DataLoaderRegistry(id: nat)

  type ContextFactory = Request -> QueryContext
  type RegistryFactory = Request -> Option<DataLoaderRegistry>

  /** What the handler gives the engine for one query. A `None` field is one the builder is not
      told about, so it keeps its own default. */
  datatype ExecutionInput = ExecutionInput(
    query: string,
    variables: Option<Variables>,
    context: QueryContext,
    dataLoaderRegistry: Option<DataLoaderRegistry>)

  datatype EngineError = EngineError(message: string)

  /** How an asynchronous computation ended. */
  datatype Completion<+T> = Completed(value: T) | CompletedExceptionally(error: EngineError)

  /** The engine, seen as a function from input to the JSON form of its result. */
  type Engine = ExecutionInput -> Completion<JsonObject>

  datatype JsonBody = Single(obj: JsonObject) | Array(items: seq<JsonObject>)

  /** What the handler writes for a request: a body, or a failure signal. */
  datatype Response =
    | Sent(contentType: string, body: JsonBody)
    | Failed(status: int, cause: Cause)
    | FailedWith(error: EngineError)
}
