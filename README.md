# GraphQL HTTP handler: request dispatch

This project models the request-dispatch core of `GraphQLHandlerImpl`, the GraphQL-over-HTTP
handler of vertx-web-graphql, and proves properties of that model in Dafny. For each HTTP
request the handler decides one of three things from a handful of inputs:

- fail with a status code (400, 405, 415 or 500);
- execute one query;
- execute an ordered batch of queries.

The inputs are the HTTP method, the `query` and `variables` URL parameters, the `Content-Type`
header, the decoded JSON body and the "request batching enabled" option. With `executeBatch`
corrected as described under Findings, the handler writes exactly one response for the request.
The code as written leaves a batch with a failed execution without any response
(`Execution.RespondAsWritten`).

Layout:

- `types.dfy` (`GraphQLTypes`): the request as the handler sees it, the decoded query objects,
  the decision (`Outcome`), execution inputs and responses.
- `dispatch.dfy` (`Dispatch`): the decision table as pure functions, one per handler method:
  `Handle`, `HandleGet`, `HandlePost`, `HandlePostJson`, `HandlePostQuery`, `HandlePostBatch`,
  `GetContentType`, `GetVariablesFromQueryParam`. Their contracts state the error taxonomy and
  the order of the checks. These functions are the specification the imperative code is proved
  against.
- `execution.dfy` (`Execution`): the execution input built from a query and the handler's two
  factories, single and batch execution, and `sendResponse`. It also holds the model of
  `executeBatch` as written plus a corrected version (see Findings), and the responses of
  the whole request under each (`RespondAsWritten`, `Respond`).
- `handler.dfy` (`Handler`): the parts the source runs by changing objects in place:
  - the class `GraphQLQuery`, whose variables `setVariables` overwrites;
  - the class `GraphQLHandlerOptions`, holding the batching flag the handler reads;
  - the handler class `GraphQLHandlerImpl`, with its engine, its options object, its two factory
    fields and their setters;
  - the methods `HandlePostQuery`, `HandlePostBatch` (with its validation loop
    `InheritUrlVariables`), `HandlePostJson`, `HandlePost` and `Handle`.

  Each method is proved to reach the decision the matching `Dispatch` function describes, and
  the mutating ones state which objects they changed and how.
- `scenarios.dfy` (`Scenarios`): concrete requests with their expected outcomes.

Abstractions:

- The JSON parser is an input. The `variables` URL parameter arrives already parsed (absent,
  parsed map, malformed). The body arrives already decoded (decode error, single query, batch,
  other shape).
- The GraphQL engine is a function from execution input to a completion, which is either a
  JSON result or an exception.
- The routing context is the `Request` value. The output is the list of responses written for
  the request.

An absent `Content-Type` header is treated as `application/json` (`GraphQLHandlerImpl.java:231`),
and so is `GetContentType(None)`.

## Model

| member | source | states |
|---|---|---|
| `Dispatch.Handle` | vertx-web-graphql/src/main/java/io/vertx/ext/web/handler/graphql/impl/GraphQLHandlerImpl.java:76-90 | The request fails with 405 and no cause exactly when the method is neither GET nor POST. GET and POST go to their handlers. Every failure status is one of 400, 405, 415 or 500. A batch is executed only for a POST with batching enabled, no `query` parameter, well-formed URL variables, a JSON media type and a batch body. |
| `Dispatch.HandleGet` | vertx-web-graphql/src/main/java/io/vertx/ext/web/handler/graphql/impl/GraphQLHandlerImpl.java:92-108 | No `query` parameter fails with 400, "query missing", whatever the variables are. With a query but malformed variables it fails with 400, "malformed variables". Otherwise it executes exactly one query: the URL query text with the URL variables, or null variables when the parameter is absent. A GET never executes a batch. |
| `Dispatch.GetVariablesFromQueryParam` | vertx-web-graphql/src/main/java/io/vertx/ext/web/handler/graphql/impl/GraphQLHandlerImpl.java:238-245 | An error only for a malformed parameter. An absent parameter gives null variables, a parsed one its map. |
| `Dispatch.HandlePost` | vertx-web-graphql/src/main/java/io/vertx/ext/web/handler/graphql/impl/GraphQLHandlerImpl.java:110-135 | Malformed URL variables fail with 400 before anything else is looked at. A `query` parameter then executes that query with the URL variables. Without one, the request fails with 415 exactly when the media type is neither `application/json` nor `application/graphql`. `application/graphql` executes the raw body text with the URL variables. `application/json` is decided by `HandlePostJson`. POST fails only with 400, 415 or 500. |
| `Dispatch.QueryParamOverridesBody` | vertx-web-graphql/src/main/java/io/vertx/ext/web/handler/graphql/impl/GraphQLHandlerImpl.java:119-123 | Two POSTs with the same `query` and `variables` parameters get the same decision, whatever their headers and bodies. That decision is one query, or malformed variables. |
| `Dispatch.GetReadsOnlyUrlParameters` | vertx-web-graphql/src/main/java/io/vertx/ext/web/handler/graphql/impl/GraphQLHandlerImpl.java:92-107 | Two GETs with the same URL parameters get the same decision, whatever their headers, bodies and batching option. |
| `Dispatch.GetContentType` | vertx-web-graphql/src/main/java/io/vertx/ext/web/handler/graphql/impl/GraphQLHandlerImpl.java:229-232 | A missing header is `application/json`. A present header keeps its length and comes out with no upper-case letter. |
| `Dispatch.ToLowerCase` | vertx-web-graphql/src/main/java/io/vertx/ext/web/handler/graphql/impl/GraphQLHandlerImpl.java:231 | Lower-casing keeps the length, lower-cases each character in place, leaves no upper-case letter, and spells the same word as its input up to case. |
| `Dispatch.ContentTypeMatches` | vertx-web-graphql/src/main/java/io/vertx/ext/web/handler/graphql/impl/GraphQLHandlerImpl.java:125-134 | A present header selects a lower-case media type exactly when it spells that type up to the case of its letters. Matching is exact in both directions, so parameters such as `; charset=utf-8` are not tolerated. |
| `Dispatch.HandlePostJson` | vertx-web-graphql/src/main/java/io/vertx/ext/web/handler/graphql/impl/GraphQLHandlerImpl.java:137-152 | 400 with a body cause exactly for a decode error. 500 exactly for a decoded shape that is neither query nor batch. A single query goes to `HandlePostQuery`, a batch to `HandlePostBatch`. One query is executed only for a single body, a batch only for a batch body. |
| `Dispatch.HandlePostQuery` | vertx-web-graphql/src/main/java/io/vertx/ext/web/handler/graphql/impl/GraphQLHandlerImpl.java:183-192 | Fails, with 400 "query missing", exactly when the decoded query text is null. Otherwise it executes that query. Its own non-null variables are kept; null variables are replaced by the URL variables. |
| `Dispatch.WithUrlVariables` | vertx-web-graphql/src/main/java/io/vertx/ext/web/handler/graphql/impl/GraphQLHandlerImpl.java:164-166 | The executed query keeps the decoded query text and its own non-null variables. Null variables become the URL variables. |
| `Dispatch.FirstMissing` | vertx-web-graphql/src/main/java/io/vertx/ext/web/handler/graphql/impl/GraphQLHandlerImpl.java:159-163 | Where the validation loop stops: every element before it has a query text, and the element at it (if any) has none. |
| `Dispatch.HandlePostBatch` | vertx-web-graphql/src/main/java/io/vertx/ext/web/handler/graphql/impl/GraphQLHandlerImpl.java:154-169 | With batching disabled, every batch fails with 400 and no cause, whatever it holds. With batching enabled, one element without a query text fails the whole request with 400 "query missing". A batch is executed exactly when batching is on and every element has a query text. The executed queries have the batch's length and order: element i is batch element i with the URL variables filled in where its variables were null. |
| `Handler.InheritUrlVariables` | vertx-web-graphql/src/main/java/io/vertx/ext/web/handler/graphql/impl/GraphQLHandlerImpl.java:159-167 | The loop stops at the first element without a query text, or at the end. Every object it passed whose variables were null now holds the URL variables. Every other object and every query text is unchanged. An object that occurs twice in the batch is handled correctly. |
| `Handler.GraphQLHandlerImpl.HandlePostBatch` | vertx-web-graphql/src/main/java/io/vertx/ext/web/handler/graphql/impl/GraphQLHandlerImpl.java:154-169 | The batching flag is read from the options object at the call. The decision equals `Dispatch.HandlePostBatch` on the objects' contents before the call. The objects' new state is what the loop leaves; with batching disabled nothing is changed. |
| `Handler.GraphQLHandlerImpl.HandlePostQuery` | vertx-web-graphql/src/main/java/io/vertx/ext/web/handler/graphql/impl/GraphQLHandlerImpl.java:183-192 | The decision equals `Dispatch.HandlePostQuery` on the object's old contents. The object's variables are replaced by the URL variables only when they were null and the query text is present. |
| `Handler.Decode` | vertx-web-graphql/src/main/java/io/vertx/ext/web/handler/graphql/impl/GraphQLHandlerImpl.java:140 | A decoded array body becomes one fresh query object per element, holding that element's fields, in order. |
| `Handler.GraphQLHandlerImpl.HandlePostJson` | vertx-web-graphql/src/main/java/io/vertx/ext/web/handler/graphql/impl/GraphQLHandlerImpl.java:137-152 | Working on freshly decoded objects, it reaches exactly the decision `Dispatch.HandlePostJson` describes. |
| `Handler.GraphQLHandlerImpl.HandlePost` | vertx-web-graphql/src/main/java/io/vertx/ext/web/handler/graphql/impl/GraphQLHandlerImpl.java:110-135 | It reaches exactly the decision `Dispatch.HandlePost` describes for the handler's batching option. |
| `Handler.GraphQLHandlerImpl.Handle` | vertx-web-graphql/src/main/java/io/vertx/ext/web/handler/graphql/impl/GraphQLHandlerImpl.java:76-90 | Exactly one response is written, with `executeBatch` corrected. It is the response for the decision `Dispatch.Handle` describes under the options object's current batching flag, executed on the handler's engine with the factories installed at that moment. |
| `Handler.GraphQLHandlerImpl.constructor` | vertx-web-graphql/src/main/java/io/vertx/ext/web/handler/graphql/impl/GraphQLHandlerImpl.java:53-61 | A new handler keeps the engine and the options object itself (not a copy of its flag), and starts with the default factories: the context is the routing context, and there is no registry. |
| `Handler.GraphQLHandlerImpl.QueryContext` | vertx-web-graphql/src/main/java/io/vertx/ext/web/handler/graphql/impl/GraphQLHandlerImpl.java:63-67 | Stores the given factory. Null restores the identity context. The registry factory is untouched, and the handler itself is returned. |
| `Handler.GraphQLHandlerImpl.DataLoaderRegistry` | vertx-web-graphql/src/main/java/io/vertx/ext/web/handler/graphql/impl/GraphQLHandlerImpl.java:69-73 | Stores the given factory. Null restores "no registry". The context factory is untouched, and the handler itself is returned. |
| `Execution.BuildInput` | vertx-web-graphql/src/main/java/io/vertx/ext/web/handler/graphql/impl/GraphQLHandlerImpl.java:200-222 | The engine receives the query text and variables unchanged. Its context and registry are the installed factories applied to this request. |
| `Execution.DefaultFactoriesInput` | vertx-web-graphql/src/main/java/io/vertx/ext/web/handler/graphql/impl/GraphQLHandlerImpl.java:53-54 | With the default factories, resolvers see the routing context and no registry is set. |
| `Execution.Execute` | vertx-web-graphql/src/main/java/io/vertx/ext/web/handler/graphql/impl/GraphQLHandlerImpl.java:200-227 | The engine is called once, on exactly the query text and variables, with the context and registry the factories give for this request. |
| `Execution.ExecuteAll` | vertx-web-graphql/src/main/java/io/vertx/ext/web/handler/graphql/impl/GraphQLHandlerImpl.java:172-174 | One execution per batch element, at that element's own position. |
| `Execution.JoinAll` | vertx-web-graphql/src/main/java/io/vertx/ext/web/handler/graphql/impl/GraphQLHandlerImpl.java:175-178 | Succeeds exactly when every execution succeeded: same length, value i from execution i. Otherwise it fails with the leftmost failure. |
| `Execution.SendResponse` | vertx-web-graphql/src/main/java/io/vertx/ext/web/handler/graphql/impl/GraphQLHandlerImpl.java:247-253 | A result is written as a body with `Content-Type: application/json`. A failure becomes the request's failure. Never both. |
| `Execution.ExecuteBatchAsWritten` | vertx-web-graphql/src/main/java/io/vertx/ext/web/handler/graphql/impl/GraphQLHandlerImpl.java:175-180 | As written: when every execution succeeded, the response is the corrected one, a single in-order JSON array body; when any execution failed, no response is written at all. |
| `Execution.AsWrittenFailedBatchIsNeverAnswered` | vertx-web-graphql/src/main/java/io/vertx/ext/web/handler/graphql/impl/GraphQLHandlerImpl.java:175-180 | A two-query batch whose second execution fails gets no response under the code as written. |
| `Execution.ExecuteBatch` | vertx-web-graphql/src/main/java/io/vertx/ext/web/handler/graphql/impl/GraphQLHandlerImpl.java:171-181 | Exactly one response. It is a JSON array body, same length and order as the batch, exactly when every execution succeeded. Otherwise it is the failure of the leftmost failed execution. |
| `Execution.Respond` | vertx-web-graphql/src/main/java/io/vertx/ext/web/handler/graphql/impl/GraphQLHandlerImpl.java:194-198 | Exactly one response per decision, with `executeBatch` corrected. A failure status is passed on as it is. A single query gives its result object as a JSON body, or its own engine failure. A batch gives the response of the corrected `executeBatch`: the in-order array of its results, or the failure of its leftmost failed execution. |
| `Execution.RespondAsWritten` | vertx-web-graphql/src/main/java/io/vertx/ext/web/handler/graphql/impl/GraphQLHandlerImpl.java:171-198 | The code as written: a batch with a failed execution gets no response; every other decision gets the same single response as `Respond`. |
| `Execution.BatchAnsweredIffAllComplete` | vertx-web-graphql/src/main/java/io/vertx/ext/web/handler/graphql/impl/GraphQLHandlerImpl.java:171-181 | A batch is answered with a body exactly when every one of its queries executed successfully. |
| `Scenarios.HelloWorld` | vertx-web-graphql/src/main/java/io/vertx/ext/web/handler/graphql/impl/GraphQLHandlerImpl.java:92-107 | GET `?query={hello}` with an engine returning `{"data":{"hello":"world"}}` writes exactly that object as the JSON body. |
| `Scenarios.BodyQueryInheritsUrlVariables` | vertx-web-graphql/src/main/java/io/vertx/ext/web/handler/graphql/impl/GraphQLHandlerImpl.java:183-191 | The JSON body `{"query":"{a}"}` with URL variables `{"x":1}` executes `{a}` with `{"x":1}`. |
| `Scenarios.CharsetParameterIsUnsupported` | vertx-web-graphql/src/main/java/io/vertx/ext/web/handler/graphql/impl/GraphQLHandlerImpl.java:125-134 | `application/json; charset=utf-8` fails with 415, whatever the body. |
| `Scenarios.UpperCaseMediaTypeIsJson` | vertx-web-graphql/src/main/java/io/vertx/ext/web/handler/graphql/impl/GraphQLHandlerImpl.java:229-232 | `Application/JSON` is taken as `application/json`. |
| `Scenarios.TwoQueryBatch` | vertx-web-graphql/src/main/java/io/vertx/ext/web/handler/graphql/impl/GraphQLHandlerImpl.java:154-168 | A two-element batch with batching enabled executes both queries in input order. |

## Findings

| source | as written | input that shows it | evidently intended | confidence | as-written member | corrected member |
|---|---|---|---|---|---|---|
| vertx-web-graphql/src/main/java/io/vertx/ext/web/handler/graphql/impl/GraphQLHandlerImpl.java:175-180 | The `whenCompleteAsync` callback joins every result (`CompletableFuture::join`) before it calls `sendResponse`. When some execution failed, `join` throws inside the callback, so `sendResponse` is never reached and the failure is never passed on. | A batch of two queries whose second execution completes exceptionally. | The request fails with that cause (`rc.fail(throwable)`), so it gets exactly one response, as the single-query path does. | medium; not executed | `Execution.ExecuteBatchAsWritten`, `Execution.AsWrittenFailedBatchIsNeverAnswered`, `Execution.RespondAsWritten` | `Execution.ExecuteBatch`, `Execution.Respond` |

## Left out

- Asynchronous execution is not modelled: the futures, `whenCompleteAsync`, `thenApplyAsync`, `contextExecutor` and `runOnContext`. Batch results are a positional map over the batch, and engine completion order plays no part.
- Handler.GraphQLHandlerImpl.Handle: reads the two factory fields once, when it is called. The source reads each field in its own `synchronized` block on every call of `execute` (lines 210-212 and 216-218), so a setter running on another thread between two executions of one batch can change the factory for the later elements. Locking and that interleaving are not modelled.
- Execution.BuildInput: the factories are pure functions, so every element of a batch gets the same context and the same registry value. In the source each factory is applied once per executed query (lines 213 and 219, called from line 173 per batch element), and a Java factory may return a new object, such as a fresh `DataLoaderRegistry`, on each call.
- Handler.GraphQLHandlerImpl.constructor: the `requireNonNull` checks (lines 57-58) and their `NullPointerException` are not modelled. Dafny's non-null reference type for the options object and the engine being a value make a null argument impossible.
- `GraphQLHandlerOptions` is not part of this model beyond the one flag read at line 155. It is a class whose flag anyone holding it may change; the handler reads it on each batch.
- The GraphQL engine (`executeAsync`, `ExecutionInput.Builder`, `toSpecification`) is a foreign library. It is the handler's final field `graphQL`, a function of type `Engine`.
- JSON parsing and serialisation (`Json.decodeValue`, `new JsonObject(...)`, `toBuffer`) are foreign calls. Their results are inputs: `VariablesParam` and `BodyDecode`. A response body is the JSON value, not its bytes.
- Body buffering through `bodyHandler` (line 83) is I/O. The body is always available.
- `rc.fail`, `putHeader` and `end` are reduced to the `Response` value they produce.
- Dispatch.ToLowerCase: lower-cases only ASCII letters. Java's `toLowerCase` uses the default locale and all of Unicode.
- `operationName` is not modelled. `execute` (lines 200-227) never passes it to the engine, so it has no effect on what is executed. `GraphQLQuery` is not part of this model beyond its `query` and `variables` fields.
- A factory that throws inside `execute` is not modelled. The exception would leave `handle` itself, or, for a POST whose body was not yet buffered, the `bodyHandler` callback installed at line 83.
- Idempotence of repeated execution is not stated as a lemma. Every component of the model is a function, so equal inputs give equal responses by construction.
