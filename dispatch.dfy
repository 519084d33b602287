/** The request-dispatch decision of `GraphQLHandlerImpl`, as pure functions from a request to
    the outcome: fail with a status, execute one query, or execute a batch. These functions are
    the specification the handler's methods are proved against. */
module Dispatch {
  import opened GraphQLTypes

  const ApplicationJson := "application/json"
  const ApplicationGraphQL := "application/graphql"

  /** Lower-casing of one character (ASCII letters only). */
  function LowerChar(c: char): (r: char)
    ensures 'A' <= c <= 'Z' ==> r as int == c as int + 32
    ensures !('A' <= c <= 'Z') ==> r == c
    ensures !('A' <= r <= 'Z')
  {
    if 'A' <= c <= 'Z' then (c as int + 32) as char else c
  }

  /** `String.toLowerCase`, restricted to ASCII letters: the result has no upper-case letter and
      spells the same word as `s` up to case. */
  function ToLowerCase(s: string): (r: string)
    ensures |r| == |s|
    ensures forall i :: 0 <= i < |s| ==> r[i] == LowerChar(s[i])
    ensures forall i :: 0 <= i < |r| ==> !('A' <= r[i] <= 'Z')
    ensures SameIgnoringCase(s, r)
  {
    seq(|s|, i requires 0 <= i < |s| => LowerChar(s[i]))
  }

  ghost predicate SameIgnoringCase(a: string, b: string) {
    |a| == |b| && forall i :: 0 <= i < |a| ==> LowerChar(a[i]) == LowerChar(b[i])
  }

  /** The media type the handler switches on: the lower-cased header, or JSON when absent. */
  function GetContentType(header: Option<string>): (r: string)
    ensures header.None? ==> r == ApplicationJson
    ensures header.Some? ==> |r| == |header.value|
    ensures forall i :: 0 <= i < |r| ==> !('A' <= r[i] <= 'Z')
  {
    if header.None? then ApplicationJson else ToLowerCase(header.value)
  }

  /** A present header selects the lower-case media type `t` exactly when it spells `t` up to
      the case of its letters; nothing else (no parameters, no blanks) is tolerated. */
  lemma ContentTypeMatches(header: string, t: string)
    requires ToLowerCase(t) == t
    ensures GetContentType(Some(header)) == t <==> SameIgnoringCase(header, t)
  {
  }

  /** The URL variables, or the reason they cannot be used. */
  function GetVariablesFromQueryParam(p: VariablesParam): (r: Option<Option<Variables>>)
    ensures r.None? <==> p.Malformed?
    ensures p.Absent? ==> r == Some(None)
    ensures p.Parsed? ==> r == Some(Some(p.vars))
  {
    match p
    case Absent => Some(None)
    case Parsed(vars) => Some(Some(vars))
    case Malformed => None
  }

  /** Query-level variables win; only null ones are replaced by the URL variables. */
  function Inherit(own: Option<Variables>, fromUrl: Option<Variables>): Option<Variables> {
    if own.None? then fromUrl else own
  }

  /** A decoded query with its query text present, ready to execute. */
  function WithUrlVariables(q: QueryInput, fromUrl: Option<Variables>): (r: Query)
    requires q.query.Some?
    ensures r.query == q.query.value
    ensures q.variables.Some? ==> r.variables == q.variables
    ensures q.variables.None? ==> r.variables == fromUrl
  {
    Query(q.query.value, Inherit(q.variables, fromUrl))
  }

  function HandleGet(rc: Request): (r: Outcome)
    ensures rc.queryParam.None? ==> r == Fail(BadRequest, QueryMissing)
    ensures rc.queryParam.Some? && rc.variablesParam.Malformed? ==> r == Fail(BadRequest, MalformedVariables)
    ensures r.ExecOne? <==> rc.queryParam.Some? && !rc.variablesParam.Malformed?
    ensures r.ExecOne? ==> r.one.query == rc.queryParam.value
    ensures r.ExecOne? && rc.variablesParam.Absent? ==> r.one.variables.None?
    ensures r.ExecOne? && rc.variablesParam.Parsed? ==> r.one.variables == Some(rc.variablesParam.vars)
    ensures !r.ExecBatch?
  {
    if rc.queryParam.None? then Fail(BadRequest, QueryMissing)
    else
      match GetVariablesFromQueryParam(rc.variablesParam)
      case None => Fail(BadRequest, MalformedVariables)
      case Some(vars) => ExecOne(Query(rc.queryParam.value, vars))
  }

  /** The number of leading batch elements that carry a query: where the validation pass stops. */
  function FirstMissing(batch: seq<QueryInput>): (k: nat)
    ensures k <= |batch|
    ensures forall t :: 0 <= t < k ==> batch[t].query.Some?
    ensures k < |batch| ==> batch[k].query.None?
  {
    if batch == [] || batch[0].query.None? then 0 else 1 + FirstMissing(batch[1..])
  }

  /** The stopping point is the only `k` with a query text before it and none at it. */
  lemma FirstMissingIs(batch: seq<QueryInput>, k: nat)
    requires k <= |batch|
    requires forall t :: 0 <= t < k ==> batch[t].query.Some?
    requires k < |batch| ==> batch[k].query.None?
    ensures FirstMissing(batch) == k
  {
  }

  function HandlePostBatch(batch: seq<QueryInput>, fromUrl: Option<Variables>, batchingEnabled: bool): (r: Outcome)
    ensures !batchingEnabled ==> r == Fail(BadRequest, NoCause)
    ensures batchingEnabled && (exists i :: 0 <= i < |batch| && batch[i].query.None?) ==> r == Fail(BadRequest, QueryMissing)
    ensures r.ExecBatch? <==> batchingEnabled && forall i :: 0 <= i < |batch| ==> batch[i].query.Some?
    ensures r.ExecBatch? ==> |r.queries| == |batch|
    ensures r.ExecBatch? ==> forall i :: 0 <= i < |batch| ==>
      batch[i].query.Some? && r.queries[i] == WithUrlVariables(batch[i], fromUrl)
    ensures !r.ExecOne?
  {
    if !batchingEnabled then Fail(BadRequest, NoCause)
    else if FirstMissing(batch) < |batch| then Fail(BadRequest, QueryMissing)
    else ExecBatch(seq(|batch|, i requires 0 <= i < |batch| && batch[i].query.Some? => WithUrlVariables(batch[i], fromUrl)))
  }

  /** The queries of a batch whose every element carries a query text, in batch order. */
  function ExecutableBatch(batch: seq<QueryInput>): (r: seq<Query>)
    requires forall i :: 0 <= i < |batch| ==> batch[i].query.Some?
    ensures |r| == |batch|
    ensures forall i :: 0 <= i < |batch| ==> r[i] == Query(batch[i].query.value, batch[i].variables)
  {
    seq(|batch|, i requires 0 <= i < |batch| => Query(batch[i].query.value, batch[i].variables))
  }

  /** A batch that the validation pass has completed, its null variables replaced, is the batch
      that `HandlePostBatch` executes. */
  lemma ValidatedBatch(before: seq<QueryInput>, after: seq<QueryInput>, fromUrl: Option<Variables>)
    requires |after| == |before|
    requires forall i :: 0 <= i < |before| ==> before[i].query.Some?
    requires forall i :: 0 <= i < |before| ==>
      after[i] == QueryInput(before[i].query, Inherit(before[i].variables, fromUrl))
    ensures HandlePostBatch(before, fromUrl, true) == ExecBatch(ExecutableBatch(after))
  {
  }

  function HandlePostQuery(q: QueryInput, fromUrl: Option<Variables>): (r: Outcome)
    ensures r.Fail? <==> q.query.None?
    ensures q.query.None? ==> r == Fail(BadRequest, QueryMissing)
    ensures r.ExecOne? ==> r.one == WithUrlVariables(q, fromUrl)
    ensures !r.ExecBatch?
  {
    if q.query.None? then Fail(BadRequest, QueryMissing)
    else ExecOne(WithUrlVariables(q, fromUrl))
  }

  function HandlePostJson(body: BodyDecode, fromUrl: Option<Variables>, batchingEnabled: bool): (r: Outcome)
    ensures r == Fail(BadRequest, MalformedBody) <==> body.DecodeError?
    ensures r.Fail? && r.status == InternalServerError <==> body.OtherShape?
    ensures r.Fail? ==> r.status in {BadRequest, InternalServerError}
    ensures r.ExecOne? ==> body.SingleQuery? && r == HandlePostQuery(body.single, fromUrl)
    ensures r.ExecBatch? ==> body.BatchOfQueries? && r == HandlePostBatch(body.batch, fromUrl, batchingEnabled)
    ensures body.SingleQuery? ==> r == HandlePostQuery(body.single, fromUrl)
    ensures body.BatchOfQueries? ==> r == HandlePostBatch(body.batch, fromUrl, batchingEnabled)
  {
    match body
    case DecodeError => Fail(BadRequest, MalformedBody)
    case BatchOfQueries(batch) => HandlePostBatch(batch, fromUrl, batchingEnabled)
    case SingleQuery(q) => HandlePostQuery(q, fromUrl)
    case OtherShape => Fail(InternalServerError, NoCause)
  }

  function HandlePost(rc: Request, batchingEnabled: bool): (r: Outcome)
    ensures rc.variablesParam.Malformed? ==> r == Fail(BadRequest, MalformedVariables)
    ensures !rc.variablesParam.Malformed? && rc.queryParam.Some? ==>
      r == ExecOne(Query(rc.queryParam.value, GetVariablesFromQueryParam(rc.variablesParam).value))
    ensures r.Fail? && r.status == UnsupportedMediaType <==>
      !rc.variablesParam.Malformed? && rc.queryParam.None?
      && GetContentType(rc.contentType) != ApplicationJson && GetContentType(rc.contentType) != ApplicationGraphQL
    ensures !rc.variablesParam.Malformed? && rc.queryParam.None? && GetContentType(rc.contentType) == ApplicationGraphQL ==>
      r == ExecOne(Query(rc.body, GetVariablesFromQueryParam(rc.variablesParam).value))
    ensures !rc.variablesParam.Malformed? && rc.queryParam.None? && GetContentType(rc.contentType) == ApplicationJson ==>
      r == HandlePostJson(rc.decodedBody, GetVariablesFromQueryParam(rc.variablesParam).value, batchingEnabled)
    ensures r.Fail? ==> r.status in {BadRequest, UnsupportedMediaType, InternalServerError}
  {
    match GetVariablesFromQueryParam(rc.variablesParam)
    case None => Fail(BadRequest, MalformedVariables)
    case Some(vars) =>
      if rc.queryParam.Some? then ExecOne(Query(rc.queryParam.value, vars))
      else
        var contentType := GetContentType(rc.contentType);
        if contentType == ApplicationJson then HandlePostJson(rc.decodedBody, vars, batchingEnabled)
        else if contentType == ApplicationGraphQL then ExecOne(Query(rc.body, vars))
        else Fail(UnsupportedMediaType, NoCause)
  }

  /** The whole decision for one request. */
  function Handle(rc: Request, batchingEnabled: bool): (r: Outcome)
    ensures r == Fail(MethodNotAllowed, NoCause) <==> rc.httpMethod != GET && rc.httpMethod != POST
    ensures rc.httpMethod == GET ==> r == HandleGet(rc)
    ensures rc.httpMethod == POST ==> r == HandlePost(rc, batchingEnabled)
    ensures r.Fail? ==> r.status in {BadRequest, MethodNotAllowed, UnsupportedMediaType, InternalServerError}
    ensures r.ExecBatch? ==>
      rc.httpMethod == POST && batchingEnabled && rc.queryParam.None? && !rc.variablesParam.Malformed?
      && GetContentType(rc.contentType) == ApplicationJson && rc.decodedBody.BatchOfQueries?
  {
    if rc.httpMethod == GET then HandleGet(rc)
    else if rc.httpMethod == POST then HandlePost(rc, batchingEnabled)
    else Fail(MethodNotAllowed, NoCause)
  }

  /** On POST, a `query` URL parameter decides alone: the media type and the body are not read. */
  lemma QueryParamOverridesBody(rc1: Request, rc2: Request, batchingEnabled: bool)
    requires rc1.httpMethod == POST && rc2.httpMethod == POST
    requires rc1.queryParam.Some? && rc1.queryParam == rc2.queryParam
    requires rc1.variablesParam == rc2.variablesParam
    ensures Handle(rc1, batchingEnabled) == Handle(rc2, batchingEnabled)
    ensures Handle(rc1, batchingEnabled).ExecOne? || Handle(rc1, batchingEnabled) == Fail(BadRequest, MalformedVariables)
  {
  }

  /** A GET is decided by its URL parameters alone: media type, body and batching option play no part. */
  lemma GetReadsOnlyUrlParameters(rc1: Request, rc2: Request, batching1: bool, batching2: bool)
    requires rc1.httpMethod == GET && rc2.httpMethod == GET
    requires rc1.queryParam == rc2.queryParam && rc1.variablesParam == rc2.variablesParam
    ensures Handle(rc1, batching1) == Handle(rc2, batching2)
  {
  }
}
