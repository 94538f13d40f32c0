/**
 * The Koa error interceptor: on success it rewrites a truthy `body.status`
 * to the response status; on a throw it turns the error into an
 * `HttpException`, builds the error envelope and writes it into the context.
 * Logging is outside the model.
 */
module ErrorInterceptor {
  import opened Wrappers
  import opened Json
  import opened ApiDto
  import opened BaseExceptions
  import opened HttpExceptions

  /** What a downstream handler can throw: a plain `Error`, a `BaseException` or an `HttpException`. */
  datatype Thrown =
    | PlainError(message: string)
    | BaseThrown(base: BaseException)
    | HttpThrown(http: HttpException)

  /** `error.message` */
  function MessageOf(e: Thrown): string {
    match e
    case PlainError(m) => m
    case BaseThrown(b) => b.Message()
    case HttpThrown(h) => h.Message()
  }

  const InternalServerError := 500

  /** The error after `if (!(error instanceof HttpException)) error = new HttpException(error.message, 500)`. */
  function AsHttpException(names: StatusNames, e: Thrown): (h: HttpException)
    ensures e.HttpThrown? ==> h == e.http
    ensures !e.HttpThrown? ==> h.Status() == InternalServerError && h.Description() == ""
    ensures !e.HttpThrown? && MessageOf(e) != "" ==> h.Message() == MessageOf(e)
    ensures !e.HttpThrown? && MessageOf(e) == "" ==> h.Message() == StatusName(names, InternalServerError)
    ensures h.ErrorCode() == HttpBaseError
  {
    if e.HttpThrown? then e.http else NewHttpException(names, Some(MessageOf(e)), Some(InternalServerError), None)
  }

  /** The envelope built from an `HttpException` and the request it answers. */
  function ErrorBody(h: HttpException, httpMethod: string, path: string, now: Timestamp): (b: ApiResError)
    ensures !b.success
    ensures b.status == h.Status() && b.errorCode == ErrorCodeValue(h.ErrorCode()) && b.message == h.Message()
    ensures b.httpMethod == Some(httpMethod) && b.path == Some(path) && b.timestamp == Some(now)
    ensures b.description.Some? <==> h.Description() != ""
    ensures b.description.Some? ==> b.description.value == h.Description()
  {
    ApiResError(false, h.Status(), ErrorCodeValue(h.ErrorCode()), h.Message(),
                if h.Description() != "" then Some(h.Description()) else None,
                Some(path), Some(now), Some(httpMethod))
  }

  // ---------------------------------------------------------------------------
  // The envelope as the JSON the client receives

  /** Adds a string field when it is defined; an `undefined` field is left out. */
  function WithString(fields: map<string, Json>, key: string, v: Option<string>): (r: map<string, Json>)
    ensures key !in fields ==> ReadString(r, key) == v
    ensures key in r <==> key in fields || v.Some?
    ensures forall k :: k != key ==> (k in r <==> k in fields)
    ensures forall k :: k != key && k in fields ==> r[k] == fields[k]
  {
    if v.Some? then fields[key := JStr(v.value)] else fields
  }

  /** Adds a number field when it is defined. */
  function WithNumber(fields: map<string, Json>, key: string, v: Option<int>): (r: map<string, Json>)
    ensures key !in fields ==> ReadNumber(r, key) == v
    ensures forall k :: k != key ==> (k in r <==> k in fields)
    ensures forall k :: k != key && k in fields ==> r[k] == fields[k]
  {
    if v.Some? then fields[key := JNum(v.value)] else fields
  }

  /** The envelope as a JSON object: fields that are `undefined` are absent. */
  function ErrorBodyJson(b: ApiResError): Json {
    var required := map["success" := JBool(b.success), "status" := JNum(b.status),
                        "errorCode" := JStr(b.errorCode), "message" := JStr(b.message)];
    JObj(WithString(WithNumber(WithString(WithString(required, "description", b.description),
                                          "path", b.path), "timestamp", b.timestamp), "method", b.httpMethod))
  }

  function ReadString(fields: map<string, Json>, key: string): Option<string> {
    if key in fields && fields[key].JStr? then Some(fields[key].s) else None
  }

  function ReadNumber(fields: map<string, Json>, key: string): Option<int> {
    if key in fields && fields[key].JNum? then Some(fields[key].n) else None
  }

  /** Reads an error envelope back from JSON. */
  function ParseErrorBody(j: Json): Option<ApiResError> {
    if j.JObj? && "success" in j.fields && j.fields["success"].JBool?
       && ReadNumber(j.fields, "status").Some? && ReadString(j.fields, "errorCode").Some?
       && ReadString(j.fields, "message").Some?
    then Some(ApiResError(j.fields["success"].b, ReadNumber(j.fields, "status").value,
                          ReadString(j.fields, "errorCode").value, ReadString(j.fields, "message").value,
                          ReadString(j.fields, "description"), ReadString(j.fields, "path"),
                          ReadNumber(j.fields, "timestamp"), ReadString(j.fields, "method")))
    else None
  }

  /** The JSON form of an envelope reads back as the same envelope. */
  lemma ErrorBodyJsonRoundTrip(b: ApiResError)
    ensures ParseErrorBody(ErrorBodyJson(b)) == Some(b)
  {
    var required := map["success" := JBool(b.success), "status" := JNum(b.status),
                        "errorCode" := JStr(b.errorCode), "message" := JStr(b.message)];
    var m1 := WithString(required, "description", b.description);
    var m2 := WithString(m1, "path", b.path);
    var m3 := WithNumber(m2, "timestamp", b.timestamp);
    var m4 := WithString(m3, "method", b.httpMethod);
    assert ErrorBodyJson(b) == JObj(m4);
    assert ReadString(m1, "description") == b.description;
    assert ReadString(m2, "description") == b.description && ReadString(m2, "path") == b.path;
    assert ReadString(m3, "description") == b.description && ReadString(m3, "path") == b.path;
    assert ReadNumber(m3, "timestamp") == b.timestamp;
    assert ReadString(m4, "description") == b.description && ReadString(m4, "path") == b.path;
    assert ReadNumber(m4, "timestamp") == b.timestamp && ReadString(m4, "method") == b.httpMethod;
    assert m4["success"] == JBool(b.success);
    assert ReadNumber(m4, "status") == Some(b.status);
    assert ReadString(m4, "errorCode") == Some(b.errorCode) && ReadString(m4, "message") == Some(b.message);
  }

  /** Whether the JSON envelope of `b` has the key `k`: the four required keys, and each optional one when defined. */
  predicate HasKey(b: ApiResError, k: string) {
    || k == "success" || k == "status" || k == "errorCode" || k == "message"
    || (k == "description" && b.description.Some?)
    || (k == "path" && b.path.Some?)
    || (k == "timestamp" && b.timestamp.Some?)
    || (k == "method" && b.httpMethod.Some?)
  }

  /** The JSON envelope has the four required keys, each optional key exactly when that field is defined, and no other. */
  lemma ErrorBodyJsonKeys(b: ApiResError, k: string)
    ensures ErrorBodyJson(b).JObj?
    ensures k in ErrorBodyJson(b).fields <==> HasKey(b, k)
  {
  }

  /** `description` is a key of the JSON envelope exactly when the envelope has one. */
  lemma ErrorBodyJsonDescription(b: ApiResError)
    ensures "description" in ErrorBodyJson(b).fields <==> b.description.Some?
  {
  }

  // ---------------------------------------------------------------------------
  // Properties of the error mapping

  /** A plain error or a `BaseException` becomes a 500 with `HTTP_BASE_ERROR` and never has a description. */
  lemma UnclassifiedBecomes500(names: StatusNames, e: Thrown, httpMethod: string, path: string, now: Timestamp)
    requires !e.HttpThrown?
    ensures var b := ErrorBody(AsHttpException(names, e), httpMethod, path, now);
      && b.status == 500 && b.errorCode == "HTTP_BASE_ERROR" && b.description.None?
      && (MessageOf(e) != "" ==> b.message == MessageOf(e))
      && "description" !in ErrorBodyJson(b).fields
  {
    ErrorBodyJsonDescription(ErrorBody(AsHttpException(names, e), httpMethod, path, now));
  }

  /** An `HttpException` keeps its own status, code, message and description. */
  lemma HttpExceptionKept(names: StatusNames, h: HttpException, httpMethod: string, path: string, now: Timestamp)
    ensures var b := ErrorBody(AsHttpException(names, HttpThrown(h)), httpMethod, path, now);
      && b.status == h.Status() && b.errorCode == "HTTP_BASE_ERROR" && b.message == h.Message()
      && ("description" in ErrorBodyJson(b).fields <==> h.Description() != "")
  {
    ErrorBodyJsonDescription(ErrorBody(h, httpMethod, path, now));
  }

  /** An error's message is carried into the envelope whenever it is non-empty. */
  lemma MessageCarried(names: StatusNames, e: Thrown, httpMethod: string, path: string, now: Timestamp)
    requires MessageOf(e) != ""
    ensures ErrorBody(AsHttpException(names, e), httpMethod, path, now).message == MessageOf(e)
  {
  }

  // ---------------------------------------------------------------------------
  // The success path

  /** `if (body && body['status']) body['status'] = ctx.status`, on `ctx.body ?? {}` */
  function RewriteStatus(body: Option<Json>, status: int): (r: Option<Json>)
    ensures body.Some? && body.value.JObj? && "status" in body.value.fields && Truthy(body.value.fields["status"])
            ==> r == Some(JObj(body.value.fields["status" := JNum(status)]))
    ensures !(body.Some? && body.value.JObj? && "status" in body.value.fields && Truthy(body.value.fields["status"]))
            ==> r == body
  {
    match body
    case Some(JObj(fields)) =>
      if "status" in fields && Truthy(fields["status"]) then Some(JObj(fields["status" := JNum(status)])) else body
    case _ => body
  }

  /** The rewrite changes at most the value of `status`: the key set and every other field stay. */
  lemma RewriteKeepsOtherFields(fields: map<string, Json>, status: int)
    ensures var r := RewriteStatus(Some(JObj(fields)), status);
      && r.Some? && r.value.JObj? && r.value.fields.Keys == fields.Keys
      && forall k :: k in fields && k != "status" ==> r.value.fields[k] == fields[k]
  {
  }

  /** Rewriting twice with the same status is rewriting once. */
  lemma RewriteIdempotent(body: Option<Json>, status: int)
    ensures RewriteStatus(RewriteStatus(body, status), status) == RewriteStatus(body, status)
  {
    if body.Some? && body.value.JObj? && "status" in body.value.fields && Truthy(body.value.fields["status"]) {
      var f := body.value.fields["status" := JNum(status)];
      if Truthy(JNum(status)) {
        assert f["status" := JNum(status)] == f;
      }
    }
  }

  /** The `status` of an envelope built by `new ApiResDataDTO` becomes the response status unless it was 0. */
  lemma RewriteEnvelopeStatus(fields: map<string, Json>, oldStatus: int, status: int)
    requires "status" in fields && fields["status"] == JNum(oldStatus)
    ensures oldStatus != 0 ==> RewriteStatus(Some(JObj(fields)), status).value.fields["status"] == JNum(status)
    ensures oldStatus == 0 ==> RewriteStatus(Some(JObj(fields)), status) == Some(JObj(fields))
  {
  }

  // ---------------------------------------------------------------------------
  // The context and the two entry points

  /** The part of a Koa `ctx` the interceptor reads and writes. */
  class KoaContext {
    const httpMethod: string
    const path: string
    var status: int
    var body: Option<Json>

    constructor (httpMethod: string, path: string, status: int, body: Option<Json>)
      ensures this.httpMethod == httpMethod && this.path == path
      ensures this.status == status && this.body == body
    {
      this.httpMethod := httpMethod;
      this.path := path;
      this.status := status;
      this.body := body;
    }
  }

  /** `koaErrorHandler(error, ctx)`; `now` is the time `new Date()` reads. Returns the (possibly wrapped) error. */
  method KoaErrorHandler(names: StatusNames, error: Thrown, ctx: KoaContext, now: Timestamp) returns (handled: Thrown)
    modifies ctx
    ensures handled == HttpThrown(AsHttpException(names, error))
    ensures ctx.body == Some(ErrorBodyJson(ErrorBody(handled.http, ctx.httpMethod, ctx.path, now)))
    ensures ctx.status == handled.http.Status()
  {
    var err := error;
    if !err.HttpThrown? {
      err := HttpThrown(NewHttpException(names, Some(MessageOf(error)), Some(InternalServerError), None));
    }
    var httpError := err.http;
    var body := ApiResError(false, httpError.Status(), ErrorCodeValue(httpError.ErrorCode()), MessageOf(err),
                            None, Some(ctx.path), Some(now), Some(ctx.httpMethod));
    if httpError.Description() != "" {
      body := body.(description := Some(httpError.Description()));
    }
    ctx.status := body.status;
    ctx.body := Some(ErrorBodyJson(body));
    handled := err;
  }

  /** What `await next()` does: leave a status and a body in the context, or throw. */
  datatype NextOutcome =
    | Resolved(status: int, body: Option<Json>)
    | Rejected(error: Thrown)

  /** `KoaHttpErrorInterceptor(ctx, next)` */
  method KoaHttpErrorInterceptor(names: StatusNames, ctx: KoaContext, next: NextOutcome, now: Timestamp)
    modifies ctx
    ensures next.Resolved? ==> ctx.status == next.status && ctx.body == RewriteStatus(next.body, next.status)
    ensures next.Rejected? ==>
      var h := AsHttpException(names, next.error);
      ctx.status == h.Status() && ctx.body == Some(ErrorBodyJson(ErrorBody(h, ctx.httpMethod, ctx.path, now)))
  {
    match next
    case Resolved(status, body) =>
      ctx.status, ctx.body := status, body;
      ctx.body := RewriteStatus(ctx.body, ctx.status);
    case Rejected(error) =>
      var _ := KoaErrorHandler(names, error, ctx, now);
  }
}
