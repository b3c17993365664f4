/**
 * The feed API client: the requests each operation sends, and the mapping
 * from an HTTP reply to either a payload or an error, with the provider's
 * special statuses checked before any generic status handling.
 *
 * The transport itself is a parameter: `api` maps a request to the reply the
 * service gives (or a timeout or another transport failure).
 */
module Client {
  import opened Wrappers
  import opened Json

  // ---------------------------------------------------------------------------
  // Errors and replies
  // ---------------------------------------------------------------------------

  /** The client's own error: a message and, for HTTP statuses, the status code. */
  datatype FeedlyError = FeedlyError(message: string, statusCode: Option<int>)

  /** Every failure a tool call can meet, as the tool boundary distinguishes them. */
  datatype RequestError =
    | Feedly(feedly: FeedlyError)
      // the generic HTTP status error raised by `raise_for_status`
    | HttpStatus(status: int, text: string)
    | TimedOut
      // any other exception: its class name and message
    | Unexpected(kind: string, message: string)

  /** Python's class name of a payload, as an error message shows it. */
  function TypeName(payload: Option<Value>): string
  {
    match payload
    case None => "NoneType"
    case Some(v) =>
      match v
      case JNull => "NoneType"
      case JBool(_) => "bool"
      case JInt(_) => "int"
      case JStr(_) => "str"
      case JArray(_) => "list"
      case JObject(_) => "dict"
  }

  /** The error of calling `.get` on a payload that is not an object. */
  function NoGet(payload: Option<Value>): RequestError
  {
    Unexpected("AttributeError", "'" + TypeName(payload) + "' object has no attribute 'get'")
  }

  /** An HTTP reply: status, body text, and the body decoded as JSON or the decoder's message. */
  datatype Response = Response(status: int, text: string, json: Result<Value, string>)

  /** What the transport yields for one request. */
  datatype Reply =
    | Timeout
    | Broken(kind: string, message: string)
    | Answered(response: Response)

  /** The outcome of one call: the payload (None for an empty reply) or an error. */
  type Outcome = Result<Option<Value>, RequestError>

  const AuthFailedMessage := "Authentication failed. Check FEEDLY_ACCESS_TOKEN."
  const ForbiddenMessage := "Access forbidden. Check your Feedly plan."
  const NotFoundMessage := "Resource not found. Check the ID."
  const RateLimitMessage := "Rate limit exceeded. Wait before retrying."

  /** A success status as `raise_for_status` sees it. */
  predicate IsSuccessStatus(status: int)
  {
    200 <= status <= 299
  }

  /** The statuses the client maps to its own errors before generic handling. */
  predicate IsSpecialStatus(status: int)
  {
    status == 401 || status == 403 || status == 404 || status == 429
  }

  /** The status code an error carries, if any. */
  function StatusOf(e: RequestError): Option<int>
  {
    match e
    case Feedly(f) => f.statusCode
    case HttpStatus(s, _) => Some(s)
    case TimedOut => None
    case Unexpected(_, _) => None
  }

  /** The status dispatch of `_request`, in its order of checks. */
  function Dispatch(resp: Response): (r: Outcome)
    ensures resp.status == 401 ==> r == Failure(Feedly(FeedlyError(AuthFailedMessage, Some(401))))
    ensures resp.status == 403 ==> r == Failure(Feedly(FeedlyError(ForbiddenMessage, Some(403))))
    ensures resp.status == 404 ==> r == Failure(Feedly(FeedlyError(NotFoundMessage, Some(404))))
    ensures resp.status == 429 ==> r == Failure(Feedly(FeedlyError(RateLimitMessage, Some(429))))
    ensures !IsSpecialStatus(resp.status) && !IsSuccessStatus(resp.status) ==>
              r == Failure(HttpStatus(resp.status, resp.text))
    ensures resp.status == 204 ==> r == Success(None)
    ensures IsSuccessStatus(resp.status) && resp.status != 204 ==>
              r == match resp.json
                   case Success(v) => Success(Some(v))
                   case Failure(m) => Failure(Unexpected("JSONDecodeError", m))
  {
    if resp.status == 401 then Failure(Feedly(FeedlyError(AuthFailedMessage, Some(401))))
    else if resp.status == 403 then Failure(Feedly(FeedlyError(ForbiddenMessage, Some(403))))
    else if resp.status == 404 then Failure(Feedly(FeedlyError(NotFoundMessage, Some(404))))
    else if resp.status == 429 then Failure(Feedly(FeedlyError(RateLimitMessage, Some(429))))
    else if !IsSuccessStatus(resp.status) then Failure(HttpStatus(resp.status, resp.text))
    else if resp.status == 204 then Success(None)
    else match resp.json
      case Success(v) => Success(Some(v))
      case Failure(m) => Failure(Unexpected("JSONDecodeError", m))
  }

  /**
   * A reply succeeds exactly when its status is 2xx and its body is empty
   * (204) or decodes; every other status fails with an error that carries
   * that very status.
   */
  lemma DispatchSuccessIff(resp: Response)
    ensures Dispatch(resp).Success? <==>
              IsSuccessStatus(resp.status) && (resp.status == 204 || resp.json.Success?)
    ensures !IsSuccessStatus(resp.status) ==> StatusOf(Dispatch(resp).error) == Some(resp.status)
    ensures Dispatch(resp).Success? && Dispatch(resp).value.None? ==> resp.status == 204
  {
  }

  // ---------------------------------------------------------------------------
  // Requests
  // ---------------------------------------------------------------------------

  datatype Verb = Get | Post

  /** One HTTP request: verb, endpoint path, query parameters and JSON body. */
  datatype Request = Request(verb: Verb, endpoint: string, params: map<string, Value>, body: Option<Value>)

  /** `_request`: send the request and dispatch on the reply. */
  function Execute(api: Request -> Reply, req: Request): (r: Outcome)
    ensures api(req).Timeout? ==> r == Failure(TimedOut)
    ensures api(req).Broken? ==> r == Failure(Unexpected(api(req).kind, api(req).message))
    ensures api(req).Answered? ==> r == Dispatch(api(req).response)
  {
    match api(req)
    case Timeout => Failure(TimedOut)
    case Broken(kind, message) => Failure(Unexpected(kind, message))
    case Answered(resp) => Dispatch(resp)
  }

  const TagsRequest := Request(Get, "/tags", map[], None)
  const UnreadCountsRequest := Request(Get, "/markers/counts", map[], None)

  /**
   * The stream-contents query: always the stream ID, count and ranking;
   * `unreadOnly = "true"` exactly when unread-only is asked; the continuation
   * token exactly when it is non-empty; nothing else.
   */
  predicate IsStreamContentsQuery(req: Request, streamId: string, count: int, unreadOnly: bool,
                                  continuation: Option<string>, ranked: string)
  {
    && req.verb == Get && req.endpoint == "/streams/contents" && req.body.None?
    && req.params.Keys ==
         {"streamId", "count", "ranked"}
         + (if unreadOnly then {"unreadOnly"} else {})
         + (if TruthyStr(continuation) then {"continuation"} else {})
    && req.params["streamId"] == JStr(streamId)
    && req.params["count"] == JInt(count)
    && req.params["ranked"] == JStr(ranked)
    && (unreadOnly ==> req.params["unreadOnly"] == JStr("true"))
    && (TruthyStr(continuation) ==> req.params["continuation"] == JStr(continuation.value))
  }

  /** The conditions leave no freedom: the query is determined by its arguments. */
  lemma StreamContentsQueryUnique(req1: Request, req2: Request, streamId: string, count: int,
                                  unreadOnly: bool, continuation: Option<string>, ranked: string)
    requires IsStreamContentsQuery(req1, streamId, count, unreadOnly, continuation, ranked)
    requires IsStreamContentsQuery(req2, streamId, count, unreadOnly, continuation, ranked)
    ensures req1 == req2
  {
    assert forall k :: k in req1.params ==> req1.params[k] == req2.params[k];
  }

  /** The query of `get_stream_contents`, built and then extended in place. */
  method StreamContentsRequest(streamId: string, count: int, unreadOnly: bool,
                               continuation: Option<string>, ranked: string)
    returns (req: Request)
    ensures IsStreamContentsQuery(req, streamId, count, unreadOnly, continuation, ranked)
  {
    var params := map["streamId" := JStr(streamId), "count" := JInt(count), "ranked" := JStr(ranked)];
    if unreadOnly {
      params := params["unreadOnly" := JStr("true")];
    }
    if TruthyStr(continuation) {
      params := params["continuation" := JStr(continuation.value)];
    }
    req := Request(Get, "/streams/contents", params, None);
  }

  /** A single entry; `quote` is the URL-encoding of the ID (with no safe characters). */
  function EntryRequest(entryId: string, quote: string -> string): (req: Request)
    ensures req.verb == Get && req.endpoint == "/entries/" + quote(entryId)
    ensures req.params == map[] && req.body.None?
  {
    Request(Get, "/entries/" + quote(entryId), map[], None)
  }

  /** Several entries in one call: the ID list itself is the body. */
  function EntriesRequest(entryIds: seq<string>): (req: Request)
    ensures req.verb == Post && req.endpoint == "/entries/.mget" && req.params == map[]
    ensures req.body == Some(JArray(FromStrings(entryIds)))
  {
    Request(Post, "/entries/.mget", map[], Some(JArray(FromStrings(entryIds))))
  }

  /** The fields of a request's JSON object body (none if it has no object body). */
  function BodyFields(req: Request): map<string, Value>
  {
    if req.body.Some? then FieldsOf(req.body.value) else map[]
  }

  /** The entry IDs a marker body carries, read back as strings. */
  function MarkedEntryIds(req: Request): Option<seq<string>>
  {
    var body := BodyFields(req);
    if "entryIds" in body && body["entryIds"].JArray? then ToStrings(body["entryIds"].items) else None
  }

  /** Marking entries read: a marker body over the entry list, unchanged. */
  function MarkAsReadRequest(entryIds: seq<string>): (req: Request)
    ensures req.verb == Post && req.endpoint == "/markers" && req.params == map[]
    ensures BodyFields(req).Keys == {"action", "type", "entryIds"}
    ensures BodyFields(req)["action"] == JStr("markAsRead")
    ensures BodyFields(req)["type"] == JStr("entries")
    ensures MarkedEntryIds(req) == Some(entryIds)
  {
    ToStringsFromStrings(entryIds);
    Request(Post, "/markers", map[], Some(JObject(map[
      "action" := JStr("markAsRead"),
      "type" := JStr("entries"),
      "entryIds" := JArray(FromStrings(entryIds))])))
  }

  /** Keeping entries unread: the same marker body with the other action. */
  function KeepUnreadRequest(entryIds: seq<string>): (req: Request)
    ensures req.verb == Post && req.endpoint == "/markers" && req.params == map[]
    ensures BodyFields(req).Keys == {"action", "type", "entryIds"}
    ensures BodyFields(req)["action"] == JStr("keepUnread")
    ensures BodyFields(req)["type"] == JStr("entries")
    ensures MarkedEntryIds(req) == Some(entryIds)
  {
    ToStringsFromStrings(entryIds);
    Request(Post, "/markers", map[], Some(JObject(map[
      "action" := JStr("keepUnread"),
      "type" := JStr("entries"),
      "entryIds" := JArray(FromStrings(entryIds))])))
  }

  /** The two entry-marker requests differ in their action and in nothing else. */
  lemma {:induction false} MarkAndKeepDifferOnlyInAction(entryIds: seq<string>)
    ensures KeepUnreadRequest(entryIds) ==
              MarkAsReadRequest(entryIds).(body := Some(JObject(
                BodyFields(MarkAsReadRequest(entryIds))["action" := JStr("keepUnread")])))
  {
    var m := BodyFields(MarkAsReadRequest(entryIds));
    var k := BodyFields(KeepUnreadRequest(entryIds));
    assert m["action" := JStr("keepUnread")] == k;
  }

  /**
   * A stream mark-read request: action, target type and a one-element ID
   * list under `idsKey`, plus `asOf` exactly when a cutoff is given (zero
   * included); nothing else.
   */
  predicate IsStreamMark(req: Request, targetType: string, idsKey: string, id: string, asOf: Option<int>)
  {
    && req.verb == Post && req.endpoint == "/markers" && req.params == map[]
    && req.body.Some? && req.body.value.JObject?
    && BodyFields(req).Keys == {"action", "type", idsKey} + (if asOf.Some? then {"asOf"} else {})
    && BodyFields(req)["action"] == JStr("markAsRead")
    && BodyFields(req)["type"] == JStr(targetType)
    && BodyFields(req)[idsKey] == JArray([JStr(id)])
    && (asOf.Some? ==> BodyFields(req)["asOf"] == JInt(asOf.value))
  }

  /** The conditions determine the request, as long as the ID key is not one of the fixed keys. */
  lemma StreamMarkUnique(req1: Request, req2: Request, targetType: string, idsKey: string, id: string, asOf: Option<int>)
    requires idsKey !in {"action", "type", "asOf"}
    requires IsStreamMark(req1, targetType, idsKey, id, asOf)
    requires IsStreamMark(req2, targetType, idsKey, id, asOf)
    ensures req1 == req2
  {
    assert forall k :: k in BodyFields(req1) ==> BodyFields(req1)[k] == BodyFields(req2)[k];
    assert BodyFields(req1) == BodyFields(req2);
  }

  /** The shared body of `mark_feed_as_read` and `mark_category_as_read`, extended in place. */
  method StreamMarkRequest(targetType: string, idsKey: string, id: string, asOf: Option<int>)
    returns (req: Request)
    requires idsKey !in {"action", "type", "asOf"}
    ensures IsStreamMark(req, targetType, idsKey, id, asOf)
  {
    var data := map["action" := JStr("markAsRead"), "type" := JStr(targetType), idsKey := JArray([JStr(id)])];
    if asOf.Some? {
      data := data["asOf" := JInt(asOf.value)];
    }
    req := Request(Post, "/markers", map[], Some(JObject(data)));
  }

  /** `mark_feed_as_read`: a "feeds" marker over the one feed ID. */
  method MarkFeedAsReadRequest(feedId: string, asOf: Option<int>) returns (req: Request)
    ensures IsStreamMark(req, "feeds", "feedIds", feedId, asOf)
  {
    req := StreamMarkRequest("feeds", "feedIds", feedId, asOf);
  }

  /** `mark_category_as_read`: a "categories" marker over the one category ID. */
  method MarkCategoryAsReadRequest(categoryId: string, asOf: Option<int>) returns (req: Request)
    ensures IsStreamMark(req, "categories", "categoryIds", categoryId, asOf)
  {
    req := StreamMarkRequest("categories", "categoryIds", categoryId, asOf);
  }
}
