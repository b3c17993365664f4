/**
 * The tool bodies as compositions of the helpers: make a client (which needs
 * the access token), send one request, render the payload or the
 * confirmation, cap the length of what is rendered, and turn any failure
 * into an "Error: ..." string.
 *
 * The environment of a call bundles the token and the foreign functions:
 * the transport, the JSON serialiser, the local-time rendering of a
 * timestamp and URL quoting.
 */
module Tools {
  import opened Wrappers
  import opened Json
  import opened Text
  import opened Client
  import Models
  import Render
  import Unread

  datatype Env = Env(
    token: Option<string>,
    api: Request -> Reply,
    dumps: Value -> string,
    localTime: int -> Option<string>,
    quote: string -> string)

  // ---------------------------------------------------------------------------
  // Client and errors
  // ---------------------------------------------------------------------------

  const MissingTokenMessage := "FEEDLY_ACCESS_TOKEN environment variable not set"

  /**
   * `get_client` followed by one call: a missing or empty token fails before
   * any request is sent; otherwise the outcome is what the service replies.
   */
  function Fetch(env: Env, req: Request): (r: Outcome)
    ensures !TruthyStr(env.token) ==> r == Failure(Feedly(FeedlyError(MissingTokenMessage, None)))
    ensures TruthyStr(env.token) ==> r == Execute(env.api, req)
  {
    if !TruthyStr(env.token) then Failure(Feedly(FeedlyError(MissingTokenMessage, None)))
    else Execute(env.api, req)
  }

  /** Without a token the transport is never consulted: any transport and any request give the same outcome. */
  lemma NoTokenNoRequest(env: Env, other: Request -> Reply, req1: Request, req2: Request)
    requires !TruthyStr(env.token)
    ensures Fetch(env, req1) == Fetch(env.(api := other), req2)
  {
  }

  const TimeoutMessage := "Request timed out. Try again."

  /** An error string: the fixed prefix and the detail. */
  function ErrorText(detail: string): (r: string)
    ensures r == "Error: " + detail && StartsWith(r, "Error: ")
  {
    assert ("Error: " + detail)[..7] == "Error: ";
    "Error: " + detail
  }

  /** `_handle_error`: every failure becomes a string starting with "Error: ". */
  function HandleError(e: RequestError): (r: string)
    ensures StartsWith(r, "Error: ")
    ensures e.Feedly? ==> r == "Error: " + e.feedly.message
    ensures e.TimedOut? ==> r == "Error: " + TimeoutMessage
    ensures e.HttpStatus? ==> r == "Error: HTTP " + IntToString(e.status) + ": " + e.text
    ensures e.Unexpected? ==> r == "Error: " + e.kind + ": " + e.message
  {
    match e
    case Feedly(f) => ErrorText(f.message)
    case TimedOut => ErrorText(TimeoutMessage)
    case HttpStatus(status, body) => ErrorText("HTTP " + IntToString(status) + ": " + body)
    case Unexpected(kind, message) => ErrorText(kind + ": " + message)
  }

  /**
   * What a failed reply reads as at the tool boundary: the four special
   * statuses show their fixed messages and every other non-2xx status shows
   * its code and body.
   */
  lemma StatusErrorText(resp: Response)
    ensures resp.status == 401 ==>
              HandleError(Dispatch(resp).error) == "Error: " + AuthFailedMessage
    ensures resp.status == 403 ==>
              HandleError(Dispatch(resp).error) == "Error: " + ForbiddenMessage
    ensures resp.status == 404 ==>
              HandleError(Dispatch(resp).error) == "Error: " + NotFoundMessage
    ensures resp.status == 429 ==>
              HandleError(Dispatch(resp).error) == "Error: " + RateLimitMessage
    ensures !IsSpecialStatus(resp.status) && !IsSuccessStatus(resp.status) ==>
              HandleError(Dispatch(resp).error) == "Error: HTTP " + IntToString(resp.status) + ": " + resp.text
  {
  }

  const StrNoGet := Unexpected("AttributeError", "'str' object has no attribute 'get'")

  /**
   * A payload iterated as a list of records: a falsy payload is no records;
   * a list gives its elements; iterating a dict or a string yields strings,
   * on which `.get` fails; a number cannot be iterated.
   */
  function RecordsOf(payload: Option<Value>): (r: Result<seq<Value>, RequestError>)
    ensures (payload.None? || !Truthy(payload.value)) ==> r == Success([])
    ensures payload.Some? && payload.value.JArray? ==> r == Success(payload.value.items)
    ensures r.Success? && r.value != [] ==> payload.Some? && payload.value.JArray?
    ensures payload.Some? && Truthy(payload.value) && (payload.value.JObject? || payload.value.JStr?) ==>
              r == Failure(StrNoGet)
    ensures payload.Some? && Truthy(payload.value) && payload.value.JInt? ==>
              r == Failure(Unexpected("TypeError", "'int' object is not iterable"))
    ensures payload.Some? && Truthy(payload.value) && payload.value.JBool? ==>
              r == Failure(Unexpected("TypeError", "'bool' object is not iterable"))
  {
    if payload.None? || !Truthy(payload.value) then Success([])
    else match payload.value
      case JArray(items) => Success(items)
      case JObject(_) => Failure(StrNoGet)
      case JStr(_) => Failure(StrNoGet)
      case JInt(_) => Failure(Unexpected("TypeError", "'int' object is not iterable"))
      case JBool(_) => Failure(Unexpected("TypeError", "'bool' object is not iterable"))
      case JNull => Success([])
  }

  /**
   * The tag list as `_format_tags_markdown` reads it: its length is taken
   * before the loop, so a truthy number fails on `len` rather than on
   * iteration; anything else is read as `RecordsOf` reads it.
   */
  function TagRecordsOf(payload: Option<Value>): (r: Result<seq<Value>, RequestError>)
    ensures payload.Some? && Truthy(payload.value) && (payload.value.JInt? || payload.value.JBool?) ==>
              r == Failure(Unexpected("TypeError", "object of type '" + TypeName(payload) + "' has no len()"))
    ensures !(payload.Some? && Truthy(payload.value) && (payload.value.JInt? || payload.value.JBool?)) ==>
              r == RecordsOf(payload)
  {
    if payload.Some? && Truthy(payload.value) && (payload.value.JInt? || payload.value.JBool?) then
      Failure(Unexpected("TypeError", "object of type '" + TypeName(payload) + "' has no len()"))
    else RecordsOf(payload)
  }

  // ---------------------------------------------------------------------------
  // Read tools
  // ---------------------------------------------------------------------------

  /** What a read tool returns for a payload once it is rendered: the capped text. */
  predicate Capped(r: string, rendered: string)
  {
    r == Render.TruncateResponse(rendered) && |r| <= Render.CharacterLimit
  }

  /** `feedly_get_tags`. */
  method GetTags(env: Env, params: Models.SimpleResponseFormatInput) returns (r: string)
    ensures var out := Fetch(env, TagsRequest);
            && (out.Failure? ==> r == HandleError(out.error))
            && (out.Success? && params.responseFormat == Models.JsonFormat ==>
                  Capped(r, env.dumps(out.value.GetOr(JNull))))
            && (out.Success? && params.responseFormat == Models.Markdown ==>
                  match TagRecordsOf(out.value)
                  case Failure(e) => r == HandleError(e)
                  case Success(items) => Capped(r, Render.TagsMarkdown(Render.TagsOf(items))))
  {
    var out := Fetch(env, TagsRequest);
    if out.Failure? {
      return HandleError(out.error);
    }
    if params.responseFormat == Models.JsonFormat {
      return Render.TruncateResponse(env.dumps(out.value.GetOr(JNull)));
    }
    var records := TagRecordsOf(out.value);
    if records.Failure? {
      return HandleError(records.error);
    }
    var text := Render.FormatTagsMarkdown(Render.TagsOf(records.value));
    r := Render.TruncateResponse(text);
  }

  /** `feedly_get_unread_counts`; the markdown path reads the payload with `.get`. */
  method GetUnreadCounts(env: Env, params: Models.SimpleResponseFormatInput) returns (r: string)
    ensures var out := Fetch(env, UnreadCountsRequest);
            && (out.Failure? ==> r == HandleError(out.error))
            && (out.Success? && params.responseFormat == Models.JsonFormat ==>
                  Capped(r, env.dumps(out.value.GetOr(JNull))))
            && (out.Success? && params.responseFormat == Models.Markdown ==>
                  if out.value.Some? && out.value.value.JObject? then
                    Capped(r, Unread.UnreadCountsMarkdown(Unread.CountsOf(out.value.value.fields), env.localTime))
                  else r == HandleError(NoGet(out.value)))
  {
    var out := Fetch(env, UnreadCountsRequest);
    if out.Failure? {
      return HandleError(out.error);
    }
    if params.responseFormat == Models.JsonFormat {
      return Render.TruncateResponse(env.dumps(out.value.GetOr(JNull)));
    }
    if !(out.value.Some? && out.value.value.JObject?) {
      return HandleError(NoGet(out.value));
    }
    var text := Unread.FormatUnreadCountsMarkdown(out.value.value.fields, env.localTime);
    r := Render.TruncateResponse(text);
  }

  /**
   * What `feedly_get_stream_contents` returns for an outcome: the error, or
   * the capped envelope or markdown of the page; a payload that is not an
   * object fails on `.get` in either format, and in markdown an entry of the
   * page that raises decides the error string.
   */
  ghost predicate StreamContentsResult(env: Env, format: Models.ResponseFormat, out: Outcome, r: string)
  {
    match out
    case Failure(e) => r == HandleError(e)
    case Success(payload) =>
      if payload.Some? && payload.value.JObject? then
        var page := Render.PageOf(payload.value);
        if format == Models.JsonFormat then
          exists envelope :: Render.IsEnvelope(envelope, page) && Capped(r, env.dumps(JObject(envelope)))
        else match Render.EntriesMarkdownOf(page.items, false, env.localTime)
          case Failure(e) => r == HandleError(e)
          case Success(_) => Capped(r, Render.StreamMarkdown(page, env.localTime))
      else r == HandleError(NoGet(payload))
  }

  /** `feedly_get_stream_contents`: the validated input becomes the query, the page is rendered. */
  method GetStreamContents(env: Env, params: Models.GetStreamContentsInput) returns (r: string)
    ensures exists req ::
              && IsStreamContentsQuery(req, params.streamId, params.count, params.unreadOnly,
                                       params.continuation, Models.RankedName(params.ranked))
              && StreamContentsResult(env, params.responseFormat, Fetch(env, req), r)
  {
    var req := StreamContentsRequest(params.streamId, params.count, params.unreadOnly,
                                     params.continuation, Models.RankedName(params.ranked));
    var out := Fetch(env, req);
    if out.Failure? {
      r := HandleError(out.error);
    } else if !(out.value.Some? && out.value.value.JObject?) {
      r := HandleError(NoGet(out.value));
    } else {
      var text := Render.FormatStreamContents(out.value.value, params.responseFormat, env.dumps, env.localTime);
      if text.Failure? {
        r := HandleError(text.error);
      } else {
        r := Render.TruncateResponse(text.value);
      }
    }
    assert StreamContentsResult(env, params.responseFormat, Fetch(env, req), r);
  }

  const NotFoundText := "Error: Article not found."

  /** The entry inside a non-empty reply: the first element of a list, or the reply itself. */
  function EntryPayload(payload: Value): Value
    requires Truthy(payload)
  {
    if payload.JArray? then payload.items[0] else payload
  }

  /**
   * `feedly_get_entry`: a missing or empty reply is "not found"; the entry is
   * rendered with its full content, or the exception its rendering raises
   * becomes the error string.
   */
  function GetEntry(env: Env, params: Models.GetEntryInput): (r: string)
    ensures var out := Fetch(env, EntryRequest(params.entryId, env.quote));
            && (out.Failure? ==> r == HandleError(out.error))
            && (out.Success? && (out.value.None? || !Truthy(out.value.value)) ==> r == NotFoundText)
            && (out.Success? && out.value.Some? && Truthy(out.value.value) ==>
                  var entry := EntryPayload(out.value.value);
                  if params.responseFormat == Models.JsonFormat then Capped(r, env.dumps(entry))
                  else match Render.EntryRaises(entry)
                    case Some(e) => r == HandleError(e)
                    case None => Capped(r, Render.EntryMarkdown(Render.EntryOf(entry), true, env.localTime)))
  {
    var out := Fetch(env, EntryRequest(params.entryId, env.quote));
    if out.Failure? then HandleError(out.error)
    else if out.value.None? || !Truthy(out.value.value) then NotFoundText
    else
      var entry := EntryPayload(out.value.value);
      if params.responseFormat == Models.JsonFormat then Render.TruncateResponse(env.dumps(entry))
      else match Render.EntryRaises(entry)
        case Some(e) => HandleError(e)
        case None => Render.TruncateResponse(Render.EntryMarkdown(Render.EntryOf(entry), true, env.localTime))
  }

  /**
   * `feedly_get_entries`: the entries are rendered with their full content;
   * the first entry whose rendering raises decides the error string.
   */
  function GetEntries(env: Env, params: Models.GetEntriesInput): (r: string)
    ensures var out := Fetch(env, EntriesRequest(params.entryIds));
            && (out.Failure? ==> r == HandleError(out.error))
            && (out.Success? && params.responseFormat == Models.JsonFormat ==>
                  Capped(r, env.dumps(out.value.GetOr(JNull))))
            && (out.Success? && params.responseFormat == Models.Markdown ==>
                  match RecordsOf(out.value)
                  case Failure(e) => r == HandleError(e)
                  case Success(items) =>
                    match Render.EntriesMarkdownOf(items, true, env.localTime)
                    case Failure(e) => r == HandleError(e)
                    case Success(text) => Capped(r, text))
  {
    var out := Fetch(env, EntriesRequest(params.entryIds));
    if out.Failure? then HandleError(out.error)
    else if params.responseFormat == Models.JsonFormat then Render.TruncateResponse(env.dumps(out.value.GetOr(JNull)))
    else match RecordsOf(out.value)
      case Failure(e) => HandleError(e)
      case Success(items) =>
        match Render.EntriesMarkdownOf(items, true, env.localTime)
        case Failure(e) => HandleError(e)
        case Success(text) => Render.TruncateResponse(text)
  }

  /**
   * An entry whose alternate list is empty but which has a canonical URL:
   * the entry tool returns the IndexError string instead of a block.
   */
  lemma EmptyAlternateEntryError(env: Env, params: Models.GetEntryInput)
    requires params.responseFormat == Models.Markdown
    requires Fetch(env, EntryRequest(params.entryId, env.quote)) ==
             Success(Some(JObject(map["id" := JStr("e"), "alternate" := JArray([]),
                                      "canonicalUrl" := JStr("https://example.com/a")])))
    ensures GetEntry(env, params) == HandleError(Unexpected("IndexError", "list index out of range"))
  {
    var m := map["id" := JStr("e"), "alternate" := JArray([]), "canonicalUrl" := JStr("https://example.com/a")];
    assert "id" in m;
    assert Truthy(JObject(m));
    assert m["alternate"] == JArray([]);
    assert GetArray(FieldsOf(JObject(m)), "alternate") == Some([]);
    assert |Render.EntryOf(JObject(m)).alternate.value| == 0;
    assert Render.EntryRaises(JObject(m)) == Some(Render.EmptyAlternateError);
  }

  // ---------------------------------------------------------------------------
  // Write tools
  // ---------------------------------------------------------------------------

  function MarkedText(n: nat): string
  {
    "Successfully marked " + NatToString(n) + " article(s) as read."
  }

  function KeptText(n: nat): string
  {
    "Successfully kept " + NatToString(n) + " article(s) as unread."
  }

  /** `feedly_mark_as_read`: on success the confirmation counts the IDs sent. */
  function MarkAsRead(env: Env, params: Models.MarkAsReadInput): (r: string)
    ensures var out := Fetch(env, MarkAsReadRequest(params.entryIds));
            && (out.Failure? ==> r == HandleError(out.error))
            && (out.Success? ==> r == MarkedText(|params.entryIds|))
  {
    var out := Fetch(env, MarkAsReadRequest(params.entryIds));
    if out.Failure? then HandleError(out.error) else MarkedText(|params.entryIds|)
  }

  /** `feedly_keep_unread`: on success the confirmation counts the IDs sent. */
  function KeepUnread(env: Env, params: Models.KeepUnreadInput): (r: string)
    ensures var out := Fetch(env, KeepUnreadRequest(params.entryIds));
            && (out.Failure? ==> r == HandleError(out.error))
            && (out.Success? ==> r == KeptText(|params.entryIds|))
  {
    var out := Fetch(env, KeepUnreadRequest(params.entryIds));
    if out.Failure? then HandleError(out.error) else KeptText(|params.entryIds|)
  }

  /**
   * A successful confirmation depends on the IDs alone, never on the reply:
   * two calls that both succeed, whatever they received, say the same; and
   * the two confirmations differ from each other and from every error.
   */
  lemma ConfirmationIgnoresReply(env1: Env, env2: Env, ids: seq<string>)
    requires Fetch(env1, MarkAsReadRequest(ids)).Success? && Fetch(env2, MarkAsReadRequest(ids)).Success?
    requires Fetch(env1, KeepUnreadRequest(ids)).Success? && Fetch(env2, KeepUnreadRequest(ids)).Success?
    ensures MarkAsRead(env1, Models.MarkAsReadInput(ids)) == MarkAsRead(env2, Models.MarkAsReadInput(ids))
    ensures KeepUnread(env1, Models.KeepUnreadInput(ids)) == KeepUnread(env2, Models.KeepUnreadInput(ids))
    ensures !StartsWith(MarkAsRead(env1, Models.MarkAsReadInput(ids)), "Error: ")
    ensures MarkAsRead(env1, Models.MarkAsReadInput(ids)) != KeepUnread(env1, Models.KeepUnreadInput(ids))
  {
    var marked := MarkAsRead(env1, Models.MarkAsReadInput(ids));
    var kept := KeepUnread(env1, Models.KeepUnreadInput(ids));
    assert marked[0] == 'S' && "Error: "[0] == 'E';
    assert marked[13] == 'm' && kept[13] == 'k';
  }

  /** The confirmation of a stream mark: the cutoff clause only for a truthy (non-zero) cutoff. */
  function StreamMarkedText(kind: string, id: string, asOf: Option<int>, localTime: int -> Option<string>): string
  {
    "Successfully marked " + kind + " as read: " + id
    + (if asOf.Some? && asOf.value != 0
       then " (entries before " + Render.FormatTimestamp(asOf, localTime) + ")" else "")
  }

  /**
   * A cutoff of zero is sent to the service (the body has `asOf = 0`) but the
   * confirmation does not mention it, unlike any other cutoff.
   */
  lemma ZeroCutoffSentButNotShown(req: Request, kind: string, idsKey: string, id: string,
                                  cutoff: int, localTime: int -> Option<string>)
    requires IsStreamMark(req, kind, idsKey, id, Some(cutoff))
    ensures "asOf" in BodyFields(req) && BodyFields(req)["asOf"] == JInt(cutoff)
    ensures StreamMarkedText(kind, id, Some(cutoff), localTime) == "Successfully marked " + kind + " as read: " + id
            <==> cutoff == 0
  {
    var base := "Successfully marked " + kind + " as read: " + id;
    if cutoff != 0 {
      var clause := " (entries before " + Render.FormatTimestamp(Some(cutoff), localTime) + ")";
      assert |base + clause| > |base|;
    }
  }

  /** `feedly_mark_feed_as_read`. */
  method MarkFeedAsRead(env: Env, params: Models.MarkFeedAsReadInput) returns (r: string)
    ensures exists req ::
              && IsStreamMark(req, "feeds", "feedIds", params.feedId, params.asOf)
              && (Fetch(env, req).Failure? ==> r == HandleError(Fetch(env, req).error))
              && (Fetch(env, req).Success? ==> r == StreamMarkedText("feed", params.feedId, params.asOf, env.localTime))
  {
    var req := MarkFeedAsReadRequest(params.feedId, params.asOf);
    var out := Fetch(env, req);
    if out.Failure? {
      r := HandleError(out.error);
    } else {
      r := StreamMarkedText("feed", params.feedId, params.asOf, env.localTime);
    }
  }

  /** `feedly_mark_category_as_read`. */
  method MarkCategoryAsRead(env: Env, params: Models.MarkCategoryAsReadInput) returns (r: string)
    ensures exists req ::
              && IsStreamMark(req, "categories", "categoryIds", params.categoryId, params.asOf)
              && (Fetch(env, req).Failure? ==> r == HandleError(Fetch(env, req).error))
              && (Fetch(env, req).Success? ==>
                    r == StreamMarkedText("category", params.categoryId, params.asOf, env.localTime))
  {
    var req := MarkCategoryAsReadRequest(params.categoryId, params.asOf);
    var out := Fetch(env, req);
    if out.Failure? {
      r := HandleError(out.error);
    } else {
      r := StreamMarkedText("category", params.categoryId, params.asOf, env.localTime);
    }
  }
}
