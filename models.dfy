/**
 * The tool input records and their validation rules: range bounds,
 * list-length bounds, enumerations, defaults, closed field sets, and
 * whitespace stripping on the stream-contents input only.
 *
 * A raw input is the argument object as the tool runtime decodes it, keyed by
 * field name. Validation either yields the record, with defaults filled in,
 * or names the fields that failed; an unrecognised key counts as a failing
 * field.
 */
module Models {
  import opened Wrappers
  import opened Json
  import Text

  const DefaultCount := 20
  const MaxCount := 100
  const MaxBatchSize := 1000

  // ---------------------------------------------------------------------------
  // Enumerations
  // ---------------------------------------------------------------------------

  /** The output format of a read tool. */
  datatype ResponseFormat = Markdown | JsonFormat

  function FormatName(f: ResponseFormat): string
  {
    match f
    case Markdown => "markdown"
    case JsonFormat => "json"
  }

  /** The enumeration accepts exactly its two values, "markdown" and "json". */
  function ParseResponseFormat(s: string): (r: Option<ResponseFormat>)
    ensures r.Some? <==> s == "markdown" || s == "json"
    ensures r.Some? ==> FormatName(r.value) == s
  {
    if s == "markdown" then Some(Markdown)
    else if s == "json" then Some(JsonFormat)
    else None
  }

  /** The sort order of a stream listing. */
  datatype Ranked = Newest | Oldest

  function RankedName(r: Ranked): string
  {
    match r
    case Newest => "newest"
    case Oldest => "oldest"
  }

  /** The literal type accepts exactly "newest" and "oldest". */
  function ParseRanked(s: string): (r: Option<Ranked>)
    ensures r.Some? <==> s == "newest" || s == "oldest"
    ensures r.Some? ==> RankedName(r.value) == s
  {
    if s == "newest" then Some(Newest)
    else if s == "oldest" then Some(Oldest)
    else None
  }

  // ---------------------------------------------------------------------------
  // Input records
  // ---------------------------------------------------------------------------

  datatype GetStreamContentsInput = GetStreamContentsInput(
    streamId: string,
    count: int,
    unreadOnly: bool,
    continuation: Option<string>,
    ranked: Ranked,
    responseFormat: ResponseFormat)

  datatype MarkAsReadInput = MarkAsReadInput(entryIds: seq<string>)

  datatype MarkFeedAsReadInput = MarkFeedAsReadInput(feedId: string, asOf: Option<int>)

  datatype MarkCategoryAsReadInput = MarkCategoryAsReadInput(categoryId: string, asOf: Option<int>)

  datatype GetEntryInput = GetEntryInput(entryId: string, responseFormat: ResponseFormat)

  datatype GetEntriesInput = GetEntriesInput(entryIds: seq<string>, responseFormat: ResponseFormat)

  datatype KeepUnreadInput = KeepUnreadInput(entryIds: seq<string>)

  datatype SimpleResponseFormatInput = SimpleResponseFormatInput(responseFormat: ResponseFormat)

  /** Raw tool arguments, keyed by field name. */
  type Args = map<string, Value>

  /** The names of the fields that failed validation (unknown keys included). */
  datatype ValidationError = ValidationError(fields: set<string>)

  // ---------------------------------------------------------------------------
  // Field rules (None means the field fails)
  // ---------------------------------------------------------------------------

  function Stripped(s: string, strip: bool): string
  {
    if strip then Text.Strip(s) else s
  }

  /** A required `str` field with `min_length=1`, checked after optional stripping. */
  function RequiredStr(args: Args, key: string, strip: bool): Option<string>
  {
    if key in args && args[key].JStr? && Stripped(args[key].s, strip) != ""
    then Some(Stripped(args[key].s, strip))
    else None
  }

  /** An `Optional[str]` field defaulting to None. */
  function OptionalStr(args: Args, key: string, strip: bool): Option<Option<string>>
  {
    if key !in args || args[key].JNull? then Some(None)
    else if args[key].JStr? then Some(Some(Stripped(args[key].s, strip)))
    else None
  }

  /** An `int` field with a default and inclusive bounds. */
  function BoundedInt(args: Args, key: string, default: int, lo: int, hi: int): Option<int>
  {
    if key !in args then Some(default)
    else if args[key].JInt? && lo <= args[key].i <= hi then Some(args[key].i)
    else None
  }

  /** An `Optional[int]` field defaulting to None. */
  function OptionalInt(args: Args, key: string): Option<Option<int>>
  {
    if key !in args || args[key].JNull? then Some(None)
    else if args[key].JInt? then Some(Some(args[key].i))
    else None
  }

  /** A `bool` field with a default. */
  function BoolField(args: Args, key: string, default: bool): Option<bool>
  {
    if key !in args then Some(default)
    else if args[key].JBool? then Some(args[key].b)
    else None
  }

  /** The `ranked` literal field, defaulting to "newest". */
  function RankedField(args: Args, key: string): (r: Option<Ranked>)
    ensures r.Some? <==> key !in args || args[key] == JStr("newest") || args[key] == JStr("oldest")
    ensures key !in args ==> r == Some(Newest)
    ensures r.Some? && key in args ==> RankedName(r.value) == args[key].s
  {
    if key !in args then Some(Newest)
    else if args[key].JStr? then ParseRanked(args[key].s)
    else None
  }

  /** The `response_format` enumeration field, defaulting to markdown. */
  function FormatField(args: Args, key: string): (r: Option<ResponseFormat>)
    ensures r.Some? <==> key !in args || IsFormatValue(args[key])
    ensures key !in args ==> r == Some(Markdown)
    ensures r.Some? && key in args ==> FormatName(r.value) == args[key].s
  {
    if key !in args then Some(Markdown)
    else if args[key].JStr? then ParseResponseFormat(args[key].s)
    else None
  }

  /** A valid list of entry IDs: a list of strings with 1 to 1000 elements. */
  predicate IsIdList(v: Value)
  {
    && v.JArray?
    && 1 <= |v.items| <= MaxBatchSize
    && forall i :: 0 <= i < |v.items| ==> v.items[i].JStr?
  }

  /** A required `List[str]` field with `min_length=1, max_length=1000`. */
  function IdList(args: Args, key: string): Option<seq<string>>
  {
    if key in args && args[key].JArray? && 1 <= |args[key].items| <= MaxBatchSize
    then ToStrings(args[key].items)
    else None
  }

  function Failing<T>(key: string, field: Option<T>): set<string>
  {
    if field.None? then {key} else {}
  }

  /** `extra="forbid"`: every key outside the declared fields fails. */
  function Unknown(args: Args, declared: set<string>): set<string>
  {
    args.Keys - declared
  }

  /** A value accepted by the `response_format` field when present. */
  predicate IsFormatValue(v: Value)
  {
    v == JStr("markdown") || v == JStr("json")
  }

  // ---------------------------------------------------------------------------
  // Models
  // ---------------------------------------------------------------------------

  const StreamContentsFields: set<string> :=
    {"stream_id", "count", "unread_only", "continuation", "ranked", "response_format"}

  /**
   * The stream-contents input. Its string fields are stripped before the
   * length check, so an all-blank stream ID is rejected.
   */
  function ParseGetStreamContents(args: Args): (r: Result<GetStreamContentsInput, ValidationError>)
    ensures r.Success? <==>
      && args.Keys <= StreamContentsFields
      && "stream_id" in args && args["stream_id"].JStr? && Text.Strip(args["stream_id"].s) != ""
      && ("count" in args ==> args["count"].JInt? && 1 <= args["count"].i <= MaxCount)
      && ("unread_only" in args ==> args["unread_only"].JBool?)
      && ("continuation" in args ==> args["continuation"].JNull? || args["continuation"].JStr?)
      && ("ranked" in args ==> args["ranked"] == JStr("newest") || args["ranked"] == JStr("oldest"))
      && ("response_format" in args ==> IsFormatValue(args["response_format"]))
    ensures r.Success? ==> r.value.streamId == Text.Strip(args["stream_id"].s)
    ensures r.Success? ==> 1 <= r.value.count <= MaxCount
    ensures r.Success? ==> r.value.count == (if "count" in args then args["count"].i else DefaultCount)
    ensures r.Success? ==> r.value.unreadOnly == ("unread_only" !in args || args["unread_only"].b)
    ensures r.Success? ==> (r.value.continuation.None? <==>
                              "continuation" !in args || args["continuation"].JNull?)
    ensures r.Success? && r.value.continuation.Some? ==>
              r.value.continuation.value == Text.Strip(args["continuation"].s)
    ensures r.Success? ==> "ranked" !in args ==> r.value.ranked == Newest
    ensures r.Success? ==> "response_format" !in args ==> r.value.responseFormat == Markdown
    ensures r.Success? ==> "ranked" in args ==> args["ranked"] == JStr(RankedName(r.value.ranked))
    ensures r.Success? ==> "response_format" in args ==> args["response_format"] == JStr(FormatName(r.value.responseFormat))
    ensures r.Failure? ==> r.error.fields != {} && Unknown(args, StreamContentsFields) <= r.error.fields
  {
    var streamId := RequiredStr(args, "stream_id", true);
    var count := BoundedInt(args, "count", DefaultCount, 1, MaxCount);
    var unreadOnly := BoolField(args, "unread_only", true);
    var continuation := OptionalStr(args, "continuation", true);
    var ranked := RankedField(args, "ranked");
    var format := FormatField(args, "response_format");
    StreamContentsOf(streamId, count, unreadOnly, continuation, ranked, format,
                     Unknown(args, StreamContentsFields))
  }

  /** The stream-contents record once each field rule has run: any failing rule fails the whole. */
  function StreamContentsOf(streamId: Option<string>, count: Option<int>, unreadOnly: Option<bool>,
                            continuation: Option<Option<string>>, ranked: Option<Ranked>,
                            format: Option<ResponseFormat>, unknown: set<string>)
    : (r: Result<GetStreamContentsInput, ValidationError>)
    ensures r.Success? <==>
      && streamId.Some? && count.Some? && unreadOnly.Some? && continuation.Some?
      && ranked.Some? && format.Some? && unknown == {}
    ensures r.Success? ==>
      r.value == GetStreamContentsInput(streamId.value, count.value, unreadOnly.value,
                                        continuation.value, ranked.value, format.value)
    ensures r.Failure? ==> r.error.fields != {} && unknown <= r.error.fields
  {
    var failed :=
      Failing("stream_id", streamId) + Failing("count", count) + Failing("unread_only", unreadOnly)
      + Failing("continuation", continuation) + Failing("ranked", ranked)
      + Failing("response_format", format) + unknown;
    if failed == {} then
      Success(GetStreamContentsInput(streamId.value, count.value, unreadOnly.value,
                                     continuation.value, ranked.value, format.value))
    else
      Failure(ValidationError(failed))
  }

  /** Shared rule of the three entry-list inputs. */
  function ParseIdListModel(args: Args, declared: set<string>): (r: Result<seq<string>, ValidationError>)
    requires "entry_ids" in declared
  {
    var ids := IdList(args, "entry_ids");
    var failed := Failing("entry_ids", ids) + Unknown(args, declared);
    if failed == {} then Success(ids.value) else Failure(ValidationError(failed))
  }

  /** Marking entries read takes 1 to 1000 entry IDs and nothing else. */
  function ParseMarkAsRead(args: Args): (r: Result<MarkAsReadInput, ValidationError>)
    ensures r.Success? <==> args.Keys <= {"entry_ids"} && "entry_ids" in args && IsIdList(args["entry_ids"])
    ensures r.Success? ==> FromStrings(r.value.entryIds) == args["entry_ids"].items
    ensures r.Failure? ==> r.error.fields != {} && Unknown(args, {"entry_ids"}) <= r.error.fields
  {
    match ParseIdListModel(args, {"entry_ids"})
    case Success(ids) =>
      IdListItems(args["entry_ids"].items, ids);
      Success(MarkAsReadInput(ids))
    case Failure(e) => Failure(e)
  }

  /** Keeping entries unread takes 1 to 1000 entry IDs and nothing else. */
  function ParseKeepUnread(args: Args): (r: Result<KeepUnreadInput, ValidationError>)
    ensures r.Success? <==> args.Keys <= {"entry_ids"} && "entry_ids" in args && IsIdList(args["entry_ids"])
    ensures r.Success? ==> FromStrings(r.value.entryIds) == args["entry_ids"].items
    ensures r.Failure? ==> r.error.fields != {} && Unknown(args, {"entry_ids"}) <= r.error.fields
  {
    match ParseIdListModel(args, {"entry_ids"})
    case Success(ids) =>
      IdListItems(args["entry_ids"].items, ids);
      Success(KeepUnreadInput(ids))
    case Failure(e) => Failure(e)
  }

  const GetEntriesFields: set<string> := {"entry_ids", "response_format"}

  /** Fetching several entries takes 1 to 1000 entry IDs and an optional format. */
  function ParseGetEntries(args: Args): (r: Result<GetEntriesInput, ValidationError>)
    ensures r.Success? <==>
      && args.Keys <= GetEntriesFields
      && "entry_ids" in args && IsIdList(args["entry_ids"])
      && ("response_format" in args ==> IsFormatValue(args["response_format"]))
    ensures r.Success? ==> FromStrings(r.value.entryIds) == args["entry_ids"].items
    ensures r.Success? ==> "response_format" !in args ==> r.value.responseFormat == Markdown
    ensures r.Success? ==> "response_format" in args ==> args["response_format"] == JStr(FormatName(r.value.responseFormat))
    ensures r.Failure? ==> r.error.fields != {} && Unknown(args, GetEntriesFields) <= r.error.fields
  {
    var ids := IdList(args, "entry_ids");
    var format := FormatField(args, "response_format");
    var failed := Failing("entry_ids", ids) + Failing("response_format", format)
                  + Unknown(args, GetEntriesFields);
    if failed == {} then
      IdListItems(args["entry_ids"].items, ids.value);
      Success(GetEntriesInput(ids.value, format.value))
    else
      Failure(ValidationError(failed))
  }

  lemma IdListItems(items: seq<Value>, ids: seq<string>)
    requires ToStrings(items) == Some(ids)
    ensures FromStrings(ids) == items
  {
    if items != [] {
      IdListItems(items[1..], ids[1..]);
      assert items == [items[0]] + items[1..];
    }
  }

  /**
   * The feed ID is a required non-empty string and is NOT stripped, so a
   * blank ID passes; `as_of` is optional and defaults to None.
   */
  function ParseMarkFeedAsRead(args: Args): (r: Result<MarkFeedAsReadInput, ValidationError>)
    ensures r.Success? <==>
      && args.Keys <= {"feed_id", "as_of"}
      && "feed_id" in args && args["feed_id"].JStr? && args["feed_id"].s != ""
      && ("as_of" in args ==> args["as_of"].JNull? || args["as_of"].JInt?)
    ensures r.Success? ==> r.value.feedId == args["feed_id"].s
    ensures r.Success? ==> (r.value.asOf.None? <==> "as_of" !in args || args["as_of"].JNull?)
    ensures r.Success? && r.value.asOf.Some? ==> args["as_of"] == JInt(r.value.asOf.value)
    ensures r.Failure? ==> r.error.fields != {} && Unknown(args, {"feed_id", "as_of"}) <= r.error.fields
  {
    var feedId := RequiredStr(args, "feed_id", false);
    var asOf := OptionalInt(args, "as_of");
    var failed := Failing("feed_id", feedId) + Failing("as_of", asOf) + Unknown(args, {"feed_id", "as_of"});
    if failed == {} then Success(MarkFeedAsReadInput(feedId.value, asOf.value))
    else Failure(ValidationError(failed))
  }

  /** As for feeds: a required, unstripped, non-empty category ID and an optional `as_of`. */
  function ParseMarkCategoryAsRead(args: Args): (r: Result<MarkCategoryAsReadInput, ValidationError>)
    ensures r.Success? <==>
      && args.Keys <= {"category_id", "as_of"}
      && "category_id" in args && args["category_id"].JStr? && args["category_id"].s != ""
      && ("as_of" in args ==> args["as_of"].JNull? || args["as_of"].JInt?)
    ensures r.Success? ==> r.value.categoryId == args["category_id"].s
    ensures r.Success? ==> (r.value.asOf.None? <==> "as_of" !in args || args["as_of"].JNull?)
    ensures r.Success? && r.value.asOf.Some? ==> args["as_of"] == JInt(r.value.asOf.value)
    ensures r.Failure? ==> r.error.fields != {} && Unknown(args, {"category_id", "as_of"}) <= r.error.fields
  {
    var categoryId := RequiredStr(args, "category_id", false);
    var asOf := OptionalInt(args, "as_of");
    var failed := Failing("category_id", categoryId) + Failing("as_of", asOf)
                  + Unknown(args, {"category_id", "as_of"});
    if failed == {} then Success(MarkCategoryAsReadInput(categoryId.value, asOf.value))
    else Failure(ValidationError(failed))
  }

  /** A single entry: a required, unstripped, non-empty entry ID and an optional format. */
  function ParseGetEntry(args: Args): (r: Result<GetEntryInput, ValidationError>)
    ensures r.Success? <==>
      && args.Keys <= {"entry_id", "response_format"}
      && "entry_id" in args && args["entry_id"].JStr? && args["entry_id"].s != ""
      && ("response_format" in args ==> IsFormatValue(args["response_format"]))
    ensures r.Success? ==> r.value.entryId == args["entry_id"].s
    ensures r.Success? ==> "response_format" !in args ==> r.value.responseFormat == Markdown
    ensures r.Success? ==> "response_format" in args ==> args["response_format"] == JStr(FormatName(r.value.responseFormat))
    ensures r.Failure? ==> r.error.fields != {} && Unknown(args, {"entry_id", "response_format"}) <= r.error.fields
  {
    var entryId := RequiredStr(args, "entry_id", false);
    var format := FormatField(args, "response_format");
    var failed := Failing("entry_id", entryId) + Failing("response_format", format)
                  + Unknown(args, {"entry_id", "response_format"});
    if failed == {} then Success(GetEntryInput(entryId.value, format.value))
    else Failure(ValidationError(failed))
  }

  /** The input of the listing tools: only an optional format. */
  function ParseSimpleResponseFormat(args: Args): (r: Result<SimpleResponseFormatInput, ValidationError>)
    ensures r.Success? <==>
      args.Keys <= {"response_format"} && ("response_format" in args ==> IsFormatValue(args["response_format"]))
    ensures r.Success? ==> "response_format" !in args ==> r.value.responseFormat == Markdown
    ensures r.Success? ==> "response_format" in args ==> args["response_format"] == JStr(FormatName(r.value.responseFormat))
    ensures r.Failure? ==> r.error.fields != {} && Unknown(args, {"response_format"}) <= r.error.fields
  {
    var format := FormatField(args, "response_format");
    var failed := Failing("response_format", format) + Unknown(args, {"response_format"});
    if failed == {} then Success(SimpleResponseFormatInput(format.value))
    else Failure(ValidationError(failed))
  }

  // ---------------------------------------------------------------------------
  // Consequences of the rules
  // ---------------------------------------------------------------------------

  /**
   * The same blank ID is rejected as a stream ID, which is stripped, and
   * accepted as a feed ID, which is not.
   */
  lemma BlankIdStrippedOnlyForStreams(blank: string)
    requires blank != "" && forall i :: 0 <= i < |blank| ==> Text.IsSpace(blank[i])
    ensures ParseGetStreamContents(map["stream_id" := JStr(blank)]).Failure?
    ensures ParseMarkFeedAsRead(map["feed_id" := JStr(blank)]) ==
              Success(MarkFeedAsReadInput(blank, None))
    ensures ParseMarkCategoryAsRead(map["category_id" := JStr(blank)]) ==
              Success(MarkCategoryAsReadInput(blank, None))
    ensures ParseGetEntry(map["entry_id" := JStr(blank)]) == Success(GetEntryInput(blank, Markdown))
  {
    Text.StripEmptyIffAllSpace(blank);
  }

  /** A list of n entry IDs is accepted exactly when 1 <= n <= 1000. */
  lemma EntryIdCountBounds(ids: seq<string>)
    ensures ParseMarkAsRead(map["entry_ids" := JArray(FromStrings(ids))]).Success? <==> 1 <= |ids| <= MaxBatchSize
    ensures ParseKeepUnread(map["entry_ids" := JArray(FromStrings(ids))]).Success? <==> 1 <= |ids| <= MaxBatchSize
    ensures ParseGetEntries(map["entry_ids" := JArray(FromStrings(ids))]).Success? <==> 1 <= |ids| <= MaxBatchSize
  {
  }
}
