# feedly-mcp in Dafny

A model of the core of feedly-mcp, a tool server that lets an assistant read and manage a Feedly
account. Each tool validates its input, makes one call to the Feedly cloud API and renders the
reply as markdown or JSON. The model covers the three pieces of that pipeline that carry logic:

- **Input validation** (`models.dfy`, module `Models`). This covers the eight pydantic input
  models. They are modelled as parsers from raw JSON arguments to typed records, and each
  parser's contract states exactly which argument maps it accepts:
  - range bounds on count;
  - list-length bounds on entry IDs;
  - the two enumerations;
  - the defaults;
  - the closed field sets;
  - whitespace stripping, on the stream-contents input only (its `stream_id` and `continuation`).
- **The API client** (`client.dfy`, module `Client`). This covers the status-to-outcome dispatch
  and the request payloads. The payloads are modelled as maps and carry conditional keys:
  `unreadOnly`, `continuation` and `asOf`.
- **Rendering** (`render.dfy`, `unread.dfy` and `tools.dfy`, modules `Render`, `Unread` and
  `Tools`). This covers:
  - the global 25000-character output cap;
  - summary truncation;
  - the content fallback;
  - the entry, entry-list, stream-page and tag renderings;
  - the stable descending sort of unread counts and the stream-ID classification;
  - error strings, including the exceptions the renderers raise on unexpected replies;
  - the tool bodies, written as compositions of the above.

Support modules:
- `Wrappers` provides Option and Result.
- `Text` provides Python's `join`, `split(sep)[-1]`, `in`, `startswith`, negative slicing and
  `str(int)`, and the validators' trim of Unicode White_Space characters.
- `Json` provides decoded JSON values, truthiness and `dict.get`.

Several pieces of the running system are foreign to the model and are passed in as function
parameters:
- the HTTP transport (`api`);
- `json.dumps` (`dumps`);
- the local-time rendering inside `_format_timestamp` (`localTime`);
- `urllib.parse.quote` (`quote`).

The environment variable holding the access token is an `Option<string>` argument.

Two behaviours of the code are easy to misread:
- **Output cap.** Only successful read-tool output is capped at 25000 characters
  (`src/feedly_mcp/server.py:398-400, 435-437, 485, 526-528, 564-566`). Error strings are not
  capped, and they embed the HTTP body. Nor are the write-tool confirmations, which embed the
  feed or category ID.
- **Category names.** The category name is the last piece of Python's left-to-right,
  non-overlapping `split` (`src/feedly_mcp/server.py:229`). That is not the text after the last
  occurrence of `/category/` when occurrences overlap: `a/category/category/x` yields
  `category/x`, not `x`. `Text.LastPiece`, `Text.OverlappingSeparators` and `Unread.Classify`
  model the split.

## Model

| member | source | states |
|---|---|---|
| Models.ParseResponseFormat | src/feedly_mcp/models.py:8-12 | exactly "markdown" and "json" are accepted, and each maps back to its own name |
| Models.ParseRanked | src/feedly_mcp/models.py:39-42 | exactly "newest" and "oldest" are accepted, and each maps back to its own name |
| Models.ParseGetStreamContents | src/feedly_mcp/models.py:15-46 | accepted iff: the keys stay within the six fields; `stream_id` is a string non-empty after Unicode whitespace stripping; count is an int in 1..100; `unread_only` is a bool; continuation is null or a string; ranked is newest/oldest; the format is markdown/json. The stream ID and continuation come out stripped. The defaults are 20, true, None, newest and markdown; a supplied ranked or format is the parsed value. A failure names at least one field, and every unknown key |
| Models.ParseMarkAsRead | src/feedly_mcp/models.py:49-59 | accepted iff the only key is `entry_ids`, holding a list of 1..1000 strings, passed through unchanged; unknown keys fail |
| Models.ParseKeepUnread | src/feedly_mcp/models.py:127-137 | same rule as mark-as-read |
| Models.ParseGetEntries | src/feedly_mcp/models.py:110-124 | accepted iff `entry_ids` is a list of 1..1000 strings, the format is valid when given, and there are no other keys; the format defaults to markdown, and a supplied one is the parsed value |
| Models.ParseMarkFeedAsRead | src/feedly_mcp/models.py:62-75 | accepted iff `feed_id` is a non-empty string (not stripped), `as_of` is absent, null or an int, and there are no other keys; `as_of` is None exactly when absent or null |
| Models.ParseMarkCategoryAsRead | src/feedly_mcp/models.py:78-91 | same rule for `category_id` |
| Models.ParseGetEntry | src/feedly_mcp/models.py:94-107 | accepted iff `entry_id` is a non-empty unstripped string, the format is valid, and there are no other keys; the format defaults to markdown, and a supplied one is the parsed value |
| Models.ParseSimpleResponseFormat | src/feedly_mcp/models.py:140-148 | accepted iff the only possible key is a valid `response_format`; the default is markdown |
| Models.BlankIdStrippedOnlyForStreams | src/feedly_mcp/models.py:18-24 | an all-whitespace ID is rejected as `stream_id` but accepted unchanged as `feed_id`, `category_id` and `entry_id` |
| Models.EntryIdCountBounds | src/feedly_mcp/models.py:54-59 | a list of n IDs is accepted by each of the three list models iff 1 <= n <= 1000 |
| Client.Dispatch | src/feedly_mcp/client.py:51-66 | 401/403/404/429 each give the client's error with that status and its fixed message, checked first; any other non-2xx status gives the generic status error with its body; 204 gives null; any other 2xx gives the decoded body, or the JSON decoding error |
| Client.DispatchSuccessIff | src/feedly_mcp/client.py:51-66 | a reply succeeds iff its status is 2xx and it is either 204 or decodes; every failing status is carried by its error; a null payload only comes from 204 |
| Client.Execute | src/feedly_mcp/client.py:37-66 | a timeout, another transport failure, or the dispatch of the reply |
| Client.StreamContentsRequest | src/feedly_mcp/client.py:108-118 | GET /streams/contents; the query always holds streamId, count and ranked; `unreadOnly="true"` is present iff unread-only; `continuation` is present iff the token is non-empty; no other keys |
| Client.StreamContentsQueryUnique | src/feedly_mcp/client.py:108-118 | those conditions determine the query completely |
| Client.EntryRequest | src/feedly_mcp/client.py:129-130 | GET /entries/ followed by the quoted ID |
| Client.EntriesRequest | src/feedly_mcp/client.py:141 | POST /entries/.mget whose body is the ID list |
| Client.MarkAsReadRequest | src/feedly_mcp/client.py:149-157 | POST /markers with exactly action markAsRead, type entries, and the entry IDs, which read back unchanged |
| Client.KeepUnreadRequest | src/feedly_mcp/client.py:203-211 | the same body with action keepUnread |
| Client.MarkAndKeepDifferOnlyInAction | src/feedly_mcp/client.py:149-211 | the keep-unread request is the mark-read request with only the action replaced |
| Client.StreamMarkRequest | src/feedly_mcp/client.py:168-176 | the body holds action markAsRead, the target type and a one-element ID list; `asOf` is present iff a cutoff is given, zero included |
| Client.StreamMarkUnique | src/feedly_mcp/client.py:168-176 | those conditions determine the request |
| Client.MarkFeedAsReadRequest | src/feedly_mcp/client.py:168-176 | the stream mark with type feeds under `feedIds` |
| Client.MarkCategoryAsReadRequest | src/feedly_mcp/client.py:187-195 | the stream mark with type categories under `categoryIds` |
| Render.TruncateResponse | src/feedly_mcp/server.py:48-52 | unchanged iff at most 25000 characters; otherwise the first 24950 characters plus the notice; never longer than 25000 |
| Render.TruncateResponseIdempotent | src/feedly_mcp/server.py:48-52 | capping twice is capping once |
| Render.TruncateText | src/feedly_mcp/server.py:66-72 | None gives ""; text within the limit is unchanged; longer text becomes Python's `text[:max-3]` plus "...", which for max >= 3 is exactly max characters and keeps the text's prefix; for max >= 3 the result is empty iff the text is |
| Render.FormatTimestamp | src/feedly_mcp/server.py:55-63 | a missing timestamp, or one whose conversion raises ValueError or OSError, is "Unknown"; otherwise it is the converted text |
| Render.ArticleContent | src/feedly_mcp/server.py:75-86 | full content whenever the key is present, even if empty; else non-empty content text; else non-empty summary text; else ""; non-empty iff one of these tiers is |
| Render.EntryUrlAsWritten | src/feedly_mcp/server.py:94 | the URL lookup fails exactly when the alternate list is present and empty |
| Render.EmptyAlternateRaises | src/feedly_mcp/server.py:94 | an entry with an empty alternate list and a canonical URL fails the lookup |
| Render.EntryUrl | src/feedly_mcp/server.py:94 | agrees with the source wherever the source succeeds; an empty alternate list falls back to the canonical URL |
| Render.EntryLinesShape | src/feedly_mcp/server.py:89-114 | title, metadata and ID lines come first; the URL line appears iff the URL is non-empty; the content line appears iff content is requested and non-empty; the Summary line appears iff content is not requested and there is content, and it carries the content cut to 300; with no content, neither line appears |
| Render.FormatEntryMarkdown | src/feedly_mcp/server.py:89-114 | raises IndexError exactly when the alternate list is present and empty; otherwise the appended lines, joined with newlines, are the block `EntryLinesShape` describes, and the block starts with "### " |
| Render.FormatEntriesMarkdown | src/feedly_mcp/server.py:117-123 | exactly "No articles found." for no entries; otherwise the n blocks in input order with one separator between each pair, never the sentinel |
| Render.EntryRaises | src/feedly_mcp/server.py:89-94 | rendering a value raises `.get`'s AttributeError, named by the value's type, when it is not an object, and IndexError when its alternate list is empty; when nothing is raised the source's URL is `EntryUrl`'s |
| Render.FirstSome | src/feedly_mcp/server.py:121-123 | the first present value in list order, with nothing present before it; none exactly when no value is present |
| Render.EntriesMarkdownOf | src/feedly_mcp/server.py:117-123 | "No articles found." for no items; fails exactly when some item raises, with the exception of the first such item; otherwise the block list of `FormatEntriesMarkdown` |
| Render.IsEnvelope | src/feedly_mcp/server.py:131-135 | the envelope holds exactly: the items; the count, equal to their number; the continuation iff the token is non-empty |
| Render.EnvelopeUnique | src/feedly_mcp/server.py:131-135 | a page has one envelope |
| Render.StreamEnvelope | src/feedly_mcp/server.py:131-134 | the map built in place is the page's envelope |
| Render.StreamContentsMarkdown | src/feedly_mcp/server.py:137-144 | the header with the item count, then the summary list, then the continuation notice iff the token is non-empty; the exception of the entry list when an item raises |
| Render.FormatStreamContents | src/feedly_mcp/server.py:126-144 | JSON mode never fails and serialises the page's envelope; markdown mode renders the page, or fails with the exception of the first item that raises |
| Render.TagLabel | src/feedly_mcp/server.py:204 | the label if present; otherwise a "/"-free suffix of the ID: the whole ID when it has no "/", else the text after a final "/" |
| Render.TagBlocksAt | src/feedly_mcp/server.py:203-207 | tag i's label line and ID line sit at positions 2i and 2i + 1 |
| Render.FormatTagsMarkdown | src/feedly_mcp/server.py:197-209 | "No tags found." for none; otherwise the header and two lines per tag, in order |
| Unread.SortByCount | src/feedly_mcp/server.py:220 | the sorted list is a permutation of the input |
| Unread.SortDescending | src/feedly_mcp/server.py:220 | the sorted list is in non-increasing count order, a missing count ranking as 0 |
| Unread.SortStable | src/feedly_mcp/server.py:220 | for every count value, the elements with that count keep their input order |
| Unread.Classify | src/feedly_mcp/server.py:227-239 | category if `/category/` occurs; else tag if `/tag/` occurs; else feed if the ID starts with `feed/`; else stream. The name always ends the ID. For category and tag it is the last split piece, follows the marker and contains no marker. A feed ID is `feed/` plus the name. Otherwise the name is the ID |
| Unread.FormatUnreadCountsMarkdown | src/feedly_mcp/server.py:212-244 | "No unread counts available." for none; otherwise the header and two lines per stream in sorted order |
| Unread.CountsLines | src/feedly_mcp/server.py:218-242 | the loop leaves the header followed by the description and ID lines of each stream, in the given order |
| Unread.UnreadCountsOrder | src/feedly_mcp/server.py:218-244 | lines 2i+1 and 2i+2 describe and echo the ID of the i-th element of a non-increasing, input-permuting sort |
| Tools.Fetch | src/feedly_mcp/server.py:29-34 | a missing or empty token fails with the not-set message, before any request; otherwise the call's outcome |
| Tools.HandleError | src/feedly_mcp/server.py:37-45 | "Error: " plus, by case: the client message; the timeout text; "HTTP code: body"; or "class: message" |
| Tools.StatusErrorText | src/feedly_mcp/client.py:51-62 | each special status renders as "Error: " plus its fixed message; every other non-2xx status renders as "Error: HTTP <code>: <body>" |
| Tools.RecordsOf | src/feedly_mcp/server.py:117-123 | a falsy payload is no records; a list gives its elements; a truthy object or string fails on `.get` of its string elements; a truthy int or bool is not iterable |
| Tools.TagRecordsOf | src/feedly_mcp/server.py:199-203 | a truthy number fails on `len` ("object of type 'int' has no len()", or 'bool'); any other payload is read as `RecordsOf` reads it |
| Tools.GetTags | src/feedly_mcp/server.py:393-402 | the error string; or the capped serialisation; or, for the tag records, the capped tag markdown or the error string of their reading |
| Tools.GetUnreadCounts | src/feedly_mcp/server.py:430-439 | as for tags; the markdown path fails on `.get` for a payload that is not an object |
| Tools.GetStreamContents | src/feedly_mcp/server.py:476-487 | the query sent satisfies the stream-contents conditions; the result is the capped envelope or markdown, or the error string of a failed request, a non-object reply, or an entry that raises |
| Tools.GetEntry | src/feedly_mcp/server.py:516-530 | "Error: Article not found." for a null or falsy reply; otherwise the first element of a list reply, or the reply itself, serialised or rendered capped with full content; in markdown, an entry that raises gives its error string |
| Tools.EmptyAlternateEntryError | src/feedly_mcp/server.py:94 | an entry reply with an empty alternate list and a canonical URL gives "Error: IndexError: list index out of range" in markdown |
| Tools.GetEntries | src/feedly_mcp/server.py:559-568 | the capped serialisation, or the capped full-content entry list, or the error string of the reading of the reply or of the first entry that raises |
| Tools.MarkAsRead | src/feedly_mcp/server.py:596-601 | on success, "Successfully marked n article(s) as read." with n the number of IDs sent; otherwise the error string |
| Tools.KeepUnread | src/feedly_mcp/server.py:705-710 | on success, "Successfully kept n article(s) as unread."; otherwise the error string |
| Tools.ConfirmationIgnoresReply | src/feedly_mcp/server.py:596-601 | a successful confirmation depends on the IDs alone, never on the reply, and is no error string |
| Tools.ZeroCutoffSentButNotShown | src/feedly_mcp/server.py:633-636 | a zero cutoff is sent as `asOf = 0` (`src/feedly_mcp/client.py:173-174`), yet the confirmation omits the cutoff clause exactly for zero |
| Tools.MarkFeedAsRead | src/feedly_mcp/server.py:631-639 | the feed marker is sent; on success the confirmation names the feed, and adds the clause only for a truthy cutoff |
| Tools.MarkCategoryAsRead | src/feedly_mcp/server.py:669-677 | the same for a category |
| Text.LastPiece | src/feedly_mcp/server.py:229-232 | `split(sep)[-1]`, read by skipping past each leftmost occurrence in turn: contains no separator and ends the input; is the whole input when the separator does not occur; otherwise is preceded by the separator |
| Text.OverlappingSeparators | src/feedly_mcp/server.py:228-229 | with overlapping occurrences the last piece is not the text after the last occurrence: `a/category/category/x` gives `category/x` |
| Text.StripEmptyIffAllSpace | src/feedly_mcp/models.py:18-24 | stripping gives "" iff every character is whitespace |
| Text.StripIdempotent | src/feedly_mcp/models.py:18 | stripping twice is stripping once |
| Text.PrefixUpTo | src/feedly_mcp/server.py:72 | Python's `s[:k]` for any k: a prefix of s, of length k when k is in range, all of s when k is at least its length, and for negative k the length of s plus k, or 0 when that is negative |
| Text.JoinIsInterleave | src/feedly_mcp/server.py:121-123 | `sep.join(parts)` is the parts with one separator between neighbours |
| Text.NatToString | src/feedly_mcp/server.py:241 | `str(n)` is non-empty, all digits, and without a leading zero unless it is "0" |
| Text.ParseNatToString | src/feedly_mcp/server.py:241 | the decimal rendering reads back as the number |
| Text.NatToStringInjective | src/feedly_mcp/server.py:599 | distinct counts render differently |
| Json.ToStringsFromStrings | src/feedly_mcp/client.py:152-156 | an ID list encoded to JSON reads back unchanged |

## Left out

- The profile, subscriptions and categories formatters and their tools
  (`src/feedly_mcp/server.py:147-195, 262-376`) are not part of this model. They are fixed
  string templates around fields read with defaults.
- The HTTP transport is the `api` parameter. This covers the connection, the base URL, the
  headers including the bearer token and the User-Agent, and the 30-second timeout
  (`src/feedly_mcp/client.py:37-49`). The raising of `raise_for_status` is kept.
- Tool registration, decorators and annotations, and `main`: these are framework wiring with no
  logic.
- `json.dumps` with indent 2, `urllib.parse.quote` and the date conversion inside
  `_format_timestamp` are the `dumps`, `quote` and `localTime` parameters. The conversion uses
  float division, the local time zone and strftime. A conversion that raises ValueError or
  OSError, the two exceptions `_format_timestamp` catches (`src/feedly_mcp/server.py:62`), is
  `localTime` returning None, and the timestamp then renders as "Unknown".
- Asynchrony and concurrent tool calls: each call is modelled as one synchronous request.
- Floating-point JSON numbers are not represented in `Json.Value`.
- Models.ParseGetStreamContents: it does not model pydantic's lax coercion, such as a numeric
  string or a float accepted as an int, or "true" accepted as a bool. Arguments are accepted only
  with their exact JSON type.
- Render.EntryOf: an entry field of an unexpected JSON type reads as absent. In Python it would be
  formatted as is, or would raise.
- Models.ParseMarkFeedAsRead: it does not model pydantic's lax coercion of `as_of`, so a numeric
  string such as "1704067200000" is rejected here and accepted by the source.
- Models.ParseMarkCategoryAsRead: the same gap for its `as_of`.
- Render.FormatTimestamp: `localTime` cannot raise, so the exceptions `_format_timestamp` lets
  through are not modelled. These are an OverflowError from `datetime.fromtimestamp` or from the
  float division for a timestamp out of range (for example 10^22 ms), and a TypeError for a
  non-numeric timestamp. In the source they propagate to the tool, which returns
  `_handle_error`'s string. The model renders such a timestamp through `localTime` instead, in
  the entry metadata line, the unread-count lines and the mark-as-read confirmations.
- Tools.MarkFeedAsRead: when the cutoff's conversion overflows (for example `as_of` = 10^22), the
  source has already sent the marker and then returns "Error: OverflowError: …". The model returns
  the confirmation with the cutoff clause.
- Tools.MarkCategoryAsRead: the same uncaught OverflowError after the marker is sent.
- Render.FormatEntriesMarkdown: it renders entry records with the corrected URL lookup
  (`Render.EntryUrl`), so an entry with an empty alternate list gets its canonical URL. The source
  raises there; `Render.EntriesMarkdownOf` models that, and the tools use it.
- Render.TagOf: a `label` that is not a string reads as absent, so the label falls back to the ID.
  Python renders it as is, so a null label shows as `None`. An `id` that is not a string also reads
  as absent. In Python the default `tag.get("id", "").split("/")` is evaluated even when a label
  exists, so such an ID raises AttributeError. A list element that is not an object reads as an
  empty tag; in Python `.get` raises on it.
- Render.PageOf: an `items` value that is not a list reads as no items, with count 0. In Python,
  `len(items)` (`src/feedly_mcp/server.py:132, 138`) raises for null or a number, and a string or
  object is counted and iterated as it is. A continuation that is not a string reads as absent.
- Unread.CountsOf: an `unreadcounts` value that is not a list reads as no counts. A list element
  that is not an object reads as an empty record, where Python's `.get` raises. A non-integer
  count ranks as 0 here; Python would compare it as it is, or raise.
- Unread.CountOf: an `id` that is not a string reads as "". In Python the test
  `"/category/" in stream_id` (`src/feedly_mcp/server.py:228`) raises for null, a bool or a number,
  and a list or object fails later on `startswith`.
- Tools.HandleError: it covers the error cases the model can produce. These are the client
  error, timeout, HTTP status, JSON decoding, the `.get`, `len` and iteration errors of unexpected
  payloads, the IndexError of an empty alternate list, and other transport failures passed
  through by name. Python's full exception
  hierarchy is not modelled.

## Findings

| source | as written | input that shows it | evidently intended | confidence | as-written member | corrected member |
|---|---|---|---|---|---|---|
| src/feedly_mcp/server.py:94 | the URL lookup indexes the first element of the `alternate` list. It supplies a one-element default only when the key is missing, so a present but empty list raises IndexError, and the tool returns "Error: IndexError: list index out of range" | an entry `{"id": "e", "alternate": [], "canonicalUrl": "https://example.com/a"}` | an empty `alternate` list falls back to the canonical URL, or to "" (no URL line), as a missing one does | not executed | Render.EntryUrlAsWritten, Render.EmptyAlternateRaises, Tools.EmptyAlternateEntryError | Render.EntryUrl |

At that input the tools return the source's IndexError string (`Render.EntryRaises`,
`Tools.EmptyAlternateEntryError`); every block that is rendered uses the corrected lookup, which
agrees with the source wherever the source does not raise.
