/**
 * The response helpers of the tool server: the global output cap, summary
 * truncation, the content fallback of an entry, and the markdown and JSON
 * renderings of entries, entry lists, stream pages and tags.
 *
 * Two library calls are parameters: `localTime` renders epoch milliseconds as
 * a local "YYYY-MM-DD HH:MM" string (None when the conversion fails), and
 * `dumps` is the pretty-printing JSON serialiser.
 */
module Render {
  import opened Wrappers
  import opened Json
  import opened Text
  import Models
  import Client

  // ---------------------------------------------------------------------------
  // Output cap and text truncation
  // ---------------------------------------------------------------------------

  const CharacterLimit := 25000
  const TruncationNotice := "\n\n... [Response truncated at 25000 characters]"

  /**
   * `_truncate_response`: a string within the limit is returned unchanged;
   * a longer one keeps its first 24950 characters and gains the notice, so no
   * result exceeds the limit.
   */
  function TruncateResponse(content: string): (r: string)
    ensures r == content <==> |content| <= CharacterLimit
    ensures |r| <= CharacterLimit
    ensures |content| > CharacterLimit ==>
              && |r| == CharacterLimit - 50 + |TruncationNotice|
              && r[..CharacterLimit - 50] == content[..CharacterLimit - 50]
              && EndsWith(r, TruncationNotice)
  {
    if |content| <= CharacterLimit then content
    else content[..CharacterLimit - 50] + TruncationNotice
  }

  /** Capping an already capped string changes nothing. */
  lemma TruncateResponseIdempotent(content: string)
    ensures TruncateResponse(TruncateResponse(content)) == TruncateResponse(content)
  {
  }

  const SummaryLength := 300

  /**
   * `_truncate_text`: None gives ""; text within `maxLength` is unchanged;
   * longer text keeps `text[:maxLength - 3]` (a Python slice) and gains "...",
   * which for `maxLength >= 3` is exactly `maxLength` characters long.
   */
  function TruncateText(text: Option<string>, maxLength: int): (r: string)
    ensures text.None? ==> r == ""
    ensures text.Some? && |text.value| <= maxLength ==> r == text.value
    ensures text.Some? && |text.value| > maxLength ==>
              r == PrefixUpTo(text.value, maxLength - 3) + "..."
    ensures text.Some? && |text.value| > maxLength && maxLength >= 3 ==>
              |r| == maxLength && r[..maxLength - 3] == text.value[..maxLength - 3]
    ensures maxLength >= 3 ==> |r| <= maxLength
    ensures maxLength >= 3 && text.Some? ==> (r == "" <==> text.value == "")
  {
    match text
    case None => ""
    case Some(t) => if |t| <= maxLength then t else PrefixUpTo(t, maxLength - 3) + "..."
  }

  /**
   * `_format_timestamp`: a missing timestamp, or one whose conversion raises
   * ValueError or OSError (`localTime` returning None), is "Unknown".
   */
  function FormatTimestamp(timestampMs: Option<int>, localTime: int -> Option<string>): (r: string)
    ensures timestampMs.None? ==> r == "Unknown"
    ensures timestampMs.Some? && localTime(timestampMs.value).None? ==> r == "Unknown"
    ensures timestampMs.Some? && localTime(timestampMs.value).Some? ==> r == localTime(timestampMs.value).value
  {
    match timestampMs
    case None => "Unknown"
    case Some(t) => localTime(t).GetOr("Unknown")
  }

  // ---------------------------------------------------------------------------
  // Entries
  // ---------------------------------------------------------------------------

  /** One element of an entry's `alternate` list. */
  datatype Link = Link(href: Option<string>)

  /** A `content` or `summary` object, of which only its `content` text is read. */
  datatype Body = Body(content: Option<string>)

  /** The fields of an entry (article) that the rendering reads. */
  datatype Entry = Entry(
    id: Option<string>,
    title: Option<string>,
    author: Option<string>,
    published: Option<int>,
    alternate: Option<seq<Link>>,
    canonicalUrl: Option<string>,
    unread: Option<bool>,
    fullContent: Option<string>,
    content: Option<Body>,
    summary: Option<Body>)

  function LinkOf(v: Value): Link
  {
    Link(GetStr(FieldsOf(v), "href"))
  }

  function BodyOf(v: Value): Body
  {
    Body(GetStr(FieldsOf(v), "content"))
  }

  /** Reads an entry from its decoded JSON object. */
  function EntryOf(v: Value): Entry
  {
    var m := FieldsOf(v);
    Entry(
      GetStr(m, "id"),
      GetStr(m, "title"),
      GetStr(m, "author"),
      GetInt(m, "published"),
      match GetArray(m, "alternate")
      case None => None
      case Some(links) => Some(seq(|links|, i requires 0 <= i < |links| => LinkOf(links[i]))),
      GetStr(m, "canonicalUrl"),
      GetBool(m, "unread"),
      GetStr(m, "fullContent"),
      if "content" in m then Some(BodyOf(m["content"])) else None,
      if "summary" in m then Some(BodyOf(m["summary"])) else None)
  }

  function EntriesOf(items: seq<Value>): (r: seq<Entry>)
    ensures |r| == |items|
    ensures forall i :: 0 <= i < |items| ==> r[i] == EntryOf(items[i])
  {
    seq(|items|, i requires 0 <= i < |items| => EntryOf(items[i]))
  }

  /** The object is present and its `content` text is non-empty. */
  predicate HasText(b: Option<Body>)
  {
    b.Some? && TruthyStr(b.value.content)
  }

  /**
   * `_get_article_content`: the first available of full content (whenever the
   * key is present, even if empty), a non-empty content body, a non-empty
   * summary body; otherwise "".
   */
  function ArticleContent(e: Entry): (r: string)
    ensures e.fullContent.Some? ==> r == e.fullContent.value
    ensures e.fullContent.None? && HasText(e.content) ==> r == e.content.value.content.value
    ensures e.fullContent.None? && !HasText(e.content) && HasText(e.summary) ==>
              r == e.summary.value.content.value
    ensures r != "" <==>
              if e.fullContent.Some? then e.fullContent.value != ""
              else HasText(e.content) || HasText(e.summary)
  {
    if e.fullContent.Some? then e.fullContent.value
    else if HasText(e.content) then e.content.value.content.value
    else if HasText(e.summary) then e.summary.value.content.value
    else ""
  }

  /**
   * The entry's URL as the source computes it: the first alternate link's
   * href, else the canonical URL, else "". An entry whose `alternate` list is
   * present but empty makes the indexing raise (None here).
   */
  function EntryUrlAsWritten(e: Entry): (r: Option<string>)
    ensures e.alternate == Some([]) ==> r.None?
    ensures e.alternate != Some([]) ==> r.Some?
  {
    match e.alternate
    case None => Some(e.canonicalUrl.GetOr(""))
    case Some(links) =>
      if links == [] then None
      else Some(links[0].href.GetOr(e.canonicalUrl.GetOr("")))
  }

  /** An entry with an empty alternate list, whose URL lookup raises even though a canonical URL exists. */
  lemma EmptyAlternateRaises()
    ensures EntryUrlAsWritten(Entry(Some("e"), None, None, None, Some([]), Some("https://example.com/a"),
                                    None, None, None, None)).None?
  {
  }

  /**
   * The entry's URL with an empty alternate list treated like a missing one:
   * it agrees with the source wherever the source does not raise, and falls
   * back to the canonical URL where it does.
   */
  function EntryUrl(e: Entry): (r: string)
    ensures EntryUrlAsWritten(e).Some? ==> r == EntryUrlAsWritten(e).value
    ensures (e.alternate.None? || e.alternate == Some([])) ==> r == e.canonicalUrl.GetOr("")
  {
    match e.alternate
    case Some(links) =>
      if links == [] then e.canonicalUrl.GetOr("")
      else links[0].href.GetOr(e.canonicalUrl.GetOr(""))
    case None => e.canonicalUrl.GetOr("")
  }

  const ContentHeader := "\n**Content:**\n"
  const SummaryHeader := "\n**Summary:** "
  const UrlHeader := "**URL:** "

  function TitleLine(e: Entry): string
  {
    "### " + e.title.GetOr("Untitled")
  }

  function MetaLine(e: Entry, localTime: int -> Option<string>): string
  {
    "**Author:** " + e.author.GetOr("Unknown author")
    + " | **Published:** " + FormatTimestamp(e.published, localTime)
    + " | **Unread:** " + (if e.unread.GetOr(false) then "Yes" else "No")
  }

  function IdLine(e: Entry): string
  {
    "**ID:** `" + e.id.GetOr("") + "`"
  }

  function UrlLine(url: string): string
  {
    UrlHeader + "[" + url + "](" + url + ")"
  }

  /** The lines of an entry block: title, metadata, ID, the URL if any, then content or summary. */
  function EntryLines(e: Entry, includeContent: bool, localTime: int -> Option<string>): seq<string>
  {
    var url := EntryUrl(e);
    var content := ArticleContent(e);
    var summary := TruncateText(Some(content), SummaryLength);
    [TitleLine(e), MetaLine(e, localTime), IdLine(e)]
    + (if url != "" then [UrlLine(url)] else [])
    + (if includeContent && content != "" then [ContentHeader + content]
       else if summary != "" then [SummaryHeader + summary]
       else [])
  }

  /** `_format_entry_markdown`, as a value. */
  function EntryMarkdown(e: Entry, includeContent: bool, localTime: int -> Option<string>): string
  {
    Join(EntryLines(e, includeContent, localTime), "\n")
  }

  /** Some line of the block starts with `p`. */
  predicate HasLineStarting(lines: seq<string>, p: string)
  {
    exists i :: 0 <= i < |lines| && StartsWith(lines[i], p)
  }

  lemma DiffersAt(s: string, p: string, k: nat)
    requires k < |s| && k < |p| && s[k] != p[k]
    ensures !StartsWith(s, p)
  {
  }

  lemma PrefixOf(a: string, b: string)
    ensures StartsWith(a + b, a)
  {
    assert (a + b)[..|a|] == a;
  }

  lemma HasLineStartingAppend(a: seq<string>, b: seq<string>, p: string)
    ensures HasLineStarting(a + b, p) <==> HasLineStarting(a, p) || HasLineStarting(b, p)
  {
    if HasLineStarting(a + b, p) {
      var i :| 0 <= i < |a + b| && StartsWith((a + b)[i], p);
      if i >= |a| {
        assert b[i - |a|] == (a + b)[i];
      }
    }
    if HasLineStarting(a, p) {
      var i :| 0 <= i < |a| && StartsWith(a[i], p);
      assert (a + b)[i] == a[i];
    }
    if HasLineStarting(b, p) {
      var i :| 0 <= i < |b| && StartsWith(b[i], p);
      assert (a + b)[|a| + i] == b[i];
    }
  }

  lemma HasLineStartingSingle(x: string, p: string)
    ensures HasLineStarting([x], p) <==> StartsWith(x, p)
  {
    if StartsWith(x, p) {
      assert [x][0] == x;
    }
  }

  /** None of the three fixed lines starts with `p`, one of the optional line headers. */
  lemma HeadsStartWithNoHeader(e: Entry, localTime: int -> Option<string>, p: string)
    requires p == UrlHeader || p == ContentHeader || p == SummaryHeader
    ensures !HasLineStarting([TitleLine(e), MetaLine(e, localTime), IdLine(e)], p)
  {
    assert TitleLine(e)[0] == '#';
    assert MetaLine(e, localTime)[2] == 'A';
    assert IdLine(e)[2] == 'I';
    DiffersAt(TitleLine(e), p, 0);
    if p == UrlHeader {
      DiffersAt(MetaLine(e, localTime), p, 2);
      DiffersAt(IdLine(e), p, 2);
    } else {
      DiffersAt(MetaLine(e, localTime), p, 0);
      DiffersAt(IdLine(e), p, 0);
    }
  }

  /**
   * What an entry block shows. The full content line appears exactly when
   * content is requested and non-empty; otherwise a Summary line (the
   * content cut to 300 characters) appears exactly when there is content;
   * an entry without content has neither; the URL line appears exactly when
   * the URL is non-empty.
   */
  lemma {:induction false} EntryLinesShape(e: Entry, includeContent: bool, localTime: int -> Option<string>)
    ensures var lines := EntryLines(e, includeContent, localTime);
            var content := ArticleContent(e);
            && lines[..3] == [TitleLine(e), MetaLine(e, localTime), IdLine(e)]
            && (HasLineStarting(lines, UrlHeader) <==> EntryUrl(e) != "")
            && (HasLineStarting(lines, ContentHeader) <==> includeContent && content != "")
            && (HasLineStarting(lines, SummaryHeader) <==> !includeContent && content != "")
            && (includeContent && content != "" ==> lines[|lines| - 1] == ContentHeader + content)
            && (!includeContent && content != "" ==>
                  lines[|lines| - 1] == SummaryHeader + TruncateText(Some(content), SummaryLength))
            && (content == "" ==> |lines| == 3 + (if EntryUrl(e) != "" then 1 else 0))
  {
    var lines := EntryLines(e, includeContent, localTime);
    var url := EntryUrl(e);
    var content := ArticleContent(e);
    var summary := TruncateText(Some(content), SummaryLength);
    var heads := [TitleLine(e), MetaLine(e, localTime), IdLine(e)];
    var urlPart := if url != "" then [UrlLine(url)] else [];
    var bodyPart := if includeContent && content != "" then [ContentHeader + content]
                    else if summary != "" then [SummaryHeader + summary] else [];
    assert lines == heads + urlPart + bodyPart;
    assert (heads + urlPart + bodyPart)[..3] == heads;
    if url != "" {
      PrefixOf(UrlHeader, "[" + url + "](" + url + ")");
      DiffersAt(UrlLine(url), ContentHeader, 0);
      DiffersAt(UrlLine(url), SummaryHeader, 0);
      HasLineStartingSingle(UrlLine(url), UrlHeader);
      HasLineStartingSingle(UrlLine(url), ContentHeader);
      HasLineStartingSingle(UrlLine(url), SummaryHeader);
    }
    if includeContent && content != "" {
      PrefixOf(ContentHeader, content);
      DiffersAt(ContentHeader + content, UrlHeader, 0);
      DiffersAt(ContentHeader + content, SummaryHeader, 3);
      HasLineStartingSingle(ContentHeader + content, UrlHeader);
      HasLineStartingSingle(ContentHeader + content, ContentHeader);
      HasLineStartingSingle(ContentHeader + content, SummaryHeader);
    } else if summary != "" {
      PrefixOf(SummaryHeader, summary);
      DiffersAt(SummaryHeader + summary, UrlHeader, 0);
      DiffersAt(SummaryHeader + summary, ContentHeader, 3);
      HasLineStartingSingle(SummaryHeader + summary, UrlHeader);
      HasLineStartingSingle(SummaryHeader + summary, ContentHeader);
      HasLineStartingSingle(SummaryHeader + summary, SummaryHeader);
    }
    forall p | p == UrlHeader || p == ContentHeader || p == SummaryHeader
      ensures HasLineStarting(lines, p) <==> HasLineStarting(urlPart, p) || HasLineStarting(bodyPart, p)
    {
      HeadsStartWithNoHeader(e, localTime, p);
      HasLineStartingAppend(heads, urlPart, p);
      HasLineStartingAppend(heads + urlPart, bodyPart, p);
    }
  }

  /** What indexing an empty `alternate` list raises. */
  const EmptyAlternateError := Client.Unexpected("IndexError", "list index out of range")

  /**
   * `_format_entry_markdown`: the block's lines are collected one append at
   * a time and joined with newlines. The URL lookup raises on an empty
   * alternate list; otherwise the block is the one `EntryLinesShape`
   * describes.
   */
  method FormatEntryMarkdown(e: Entry, includeContent: bool, localTime: int -> Option<string>)
    returns (r: Result<string, Client.RequestError>)
    ensures r.Failure? <==> e.alternate == Some([])
    ensures r.Failure? ==> r.error == EmptyAlternateError
    ensures r.Success? ==> r.value == EntryMarkdown(e, includeContent, localTime)
    ensures r.Success? ==> StartsWith(r.value, "### ")
  {
    var lines := [TitleLine(e), MetaLine(e, localTime), IdLine(e)];
    var lookup := EntryUrlAsWritten(e);
    if lookup.None? {
      return Failure(EmptyAlternateError);
    }
    var url := lookup.value;
    if url != "" {
      lines := lines + [UrlLine(url)];
    }
    var content := ArticleContent(e);
    var summary := TruncateText(Some(content), SummaryLength);
    if includeContent && content != "" {
      lines := lines + [ContentHeader + content];
    } else if summary != "" {
      lines := lines + [SummaryHeader + summary];
    }
    assert lines == EntryLines(e, includeContent, localTime);
    r := Success(Join(lines, "\n"));
    EntryMarkdownStartsWithTitle(e, includeContent, localTime);
  }

  lemma StartsWithTrans(s: string, t: string, p: string)
    requires StartsWith(s, t) && StartsWith(t, p)
    ensures StartsWith(s, p)
  {
    assert s[..|p|] == t[..|p|];
  }

  lemma EntryMarkdownStartsWithTitle(e: Entry, includeContent: bool, localTime: int -> Option<string>)
    ensures StartsWith(EntryMarkdown(e, includeContent, localTime), "### ")
  {
    var lines := EntryLines(e, includeContent, localTime);
    JoinStartsWithFirst(lines, "\n");
    PrefixOf("### ", e.title.GetOr("Untitled"));
    StartsWithTrans(EntryMarkdown(e, includeContent, localTime), lines[0], "### ");
  }

  const NoArticles := "No articles found."
  const EntrySeparator := "\n\n---\n\n"

  function EntryBlocks(entries: seq<Entry>, includeContent: bool, localTime: int -> Option<string>): (r: seq<string>)
    ensures |r| == |entries|
    ensures forall i :: 0 <= i < |entries| ==> r[i] == EntryMarkdown(entries[i], includeContent, localTime)
  {
    seq(|entries|, i requires 0 <= i < |entries| => EntryMarkdown(entries[i], includeContent, localTime))
  }

  /**
   * `_format_entries_markdown`: the sentinel for no entries; otherwise one
   * block per entry, in input order, with exactly one separator between
   * consecutive blocks (so never the sentinel).
   */
  function FormatEntriesMarkdown(entries: seq<Entry>, includeContent: bool, localTime: int -> Option<string>)
    : (r: string)
    ensures entries == [] ==> r == NoArticles
    ensures entries != [] ==>
              && r == Concat(Interleave(EntryBlocks(entries, includeContent, localTime), EntrySeparator))
              && StartsWith(r, "### ")
              && r != NoArticles
  {
    if entries == [] then NoArticles
    else
      var blocks := EntryBlocks(entries, includeContent, localTime);
      JoinIsInterleave(blocks, EntrySeparator);
      JoinStartsWithFirst(blocks, EntrySeparator);
      EntryMarkdownStartsWithTitle(entries[0], includeContent, localTime);
      StartsWithTrans(Join(blocks, EntrySeparator), blocks[0], "### ");
      DiffersAt(NoArticles, "### ", 0);
      Join(blocks, EntrySeparator)
  }

  // ---------------------------------------------------------------------------
  // Entry lists with the exceptions the source raises
  // ---------------------------------------------------------------------------

  /**
   * The exception `_format_entry_markdown` raises on a decoded value, if
   * any: `.get` fails on a value that is not an object, and the URL lookup
   * fails on an empty alternate list. When nothing is raised, the source's
   * URL is the corrected one, so the block is `EntryMarkdown`.
   */
  function EntryRaises(v: Value): (r: Option<Client.RequestError>)
    ensures !v.JObject? ==> r == Some(Client.NoGet(Some(v)))
    ensures v.JObject? ==> (r.Some? <==> EntryOf(v).alternate == Some([]))
    ensures v.JObject? && r.Some? ==> r.value == EmptyAlternateError
    ensures r.None? ==> EntryUrlAsWritten(EntryOf(v)) == Some(EntryUrl(EntryOf(v)))
  {
    if !v.JObject? then Some(Client.NoGet(Some(v)))
    else if EntryOf(v).alternate == Some([]) then Some(EmptyAlternateError)
    else None
  }

  /** The first present value at or after `from`, scanning in list order. */
  function FirstSome<T>(xs: seq<Option<T>>, from: nat): (r: Option<T>)
    requires from <= |xs|
    ensures r.None? <==> forall i :: from <= i < |xs| ==> xs[i].None?
    ensures r.Some? ==>
              exists i :: && from <= i < |xs| && xs[i] == r
                          && forall j :: from <= j < i ==> xs[j].None?
    decreases |xs| - from
  {
    if from == |xs| then None
    else if xs[from].Some? then xs[from]
    else FirstSome(xs, from + 1)
  }

  /** What each item's rendering raises, item by item. */
  function RaisedBy(items: seq<Value>): (r: seq<Option<Client.RequestError>>)
    ensures |r| == |items|
    ensures forall i :: 0 <= i < |items| ==> r[i] == EntryRaises(items[i])
  {
    seq(|items|, i requires 0 <= i < |items| => EntryRaises(items[i]))
  }

  /**
   * `_format_entries_markdown` on the decoded items: the sentinel for none;
   * the exception of the first item that raises; otherwise the rendering of
   * every entry, with one separator between neighbours.
   */
  function EntriesMarkdownOf(items: seq<Value>, includeContent: bool, localTime: int -> Option<string>)
    : (r: Result<string, Client.RequestError>)
    ensures items == [] ==> r == Success(NoArticles)
    ensures r.Failure? <==> exists i :: 0 <= i < |items| && EntryRaises(items[i]).Some?
    ensures r.Failure? ==>
              exists i :: && 0 <= i < |items| && EntryRaises(items[i]) == Some(r.error)
                          && forall j :: 0 <= j < i ==> EntryRaises(items[j]).None?
    ensures r.Success? ==> r.value == FormatEntriesMarkdown(EntriesOf(items), includeContent, localTime)
  {
    match FirstSome(RaisedBy(items), 0)
    case Some(e) => Failure(e)
    case None => Success(FormatEntriesMarkdown(EntriesOf(items), includeContent, localTime))
  }

  // ---------------------------------------------------------------------------
  // Stream contents
  // ---------------------------------------------------------------------------

  /** A page of a stream listing: its raw items and its continuation token. */
  datatype StreamPage = StreamPage(items: seq<Value>, continuation: Option<string>)

  /** `data.get("items", [])` and `data.get("continuation")`. */
  function PageOf(data: Value): StreamPage
  {
    var m := FieldsOf(data);
    StreamPage(GetArray(m, "items").GetOr([]), GetStr(m, "continuation"))
  }

  /**
   * The JSON envelope of a page: exactly the items, their count, and the
   * continuation token when it is non-empty.
   */
  predicate IsEnvelope(env: map<string, Value>, page: StreamPage)
  {
    && env.Keys == {"items", "count"} + (if TruthyStr(page.continuation) then {"continuation"} else {})
    && env["items"] == JArray(page.items)
    && env["count"] == JInt(|page.items|)
    && (TruthyStr(page.continuation) ==> env["continuation"] == JStr(page.continuation.value))
  }

  /** A page has exactly one envelope. */
  lemma EnvelopeUnique(env1: map<string, Value>, env2: map<string, Value>, page: StreamPage)
    requires IsEnvelope(env1, page) && IsEnvelope(env2, page)
    ensures env1 == env2
  {
    assert forall k :: k in env1 ==> env1[k] == env2[k];
  }

  /** The JSON-mode result of `_format_stream_contents`, before serialisation. */
  method StreamEnvelope(page: StreamPage) returns (env: map<string, Value>)
    ensures IsEnvelope(env, page)
  {
    env := map["items" := JArray(page.items), "count" := JInt(|page.items|)];
    if TruthyStr(page.continuation) {
      env := env["continuation" := JStr(page.continuation.value)];
    }
  }

  function ArticlesHeader(n: nat): string
  {
    "## Articles (" + NatToString(n) + " found)\n"
  }

  function ContinuationNotice(token: string): string
  {
    "\n\n---\n**More articles available.** Use continuation token: `" + token + "`"
  }

  /**
   * The markdown rendering of a page: the header with the item count, the
   * entry list (summaries only), and the continuation notice exactly when
   * the token is non-empty.
   */
  function StreamMarkdown(page: StreamPage, localTime: int -> Option<string>): string
  {
    ArticlesHeader(|page.items|) + "\n" + FormatEntriesMarkdown(EntriesOf(page.items), false, localTime)
    + (if TruthyStr(page.continuation) then "\n" + ContinuationNotice(page.continuation.value) else "")
  }

  /** Joining the two or three lines of a page's markdown with newlines. */
  lemma JoinPageLines(header: string, entries: string, notice: Option<string>)
    ensures Join([header, entries] + (if notice.Some? then [notice.value] else []), "\n")
            == header + "\n" + entries + (if notice.Some? then "\n" + notice.value else "")
  {
    assert [header, entries][1..] == [entries];
    if notice.Some? {
      JoinSnoc([header, entries], notice.value, "\n");
    } else {
      assert [header, entries] + [] == [header, entries];
    }
  }

  /**
   * The markdown path of `_format_stream_contents`: lines appended, then
   * joined with newlines; an entry that raises makes the whole call raise.
   */
  method StreamContentsMarkdown(page: StreamPage, localTime: int -> Option<string>)
    returns (r: Result<string, Client.RequestError>)
    ensures match EntriesMarkdownOf(page.items, false, localTime)
            case Failure(e) => r == Failure(e)
            case Success(_) => r == Success(StreamMarkdown(page, localTime))
  {
    var header := ArticlesHeader(|page.items|);
    var lines := [header];
    var listed := EntriesMarkdownOf(page.items, false, localTime);
    if listed.Failure? {
      return Failure(listed.error);
    }
    var entries := listed.value;
    lines := lines + [entries];
    assert lines == [header, entries];
    var notice := None;
    if TruthyStr(page.continuation) {
      notice := Some(ContinuationNotice(page.continuation.value));
      lines := lines + [notice.value];
    } else {
      assert lines == [header, entries] + [];
    }
    r := Success(Join(lines, "\n"));
    JoinPageLines(header, entries, notice);
  }

  /**
   * `_format_stream_contents`. In JSON mode the serialised object is the
   * page's envelope, whose count is the number of items and which has a
   * continuation key exactly when the token is non-empty; JSON mode never
   * raises. Markdown mode raises where an entry of the page does.
   */
  method FormatStreamContents(data: Value, format: Models.ResponseFormat,
                              dumps: Value -> string, localTime: int -> Option<string>)
    returns (r: Result<string, Client.RequestError>)
    ensures format == Models.JsonFormat ==>
              r.Success? && exists env :: IsEnvelope(env, PageOf(data)) && r.value == dumps(JObject(env))
    ensures format == Models.Markdown ==>
              match EntriesMarkdownOf(PageOf(data).items, false, localTime)
              case Failure(e) => r == Failure(e)
              case Success(_) => r == Success(StreamMarkdown(PageOf(data), localTime))
  {
    var page := PageOf(data);
    if format == Models.JsonFormat {
      var env := StreamEnvelope(page);
      r := Success(dumps(JObject(env)));
    } else {
      r := StreamContentsMarkdown(page, localTime);
    }
  }

  // ---------------------------------------------------------------------------
  // Tags
  // ---------------------------------------------------------------------------

  datatype Tag = Tag(id: Option<string>, tagLabel: Option<string>)

  function TagOf(v: Value): Tag
  {
    Tag(GetStr(FieldsOf(v), "id"), GetStr(FieldsOf(v), "label"))
  }

  /** The tags of a reply list, element by element. */
  function TagsOf(items: seq<Value>): (r: seq<Tag>)
    ensures |r| == |items|
  {
    seq(|items|, i requires 0 <= i < |items| => TagOf(items[i]))
  }

  /** A tag's label, defaulting to the last "/"-separated piece of its ID. */
  function TagLabel(t: Tag): (r: string)
    ensures t.tagLabel.Some? ==> r == t.tagLabel.value
    ensures t.tagLabel.None? ==> !Contains(r, "/") && EndsWith(t.id.GetOr(""), r)
    ensures t.tagLabel.None? && !Contains(t.id.GetOr(""), "/") ==> r == t.id.GetOr("")
    ensures t.tagLabel.None? && Contains(t.id.GetOr(""), "/") ==> EndsWith(t.id.GetOr(""), "/" + r)
  {
    t.tagLabel.GetOr(LastPiece(t.id.GetOr(""), "/"))
  }

  function TagLabelLine(t: Tag): string
  {
    "- **" + TagLabel(t) + "**"
  }

  function TagIdLine(t: Tag): string
  {
    "  - ID: `" + t.id.GetOr("") + "`"
  }

  function TagLabelLines(tags: seq<Tag>): (r: seq<string>)
    ensures |r| == |tags| && forall i :: 0 <= i < |tags| ==> r[i] == TagLabelLine(tags[i])
  {
    seq(|tags|, i requires 0 <= i < |tags| => TagLabelLine(tags[i]))
  }

  function TagIdLines(tags: seq<Tag>): (r: seq<string>)
    ensures |r| == |tags| && forall i :: 0 <= i < |tags| ==> r[i] == TagIdLine(tags[i])
  {
    seq(|tags|, i requires 0 <= i < |tags| => TagIdLine(tags[i]))
  }

  /** Two lines per tag, in input order: its label, then its ID. */
  function TagBlocks(tags: seq<Tag>): seq<string>
  {
    Pairs(TagLabelLines(tags), TagIdLines(tags))
  }

  /** The lines of the i-th tag sit at positions 2i and 2i + 1. */
  lemma TagBlocksAt(tags: seq<Tag>, i: nat)
    requires i < |tags|
    ensures |TagBlocks(tags)| == 2 * |tags|
    ensures TagBlocks(tags)[2 * i] == TagLabelLine(tags[i])
    ensures TagBlocks(tags)[2 * i + 1] == TagIdLine(tags[i])
  {
    PairsAt(TagLabelLines(tags), TagIdLines(tags), i);
  }

  const NoTags := "No tags found."

  function TagsHeader(n: nat): string
  {
    "## Tags (" + NatToString(n) + " found)\n"
  }

  /** `_format_tags_markdown`, as a value: the sentinel, or a header followed by two lines per tag. */
  function TagsMarkdown(tags: seq<Tag>): string
  {
    if tags == [] then NoTags else Join([TagsHeader(|tags|)] + TagBlocks(tags), "\n")
  }

  /** `_format_tags_markdown`: two lines appended per tag, then joined with newlines. */
  method FormatTagsMarkdown(tags: seq<Tag>) returns (r: string)
    ensures r == TagsMarkdown(tags)
  {
    if tags == [] {
      return NoTags;
    }
    var labels := TagLabelLines(tags);
    var ids := TagIdLines(tags);
    var lines := [TagsHeader(|tags|)];
    var i := 0;
    while i < |tags|
      invariant 0 <= i <= |tags|
      invariant lines == [TagsHeader(|tags|)] + Pairs(labels[..i], ids[..i])
    {
      PairsSnoc([TagsHeader(|tags|)], labels, ids, i);
      lines := lines + [labels[i], ids[i]];
      i := i + 1;
    }
    PairsAll(labels, ids);
    r := Join(lines, "\n");
  }
}
