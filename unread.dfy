/**
 * The unread-counts rendering: counts ordered by a stable descending sort on
 * their count (a missing count ranks as 0), each stream ID classified into a
 * readable name and kind, two lines per stream.
 */
module Unread {
  import opened Wrappers
  import opened Json
  import opened Text
  import Render

  /** One element of the `unreadcounts` list. */
  datatype UnreadCount = UnreadCount(id: Option<string>, count: Option<int>, updated: Option<int>)

  function CountOf(v: Value): UnreadCount
  {
    var m := FieldsOf(v);
    UnreadCount(GetStr(m, "id"), GetInt(m, "count"), GetInt(m, "updated"))
  }

  /** `data.get("unreadcounts", [])`, element by element. */
  function CountsOf(data: map<string, Value>): (r: seq<UnreadCount>)
  {
    var items := GetArray(data, "unreadcounts").GetOr([]);
    seq(|items|, i requires 0 <= i < |items| => CountOf(items[i]))
  }

  /** The sort key and the displayed count: `item.get("count", 0)`. */
  function Key(u: UnreadCount): int
  {
    u.count.GetOr(0)
  }

  // ---------------------------------------------------------------------------
  // Stable descending sort
  // ---------------------------------------------------------------------------

  predicate Descending(s: seq<UnreadCount>)
  {
    forall i, j :: 0 <= i < j < |s| ==> Key(s[i]) >= Key(s[j])
  }

  /** Places `x` after every element whose key is at least its own. */
  function Insert(x: UnreadCount, s: seq<UnreadCount>): (r: seq<UnreadCount>)
    ensures multiset(r) == multiset(s) + multiset{x}
  {
    if s == [] then [x]
    else if Key(s[0]) >= Key(x) then
      assert s == [s[0]] + s[1..];
      [s[0]] + Insert(x, s[1..])
    else [x] + s
  }

  /** `sorted(counts, key=count, reverse=True)`: each element inserted after those before it. */
  function SortByCount(xs: seq<UnreadCount>): (r: seq<UnreadCount>)
    ensures multiset(r) == multiset(xs)
  {
    if xs == [] then []
    else
      assert xs == xs[..|xs| - 1] + [xs[|xs| - 1]];
      Insert(xs[|xs| - 1], SortByCount(xs[..|xs| - 1]))
  }

  /** Every element of a non-increasing list is bounded by its head. */
  predicate AllAtMost(s: seq<UnreadCount>, bound: int)
  {
    forall i :: 0 <= i < |s| ==> Key(s[i]) <= bound
  }

  lemma DescendingTail(s: seq<UnreadCount>)
    requires s != [] && Descending(s)
    ensures Descending(s[1..]) && AllAtMost(s[1..], Key(s[0]))
  {
    forall i, j | 0 <= i < j < |s[1..]| ensures Key(s[1..][i]) >= Key(s[1..][j]) {
      assert s[1..][i] == s[i + 1] && s[1..][j] == s[j + 1];
    }
    forall i | 0 <= i < |s[1..]| ensures Key(s[1..][i]) <= Key(s[0]) {
      assert s[1..][i] == s[i + 1];
    }
  }

  /** Inserting an element within a bound keeps every element within it. */
  lemma {:induction false} InsertAtMost(x: UnreadCount, s: seq<UnreadCount>, bound: int)
    requires AllAtMost(s, bound) && Key(x) <= bound
    ensures AllAtMost(Insert(x, s), bound)
  {
    if s != [] && Key(s[0]) >= Key(x) {
      assert AllAtMost(s[1..], bound) by {
        forall i | 0 <= i < |s[1..]| ensures Key(s[1..][i]) <= bound {
          assert s[1..][i] == s[i + 1];
        }
      }
      InsertAtMost(x, s[1..], bound);
      var r := [s[0]] + Insert(x, s[1..]);
      forall i | 0 <= i < |r| ensures Key(r[i]) <= bound {
        if i > 0 {
          assert r[i] == Insert(x, s[1..])[i - 1];
        }
      }
    }
  }

  lemma {:induction false} InsertDescending(x: UnreadCount, s: seq<UnreadCount>)
    requires Descending(s)
    ensures Descending(Insert(x, s))
  {
    if s != [] && Key(s[0]) >= Key(x) {
      var tail := s[1..];
      DescendingTail(s);
      InsertDescending(x, tail);
      InsertAtMost(x, tail, Key(s[0]));
      var rest := Insert(x, tail);
      var r := [s[0]] + rest;
      forall i, j | 0 <= i < j < |r|
        ensures Key(r[i]) >= Key(r[j])
      {
        assert r[j] == rest[j - 1];
        if i > 0 {
          assert r[i] == rest[i - 1];
        }
      }
    }
  }

  /** The sorted list is in non-increasing order of count. */
  lemma {:induction false} SortDescending(xs: seq<UnreadCount>)
    ensures Descending(SortByCount(xs))
  {
    if xs != [] {
      SortDescending(xs[..|xs| - 1]);
      InsertDescending(xs[|xs| - 1], SortByCount(xs[..|xs| - 1]));
    }
  }

  /** The elements whose key is `k`, in their order. */
  function WithKey(s: seq<UnreadCount>, k: int): (r: seq<UnreadCount>)
  {
    if s == [] then []
    else (if Key(s[0]) == k then [s[0]] else []) + WithKey(s[1..], k)
  }

  lemma {:induction false} WithKeyAppend(a: seq<UnreadCount>, b: seq<UnreadCount>, k: int)
    ensures WithKey(a + b, k) == WithKey(a, k) + WithKey(b, k)
  {
    if a == [] {
      assert a + b == b;
    } else {
      var head := if Key(a[0]) == k then [a[0]] else [];
      calc {
        WithKey(a + b, k);
        == { assert (a + b)[0] == a[0]; assert (a + b)[1..] == a[1..] + b; }
        head + WithKey(a[1..] + b, k);
        == { WithKeyAppend(a[1..], b, k); }
        head + (WithKey(a[1..], k) + WithKey(b, k));
        (head + WithKey(a[1..], k)) + WithKey(b, k);
      }
    }
  }

  lemma {:induction false} WithKeyNone(s: seq<UnreadCount>, k: int)
    requires forall i :: 0 <= i < |s| ==> Key(s[i]) < k
    ensures WithKey(s, k) == []
  {
    if s != [] {
      WithKeyNone(s[1..], k);
    }
  }

  lemma WithKeyCons(y: UnreadCount, t: seq<UnreadCount>, k: int)
    ensures WithKey([y] + t, k) == (if Key(y) == k then [y] else []) + WithKey(t, k)
  {
    assert ([y] + t)[0] == y;
    assert ([y] + t)[1..] == t;
  }

  lemma {:induction false} InsertWithKey(x: UnreadCount, s: seq<UnreadCount>, k: int)
    requires Descending(s)
    ensures WithKey(Insert(x, s), k) == WithKey(s, k) + (if Key(x) == k then [x] else [])
  {
    var single := if Key(x) == k then [x] else [];
    if s == [] {
      WithKeySingle(x, k);
    } else if Key(s[0]) >= Key(x) {
      var head := if Key(s[0]) == k then [s[0]] else [];
      DescendingTail(s);
      calc {
        WithKey(Insert(x, s), k);
        WithKey([s[0]] + Insert(x, s[1..]), k);
        == { WithKeyCons(s[0], Insert(x, s[1..]), k); }
        head + WithKey(Insert(x, s[1..]), k);
        == { InsertWithKey(x, s[1..], k); }
        head + (WithKey(s[1..], k) + single);
        (head + WithKey(s[1..], k)) + single;
        == { WithKeyCons(s[0], s[1..], k); assert [s[0]] + s[1..] == s; }
        WithKey(s, k) + single;
      }
    } else {
      InsertFrontWithKey(x, s, k);
    }
  }

  /** An element placed in front of a list whose keys are all smaller. */
  lemma InsertFrontWithKey(x: UnreadCount, s: seq<UnreadCount>, k: int)
    requires Descending(s) && s != [] && Key(s[0]) < Key(x)
    ensures WithKey([x] + s, k) == WithKey(s, k) + (if Key(x) == k then [x] else [])
  {
    WithKeyCons(x, s, k);
    if Key(x) == k {
      forall i | 0 <= i < |s| ensures Key(s[i]) < k {
        assert i == 0 || Key(s[0]) >= Key(s[i]);
      }
      WithKeyNone(s, k);
    }
  }

  /**
   * Stability: for every count, the elements with that count keep their
   * input order. With `Descending` and the multiset equality this pins the
   * result down to the one stable descending sort.
   */
  lemma {:induction false} SortStable(xs: seq<UnreadCount>, k: int)
    ensures WithKey(SortByCount(xs), k) == WithKey(xs, k)
  {
    if xs != [] {
      var init, last := xs[..|xs| - 1], xs[|xs| - 1];
      calc {
        WithKey(SortByCount(xs), k);
        == { assert SortByCount(xs) == Insert(last, SortByCount(init)); }
        WithKey(Insert(last, SortByCount(init)), k);
        == { SortDescending(init); InsertWithKey(last, SortByCount(init), k); }
        WithKey(SortByCount(init), k) + (if Key(last) == k then [last] else []);
        == { SortStable(init, k); WithKeySingle(last, k); }
        WithKey(init, k) + WithKey([last], k);
        == { WithKeyAppend(init, [last], k); assert init + [last] == xs; }
        WithKey(xs, k);
      }
    }
  }

  lemma WithKeySingle(x: UnreadCount, k: int)
    ensures WithKey([x], k) == if Key(x) == k then [x] else []
  {
    assert [x][1..] == [];
  }

  // ---------------------------------------------------------------------------
  // Stream classification
  // ---------------------------------------------------------------------------

  datatype StreamKind = CategoryStream | TagStream | FeedStream | OtherStream

  function KindName(k: StreamKind): string
  {
    match k
    case CategoryStream => "Category"
    case TagStream => "Tag"
    case FeedStream => "Feed"
    case OtherStream => "Stream"
  }

  datatype Readable = Readable(name: string, kind: StreamKind)

  const CategoryMarker := "/category/"
  const TagMarker := "/tag/"
  const FeedPrefix := "feed/"

  /**
   * The readable name of a stream ID, by the first rule that applies: a
   * category marker anywhere, a tag marker anywhere, the feed prefix, or
   * none. The name is always a suffix of the ID; for a category or a tag it
   * follows the marker and contains no further marker; for a feed it is the
   * ID without its prefix.
   */
  function Classify(id: string): (r: Readable)
    ensures EndsWith(id, r.name)
    ensures r.kind == CategoryStream <==> Contains(id, CategoryMarker)
    ensures r.kind == TagStream <==> !Contains(id, CategoryMarker) && Contains(id, TagMarker)
    ensures r.kind == FeedStream <==>
              !Contains(id, CategoryMarker) && !Contains(id, TagMarker) && StartsWith(id, FeedPrefix)
    ensures r.kind == CategoryStream ==>
              r.name == LastPiece(id, CategoryMarker) && EndsWith(id, CategoryMarker + r.name)
              && !Contains(r.name, CategoryMarker)
    ensures r.kind == TagStream ==>
              r.name == LastPiece(id, TagMarker) && EndsWith(id, TagMarker + r.name)
              && !Contains(r.name, TagMarker)
    ensures r.kind == FeedStream ==> id == FeedPrefix + r.name
    ensures r.kind == OtherStream ==> r.name == id
  {
    if Contains(id, CategoryMarker) then Readable(LastPiece(id, CategoryMarker), CategoryStream)
    else if Contains(id, TagMarker) then Readable(LastPiece(id, TagMarker), TagStream)
    else if StartsWith(id, FeedPrefix) then
      assert id == id[..5] + id[5..];
      Readable(id[5..], FeedStream)
    else Readable(id, OtherStream)
  }

  // ---------------------------------------------------------------------------
  // Markdown
  // ---------------------------------------------------------------------------

  function StreamIdOf(u: UnreadCount): string
  {
    u.id.GetOr("")
  }

  function CountLine(u: UnreadCount, localTime: int -> Option<string>): string
  {
    var readable := Classify(StreamIdOf(u));
    "- **" + readable.name + "** (" + KindName(readable.kind) + "): " + IntToString(Key(u))
    + " unread (updated: " + Render.FormatTimestamp(u.updated, localTime) + ")"
  }

  function CountIdLine(u: UnreadCount): string
  {
    "  - ID: `" + StreamIdOf(u) + "`"
  }

  function CountLines(us: seq<UnreadCount>, localTime: int -> Option<string>): (r: seq<string>)
    ensures |r| == |us| && forall i :: 0 <= i < |us| ==> r[i] == CountLine(us[i], localTime)
  {
    seq(|us|, i requires 0 <= i < |us| => CountLine(us[i], localTime))
  }

  function CountIdLines(us: seq<UnreadCount>): (r: seq<string>)
    ensures |r| == |us| && forall i :: 0 <= i < |us| ==> r[i] == CountIdLine(us[i])
  {
    seq(|us|, i requires 0 <= i < |us| => CountIdLine(us[i]))
  }

  /** Two lines per stream, in the given order. */
  function CountBlocks(us: seq<UnreadCount>, localTime: int -> Option<string>): seq<string>
  {
    Pairs(CountLines(us, localTime), CountIdLines(us))
  }

  const NoCounts := "No unread counts available."
  const CountsHeader := "## Unread Counts\n"

  /** `_format_unread_counts_markdown`, as a value. */
  function UnreadCountsMarkdown(counts: seq<UnreadCount>, localTime: int -> Option<string>): string
  {
    if counts == [] then NoCounts
    else Join([CountsHeader] + CountBlocks(SortByCount(counts), localTime), "\n")
  }

  /**
   * `_format_unread_counts_markdown`: no counts give the sentinel; otherwise
   * the counts are sorted and their lines joined.
   */
  method FormatUnreadCountsMarkdown(data: map<string, Value>, localTime: int -> Option<string>)
    returns (r: string)
    ensures r == UnreadCountsMarkdown(CountsOf(data), localTime)
  {
    var counts := CountsOf(data);
    if counts == [] {
      return NoCounts;
    }
    var sorted := SortByCount(counts);
    var lines := CountsLines(sorted, localTime);
    r := Join(lines, "\n");
  }

  /** The loop of `_format_unread_counts_markdown`: after the header, two lines per stream, in order. */
  method CountsLines(sorted: seq<UnreadCount>, localTime: int -> Option<string>) returns (lines: seq<string>)
    ensures lines == [CountsHeader] + CountBlocks(sorted, localTime)
  {
    lines := [CountsHeader];
    var described := CountLines(sorted, localTime);
    var ids := CountIdLines(sorted);
    var i := 0;
    while i < |sorted|
      invariant 0 <= i <= |sorted|
      invariant lines == [CountsHeader] + Pairs(described[..i], ids[..i])
    {
      PairsSnoc([CountsHeader], described, ids, i);
      lines := lines + [described[i], ids[i]];
      i := i + 1;
    }
    PairsAll(described, ids);
  }

  /**
   * The rendering lists every stream once, in non-increasing count order with
   * ties in input order: line 2i + 1 (after the header) describes the i-th
   * stream of the stable sort and line 2i + 2 echoes its ID.
   */
  lemma UnreadCountsOrder(counts: seq<UnreadCount>, localTime: int -> Option<string>, i: nat)
    requires i < |counts|
    ensures var sorted := SortByCount(counts);
            var lines := [CountsHeader] + CountBlocks(sorted, localTime);
            && UnreadCountsMarkdown(counts, localTime) == Join(lines, "\n")
            && |sorted| == |counts|
            && lines[2 * i + 1] == CountLine(sorted[i], localTime)
            && lines[2 * i + 2] == CountIdLine(sorted[i])
            && Descending(sorted)
            && multiset(sorted) == multiset(counts)
  {
    var sorted := SortByCount(counts);
    assert |sorted| == |multiset(sorted)| == |multiset(counts)| == |counts|;
    PairsAt(CountLines(sorted, localTime), CountIdLines(sorted), i);
    SortDescending(counts);
  }
}
