/**
 * The Python string operations the adapter relies on, written out:
 * `sep.join(parts)`, `pat in s`, `s.startswith(p)`, `s.split(sep)[-1]`,
 * the validators' white-space trim, `s[:k]` and `str(n)` for integers.
 */
module Text {
  import opened Wrappers

  // ---------------------------------------------------------------------------
  // Joining
  // ---------------------------------------------------------------------------

  /** Python's `sep.join(parts)`. */
  function Join(parts: seq<string>, sep: string): string
  {
    if |parts| == 0 then ""
    else if |parts| == 1 then parts[0]
    else parts[0] + sep + Join(parts[1..], sep)
  }

  /** Plain concatenation of all parts, left to right. */
  function Concat(parts: seq<string>): string
  {
    if parts == [] then "" else parts[0] + Concat(parts[1..])
  }

  /**
   * The parts with one separator between each consecutive pair:
   * [p0, sep, p1, sep, ..., sep, p(n-1)].
   */
  function Interleave(parts: seq<string>, sep: string): (r: seq<string>)
    ensures parts == [] ==> r == []
    ensures parts != [] ==> |r| == 2 * |parts| - 1
    ensures forall i :: 0 <= i < |r| && i % 2 == 0 ==> r[i] == parts[i / 2]
    ensures forall i :: 0 <= i < |r| && i % 2 == 1 ==> r[i] == sep
  {
    if parts == [] then []
    else seq(2 * |parts| - 1, i requires 0 <= i < 2 * |parts| - 1 =>
               if i % 2 == 0 then parts[i / 2] else sep)
  }

  lemma {:induction false} ConcatAppend(a: seq<string>, b: seq<string>)
    ensures Concat(a + b) == Concat(a) + Concat(b)
  {
    if a == [] {
      assert a + b == b;
    } else {
      assert (a + b)[1..] == a[1..] + b;
      ConcatAppend(a[1..], b);
    }
  }

  /**
   * `sep.join(parts)` is the concatenation of exactly the parts, in their
   * order, with one separator between each consecutive pair and none at the
   * ends.
   */
  lemma {:induction false} JoinIsInterleave(parts: seq<string>, sep: string)
    ensures Join(parts, sep) == Concat(Interleave(parts, sep))
    decreases |parts|
  {
    if |parts| == 1 {
      assert Interleave(parts, sep) == [parts[0]];
    } else if |parts| > 1 {
      var rest := Interleave(parts[1..], sep);
      assert Interleave(parts, sep) == [parts[0], sep] + rest;
      JoinIsInterleave(parts[1..], sep);
      ConcatAppend([parts[0], sep], rest);
      assert Concat([parts[0], sep]) == parts[0] + sep;
    }
  }

  /** Joining a non-empty list starts with its first part. */
  lemma {:induction false} JoinStartsWithFirst(parts: seq<string>, sep: string)
    requires parts != []
    ensures StartsWith(Join(parts, sep), parts[0])
  {
    if |parts| > 1 {
      assert Join(parts, sep) == parts[0] + (sep + Join(parts[1..], sep));
    }
  }

  lemma {:induction false} JoinSnoc(parts: seq<string>, last: string, sep: string)
    requires parts != []
    ensures Join(parts + [last], sep) == Join(parts, sep) + sep + last
    decreases |parts|
  {
    if |parts| == 1 {
      assert (parts + [last])[1..] == [last];
    } else {
      assert (parts + [last])[1..] == parts[1..] + [last];
      JoinSnoc(parts[1..], last, sep);
    }
  }

  // ---------------------------------------------------------------------------
  // Interleaving two lists of lines
  // ---------------------------------------------------------------------------

  /** Two parallel lists of lines flattened pairwise: x0, y0, x1, y1, ... */
  function Pairs(xs: seq<string>, ys: seq<string>): (r: seq<string>)
    requires |xs| == |ys|
    ensures |r| == 2 * |xs|
  {
    if xs == [] then []
    else Pairs(xs[..|xs| - 1], ys[..|ys| - 1]) + [xs[|xs| - 1], ys[|ys| - 1]]
  }

  /** The i-th pair sits at positions 2i and 2i + 1. */
  lemma {:induction false} PairsAt(xs: seq<string>, ys: seq<string>, i: nat)
    requires |xs| == |ys| && i < |xs|
    ensures Pairs(xs, ys)[2 * i] == xs[i]
    ensures Pairs(xs, ys)[2 * i + 1] == ys[i]
  {
    var n := |xs| - 1;
    var rest := Pairs(xs[..n], ys[..n]);
    var pair := [xs[n], ys[n]];
    assert Pairs(xs, ys) == rest + pair;
    if i < n {
      PairsAt(xs[..n], ys[..n], i);
      assert (rest + pair)[2 * i] == rest[2 * i];
      assert (rest + pair)[2 * i + 1] == rest[2 * i + 1];
    } else {
      assert 2 * i == |rest|;
    }
  }

  /** A header line followed by the first i + 1 pairs is the header and i pairs, extended by one pair. */
  lemma PairsSnoc(head: seq<string>, xs: seq<string>, ys: seq<string>, i: nat)
    requires |xs| == |ys| && i < |xs|
    ensures head + Pairs(xs[..i], ys[..i]) + [xs[i], ys[i]] == head + Pairs(xs[..i + 1], ys[..i + 1])
  {
    assert xs[..i + 1][..i] == xs[..i];
    assert ys[..i + 1][..i] == ys[..i];
  }

  /** All pairs: the prefixes of the whole lists are the lists. */
  lemma PairsAll(xs: seq<string>, ys: seq<string>)
    requires |xs| == |ys|
    ensures Pairs(xs[..|xs|], ys[..|ys|]) == Pairs(xs, ys)
  {
    FullSlice(xs);
    FullSlice(ys);
  }

  lemma FullSlice(s: seq<string>)
    ensures s[..|s|] == s
  {
  }

  // ---------------------------------------------------------------------------
  // Searching
  // ---------------------------------------------------------------------------

  /** `pat` occurs in `s` starting at index k. */
  predicate OccursAt(s: string, pat: string, k: int)
  {
    0 <= k && k + |pat| <= |s| && s[k..k + |pat|] == pat
  }

  /** Python's `s.startswith(p)`. */
  predicate StartsWith(s: string, p: string)
  {
    |p| <= |s| && s[..|p|] == p
  }

  /** Python's `s.endswith(p)`. */
  predicate EndsWith(s: string, p: string)
  {
    |p| <= |s| && s[|s| - |p|..] == p
  }

  /** The first index at or after `from` where `pat` occurs in `s`, if any. */
  function FindFrom(s: string, pat: string, from: nat): (r: Option<nat>)
    ensures r.Some? ==> from <= r.value && OccursAt(s, pat, r.value)
    ensures r.Some? ==> forall j :: from <= j < r.value ==> !OccursAt(s, pat, j)
    ensures r.None? ==> forall j :: from <= j ==> !OccursAt(s, pat, j)
    decreases |s| - from
  {
    if from + |pat| > |s| then None
    else if s[from..from + |pat|] == pat then Some(from)
    else FindFrom(s, pat, from + 1)
  }

  /** The first occurrence of `pat` in `s` (Python's `s.find(pat)` when not -1). */
  function Find(s: string, pat: string): (r: Option<nat>)
    ensures r.Some? ==> OccursAt(s, pat, r.value)
    ensures r.Some? ==> forall j :: 0 <= j < r.value ==> !OccursAt(s, pat, j)
    ensures r.None? ==> forall j :: !OccursAt(s, pat, j)
  {
    FindFrom(s, pat, 0)
  }

  /** Python's `pat in s`. */
  function Contains(s: string, pat: string): (b: bool)
    ensures b <==> exists k :: OccursAt(s, pat, k)
  {
    Find(s, pat).Some?
  }

  // ---------------------------------------------------------------------------
  // Splitting
  // ---------------------------------------------------------------------------

  lemma SplitAround(s: string, sep: string, k: nat)
    requires OccursAt(s, sep, k)
    ensures s == s[..k] + sep + s[k + |sep|..]
    ensures EndsWith(s, s[k + |sep|..])
  {
    assert s == s[..k] + s[k..k + |sep|] + s[k + |sep|..];
  }

  lemma SuffixOfSuffix(s: string, t: string, u: string)
    requires EndsWith(s, t) && EndsWith(t, u)
    ensures EndsWith(s, u)
  {
    assert s[|s| - |u|..] == t[|t| - |u|..];
  }

  /**
   * Python's `s.split(sep)[-1]`: the piece after the last separator the split
   * finds, computed by skipping past each leftmost occurrence in turn.
   */
  function LastPiece(s: string, sep: string): (r: string)
    requires sep != ""
    ensures !Contains(r, sep)
    ensures EndsWith(s, r)
    ensures !Contains(s, sep) ==> r == s
    ensures Contains(s, sep) ==> EndsWith(s, sep + r)
    decreases |s|
  {
    match Find(s, sep)
    case None => s
    case Some(k) =>
      var rest := s[k + |sep|..];
      var r := LastPiece(rest, sep);
      SplitAround(s, sep, k);
      SuffixOfSuffix(s, rest, r);
      FollowsSeparator(s, sep, k, r);
      r
  }

  lemma FollowsSeparator(s: string, sep: string, k: nat, r: string)
    requires OccursAt(s, sep, k) && s == s[..k] + sep + s[k + |sep|..]
    requires EndsWith(s[k + |sep|..], r)
    requires !Contains(s[k + |sep|..], sep) ==> r == s[k + |sep|..]
    requires Contains(s[k + |sep|..], sep) ==> EndsWith(s[k + |sep|..], sep + r)
    ensures EndsWith(s, sep + r)
  {
    var rest := s[k + |sep|..];
    if Contains(rest, sep) {
      SuffixOfSuffix(s, rest, sep + r);
    } else {
      assert s[|s| - |sep + rest|..] == sep + rest;
    }
  }

  /**
   * Occurrences are consumed left to right without overlap, so with
   * overlapping occurrences the piece is not the text after the last one:
   * "/category/category/x" ends with "/category/x", yet its last piece is
   * "category/x".
   */
  lemma OverlappingSeparators()
    ensures LastPiece("a/category/category/x", "/category/") == "category/x"
  {
    var s, sep, t := "a/category/category/x", "/category/", "category/x";
    assert s[0..10][0] == 'a' != sep[0];
    assert s[1..11] == sep;
    assert FindFrom(s, sep, 0) == FindFrom(s, sep, 1) == Some(1);
    assert s[11..] == t;
    assert t[0..10][0] == 'c' != sep[0];
    assert FindFrom(t, sep, 0) == FindFrom(t, sep, 1) == None;
    assert LastPiece(t, sep) == t;
  }

  // ---------------------------------------------------------------------------
  // Whitespace stripping
  // ---------------------------------------------------------------------------

  /** The Unicode White_Space characters, which the validator trims. */
  predicate IsSpace(c: char)
  {
    var n := c as int;
    (9 <= n <= 13) || n == 32 || n == 0x85 || n == 0xA0 || n == 0x1680
    || (0x2000 <= n <= 0x200A) || n == 0x2028 || n == 0x2029 || n == 0x202F
    || n == 0x205F || n == 0x3000
  }

  /** `s` with its leading white space removed. */
  function StripLeft(s: string): (r: string)
    ensures |r| <= |s| && r == s[|s| - |r|..]
    ensures r != [] ==> !IsSpace(r[0])
    ensures forall i :: 0 <= i < |s| - |r| ==> IsSpace(s[i])
  {
    if s != [] && IsSpace(s[0]) then StripLeft(s[1..]) else s
  }

  /** `s` with its trailing white space removed. */
  function StripRight(s: string): (r: string)
    ensures |r| <= |s| && r == s[..|r|]
    ensures r != [] ==> !IsSpace(r[|r| - 1])
    ensures forall i :: |r| <= i < |s| ==> IsSpace(s[i])
  {
    if s != [] && IsSpace(s[|s| - 1]) then StripRight(s[..|s| - 1]) else s
  }

  /**
   * The trim the input validators apply to string fields: leading and
   * trailing characters of the Unicode White_Space set are removed. Python's
   * own `str.strip()` would also remove U+001C to U+001F.
   */
  function Strip(s: string): string
  {
    StripRight(StripLeft(s))
  }

  /** Stripping yields the empty string exactly when every character is white space. */
  lemma StripEmptyIffAllSpace(s: string)
    ensures Strip(s) == "" <==> forall i :: 0 <= i < |s| ==> IsSpace(s[i])
  {
    var l := StripLeft(s);
    if l != [] {
      assert l[0] == s[|s| - |l|];
      assert StripRight(l) != "";
    }
  }

  /** Stripping twice changes nothing more. */
  lemma StripIdempotent(s: string)
    ensures Strip(Strip(s)) == Strip(s)
  {
    var t := Strip(s);
    if t != [] {
      var l := StripLeft(s);
      assert t[0] == l[0];
      assert StripLeft(t) == t;
    }
  }

  // ---------------------------------------------------------------------------
  // Slicing
  // ---------------------------------------------------------------------------

  /** Python's `s[:k]`, where a negative k counts from the end. */
  function PrefixUpTo(s: string, k: int): (r: string)
    ensures StartsWith(s, r)
    ensures 0 <= k <= |s| ==> |r| == k
    ensures k >= |s| ==> r == s
    ensures k < 0 ==> |r| == (if |s| + k >= 0 then |s| + k else 0)
  {
    if k >= 0 then (if k <= |s| then s[..k] else s)
    else if |s| + k >= 0 then s[..|s| + k]
    else ""
  }

  // ---------------------------------------------------------------------------
  // Decimal rendering of integers
  // ---------------------------------------------------------------------------

  predicate IsDigit(c: char) { '0' <= c <= '9' }

  function DigitChar(d: nat): (c: char)
    requires d < 10
    ensures IsDigit(c)
  {
    "0123456789"[d]
  }

  function DigitValue(c: char): (d: nat)
    requires IsDigit(c)
    ensures d < 10
  {
    (c as int) - ('0' as int)
  }

  /** Python's `str(n)` for a natural number. */
  function NatToString(n: nat): (r: string)
    ensures |r| >= 1
    ensures forall i :: 0 <= i < |r| ==> IsDigit(r[i])
    ensures r[0] == '0' ==> n == 0 && r == "0"
  {
    if n < 10 then [DigitChar(n)] else NatToString(n / 10) + [DigitChar(n % 10)]
  }

  /** Python's `str(i)` for any integer. */
  function IntToString(i: int): string
  {
    if i < 0 then "-" + NatToString(-i) else NatToString(i)
  }

  /** The value of a string of decimal digits. */
  function ParseDecimal(s: string): nat
    requires forall i :: 0 <= i < |s| ==> IsDigit(s[i])
  {
    if s == [] then 0 else 10 * ParseDecimal(s[..|s| - 1]) + DigitValue(s[|s| - 1])
  }

  /** Reading back the decimal rendering of n gives n. */
  lemma {:induction false} ParseNatToString(n: nat)
    ensures ParseDecimal(NatToString(n)) == n
  {
    var s := NatToString(n);
    if n < 10 {
      assert s[..|s| - 1] == [];
      assert DigitValue(DigitChar(n)) == n by {
        assert "0123456789"[n] as int - '0' as int == n;
      }
    } else {
      var d := DigitChar(n % 10);
      assert s[..|s| - 1] == NatToString(n / 10);
      assert s[|s| - 1] == d;
      assert DigitValue(d) == n % 10 by {
        assert "0123456789"[n % 10] as int - '0' as int == n % 10;
      }
      ParseNatToString(n / 10);
    }
  }

  /** Distinct naturals render differently. */
  lemma NatToStringInjective(m: nat, n: nat)
    requires NatToString(m) == NatToString(n)
    ensures m == n
  {
    ParseNatToString(m);
    ParseNatToString(n);
  }
}
