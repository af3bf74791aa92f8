/**
 * The Python string built-ins the bot relies on, on `string` (= `seq<char>`):
 * `str.split(sep)`, `sep.join(parts)`, `str.replace(old, new)`, `str.strip(chars)`,
 * `str(n)` for a non-negative integer, and the integer reading SQLite applies to a
 * digit string spliced into a query.
 */
module Text {
  import opened Common

  /** `sep` starts at index `i` of `s`. */
  predicate OccursAt(s: string, sep: string, i: nat)
  {
    i + |sep| <= |s| && s[i..i + |sep|] == sep
  }

  /** `sep` does not occur anywhere in `s`. */
  predicate Free(s: string, sep: string)
  {
    forall i :: 0 <= i <= |s| ==> !OccursAt(s, sep, i)
  }

  /** Index of the first occurrence of `sep` in `s` (Python's `str.find`, with None for -1). */
  function IndexOf(s: string, sep: string): (r: Option<nat>)
    requires |sep| > 0
    ensures r.Some? ==> OccursAt(s, sep, r.value)
    ensures r.Some? ==> forall j: nat :: j < r.value ==> !OccursAt(s, sep, j)
    ensures r.None? <==> Free(s, sep)
    decreases |s|
  {
    if |s| < |sep| then None
    else if s[..|sep|] == sep then Some(0)
    else
      var rest := IndexOf(s[1..], sep);
      ShiftOccurrence(s, sep);
      assert !OccursAt(s, sep, 0) by { assert s[0..|sep|] == s[..|sep|]; }
      match rest
      case None => None
      case Some(i) => Some(i + 1)
  }

  /** Occurrences in `s[1..]` are the occurrences in `s` moved one place left. */
  lemma ShiftOccurrence(s: string, sep: string)
    requires |s| > 0
    ensures forall j :: 1 <= j <= |s| ==> (OccursAt(s, sep, j) <==> OccursAt(s[1..], sep, j - 1))
  {
    forall j | 1 <= j <= |s|
      ensures OccursAt(s, sep, j) <==> OccursAt(s[1..], sep, j - 1)
    {
      if j + |sep| <= |s| {
        assert s[1..][j - 1..j - 1 + |sep|] == s[j..j + |sep|];
      }
    }
  }

  /** Python's `sep.join(parts)`. */
  function Join(parts: seq<string>, sep: string): string
  {
    if |parts| == 0 then ""
    else if |parts| == 1 then parts[0]
    else parts[0] + sep + Join(parts[1..], sep)
  }

  /** No occurrence of `sep` in `s` starts before index `k`. */
  lemma FreeBefore(s: string, sep: string, k: nat)
    requires |sep| > 0 && k <= |s|
    requires forall j: nat :: j < k ==> !OccursAt(s, sep, j)
    ensures Free(s[..k], sep)
  {
    forall j: nat
      ensures !OccursAt(s[..k], sep, j)
    {
      if j + |sep| <= k {
        assert !OccursAt(s, sep, j);
        assert s[..k][j..j + |sep|] == s[j..j + |sep|];
      }
    }
  }

  /**
   * Python's `s.split(sep)`: the pieces between the occurrences of `sep`, found left to
   * right without overlap. Joining them back with `sep` gives `s`, and no piece holds `sep`.
   */
  function Split(s: string, sep: string): (parts: seq<string>)
    requires |sep| > 0
    ensures |parts| >= 1
    ensures Join(parts, sep) == s
    ensures forall k :: 0 <= k < |parts| ==> Free(parts[k], sep)
    ensures IndexOf(s, sep).None? ==> parts == [s]
    ensures IndexOf(s, sep).Some? ==> parts[0] == s[..IndexOf(s, sep).value]
    decreases |s|
  {
    match IndexOf(s, sep)
    case None => [s]
    case Some(i) =>
      var tail := Split(s[i + |sep|..], sep);
      SplitHead(s, sep, i, tail);
      [s[..i]] + tail
  }

  /**
   * The piece before the first occurrence of `sep`, put before a split of the rest, is a
   * split of `s`.
   */
  lemma SplitHead(s: string, sep: string, i: nat, tail: seq<string>)
    requires |sep| > 0 && OccursAt(s, sep, i)
    requires forall j: nat :: j < i ==> !OccursAt(s, sep, j)
    requires |tail| >= 1 && Join(tail, sep) == s[i + |sep|..]
    requires forall k :: 0 <= k < |tail| ==> Free(tail[k], sep)
    ensures Join([s[..i]] + tail, sep) == s
    ensures forall k :: 0 <= k < |tail| + 1 ==> Free(([s[..i]] + tail)[k], sep)
  {
    FreeBefore(s, sep, i);
    FreeHead(s[..i], tail, sep);
    JoinHead(s[..i], tail, sep);
    CutAround(s, i, i + |sep|);
  }

  /** `s` is its prefix, the infix `s[i..j]` and its suffix one after the other. */
  lemma CutAround(s: string, i: nat, j: nat)
    requires i <= j <= |s|
    ensures s == s[..i] + s[i..j] + s[j..]
  {
  }

  /** Joining a head before at least one more part puts `sep` between them. */
  lemma JoinHead(head: string, tail: seq<string>, sep: string)
    requires |tail| >= 1
    ensures Join([head] + tail, sep) == head + sep + Join(tail, sep)
  {
    assert ([head] + tail)[1..] == tail;
  }

  /** A head and a tail free of `sep` make parts free of `sep`. */
  lemma FreeHead(head: string, tail: seq<string>, sep: string)
    requires Free(head, sep)
    requires forall k :: 0 <= k < |tail| ==> Free(tail[k], sep)
    ensures forall k :: 0 <= k < |tail| + 1 ==> Free(([head] + tail)[k], sep)
  {
    forall k | 0 <= k < |tail| + 1
      ensures Free(([head] + tail)[k], sep)
    {
      if k > 0 {
        assert ([head] + tail)[k] == tail[k - 1];
      }
    }
  }

  /** The split has a single piece exactly when `sep` does not occur. */
  lemma SplitSingle(s: string, sep: string)
    requires |sep| > 0
    ensures |Split(s, sep)| == 1 <==> Free(s, sep)
  {
    match IndexOf(s, sep)
    case None =>
    case Some(i) =>
      assert i <= |s| && OccursAt(s, sep, i);
  }

  /** Python's `s.replace(pat, rep)`: non-overlapping occurrences, left to right. */
  function Replace(s: string, pat: string, rep: string): string
    requires |pat| > 0
    decreases |s|
  {
    match IndexOf(s, pat)
    case None => s
    case Some(i) => s[..i] + rep + Replace(s[i + |pat|..], pat, rep)
  }

  /** Python's identity `s.replace(pat, rep) == rep.join(s.split(pat))`. */
  lemma {:induction false} ReplaceIsJoinOfSplit(s: string, pat: string, rep: string)
    requires |pat| > 0
    ensures Replace(s, pat, rep) == Join(Split(s, pat), rep)
    decreases |s|
  {
    match IndexOf(s, pat)
    case None =>
    case Some(i) =>
      var rest := s[i + |pat|..];
      ReplaceIsJoinOfSplit(rest, pat, rep);
      var parts := Split(s, pat);
      assert parts == [s[..i]] + Split(rest, pat);
      assert parts[1..] == Split(rest, pat);
  }

  /** Python's `s.lstrip(chars)`. */
  function StripLeft(s: string, chars: set<char>): (r: string)
    ensures |r| <= |s| && r == s[|s| - |r|..]
    ensures forall j :: 0 <= j < |s| - |r| ==> s[j] in chars
    ensures r != [] ==> r[0] !in chars
    decreases |s|
  {
    if s != [] && s[0] in chars then StripLeft(s[1..], chars) else s
  }

  /** Python's `s.rstrip(chars)`. */
  function StripRight(s: string, chars: set<char>): (r: string)
    ensures |r| <= |s| && r == s[..|r|]
    ensures forall j :: |r| <= j < |s| ==> s[j] in chars
    ensures r != [] ==> r[|r| - 1] !in chars
    decreases |s|
  {
    if s != [] && s[|s| - 1] in chars then StripRight(s[..|s| - 1], chars) else s
  }

  /** `s[..a]` and `s[b..]` hold only characters of `chars`. */
  predicate CutsOff(s: string, chars: set<char>, a: int, b: int)
  {
    && 0 <= a <= b <= |s|
    && (forall j :: 0 <= j < a ==> s[j] in chars)
    && (forall j :: b <= j < |s| ==> s[j] in chars)
  }

  /**
   * Python's `s.strip(chars)`: the longest infix `s[a..b]` that neither starts nor ends
   * with a character of `chars`, everything cut off being made of `chars`.
   */
  function Strip(s: string, chars: set<char>): (r: string)
    ensures exists a, b :: CutsOff(s, chars, a, b) && r == s[a..b]
    ensures r != [] ==> r[0] !in chars && r[|r| - 1] !in chars
  {
    var left := StripLeft(s, chars);
    var r := StripRight(left, chars);
    CutSuffixOfSuffix(s, left, r, chars);
    r
  }

  /** A prefix `r` of a suffix `left` of `s`, where both cuts hold only `chars`, is such an infix. */
  lemma CutSuffixOfSuffix(s: string, left: string, r: string, chars: set<char>)
    requires |left| <= |s| && left == s[|s| - |left|..]
    requires forall j :: 0 <= j < |s| - |left| ==> s[j] in chars
    requires |r| <= |left| && r == left[..|r|]
    requires forall j :: |r| <= j < |left| ==> left[j] in chars
    requires left != [] ==> left[0] !in chars
    requires r != [] ==> r[|r| - 1] !in chars
    ensures exists a, b :: CutsOff(s, chars, a, b) && r == s[a..b]
    ensures r != [] ==> r[0] !in chars && r[|r| - 1] !in chars
  {
    assert r != [] ==> r[0] == left[0];
    var a := |s| - |left|;
    var b := a + |r|;
    assert r == s[a..b];
    forall j | b <= j < |s|
      ensures s[j] in chars
    {
      assert s[j] == left[j - a];
    }
    assert CutsOff(s, chars, a, b);
  }

  /** The characters below U+0080 that Python's argument-less `str.strip()` removes. */
  const Whitespace: set<char> :=
    {'\t', '\n', '\U{0B}', '\U{0C}', '\r', '\U{1C}', '\U{1D}', '\U{1E}', '\U{1F}', ' '}

  predicate IsDigit(c: char)
  {
    '0' <= c <= '9'
  }

  function DigitChar(d: nat): (c: char)
    requires d < 10
    ensures IsDigit(c) && c as int - '0' as int == d
  {
    ('0' as int + d) as char
  }

  function DigitValue(c: char): (d: nat)
    requires IsDigit(c)
    ensures d < 10 && DigitChar(d) == c
  {
    c as int - '0' as int
  }

  /** Python's `str(n)` for a non-negative integer: decimal, no leading zeros. */
  function NatToString(n: nat): (s: string)
    ensures |s| >= 1
    ensures forall k :: 0 <= k < |s| ==> IsDigit(s[k])
    ensures |s| > 1 ==> s[0] != '0'
  {
    if n < 10 then [DigitChar(n)] else NatToString(n / 10) + [DigitChar(n % 10)]
  }

  /** The value of a string of decimal digits. */
  function DigitsValue(s: string): nat
    requires forall k :: 0 <= k < |s| ==> IsDigit(s[k])
  {
    if s == [] then 0 else DigitsValue(s[..|s| - 1]) * 10 + DigitValue(s[|s| - 1])
  }

  /**
   * How a callback field is read as a region id: a non-empty digit string is the number it
   * spells (SQLite reads `0701` as 701). Any other text is taken as a failed query: the bot
   * only ever writes `str(id)` there.
   */
  function ParseDecimal(s: string): (r: Option<nat>)
    ensures r.Some? <==> s != [] && forall k :: 0 <= k < |s| ==> IsDigit(s[k])
    ensures r.Some? ==> r.value == DigitsValue(s)
  {
    if s != [] && forall k :: 0 <= k < |s| ==> IsDigit(s[k]) then Some(DigitsValue(s)) else None
  }

  /** `str(n)` reads back as `n`. */
  lemma {:induction false} NatToStringRoundTrip(n: nat)
    ensures ParseDecimal(NatToString(n)) == Some(n)
    ensures DigitsValue(NatToString(n)) == n
  {
    var s := NatToString(n);
    if n < 10 {
      assert s[..|s| - 1] == [];
      assert DigitValue(s[0]) == n;
      assert DigitsValue(s) == n;
      assert ParseDecimal(s).Some?;
    } else {
      NatToStringRoundTrip(n / 10);
      assert s[..|s| - 1] == NatToString(n / 10);
    }
  }

  /** A decimal string holds no `_`. */
  lemma NatToStringHasNoUnderscore(n: nat)
    ensures '_' !in NatToString(n)
  {
    var s := NatToString(n);
    assert forall k :: 0 <= k < |s| ==> s[k] != '_';
  }

  /** For a one-character separator, an occurrence is just that character. */
  lemma OccursAtChar(s: string, c: char)
    ensures forall j: nat :: OccursAt(s, [c], j) <==> j < |s| && s[j] == c
  {
    forall j: nat
      ensures OccursAt(s, [c], j) <==> j < |s| && s[j] == c
    {
      if j < |s| {
        assert s[j..j + 1] == [s[j]];
      }
    }
  }

  /** Splitting `head + [c] + tail` on `c` when `head` holds no `c`. */
  lemma {:induction false} SplitAfterHead(head: string, c: char, tail: string)
    requires c !in head
    ensures Split(head + [c] + tail, [c]) == [head] + Split(tail, [c])
  {
    var s := head + [c] + tail;
    OccursAtChar(s, c);
    assert OccursAt(s, [c], |head|);
    var i := IndexOf(s, [c]);
    assert i.Some?;
    assert forall j :: 0 <= j < |head| ==> s[j] == head[j];
    assert i == Some(|head|);
    assert s[..|head|] == head;
    assert s[|head| + 1..] == tail;
  }

  /** Splitting `a + [c] + b + [c] + tail` on `c` when neither `a` nor `b` holds a `c`. */
  lemma SplitAfterTwoHeads(a: string, b: string, c: char, tail: string)
    requires c !in a && c !in b
    ensures Split(a + [c] + b + [c] + tail, [c]) == [a, b] + Split(tail, [c])
  {
    var rest := b + [c] + tail;
    assert a + [c] + b + [c] + tail == a + [c] + rest;
    SplitAfterHead(a, c, rest);
    SplitAfterHead(b, c, tail);
    assert [a] + ([b] + Split(tail, [c])) == [a, b] + Split(tail, [c]);
  }

  /** A piece with no `c` splits into itself. */
  lemma SplitWithout(s: string, c: char)
    requires c !in s
    ensures Split(s, [c]) == [s]
  {
    OccursAtChar(s, c);
    assert Free(s, [c]);
  }
}
