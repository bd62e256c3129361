/**
 * Character classes and string operations with the semantics of Python's `str`
 * methods and of the `re` character classes used by the rewriters.
 */
module Strings {

  /** Python `str.isspace()`, which is also what `\s` matches in a `str` pattern. */
  predicate IsSpace(c: char)
  {
    c == ' ' || c == '\t' || c == '\n' || c == '\r' || c == '\U{000B}' || c == '\U{000C}'
    || ('\U{001C}' <= c <= '\U{001F}') || c == '\U{0085}' || c == '\U{00A0}'
    || c == '\U{1680}' || ('\U{2000}' <= c <= '\U{200A}') || c == '\U{2028}'
    || c == '\U{2029}' || c == '\U{202F}' || c == '\U{205F}' || c == '\U{3000}'
  }

  /** The line boundaries recognised by Python `str.splitlines()` ("\r\n" counts once). */
  predicate IsLineBoundary(c: char)
  {
    c == '\n' || c == '\r' || c == '\U{000B}' || c == '\U{000C}' || c == '\U{001C}'
    || c == '\U{001D}' || c == '\U{001E}' || c == '\U{0085}' || c == '\U{2028}'
    || c == '\U{2029}'
  }

  /** `[ \t]`: the indentation characters of the fence and dedent patterns. */
  predicate IsBlank(c: char)
  {
    c == ' ' || c == '\t'
  }

  /** `\d`, restricted to ASCII digits. */
  predicate IsDigit(c: char)
  {
    '0' <= c <= '9'
  }

  /** `str.isalpha()`, restricted to ASCII letters. */
  predicate IsAlpha(c: char)
  {
    ('a' <= c <= 'z') || ('A' <= c <= 'Z')
  }

  /** `\w` (a word character for `\b`), restricted to ASCII. */
  predicate IsWordChar(c: char)
  {
    IsAlpha(c) || IsDigit(c) || c == '_'
  }

  /** `\b` at position `i` of `s`. */
  predicate WordBoundary(s: string, i: nat)
    requires i <= |s|
  {
    var before := i > 0 && IsWordChar(s[i - 1]);
    var after := i < |s| && IsWordChar(s[i]);
    before != after
  }

  function LowerChar(c: char): (r: char)
    ensures IsAlpha(c) <==> IsAlpha(r)
  {
    if 'A' <= c <= 'Z' then (c as int + 32) as char else c
  }

  /** ASCII case folding, as used for `str.lower()` and `IGNORECASE`. */
  function Lower(s: string): (r: string)
    ensures |r| == |s|
    ensures forall i :: 0 <= i < |s| ==> r[i] == LowerChar(s[i])
  {
    if s == [] then [] else [LowerChar(s[0])] + Lower(s[1..])
  }

  predicate StartsWith(s: string, prefix: string)
  {
    |prefix| <= |s| && s[..|prefix|] == prefix
  }

  predicate EndsWith(s: string, suffix: string)
  {
    |suffix| <= |s| && s[|s| - |suffix|..] == suffix
  }

  /** `p` occurs in `s` at position `i`. */
  predicate OccursAt(s: string, p: string, i: nat)
  {
    i + |p| <= |s| && s[i..i + |p|] == p
  }

  /** `p` occurs in `s` at `i` up to ASCII case. */
  predicate OccursAtIgnoreCase(s: string, p: string, i: nat)
  {
    i + |p| <= |s| && Lower(s[i..i + |p|]) == Lower(p)
  }

  /** Python `p in s` for strings. */
  predicate Contains(s: string, p: string)
    decreases |s|
  {
    StartsWith(s, p) || (|s| > 0 && Contains(s[1..], p))
  }

  /** The first position at or after `from` where `p` occurs, as `str.find`. */
  function Find(s: string, p: string, from: nat): (r: int)
    ensures r == -1 || (from <= r && OccursAt(s, p, r))
    ensures r != -1 ==> forall j :: from <= j < r ==> !OccursAt(s, p, j)
    ensures r == -1 ==> forall j :: from <= j ==> !OccursAt(s, p, j)
    decreases |s| - from
  {
    if from + |p| > |s| then -1
    else if OccursAt(s, p, from) then from
    else Find(s, p, from + 1)
  }

  /** The first index at or after `from` holding `c`, or -1 (`str.find` for one character). */
  function IndexOf(s: string, c: char, from: nat): (r: int)
    ensures r == -1 || (from <= r < |s| && s[r] == c)
    ensures r != -1 ==> forall j :: from <= j < r ==> s[j] != c
    ensures r == -1 ==> forall j :: from <= j < |s| ==> s[j] != c
    decreases |s| - from
  {
    if from >= |s| then -1
    else if s[from] == c then from
    else IndexOf(s, c, from + 1)
  }

  /** Number of leading characters satisfying Python whitespace. */
  function LeadingSpace(s: string): (n: nat)
    ensures n <= |s|
    ensures forall i :: 0 <= i < n ==> IsSpace(s[i])
    ensures n < |s| ==> !IsSpace(s[n])
  {
    if s == [] || !IsSpace(s[0]) then 0 else 1 + LeadingSpace(s[1..])
  }

  /** The number of whitespace characters from `i` on. */
  function SpaceRun(s: string, i: nat): (n: nat)
    requires i <= |s|
    ensures i + n <= |s|
    ensures i + n < |s| ==> !IsSpace(s[i + n])
    decreases |s| - i
  {
    if i < |s| && IsSpace(s[i]) then 1 + SpaceRun(s, i + 1) else 0
  }

  /** Number of leading `[ \t]` characters. */
  function LeadingBlank(s: string): (n: nat)
    ensures n <= |s|
    ensures forall i :: 0 <= i < n ==> IsBlank(s[i])
    ensures n < |s| ==> !IsBlank(s[n])
  {
    if s == [] || !IsBlank(s[0]) then 0 else 1 + LeadingBlank(s[1..])
  }

  /** Number of leading ASCII digits (the greedy `\d+` at the start). */
  function LeadingDigits(s: string): (n: nat)
    ensures n <= |s|
    ensures forall i :: 0 <= i < n ==> IsDigit(s[i])
    ensures n < |s| ==> !IsDigit(s[n])
  {
    if s == [] || !IsDigit(s[0]) then 0 else 1 + LeadingDigits(s[1..])
  }

  /** `re.match(r'\d+\.', s)`: digits, then a full stop. */
  predicate StartsWithOrdinal(s: string)
  {
    var d := LeadingDigits(s);
    d > 0 && d < |s| && s[d] == '.'
  }

  /** Number of trailing whitespace characters. */
  function TrailingSpace(s: string): (n: nat)
    ensures n <= |s|
    ensures forall i :: |s| - n <= i < |s| ==> IsSpace(s[i])
    ensures n < |s| ==> !IsSpace(s[|s| - n - 1])
  {
    if s == [] || !IsSpace(s[|s| - 1]) then 0 else 1 + TrailingSpace(s[..|s| - 1])
  }

  /** Python `str.lstrip()`. */
  function LStrip(s: string): (r: string)
    ensures r == s[LeadingSpace(s)..]
    ensures r != [] ==> !IsSpace(r[0])
  {
    s[LeadingSpace(s)..]
  }

  /** The run of whitespace from `i` is `n` long when `n` spaces come next and then something else or the end. */
  lemma {:induction false} SpaceRunExact(s: string, i: nat, n: nat)
    requires i + n <= |s|
    requires forall j :: i <= j < i + n ==> IsSpace(s[j])
    requires i + n == |s| || !IsSpace(s[i + n])
    ensures SpaceRun(s, i) == n
    decreases n
  {
    if n > 0 {
      assert IsSpace(s[i]);
      SpaceRunExact(s, i + 1, n - 1);
    }
  }

  /** Python `str.rstrip()`. */
  function RStrip(s: string): (r: string)
    ensures r == s[..|s| - TrailingSpace(s)]
    ensures r != [] ==> !IsSpace(r[|r| - 1])
  {
    s[..|s| - TrailingSpace(s)]
  }

  /** Python `str.strip()`. */
  function Strip(s: string): (r: string)
    ensures r == RStrip(LStrip(s))
  {
    RStrip(LStrip(s))
  }

  predicate AllSpace(s: string)
  {
    forall i :: 0 <= i < |s| ==> IsSpace(s[i])
  }

  /** `s.strip()` is empty exactly when `s` is all whitespace. */
  lemma {:induction false} StripEmptyIffAllSpace(s: string)
    ensures Strip(s) == [] <==> AllSpace(s)
  {
    if !AllSpace(s) {
      var i :| 0 <= i < |s| && !IsSpace(s[i]);
      assert LeadingSpace(s) <= i;
      var l := LStrip(s);
      assert l[i - LeadingSpace(s)] == s[i];
      assert l != [];
      assert !IsSpace(l[0]);
      assert TrailingSpace(l) < |l|;
    }
  }

  /** Python `str.strip(chars)` for an explicit set of characters. */
  function StripChars(s: string, chars: set<char>): (r: string)
    ensures |r| <= |s|
    ensures r != [] ==> r[0] !in chars && r[|r| - 1] !in chars
    decreases |s|
  {
    if s != [] && s[0] in chars then StripChars(s[1..], chars)
    else if s != [] && s[|s| - 1] in chars then StripChars(s[..|s| - 1], chars)
    else s
  }

  /** Python `str.split(c)` for a single-character separator. */
  function Split(s: string, c: char): (r: seq<string>)
    ensures |r| >= 1
    ensures forall k :: 0 <= k < |r| ==> c !in r[k]
  {
    if s == [] then [[]]
    else
      var rest := Split(s[1..], c);
      if s[0] == c then [[]] + rest else [[s[0]] + rest[0]] + rest[1..]
  }

  /** Python `sep.join(parts)`. */
  function Join(parts: seq<string>, sep: string): string
  {
    if |parts| == 0 then []
    else if |parts| == 1 then parts[0]
    else parts[0] + sep + Join(parts[1..], sep)
  }

  /** `''.join(parts)`. */
  function Concat(parts: seq<string>): string
  {
    if parts == [] then [] else parts[0] + Concat(parts[1..])
  }

  lemma {:induction false} ConcatAppend(a: seq<string>, b: seq<string>)
    ensures Concat(a + b) == Concat(a) + Concat(b)
  {
    if a != [] {
      assert (a + b)[0] == a[0];
      assert (a + b)[1..] == a[1..] + b;
      ConcatAppend(a[1..], b);
    } else {
      assert a + b == b;
    }
  }

  lemma {:induction false} JoinAppend(a: seq<string>, x: string, sep: string)
    requires a != []
    ensures Join(a + [x], sep) == Join(a, sep) + sep + x
  {
    if |a| == 1 {
      assert a + [x] == [a[0], x];
    } else {
      assert (a + [x])[1..] == a[1..] + [x];
      JoinAppend(a[1..], x, sep);
    }
  }

  /** Joining the pieces of a split gives back the string. */
  lemma {:induction false} JoinSplit(s: string, c: char)
    ensures Join(Split(s, c), [c]) == s
  {
    if s != [] {
      JoinSplit(s[1..], c);
      var rest := Split(s[1..], c);
      if s[0] == c {
        assert Split(s, c) == [[]] + rest;
        assert ([[]] + rest)[1..] == rest;
      } else {
        var r := Split(s, c);
        assert r == [[s[0]] + rest[0]] + rest[1..];
        if |rest| == 1 {
          assert Join(r, [c]) == [s[0]] + rest[0];
        } else {
          assert r[1..] == rest[1..];
          assert Join(rest, [c]) == rest[0] + [c] + Join(rest[1..], [c]);
        }
      }
    }
  }

  lemma {:induction false} SplitPrefix(a: string, b: string, c: char)
    requires c !in a
    ensures Split(a + [c] + b, c) == [a] + Split(b, c)
  {
    if a == [] {
      assert a + [c] + b == [c] + b;
      assert ([c] + b)[1..] == b;
    } else {
      assert (a + [c] + b)[1..] == a[1..] + [c] + b;
      SplitPrefix(a[1..], b, c);
      assert [a[0]] + a[1..] == a;
    }
  }

  lemma {:induction false} SplitNoSep(a: string, c: char)
    requires c !in a
    ensures Split(a, c) == [a]
  {
    if a != [] {
      SplitNoSep(a[1..], c);
      assert [a[0]] + a[1..] == a;
    }
  }

  /** Splitting a join of separator-free pieces gives back the pieces. */
  lemma {:induction false} SplitJoin(parts: seq<string>, c: char)
    requires |parts| >= 1
    requires forall k :: 0 <= k < |parts| ==> c !in parts[k]
    ensures Split(Join(parts, [c]), c) == parts
  {
    if |parts| == 1 {
      SplitNoSep(parts[0], c);
    } else {
      SplitJoin(parts[1..], c);
      SplitPrefix(parts[0], Join(parts[1..], [c]), c);
      assert [parts[0]] + parts[1..] == parts;
    }
  }

  /** Length of the line boundary at position `i` (0 when there is none). */
  function BreakLen(s: string, i: nat): (n: nat)
    requires i <= |s|
    ensures i + n <= |s|
    ensures n <= 2
  {
    if i >= |s| then 0
    else if s[i] == '\r' && i + 1 < |s| && s[i + 1] == '\n' then 2
    else if IsLineBoundary(s[i]) then 1
    else 0
  }

  /** Position of the first line boundary at or after `i`, or `|s|`. */
  function LineContentEnd(s: string, i: nat): (e: nat)
    requires i <= |s|
    ensures i <= e <= |s|
    ensures e < |s| ==> BreakLen(s, e) > 0
    ensures forall j :: i <= j < e ==> BreakLen(s, j) == 0
    decreases |s| - i
  {
    if i == |s| || BreakLen(s, i) > 0 then i else LineContentEnd(s, i + 1)
  }

  /** Python `s.splitlines(keepends=True)`. */
  function SplitLinesKeep(s: string): (r: seq<string>)
    ensures forall k :: 0 <= k < |r| ==> r[k] != []
    decreases |s|
  {
    if s == [] then []
    else
      var e := LineContentEnd(s, 0);
      var k := e + BreakLen(s, e);
      if k == 0 then [] // unreachable: a non-empty string has a non-empty first line
      else [s[..k]] + SplitLinesKeep(s[k..])
  }

  /** Python `s.splitlines()`. */
  function SplitLines(s: string): (r: seq<string>)
    decreases |s|
  {
    if s == [] then []
    else
      var e := LineContentEnd(s, 0);
      var k := e + BreakLen(s, e);
      if k == 0 then []
      else [s[..e]] + SplitLines(s[k..])
  }

  /** The kept-ends lines concatenate back to the string. */
  lemma {:induction false} ConcatSplitLinesKeep(s: string)
    ensures Concat(SplitLinesKeep(s)) == s
    decreases |s|
  {
    if s != [] {
      var e := LineContentEnd(s, 0);
      var k := e + BreakLen(s, e);
      if e == 0 {
        assert BreakLen(s, 0) > 0;
      }
      ConcatSplitLinesKeep(s[k..]);
      assert s[..k] + s[k..] == s;
    }
  }

  /** Line `k` of `splitlines()` is line `k` of the kept-ends variant without its boundary. */
  lemma {:induction false} SplitLinesCount(s: string)
    ensures |SplitLines(s)| == |SplitLinesKeep(s)|
    decreases |s|
  {
    if s != [] {
      var e := LineContentEnd(s, 0);
      var k := e + BreakLen(s, e);
      if k > 0 {
        SplitLinesCount(s[k..]);
      }
    }
  }

  /** Python `str(n)` for a natural number. */
  function NatToString(n: nat): (r: string)
    ensures r != []
    ensures forall i :: 0 <= i < |r| ==> IsDigit(r[i])
  {
    if n < 10 then [(48 + n) as char]
    else NatToString(n / 10) + [(48 + n % 10) as char]
  }

  /** Python `str(i)` and JavaScript `String(i)` for an integer. */
  function IntToString(i: int): string
  {
    if i < 0 then "-" + NatToString(-i) else NatToString(i)
  }

  /** JavaScript `s.slice(0, end)`: a negative `end` counts from the end of the string. */
  function JsSliceTo(s: string, end: int): (r: string)
    ensures |r| <= |s| && r == s[..|r|]
    ensures 0 <= end <= |s| ==> |r| == end
    ensures end < 0 ==> |r| == if |s| + end < 0 then 0 else |s| + end
  {
    if end >= |s| then s
    else if end >= 0 then s[..end]
    else if |s| + end <= 0 then []
    else s[..|s| + end]
  }

  /** `n` copies of `c`. */
  function Repeat(c: char, n: nat): (r: string)
    ensures |r| == n
    ensures forall i :: 0 <= i < n ==> r[i] == c
  {
    if n == 0 then [] else [c] + Repeat(c, n - 1)
  }

  /** Python `s.replace(p, r)`: every occurrence, left to right and not overlapping, replaced. */
  function ReplaceAll(s: string, p: string, r: string): string
    requires p != ""
    decreases |s|
  {
    if |s| < |p| then s
    else if s[..|p|] == p then r + ReplaceAll(s[|p|..], p, r)
    else [s[0]] + ReplaceAll(s[1..], p, r)
  }

  /** A string in which the pattern does not occur is left as it is. */
  lemma {:induction false} ReplaceAbsent(s: string, p: string, r: string)
    requires p != "" && !Contains(s, p)
    ensures ReplaceAll(s, p, r) == s
    decreases |s|
  {
    if |s| >= |p| {
      ReplaceAbsent(s[1..], p, r);
    }
  }

  /** Python `s[k:]` for any integer `k` (negative counts from the end). */
  function PySliceFrom<T>(s: seq<T>, k: int): (r: seq<T>)
    ensures |r| <= |s|
    ensures 0 <= k <= |s| ==> r == s[k..]
  {
    if k >= |s| then []
    else if k >= 0 then s[k..]
    else if |s| + k <= 0 then s
    else s[|s| + k..]
  }

  /** Python `s[:k]` for a non-negative `k`. */
  function Take<T>(s: seq<T>, k: nat): (r: seq<T>)
    ensures |r| == if k <= |s| then k else |s|
    ensures r == s[..|r|]
  {
    if k <= |s| then s[..k] else s
  }

  /** Python `s[k:]` for a non-negative `k`. */
  function Drop<T>(s: seq<T>, k: nat): (r: seq<T>)
    ensures |r| == if k <= |s| then |s| - k else 0
    ensures k <= |s| ==> r == s[k..]
  {
    if k <= |s| then s[k..] else []
  }

  /** An occurrence inside the left part of a concatenation is an occurrence in that part. */
  lemma {:induction false} OccursAtLeft(a: string, b: string, p: string, j: nat)
    requires j + |p| <= |a|
    ensures OccursAt(a + b, p, j) <==> OccursAt(a, p, j)
  {
    assert (a + b)[j..j + |p|] == a[j..j + |p|];
  }

  /** An occurrence inside the right part of a concatenation is an occurrence in that part. */
  lemma {:induction false} OccursAtRight(a: string, b: string, p: string, j: nat)
    ensures OccursAt(a + b, p, |a| + j) <==> OccursAt(b, p, j)
  {
    if j + |p| <= |b| {
      assert (a + b)[|a| + j..|a| + j + |p|] == b[j..j + |p|];
    }
  }

  /** A non-empty string without line boundaries is one line for both `splitlines` variants. */
  lemma {:induction false} SingleLine(s: string)
    requires s != []
    requires forall j :: 0 <= j < |s| ==> !IsLineBoundary(s[j])
    ensures SplitLines(s) == [s] && SplitLinesKeep(s) == [s]
  {
    var e := LineContentEnd(s, 0);
    assert e < |s| ==> IsLineBoundary(s[e]);
    assert e == |s|;
    assert BreakLen(s, e) == 0;
    assert s[..e] == s && s[e..] == [];
    assert SplitLines(s) == [s[..e]] + SplitLines(s[e..]);
    assert SplitLinesKeep(s) == [s[..e]] + SplitLinesKeep(s[e..]);
  }
}
