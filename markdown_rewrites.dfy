/**
 * The line-anchored regular-expression rewrites of the reply post-processor:
 * bullet normalisation, the twelve list re-indentation rules, "N)" to "N.",
 * and the blank line inserted between a header line and a following list.
 *
 * Each pattern is `^`-anchored under MULTILINE and is written out as a matcher
 * at one position of the whole string. Several patterns use `\s`, which also
 * matches a newline, so a match may run past the end of its line exactly as
 * the regular expression does; the line-level lemmas below state the effect on
 * a single line.
 */
module MarkdownRewrites {
  import opened Wrappers
  import opened Strings
  import opened Seqs

  /** MULTILINE `^`: the start of the string or just after a '\n'. */
  predicate AtLineStart(s: string, i: nat)
    requires i <= |s|
  {
    i == 0 || s[i - 1] == '\n'
  }

  datatype CharClass = Space | Digit | Blank | SpaceChar

  predicate InClass(k: CharClass, c: char)
  {
    match k
    case Space => IsSpace(c)
    case Digit => IsDigit(c)
    case Blank => IsBlank(c)
    case SpaceChar => c == ' '
  }

  /** Length of the maximal run of class `k` starting at `i` (greedy `\s*`, `\d*`, `[ \t]*`). */
  function Run(s: string, i: nat, k: CharClass): (n: nat)
    requires i <= |s|
    ensures i + n <= |s|
    ensures i + n < |s| ==> !InClass(k, s[i + n])
    decreases |s| - i
  {
    if i == |s| || !InClass(k, s[i]) then 0 else 1 + Run(s, i + 1, k)
  }

  /** A maximal run is determined by its extent. */
  lemma {:induction false} RunIs(s: string, i: nat, k: CharClass, n: nat)
    requires i + n <= |s|
    requires forall j :: i <= j < i + n ==> InClass(k, s[j])
    requires i + n < |s| ==> !InClass(k, s[i + n])
    ensures Run(s, i, k) == n
    decreases n
  {
    if n > 0 {
      assert InClass(k, s[i]);
      RunIs(s, i + 1, k, n - 1);
    }
  }

  /** In `a + b + c + d`, a run over all of `a` stops where `b` begins. */
  lemma {:induction false} RunFirst(a: string, b: string, c: string, d: string, k: CharClass)
    requires forall j :: 0 <= j < |a| ==> InClass(k, a[j])
    requires b != [] && !InClass(k, b[0])
    ensures Run(a + b + c + d, 0, k) == |a|
  {
    var s := a + b + c + d;
    Heads4(a, b, c, d);
    RunIs(s, 0, k, |a|);
  }

  /** A run depends only on the text from where it starts. */
  lemma {:induction false} RunDrop(s: string, i: nat, j: nat, k: CharClass)
    requires i + j <= |s|
    ensures Run(s, i + j, k) == Run(s[i..], j, k)
    decreases |s| - i - j
  {
    if i + j < |s| {
      assert s[i..][j] == s[i + j];
      RunDrop(s, i, j + 1, k);
    }
  }

  /** A run over all of `a` stops where `t` begins. */
  lemma {:induction false} RunPrefix(a: string, t: string, k: CharClass)
    requires forall j :: 0 <= j < |a| ==> InClass(k, a[j])
    requires t != [] ==> !InClass(k, t[0])
    ensures Run(a + t, 0, k) == |a|
  {
    var s := a + t;
    if t != [] {
      assert s[|a|] == t[0];
    }
    RunIs(s, 0, k, |a|);
  }

  /** In `a + b + c + d`, a run over all of `b` stops where `c` begins. */
  lemma {:induction false} RunSecond(a: string, b: string, c: string, d: string, k: CharClass)
    requires forall j :: 0 <= j < |b| ==> InClass(k, b[j])
    requires c != [] && !InClass(k, c[0])
    ensures Run(a + b + c + d, |a|, k) == |b|
  {
    var s := a + b + c + d;
    Drop4One(a, b, c, d);
    RunDrop(s, |a|, 0, k);
    assert (c + d)[0] == c[0];
    RunPrefix(b, c + d, k);
  }

  /** In `a + b + c + d`, a run over all of `c` stops where `d` begins. */
  lemma {:induction false} RunThird(a: string, b: string, c: string, d: string, k: CharClass)
    requires forall j :: 0 <= j < |c| ==> InClass(k, c[j])
    requires d != [] ==> !InClass(k, d[0])
    ensures Run(a + b + c + d, |a| + |b|, k) == |c|
  {
    var s := a + b + c + d;
    Drop4Two(a, b, c, d);
    RunDrop(s, |a| + |b|, 0, k);
    RunPrefix(c, d, k);
  }

  /** `a + b + c + d` holds no newline when none of its parts does. */
  lemma {:induction false} NoNewline4(a: string, b: string, c: string, d: string)
    requires '\n' !in a && '\n' !in b && '\n' !in c && '\n' !in d
    ensures '\n' !in a + b + c + d
  {
  }

  /** The bullet glyphs U+2022, U+2013, U+2666, U+25CB, U+2514 and U+2500. */
  predicate IsBulletGlyph(c: char)
  {
    c == '\U{2022}' || c == '\U{2013}' || c == '\U{2666}' || c == '\U{25CB}'
    || c == '\U{2514}' || c == '\U{2500}'
  }

  /** `-\s|\d+\.\s` at `j`: a dash or an ordinal followed by whitespace. */
  predicate MarkerAt(s: string, j: nat)
    requires j <= |s|
  {
    (j + 1 < |s| && s[j] == '-' && IsSpace(s[j + 1]))
    || (var d := Run(s, j, Digit);
        d > 0 && j + d + 1 < |s| && s[j + d] == '.' && IsSpace(s[j + d + 1]))
  }

  /** `\s*(?:-\s|\d+\.\s)` (or with `[ \t]*`) at `q`; only the maximal run can succeed. */
  predicate ListMarkerAhead(s: string, q: nat, indent: CharClass)
    requires q <= |s|
  {
    MarkerAt(s, q + Run(s, q, indent))
  }

  /**
   * A rewrite rule:
   * - `Bullet`: `^(\s*)[glyph]\s+` becomes `\1- `;
   * - `DashIndent(n, m)`: `^` + n spaces + `-\s+` becomes m spaces + `- `;
   * - `RoundBracket`: `^(\s*\d+)\)` becomes `\1.`;
   * - `OrdinalIndent(n, m)`: `^` + n spaces + `(\d+\.)` becomes m spaces + `\1`;
   * - `BlankBeforeList`: a line that is not a list item, up to and including its
   *   '\n', when the next line begins (after spaces and tabs) with a list marker,
   *   becomes itself followed by another '\n'.
   */
  datatype Rule =
    | Bullet
    | DashIndent(spaces: nat, target: nat)
    | RoundBracket
    | OrdinalIndent(spaces: nat, target: nat)
    | BlankBeforeList

  datatype Hit = Hit(end: nat, replacement: string)

  /** `^(\s*)[glyph]\s+` at line start `i`. */
  function BulletAt(s: string, i: nat): (h: Option<Hit>)
    requires i < |s|
    ensures h.Some? ==> i < h.value.end <= |s|
  {
    var b := i + Run(s, i, Space);
    if b + 1 < |s| && IsBulletGlyph(s[b]) && IsSpace(s[b + 1]) then
      Some(Hit(b + 1 + Run(s, b + 1, Space), s[i..b] + "- "))
    else None
  }

  /** `^` + n spaces + `-\s+` at line start `i`. */
  function DashIndentAt(n: nat, m: nat, s: string, i: nat): (h: Option<Hit>)
    requires i < |s|
    ensures h.Some? ==> i < h.value.end <= |s|
  {
    // exactly n spaces: the run of ' ' has length n and stops at the '-'
    if Run(s, i, SpaceChar) == n && i + n + 1 < |s| && s[i + n] == '-' && IsSpace(s[i + n + 1]) then
      Some(Hit(i + n + 1 + Run(s, i + n + 1, Space), Repeat(' ', m) + "- "))
    else None
  }

  /** `^(\s*\d+)\)` at line start `i`. */
  function RoundBracketAt(s: string, i: nat): (h: Option<Hit>)
    requires i < |s|
    ensures h.Some? ==> i < h.value.end <= |s|
  {
    var j := i + Run(s, i, Space);
    var d := Run(s, j, Digit);
    if d > 0 && j + d < |s| && s[j + d] == ')' then
      Some(Hit(j + d + 1, s[i..j + d] + "."))
    else None
  }

  /** `^` + n spaces + `(\d+\.)` at line start `i`. */
  function OrdinalIndentAt(n: nat, m: nat, s: string, i: nat): (h: Option<Hit>)
    requires i < |s|
    ensures h.Some? ==> i < h.value.end <= |s|
  {
    // exactly n spaces: the run of ' ' has length n and stops at a digit
    if Run(s, i, SpaceChar) == n then
      var d := Run(s, i + n, Digit);
      if d > 0 && i + n + d < |s| && s[i + n + d] == '.' then
        Some(Hit(i + n + d + 1, Repeat(' ', m) + s[i + n..i + n + d + 1]))
      else None
    else None
  }

  /** A line that is not a list item, up to its '\n', with a list item on the next line. */
  function BlankBeforeListAt(s: string, i: nat): (h: Option<Hit>)
    requires i < |s|
    ensures h.Some? ==> i < h.value.end <= |s|
  {
    var nl := IndexOf(s, '\n', i);
    if !ListMarkerAhead(s, i, Space) && nl >= 0 && ListMarkerAhead(s, nl + 1, Blank) then
      Some(Hit(nl + 1, s[i..nl + 1] + "\n"))
    else None
  }

  /** The match of rule `r` starting at line start `i`, if any. */
  function MatchAt(r: Rule, s: string, i: nat): (h: Option<Hit>)
    requires i < |s|
    ensures h.Some? ==> i < h.value.end <= |s|
  {
    match r
    case Bullet => BulletAt(s, i)
    case DashIndent(n, m) => DashIndentAt(n, m, s, i)
    case RoundBracket => RoundBracketAt(s, i)
    case OrdinalIndent(n, m) => OrdinalIndentAt(n, m, s, i)
    case BlankBeforeList => BlankBeforeListAt(s, i)
  }

  /** `re.sub(pattern, repl, s[i:], flags=re.MULTILINE)` scanning from `i`. */
  function SubFrom(r: Rule, s: string, i: nat): string
    requires i <= |s|
    decreases |s| - i
  {
    if i == |s| then []
    else if AtLineStart(s, i) && MatchAt(r, s, i).Some? then
      MatchAt(r, s, i).value.replacement + SubFrom(r, s, MatchAt(r, s, i).value.end)
    else [s[i]] + SubFrom(r, s, i + 1)
  }

  function Sub(r: Rule, s: string): string
  {
    SubFrom(r, s, 0)
  }

  /** `normalize_bullet_points`: text that holds none of the bullet glyphs is left unchanged. */
  function NormalizeBulletPoints(s: string): (r: string)
    ensures (forall j :: 0 <= j < |s| ==> !IsBulletGlyph(s[j])) ==> r == s
  {
    assert (forall j :: 0 <= j < |s| ==> !IsBulletGlyph(s[j])) ==> Sub(Bullet, s) == s by {
      if forall j :: 0 <= j < |s| ==> !IsBulletGlyph(s[j]) {
        FixedPoint(Bullet, s);
      }
    }
    Sub(Bullet, s)
  }

  /** `replace_round_bracket_with_dot`: only ever a ')' becomes a '.'; nothing else changes or moves. */
  function ReplaceRoundBracketWithDot(s: string): (r: string)
    ensures DotsOnly(s, r)
  {
    RoundBracketOnlyDots(s, 0);
    assert s[0..] == s;
    Sub(RoundBracket, s)
  }

  /** `add_blank_line_after_colon_headers`: a text of one line gets no blank line. */
  function AddBlankLineAfterColonHeaders(s: string): (r: string)
    ensures '\n' !in s ==> r == s
  {
    assert '\n' !in s ==> Sub(BlankBeforeList, s) == s by {
      if '\n' !in s {
        OnLine(BlankBeforeList, s);
        if s != [] {
          assert IndexOf(s, '\n', 0) == -1;
        }
      }
    }
    Sub(BlankBeforeList, s)
  }

  /** `fix_list_formatting_1` .. `fix_list_formatting_12`, in the order the pipeline applies them. */
  const ListFormattingRules: seq<Rule> := [
    DashIndent(1, 4), DashIndent(2, 4), DashIndent(3, 4),
    DashIndent(5, 8), DashIndent(6, 8), DashIndent(7, 8),
    OrdinalIndent(1, 4), OrdinalIndent(2, 4), OrdinalIndent(3, 4),
    OrdinalIndent(5, 8), OrdinalIndent(6, 8), OrdinalIndent(7, 8)
  ]

  function SubAll(rules: seq<Rule>, s: string): string
    decreases |rules|
  {
    if rules == [] then s else SubAll(rules[1..], Sub(rules[0], s))
  }

  /**
   * The twelve `fix_list_formatting` steps. They re-indent dash lines of 1 to 3
   * and 5 to 7 spaces only: a dash line at any other depth (0, 4, 8 or more)
   * passes through unchanged.
   */
  function FixListFormatting(s: string): (r: string)
    ensures forall k :: '\n' !in s && DashAt(s, k) && !(1 <= k <= 3 || 5 <= k <= 7) ==> r == s
  {
    assert forall k :: '\n' !in s && DashAt(s, k) && !(1 <= k <= 3 || 5 <= k <= 7) ==> SubAll(ListFormattingRules, s) == s by {
      forall k | '\n' !in s && DashAt(s, k) && !(1 <= k <= 3 || 5 <= k <= 7)
        ensures SubAll(ListFormattingRules, s) == s
      {
        ListRulesShape();
        ChainKeepsDashLine(ListFormattingRules, s, k);
      }
    }
    SubAll(ListFormattingRules, s)
  }

  // ---------------------------------------------------------------------------
  // General facts about the scanner

  /** Without a match at any line start from `i` on, the rest is copied. */
  lemma {:induction false} SubFromNoMatch(r: Rule, s: string, i: nat)
    requires i <= |s|
    requires forall j :: i <= j < |s| && AtLineStart(s, j) ==> MatchAt(r, s, j).None?
    ensures SubFrom(r, s, i) == s[i..]
    decreases |s| - i
  {
    if i < |s| {
      SubFromNoMatch(r, s, i + 1);
      assert [s[i]] + s[i + 1..] == s[i..];
    }
  }

  /** In a string without newlines only position 0 is a line start. */
  lemma {:induction false} NoLineStartInside(s: string)
    requires '\n' !in s
    ensures forall j :: 0 < j <= |s| ==> !AtLineStart(s, j)
  {
    forall j | 0 < j <= |s| ensures !AtLineStart(s, j) {
      assert s[j - 1] in s;
    }
  }

  /** A rule rewrites a single line as its match at the line start says. */
  lemma {:induction false} OnLine(r: Rule, s: string)
    requires '\n' !in s
    ensures s == [] ==> Sub(r, s) == s
    ensures s != [] && MatchAt(r, s, 0).None? ==> Sub(r, s) == s
    ensures s != [] && MatchAt(r, s, 0).Some? ==>
      Sub(r, s) == MatchAt(r, s, 0).value.replacement + s[MatchAt(r, s, 0).value.end..]
  {
    NoLineStartInside(s);
    if s != [] {
      var h := MatchAt(r, s, 0);
      if h.Some? {
        SubFromNoMatch(r, s, h.value.end);
      } else {
        SubFromNoMatch(r, s, 0);
      }
    }
  }

  /** A single line with a match at its start: the match is replaced and the rest copied. */
  lemma {:induction false} OnLineHit(r: Rule, s: string, h: Hit)
    requires '\n' !in s && s != [] && MatchAt(r, s, 0) == Some(h)
    ensures Sub(r, s) == h.replacement + s[h.end..]
  {
    OnLine(r, s);
  }

  /** A rule with no match at any line start leaves the text unchanged. */
  lemma {:induction false} FixedPoint(r: Rule, s: string)
    requires forall j :: 0 <= j < |s| && AtLineStart(s, j) ==> MatchAt(r, s, j).None?
    ensures Sub(r, s) == s
  {
    SubFromNoMatch(r, s, 0);
  }

  // ---------------------------------------------------------------------------
  // Bullets

  /**
   * A line whose first non-space character is a bullet glyph followed by
   * whitespace keeps its indentation and gets "- " in place of the glyph and of
   * the whitespace after it.
   */
  lemma {:induction false} BulletLine(indent: string, glyph: char, gap: string, rest: string)
    requires AllSpace(indent) && '\n' !in indent
    requires IsBulletGlyph(glyph)
    requires gap != [] && AllSpace(gap) && '\n' !in gap
    requires rest != [] ==> !IsSpace(rest[0])
    requires '\n' !in rest
    ensures NormalizeBulletPoints(indent + [glyph] + gap + rest) == indent + "- " + rest
  {
    var s := indent + [glyph] + gap + rest;
    BulletLineRuns(indent, glyph, gap, rest);
    BulletHit(s, |indent|, |gap|);
    Take4First(indent, [glyph], gap, rest);
    Drop4Tail(indent, [glyph], gap, rest);
    OnLineHit(Bullet, s, Hit(|indent| + 1 + |gap|, indent + "- "));
  }

  /** The runs and characters of a bullet line that decide its match. */
  lemma {:induction false} BulletLineRuns(indent: string, glyph: char, gap: string, rest: string)
    requires AllSpace(indent) && '\n' !in indent
    requires IsBulletGlyph(glyph)
    requires gap != [] && AllSpace(gap) && '\n' !in gap
    requires rest != [] ==> !IsSpace(rest[0])
    requires '\n' !in rest
    ensures var s := indent + [glyph] + gap + rest;
      '\n' !in s && |indent| + 1 < |s| && s[|indent|] == glyph && IsSpace(s[|indent| + 1])
      && Run(s, 0, Space) == |indent| && Run(s, |indent| + 1, Space) == |gap|
  {
    NoNewline4(indent, [glyph], gap, rest);
    Heads4(indent, [glyph], gap, rest);
    RunFirst(indent, [glyph], gap, rest, Space);
    RunThird(indent, [glyph], gap, rest, Space);
  }

  /** The bullet match at a line start, from the runs around the glyph. */
  lemma {:induction false} BulletHit(s: string, b: nat, g: nat)
    requires b + 1 < |s| && Run(s, 0, Space) == b && IsBulletGlyph(s[b]) && IsSpace(s[b + 1])
    requires Run(s, b + 1, Space) == g
    ensures BulletAt(s, 0) == Some(Hit(b + 1 + g, s[0..b] + "- "))
  {
  }

  /** A line whose first non-space character is not a bullet glyph is unchanged. */
  lemma {:induction false} NonBulletLine(s: string)
    requires '\n' !in s
    requires LeadingSpace(s) < |s| ==> !IsBulletGlyph(s[LeadingSpace(s)])
    ensures NormalizeBulletPoints(s) == s
  {
    RunIs(s, 0, Space, LeadingSpace(s));
    OnLine(Bullet, s);
  }

  // ---------------------------------------------------------------------------
  // "N)" to "N."

  /** `u` is `t` with some of its ')' turned into '.'. */
  predicate DotsOnly(t: string, u: string)
  {
    |u| == |t| && forall k :: 0 <= k < |t| ==> u[k] == t[k] || (t[k] == ')' && u[k] == '.')
  }

  lemma {:induction false} DotsOnlyConcat(t1: string, u1: string, t2: string, u2: string)
    requires DotsOnly(t1, u1) && DotsOnly(t2, u2)
    ensures DotsOnly(t1 + t2, u1 + u2)
  {
    var t := t1 + t2;
    var u := u1 + u2;
    forall k | 0 <= k < |t| ensures u[k] == t[k] || (t[k] == ')' && u[k] == '.') {
      if k < |t1| {
        assert u[k] == u1[k] && t[k] == t1[k];
      } else {
        assert u[k] == u2[k - |t1|] && t[k] == t2[k - |t1|];
      }
    }
  }

  /** A bracket match replaces its last character, the ')', by a '.'. */
  lemma {:induction false} RoundBracketHitDots(s: string, i: nat)
    requires i < |s| && RoundBracketAt(s, i).Some?
    ensures DotsOnly(s[i..RoundBracketAt(s, i).value.end], RoundBracketAt(s, i).value.replacement)
  {
    var h := RoundBracketAt(s, i).value;
    var head := s[i..h.end];
    assert head == s[i..h.end - 1] + [s[h.end - 1]];
  }

  /** The bracket rule only ever turns a ')' into a '.'; nothing else changes or moves. */
  lemma {:induction false} RoundBracketOnlyDots(s: string, i: nat)
    requires i <= |s|
    ensures DotsOnly(s[i..], SubFrom(RoundBracket, s, i))
    decreases |s| - i
  {
    if i < |s| {
      if AtLineStart(s, i) && MatchAt(RoundBracket, s, i).Some? {
        var h := RoundBracketAt(s, i).value;
        assert i < h.end <= |s|;
        RoundBracketOnlyDots(s, h.end);
        RoundBracketHitDots(s, i);
        DotsOnlyConcat(s[i..h.end], h.replacement, s[h.end..], SubFrom(RoundBracket, s, h.end));
        SplitAt(s, i, h.end);
      } else {
        RoundBracketOnlyDots(s, i + 1);
        DotsOnlyConcat([s[i]], [s[i]], s[i + 1..], SubFrom(RoundBracket, s, i + 1));
        SplitHead(s, i);
      }
    }
  }

  /** A line "<spaces><digits>)<rest>" becomes "<spaces><digits>.<rest>". */
  lemma {:induction false} RoundBracketLine(indent: string, digits: string, rest: string)
    requires AllSpace(indent) && '\n' !in indent
    requires digits != [] && forall j :: 0 <= j < |digits| ==> IsDigit(digits[j])
    requires '\n' !in digits && '\n' !in rest
    ensures ReplaceRoundBracketWithDot(indent + digits + ")" + rest) == indent + digits + "." + rest
  {
    var s := indent + digits + ")" + rest;
    NoNewline4(indent, digits, ")", rest);
    Heads4(indent, digits, ")", rest);
    RunFirst(indent, digits, ")", rest, Space);
    RunSecond(indent, digits, ")", rest, Digit);
    RoundBracketHit(s, |indent|, |digits|);
    Take4Two(indent, digits, ")", rest);
    Drop4Tail(indent, digits, ")", rest);
    OnLineHit(RoundBracket, s, Hit(|indent| + |digits| + 1, indent + digits + "."));
  }

  /** The bracket match at a line start, from the runs before the ')'. */
  lemma {:induction false} RoundBracketHit(s: string, j: nat, d: nat)
    requires 0 < d && j + d < |s| && Run(s, 0, Space) == j && Run(s, j, Digit) == d && s[j + d] == ')'
    ensures RoundBracketAt(s, 0) == Some(Hit(j + d + 1, s[0..j + d] + "."))
  {
  }

  // ---------------------------------------------------------------------------
  // List re-indentation

  /** "<n spaces>-<whitespace><rest>" on one line becomes "<m spaces>- <rest>" under `DashIndent(n, m)`. */
  lemma {:induction false} DashIndentLine(n: nat, m: nat, gap: string, rest: string)
    requires gap != [] && AllSpace(gap) && '\n' !in gap
    requires rest != [] ==> !IsSpace(rest[0])
    requires '\n' !in rest
    ensures Sub(DashIndent(n, m), Repeat(' ', n) + "-" + gap + rest) == Repeat(' ', m) + "- " + rest
  {
    var s := Repeat(' ', n) + "-" + gap + rest;
    DashLineRuns(n, gap, rest);
    DashIndentHit(n, m, s, |gap|);
    Drop4Tail(Repeat(' ', n), "-", gap, rest);
    OnLineHit(DashIndent(n, m), s, Hit(n + 1 + |gap|, Repeat(' ', m) + "- "));
  }

  /** The runs and characters of a dash line that decide its match. */
  lemma {:induction false} DashLineRuns(n: nat, gap: string, rest: string)
    requires gap != [] && AllSpace(gap) && '\n' !in gap
    requires rest != [] ==> !IsSpace(rest[0])
    requires '\n' !in rest
    ensures var s := Repeat(' ', n) + "-" + gap + rest;
      '\n' !in s && n + 1 < |s| && s[n] == '-' && IsSpace(s[n + 1])
      && Run(s, 0, SpaceChar) == n && Run(s, n + 1, Space) == |gap|
  {
    NoNewline4(Repeat(' ', n), "-", gap, rest);
    Heads4(Repeat(' ', n), "-", gap, rest);
    RunFirst(Repeat(' ', n), "-", gap, rest, SpaceChar);
    RunThird(Repeat(' ', n), "-", gap, rest, Space);
  }

  /** The dash match at a line start, from the runs around the '-'. */
  lemma {:induction false} DashIndentHit(n: nat, m: nat, s: string, g: nat)
    requires n + 1 < |s| && Run(s, 0, SpaceChar) == n && s[n] == '-' && IsSpace(s[n + 1])
    requires Run(s, n + 1, Space) == g
    ensures DashIndentAt(n, m, s, 0) == Some(Hit(n + 1 + g, Repeat(' ', m) + "- "))
  {
  }

  /** "<n spaces><digits>.<rest>" on one line becomes "<m spaces><digits>.<rest>" under `OrdinalIndent(n, m)`. */
  lemma {:induction false} OrdinalIndentLine(n: nat, m: nat, digits: string, rest: string)
    requires digits != [] && forall j :: 0 <= j < |digits| ==> IsDigit(digits[j])
    requires '\n' !in digits && '\n' !in rest
    ensures Sub(OrdinalIndent(n, m), Repeat(' ', n) + digits + "." + rest) == Repeat(' ', m) + digits + "." + rest
  {
    var s := Repeat(' ', n) + digits + "." + rest;
    NoNewline4(Repeat(' ', n), digits, ".", rest);
    Heads4(Repeat(' ', n), digits, ".", rest);
    RunFirst(Repeat(' ', n), digits, ".", rest, SpaceChar);
    RunSecond(Repeat(' ', n), digits, ".", rest, Digit);
    OrdinalIndentHit(n, m, s, |digits|);
    Mid4(Repeat(' ', n), digits, ".", rest);
    Assoc(Repeat(' ', m), digits, ".");
    Drop4Tail(Repeat(' ', n), digits, ".", rest);
    OnLineHit(OrdinalIndent(n, m), s, Hit(n + |digits| + 1, Repeat(' ', m) + digits + "."));
  }

  /** The ordinal match at a line start, from the runs before the '.'. */
  lemma {:induction false} OrdinalIndentHit(n: nat, m: nat, s: string, d: nat)
    requires 0 < d && n + d < |s| && Run(s, 0, SpaceChar) == n && Run(s, n, Digit) == d && s[n + d] == '.'
    ensures OrdinalIndentAt(n, m, s, 0) == Some(Hit(n + d + 1, Repeat(' ', m) + s[n..n + d + 1]))
  {
  }

  /** A line with exactly `k` leading spaces and then '-' is a "dash line at depth k". */
  predicate DashAt(s: string, k: nat)
  {
    k < |s| && Run(s, 0, SpaceChar) == k && s[k] == '-'
  }

  /** A line with exactly `k` leading spaces and then a digit is an "ordinal line at depth k". */
  predicate OrdinalAt(s: string, k: nat)
  {
    k < |s| && Run(s, 0, SpaceChar) == k && IsDigit(s[k])
  }

  /** No rule of `rules` re-indents dash lines at depth `k`. */
  predicate SparesDash(rules: seq<Rule>, k: nat)
  {
    forall q :: 0 <= q < |rules| ==>
      (rules[q].DashIndent? && rules[q].spaces != k) || rules[q].OrdinalIndent?
  }

  /** No rule of `rules` re-indents ordinal lines at depth `k`. */
  predicate SparesOrdinal(rules: seq<Rule>, k: nat)
  {
    forall q :: 0 <= q < |rules| ==>
      (rules[q].OrdinalIndent? && rules[q].spaces != k) || rules[q].DashIndent?
  }

  /** Rules that do not start at depth `k` leave a dash line at depth `k` alone. */
  lemma {:induction false} ChainKeepsDashLine(rules: seq<Rule>, s: string, k: nat)
    requires '\n' !in s && DashAt(s, k)
    requires SparesDash(rules, k)
    ensures SubAll(rules, s) == s
    decreases |rules|
  {
    if rules != [] {
      OnLine(rules[0], s);
      ChainKeepsDashLine(rules[1..], s, k);
    }
  }

  /** Rules that do not start at depth `k` leave an ordinal line at depth `k` alone. */
  lemma {:induction false} ChainKeepsOrdinalLine(rules: seq<Rule>, s: string, k: nat)
    requires '\n' !in s && OrdinalAt(s, k)
    requires SparesOrdinal(rules, k)
    ensures SubAll(rules, s) == s
    decreases |rules|
  {
    if rules != [] {
      OnLine(rules[0], s);
      ChainKeepsOrdinalLine(rules[1..], s, k);
    }
  }

  /** The shape of the twelve list-formatting rules. */
  lemma {:induction false} ListRulesShape()
    ensures |ListFormattingRules| == 12
    ensures forall q :: 0 <= q < 6 ==>
      ListFormattingRules[q] == DashIndent(if q < 3 then q + 1 else q + 2, if q < 3 then 4 else 8)
    ensures forall q :: 6 <= q < 12 ==>
      ListFormattingRules[q] == OrdinalIndent(if q < 9 then q - 5 else q - 4, if q < 9 then 4 else 8)
  {
    var r := ListFormattingRules;
    forall q | 0 <= q < 12
      ensures q < 6 ==> r[q] == DashIndent(if q < 3 then q + 1 else q + 2, if q < 3 then 4 else 8)
      ensures 6 <= q ==> r[q] == OrdinalIndent(if q < 9 then q - 5 else q - 4, if q < 9 then 4 else 8)
    {
      if q == 0 {} else if q == 1 {} else if q == 2 {} else if q == 3 {} else if q == 4 {}
      else if q == 5 {} else if q == 6 {} else if q == 7 {} else if q == 8 {} else if q == 9 {}
      else if q == 10 {} else {}
    }
  }

  /** Applying a chain of rules is applying its prefix, then rule `idx`, then its suffix. */
  lemma {:induction false} SubAllSplit(rules: seq<Rule>, idx: nat, s: string)
    requires idx < |rules|
    ensures SubAll(rules, s) == SubAll(rules[idx + 1..], Sub(rules[idx], SubAll(rules[..idx], s)))
    decreases idx
  {
    if idx > 0 {
      SubAllSplit(rules[1..], idx - 1, Sub(rules[0], s));
      assert rules[1..][idx..] == rules[idx + 1..];
      assert rules[1..][idx - 1] == rules[idx];
      assert rules[..idx][1..] == rules[1..][..idx - 1];
    }
  }

  /** The index of the dash rule for depth `k` in the chain (the ordinal rule sits six later). */
  function Slot(k: nat): nat
    requires k >= 1
  {
    if k <= 3 then k - 1 else k - 2
  }

  /** The depth the chain re-indents depth `k` to. */
  function Target(k: nat): nat
  {
    if k <= 3 then 4 else 8
  }

  lemma {:induction false} DashChainPieces(k: nat)
    requires 1 <= k <= 3 || 5 <= k <= 7
    ensures ListFormattingRules[Slot(k)] == DashIndent(k, Target(k))
    ensures SparesDash(ListFormattingRules[..Slot(k)], k)
    ensures SparesDash(ListFormattingRules[Slot(k) + 1..], Target(k))
  {
    ListRulesShape();
  }

  lemma {:induction false} OrdinalChainPieces(k: nat)
    requires 1 <= k <= 3 || 5 <= k <= 7
    ensures ListFormattingRules[Slot(k) + 6] == OrdinalIndent(k, Target(k))
    ensures SparesOrdinal(ListFormattingRules[..Slot(k) + 6], k)
    ensures SparesOrdinal(ListFormattingRules[Slot(k) + 7..], Target(k))
  {
    ListRulesShape();
  }

  lemma {:induction false} DashLineIsDashAt(k: nat, gap: string, rest: string)
    requires gap != [] && AllSpace(gap) && '\n' !in gap && '\n' !in rest
    ensures '\n' !in Repeat(' ', k) + "-" + gap + rest
    ensures DashAt(Repeat(' ', k) + "-" + gap + rest, k)
  {
    var s := Repeat(' ', k) + "-" + gap + rest;
    RunIs(s, 0, SpaceChar, k);
  }

  lemma {:induction false} TargetLineIsDashAt(m: nat, rest: string)
    requires '\n' !in rest
    ensures '\n' !in Repeat(' ', m) + "- " + rest
    ensures DashAt(Repeat(' ', m) + "- " + rest, m)
  {
    var s := Repeat(' ', m) + "- " + rest;
    assert s[m] == '-' && s[m + 1] == ' ';
    RunIs(s, 0, SpaceChar, m);
  }

  lemma {:induction false} OrdinalLineIsOrdinalAt(k: nat, digits: string, rest: string)
    requires digits != [] && forall j :: 0 <= j < |digits| ==> IsDigit(digits[j])
    requires '\n' !in digits && '\n' !in rest
    ensures '\n' !in Repeat(' ', k) + digits + "." + rest
    ensures OrdinalAt(Repeat(' ', k) + digits + "." + rest, k)
  {
    var s := Repeat(' ', k) + digits + "." + rest;
    assert s[k] == digits[0];
    RunIs(s, 0, SpaceChar, k);
  }

  /** A chain whose rule `idx` re-indents dash lines from depth `k` to `m`, and whose other rules spare them. */
  lemma {:induction false} ChainReindentsDash(rules: seq<Rule>, idx: nat, k: nat, m: nat, gap: string, rest: string)
    requires idx < |rules| && rules[idx] == DashIndent(k, m)
    requires SparesDash(rules[..idx], k) && SparesDash(rules[idx + 1..], m)
    requires gap != [] && AllSpace(gap) && '\n' !in gap
    requires rest != [] ==> !IsSpace(rest[0])
    requires '\n' !in rest
    ensures SubAll(rules, Repeat(' ', k) + "-" + gap + rest) == Repeat(' ', m) + "- " + rest
  {
    var s := Repeat(' ', k) + "-" + gap + rest;
    var t := Repeat(' ', m) + "- " + rest;
    DashLineIsDashAt(k, gap, rest);
    TargetLineIsDashAt(m, rest);
    SubAllSplit(rules, idx, s);
    ChainKeepsDashLine(rules[..idx], s, k);
    DashIndentLine(k, m, gap, rest);
    ChainKeepsDashLine(rules[idx + 1..], t, m);
  }

  /** A chain whose rule `idx` re-indents ordinal lines from depth `k` to `m`, and whose other rules spare them. */
  lemma {:induction false} ChainReindentsOrdinal(rules: seq<Rule>, idx: nat, k: nat, m: nat, digits: string, rest: string)
    requires idx < |rules| && rules[idx] == OrdinalIndent(k, m)
    requires SparesOrdinal(rules[..idx], k) && SparesOrdinal(rules[idx + 1..], m)
    requires digits != [] && forall j :: 0 <= j < |digits| ==> IsDigit(digits[j])
    requires '\n' !in digits && '\n' !in rest
    ensures SubAll(rules, Repeat(' ', k) + digits + "." + rest) == Repeat(' ', m) + digits + "." + rest
  {
    var s := Repeat(' ', k) + digits + "." + rest;
    var t := Repeat(' ', m) + digits + "." + rest;
    OrdinalLineIsOrdinalAt(k, digits, rest);
    OrdinalLineIsOrdinalAt(m, digits, rest);
    SubAllSplit(rules, idx, s);
    ChainKeepsOrdinalLine(rules[..idx], s, k);
    OrdinalIndentLine(k, m, digits, rest);
    ChainKeepsOrdinalLine(rules[idx + 1..], t, m);
  }

  /**
   * Through all twelve rules, a dash line indented by 1-3 spaces ends up indented
   * by 4, and one indented by 5-7 spaces ends up indented by 8.
   */
  lemma {:induction false} FixListFormattingDashLine(k: nat, gap: string, rest: string)
    requires 1 <= k <= 3 || 5 <= k <= 7
    requires gap != [] && AllSpace(gap) && '\n' !in gap
    requires rest != [] ==> !IsSpace(rest[0])
    requires '\n' !in rest
    ensures FixListFormatting(Repeat(' ', k) + "-" + gap + rest)
      == Repeat(' ', if k <= 3 then 4 else 8) + "- " + rest
  {
    DashChainPieces(k);
    ChainReindentsDash(ListFormattingRules, Slot(k), k, Target(k), gap, rest);
  }

  /**
   * Through all twelve rules, an ordinal line indented by 1-3 spaces ends up
   * indented by 4, and one indented by 5-7 spaces ends up indented by 8.
   */
  lemma {:induction false} FixListFormattingOrdinalLine(k: nat, digits: string, rest: string)
    requires 1 <= k <= 3 || 5 <= k <= 7
    requires digits != [] && forall j :: 0 <= j < |digits| ==> IsDigit(digits[j])
    requires '\n' !in digits && '\n' !in rest
    ensures FixListFormatting(Repeat(' ', k) + digits + "." + rest)
      == Repeat(' ', if k <= 3 then 4 else 8) + digits + "." + rest
  {
    OrdinalChainPieces(k);
    assert Slot(k) + 6 + 1 == Slot(k) + 7;
    ChainReindentsOrdinal(ListFormattingRules, Slot(k) + 6, k, Target(k), digits, rest);
  }

  // ---------------------------------------------------------------------------
  // Blank line between a header line and a list

  /** A list-marker test on `t` is the same test at offset `|p|` inside `p + t`. */
  lemma {:induction false} ShiftRun(t: string, p: string, i: nat, k: CharClass)
    requires i <= |t|
    ensures Run(p + t, |p| + i, k) == Run(t, i, k)
    decreases |t| - i
  {
    if i < |t| {
      assert (p + t)[|p| + i] == t[i];
      ShiftRun(t, p, i + 1, k);
    }
  }

  lemma {:induction false} ShiftMarker(t: string, p: string, j: nat)
    requires j <= |t|
    ensures MarkerAt(t, j) == MarkerAt(p + t, |p| + j)
  {
    var s := p + t;
    ShiftRun(t, p, j, Digit);
    var d := Run(t, j, Digit);
    if j + 1 < |t| {
      assert s[|p| + j] == t[j] && s[|p| + j + 1] == t[j + 1];
    }
    if j + d + 1 < |t| {
      assert s[|p| + j + d] == t[j + d] && s[|p| + j + d + 1] == t[j + d + 1];
    }
  }

  lemma {:induction false} ShiftListMarker(t: string, p: string, k: CharClass)
    ensures ListMarkerAhead(t, 0, k) == ListMarkerAhead(p + t, |p|, k)
  {
    ShiftRun(t, p, 0, k);
    ShiftMarker(t, p, Run(t, 0, k));
  }

  /** In `a + "\n" + b` with no other newline, the only line starts are 0 and `|a| + 1`. */
  lemma {:induction false} TwoLineStarts(a: string, b: string)
    requires '\n' !in a && '\n' !in b
    ensures forall j :: 0 <= j <= |a + "\n" + b| && AtLineStart(a + "\n" + b, j) ==> j == 0 || j == |a| + 1
    ensures IndexOf(a + "\n" + b, '\n', 0) == |a|
    ensures IndexOf(a + "\n" + b, '\n', |a| + 1) == -1
  {
    var s := a + "\n" + b;
    forall j | 0 < j <= |s| && j != |a| + 1 ensures !AtLineStart(s, j) {
      if j - 1 < |a| {
        assert s[j - 1] == a[j - 1];
        assert a[j - 1] in a;
      } else {
        assert s[j - 1] == b[j - 1 - |a| - 1];
        assert b[j - 1 - |a| - 1] in b;
      }
    }
    forall j | 0 <= j < |a| ensures s[j] != '\n' {
      assert s[j] == a[j];
      assert a[j] in a;
    }
    forall j | |a| + 1 <= j < |s| ensures s[j] != '\n' {
      assert s[j] == b[j - |a| - 1];
      assert b[j - |a| - 1] in b;
    }
    assert s[|a|] == '\n';
  }

  /** A header line followed by a list line gets one empty line between them. */
  lemma {:induction false} BlankLineBetweenHeaderAndList(header: string, item: string)
    requires '\n' !in header && '\n' !in item
    requires !ListMarkerAhead(header + "\n" + item, 0, Space)
    requires ListMarkerAhead(item, 0, Blank)
    ensures AddBlankLineAfterColonHeaders(header + "\n" + item) == header + "\n\n" + item
  {
    var s := header + "\n" + item;
    var nl := |header|;
    TwoLineStarts(header, item);
    ShiftListMarker(item, header + "\n", Blank);
    BlankHit(s, nl);
    Take3Two(header, "\n", item);
    Drop3Two(header, "\n", item);
    SubFromNoMatch(BlankBeforeList, s, nl + 1);
    DoubleNewline(header, item);
  }

  /** The blank-line match at a line start, from where its line ends. */
  lemma {:induction false} BlankHit(s: string, nl: nat)
    requires nl < |s| && IndexOf(s, '\n', 0) == nl
    requires !ListMarkerAhead(s, 0, Space) && ListMarkerAhead(s, nl + 1, Blank)
    ensures BlankBeforeListAt(s, 0) == Some(Hit(nl + 1, s[0..nl + 1] + "\n"))
  {
  }

  lemma {:induction false} DoubleNewline(header: string, item: string)
    ensures header + "\n" + "\n" + item == header + "\n\n" + item
  {
    assert "\n" + "\n" == "\n\n";
  }

  /** A list line directly followed by another line gets no blank line. */
  lemma {:induction false} NoBlankLineAfterListItem(first: string, second: string)
    requires '\n' !in first && '\n' !in second
    requires ListMarkerAhead(first + "\n" + second, 0, Space)
    ensures AddBlankLineAfterColonHeaders(first + "\n" + second) == first + "\n" + second
  {
    TwoLineStarts(first, second);
    FixedPoint(BlankBeforeList, first + "\n" + second);
  }

  /** A header line followed by a line that is not a list item gets no blank line. */
  lemma {:induction false} NoBlankLineBeforeNonListLine(first: string, second: string)
    requires '\n' !in first && '\n' !in second
    requires !ListMarkerAhead(second, 0, Blank)
    ensures AddBlankLineAfterColonHeaders(first + "\n" + second) == first + "\n" + second
  {
    TwoLineStarts(first, second);
    ShiftListMarker(second, first + "\n", Blank);
    assert first + "\n" + second == (first + "\n") + second;
    FixedPoint(BlankBeforeList, first + "\n" + second);
  }
}
