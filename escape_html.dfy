/**
 * `escape_html_tags`: the message is split at protected segments (fenced
 * code blocks and `<div>` elements with one of the allowed classes), and
 * `&`, `<` and `>` are replaced by entities in the text between them only.
 *
 * The split pattern is evaluated position by position, as `re.split` does:
 * the first position where a protected segment matches ends the current
 * unprotected part, and the scan resumes after the segment.
 */
module EscapeHtml {
  import opened Strings
  import opened Seqs

  // ---------------------------------------------------------------------------
  // Escaping the unprotected text

  /** `s.replace(c, with)` for a single character `c`. */
  function Replace(s: string, c: char, with: string): (r: string)
    ensures c !in s ==> r == s
    ensures |with| >= 1 ==> |r| >= |s|
  {
    if s == [] then []
    else (if s[0] == c then with else [s[0]]) + Replace(s[1..], c, with)
  }

  /** The three `replace` calls, in the order of the source. */
  function EscapeText(s: string): string
  {
    Replace(Replace(Replace(s, '&', "&amp;"), '<', "&lt;"), '>', "&gt;")
  }

  /** The entity of one character. */
  function Entity(c: char): (r: string)
    ensures r == [c] <==> c != '&' && c != '<' && c != '>'
  {
    if c == '&' then "&amp;" else if c == '<' then "&lt;" else if c == '>' then "&gt;" else [c]
  }

  /** Character-by-character escaping, the reference for `EscapeText`. */
  function EscapeChars(s: string): string
  {
    if s == [] then [] else Entity(s[0]) + EscapeChars(s[1..])
  }

  lemma {:induction false} ReplaceCons(a: string, b: string, c: char, with: string)
    requires a != []
    ensures Replace(a + b, c, with) == (if a[0] == c then with else [a[0]]) + Replace(a[1..] + b, c, with)
  {
    assert (a + b)[0] == a[0];
    assert (a + b)[1..] == a[1..] + b;
  }

  lemma {:induction false} ReplaceConcat(a: string, b: string, c: char, with: string)
    ensures Replace(a + b, c, with) == Replace(a, c, with) + Replace(b, c, with)
    decreases |a|
  {
    if a == [] {
      assert a + b == b;
    } else {
      var h := if a[0] == c then with else [a[0]];
      ReplaceCons(a, b, c, with);
      ReplaceConcat(a[1..], b, c, with);
      Assoc(h, Replace(a[1..], c, with), Replace(b, c, with));
    }
  }

  lemma {:induction false} EscapeTextConcat(a: string, b: string)
    ensures EscapeText(a + b) == EscapeText(a) + EscapeText(b)
  {
    ReplaceConcat(a, b, '&', "&amp;");
    ReplaceConcat(Replace(a, '&', "&amp;"), Replace(b, '&', "&amp;"), '<', "&lt;");
    ReplaceConcat(Replace(Replace(a, '&', "&amp;"), '<', "&lt;"), Replace(Replace(b, '&', "&amp;"), '<', "&lt;"), '>', "&gt;");
  }

  lemma {:induction false} ReplaceOne(c: char, d: char, with: string)
    ensures Replace([c], d, with) == if c == d then with else [c]
  {
    assert [c][1..] == [];
  }

  lemma {:induction false} EscapeTextChar(c: char)
    ensures EscapeText([c]) == Entity(c)
  {
    ReplaceOne(c, '&', "&amp;");
    if c == '&' {
      assert '<' !in "&amp;" && '>' !in "&amp;";
    } else {
      ReplaceOne(c, '<', "&lt;");
      if c == '<' {
        assert '>' !in "&lt;";
      } else {
        ReplaceOne(c, '>', "&gt;");
      }
    }
  }

  /**
   * The chained replacements equal escaping each character on its own:
   * `&` goes first, so the `&` of `&lt;` and `&gt;` is never escaped again.
   */
  lemma {:induction false} EscapeTextPerChar(s: string)
    ensures EscapeText(s) == EscapeChars(s)
    decreases |s|
  {
    if s != [] {
      assert s == [s[0]] + s[1..];
      EscapeTextConcat([s[0]], s[1..]);
      EscapeTextChar(s[0]);
      EscapeTextPerChar(s[1..]);
    }
  }

  /** HTML entity decoding of the three entities, the inverse of escaping. */
  function Unescape(s: string): string
    decreases |s|
  {
    if s == [] then []
    else if StartsWith(s, "&amp;") then "&" + Unescape(s[5..])
    else if StartsWith(s, "&lt;") then "<" + Unescape(s[4..])
    else if StartsWith(s, "&gt;") then ">" + Unescape(s[4..])
    else [s[0]] + Unescape(s[1..])
  }

  /** A text that differs from `p` at `i` does not start with `p`. */
  lemma {:induction false} DiffersAt(e: string, p: string, i: nat)
    requires i < |p| && i < |e| && e[i] != p[i]
    ensures !StartsWith(e, p)
  {
    if |p| <= |e| {
      assert e[..|p|][i] == e[i];
    }
  }

  lemma {:induction false} UnescapeAmp(t: string)
    ensures Unescape("&amp;" + t) == "&" + Unescape(t)
  {
    var e := "&amp;" + t;
    assert e[..5] == "&amp;" && e[5..] == t;
  }

  lemma {:induction false} UnescapeLt(t: string)
    ensures Unescape("&lt;" + t) == "<" + Unescape(t)
  {
    var e := "&lt;" + t;
    DiffersAt(e, "&amp;", 1);
    assert e[..4] == "&lt;" && e[4..] == t;
  }

  lemma {:induction false} UnescapeGt(t: string)
    ensures Unescape("&gt;" + t) == ">" + Unescape(t)
  {
    var e := "&gt;" + t;
    DiffersAt(e, "&amp;", 1);
    DiffersAt(e, "&lt;", 1);
    assert e[..4] == "&gt;" && e[4..] == t;
  }

  lemma {:induction false} UnescapePlain(c: char, t: string)
    requires c != '&'
    ensures Unescape([c] + t) == [c] + Unescape(t)
  {
    var e := [c] + t;
    DiffersAt(e, "&amp;", 0);
    DiffersAt(e, "&lt;", 0);
    DiffersAt(e, "&gt;", 0);
    assert e[1..] == t;
  }

  /** Decoding an entity followed by more text gives back its character. */
  lemma {:induction false} UnescapeEntity(c: char, t: string)
    ensures Unescape(Entity(c) + t) == [c] + Unescape(t)
  {
    if c == '&' {
      UnescapeAmp(t);
    } else if c == '<' {
      UnescapeLt(t);
    } else if c == '>' {
      UnescapeGt(t);
    } else {
      UnescapePlain(c, t);
    }
  }

  lemma {:induction false} UnescapeEscape(s: string)
    ensures Unescape(EscapeChars(s)) == s
    decreases |s|
  {
    if s != [] {
      UnescapeEntity(s[0], EscapeChars(s[1..]));
      UnescapeEscape(s[1..]);
      assert s == [s[0]] + s[1..];
    }
  }

  /** Escaped text holds no `<` or `>`. */
  lemma {:induction false} EscapedHasNoAngles(s: string)
    ensures '<' !in EscapeChars(s) && '>' !in EscapeChars(s)
    decreases |s|
  {
    if s != [] {
      EscapedHasNoAngles(s[1..]);
    }
  }

  /** Text without `&`, `<` and `>` is not changed by escaping. */
  lemma {:induction false} EscapeKeepsPlain(s: string)
    requires '&' !in s && '<' !in s && '>' !in s
    ensures EscapeChars(s) == s
    decreases |s|
  {
    if s != [] {
      assert s == [s[0]] + s[1..];
      EscapeKeepsPlain(s[1..]);
    }
  }

  // ---------------------------------------------------------------------------
  // The protected segments

  const AllowedClasses: seq<string> := ["thinking_block_signature", "thinking_block_content", "message-info", "image-generation"]

  /** The first position at or after `from` where `p` occurs up to ASCII case. */
  function FindIgnoreCase(s: string, p: string, from: nat): (r: int)
    ensures r == -1 || (from <= r && OccursAtIgnoreCase(s, p, r))
    ensures r != -1 ==> forall j :: from <= j < r ==> !OccursAtIgnoreCase(s, p, j)
    decreases |s| - from
  {
    if from + |p| > |s| then -1
    else if OccursAtIgnoreCase(s, p, from) then from
    else FindIgnoreCase(s, p, from + 1)
  }

  /** `\b(name)\b` at `n`. */
  predicate NameAt(s: string, n: nat, name: string)
  {
    OccursAtIgnoreCase(s, name, n) && WordBoundary(s, n) && WordBoundary(s, n + |name|)
  }

  /** `\b(?:thinking_block_signature|thinking_block_content|message-info|image-generation)\b` at `n`. */
  predicate ClassNameAt(s: string, n: nat)
  {
    NameAt(s, n, AllowedClasses[0]) || NameAt(s, n, AllowedClasses[1])
    || NameAt(s, n, AllowedClasses[2]) || NameAt(s, n, AllowedClasses[3])
  }

  /**
   * The end of `class="[^"]*\b(?:…)\b[^"]*"[^>]*>.*?</div>` matched from `c`,
   * or -1. The class value runs to the first '"', an allowed name must start
   * inside it (a name holds no '"', so it also ends inside it), the tag ends at
   * the first '>' after the value, and the element at the first `</div>`.
   */
  function ClassTail(s: string, c: nat): (r: int)
    ensures r == -1 || c < r <= |s|
  {
    if !OccursAtIgnoreCase(s, "class=\"", c) then -1
    else
      var v := c + 7;
      var quote := IndexOf(s, '"', v);
      if quote == -1 || !(exists n :: v <= n < quote && ClassNameAt(s, n)) then -1
      else
        var gt := IndexOf(s, '>', quote + 1);
        if gt == -1 then -1
        else
          var close := FindIgnoreCase(s, "</div>", gt + 1);
          if close == -1 then -1 else close + 6
  }

  /** `[^>]*` before `class="` is greedy: the candidates are tried from `c` down to `lo`. */
  function ClassFrom(s: string, lo: nat, c: nat): (r: int)
    requires lo <= c
    ensures r == -1 || lo < r <= |s|
    decreases c - lo
  {
    var t := ClassTail(s, c);
    if t != -1 then t
    else if c == lo then -1
    else ClassFrom(s, lo, c - 1)
  }

  /** The end of an allowed `<div …>…</div>` element starting at `p`, or -1. */
  function DivEnd(s: string, p: nat): (r: int)
    requires p <= |s|
    ensures r == -1 || p < r <= |s|
  {
    if !OccursAtIgnoreCase(s, "<div", p) || !WordBoundary(s, p + 4) then -1
    else
      var gt := IndexOf(s, '>', p + 4);
      ClassFrom(s, p + 4, if gt == -1 then |s| else gt)
  }

  /**
   * The end of a fenced block starting at `p` (```` ```[^\n]*\n.*?``` ```` or the same
   * with `~~~`), or -1: the fence's line runs to the first '\n', and the block
   * ends at the first fence after it.
   */
  function CodeBlockEnd(s: string, p: nat): (r: int)
    requires p <= |s|
    ensures r == -1 || p < r <= |s|
  {
    if !(OccursAt(s, "```", p) || OccursAt(s, "~~~", p)) then -1
    else
      var newline := IndexOf(s, '\n', p + 3);
      if newline == -1 then -1
      else
        var close := Find(s, s[p..p + 3], newline + 1);
        if close == -1 then -1 else close + 3
  }

  /** The end of the protected segment starting at `p`, or -1; the alternatives are tried in order. */
  function ProtectedEnd(s: string, p: nat): (r: int)
    requires p <= |s|
    ensures r == -1 || p < r <= |s|
  {
    var e := CodeBlockEnd(s, p);
    if e != -1 then e else DivEnd(s, p)
  }

  /** A table of segment ends for `s`: -1 or a position after `p`. */
  predicate EndsOk(s: string, ends: seq<int>)
  {
    |ends| == |s| && forall p :: 0 <= p < |s| ==> ends[p] == -1 || p < ends[p] <= |s|
  }

  /** `ProtectedEnd` at every position. */
  function Ends(s: string): (ends: seq<int>)
    ensures EndsOk(s, ends)
  {
    seq(|s|, p requires 0 <= p < |s| => ProtectedEnd(s, p))
  }

  /**
   * `re.split` with one capturing group, scanning from `p` with the current
   * unprotected part starting at `pos`: even indices hold unprotected text,
   * odd indices the protected segments.
   */
  function SplitFrom(s: string, ends: seq<int>, pos: nat, p: nat): (parts: seq<string>)
    requires EndsOk(s, ends) && pos <= p <= |s|
    ensures |parts| % 2 == 1
    decreases |s| - p
  {
    if p == |s| then [s[pos..]]
    else if ends[p] == -1 then SplitFrom(s, ends, pos, p + 1)
    else
      var e := ends[p];
      [s[pos..p], s[p..e]] + SplitFrom(s, ends, e, e)
  }

  function Parts(message: string): (parts: seq<string>)
    ensures |parts| % 2 == 1
  {
    SplitFrom(message, Ends(message), 0, 0)
  }

  /** Escape the even parts, keep the odd ones. */
  function Assemble(parts: seq<string>): seq<string>
  {
    seq(|parts|, i requires 0 <= i < |parts| => if i % 2 == 0 then EscapeText(parts[i]) else parts[i])
  }

  function EscapeHtmlTags(message: string): string
  {
    Concat(Assemble(Parts(message)))
  }

  // ---------------------------------------------------------------------------
  // Properties of the split

  lemma {:induction false} PairConcat(a: string, b: string, rest: seq<string>)
    ensures Concat([a, b] + rest) == a + b + Concat(rest)
  {
    ConcatAppend([a, b], rest);
    assert [a, b][1..] == [b];
    assert [b][1..] == [];
  }

  lemma {:induction false} SliceConcat3(s: string, pos: nat, p: nat, e: nat)
    requires pos <= p <= e <= |s|
    ensures s[pos..] == s[pos..p] + s[p..e] + s[e..]
  {
  }

  /** The parts put back together give the scanned text: nothing is lost or duplicated. */
  lemma {:induction false} SplitFromConcat(s: string, ends: seq<int>, pos: nat, p: nat)
    requires EndsOk(s, ends) && pos <= p <= |s|
    ensures Concat(SplitFrom(s, ends, pos, p)) == s[pos..]
    decreases |s| - p
  {
    if p == |s| {
      assert SplitFrom(s, ends, pos, p) == [s[pos..]];
    } else if ends[p] == -1 {
      SplitFromConcat(s, ends, pos, p + 1);
    } else {
      var e := ends[p];
      SplitFromConcat(s, ends, e, e);
      PairConcat(s[pos..p], s[p..e], SplitFrom(s, ends, e, e));
      SliceConcat3(s, pos, p, e);
    }
  }

  lemma {:induction false} PartsConcat(message: string)
    ensures Concat(Parts(message)) == message
  {
    SplitFromConcat(message, Ends(message), 0, 0);
  }

  /** A protected part starts with a fence or, up to case, with `<div`. */
  predicate Marked(part: string)
  {
    StartsWith(part, "```") || StartsWith(part, "~~~") || OccursAtIgnoreCase(part, "<div", 0)
  }

  lemma {:induction false} CodeBlockStartsMarked(s: string, p: nat)
    requires p <= |s| && CodeBlockEnd(s, p) != -1
    ensures Marked(s[p..CodeBlockEnd(s, p)])
  {
    var e := CodeBlockEnd(s, p);
    var newline := IndexOf(s, '\n', p + 3);
    assert newline >= p + 3;
    assert s[p..e][..3] == s[p..p + 3];
  }

  lemma {:induction false} DivStartsMarked(s: string, p: nat)
    requires p <= |s| && DivEnd(s, p) != -1
    ensures Marked(s[p..DivEnd(s, p)])
  {
    var e := DivEnd(s, p);
    assert OccursAtIgnoreCase(s, "<div", p);
    assert e >= p + 4;
    assert s[p..e][0..4] == s[p..p + 4];
  }

  lemma {:induction false} ProtectedStartsMarked(s: string, p: nat)
    requires p <= |s| && ProtectedEnd(s, p) != -1
    ensures Marked(s[p..ProtectedEnd(s, p)])
  {
    if CodeBlockEnd(s, p) != -1 {
      CodeBlockStartsMarked(s, p);
    } else {
      DivStartsMarked(s, p);
    }
  }

  /** Every segment in the table of `s` starts with its marker. */
  predicate EndsMarked(s: string, ends: seq<int>)
    requires EndsOk(s, ends)
  {
    forall p :: 0 <= p < |s| && ends[p] != -1 ==> Marked(s[p..ends[p]])
  }

  lemma {:induction false} EndsAreMarked(s: string)
    ensures EndsMarked(s, Ends(s))
  {
    var ends := Ends(s);
    forall p | 0 <= p < |s| && ends[p] != -1
      ensures Marked(s[p..ends[p]])
    {
      ProtectedStartsMarked(s, p);
    }
  }

  predicate OddMarked(parts: seq<string>)
  {
    forall i :: 0 <= i < |parts| && i % 2 == 1 ==> Marked(parts[i])
  }

  lemma {:induction false} OddMarkedPrepend(a: string, b: string, rest: seq<string>)
    requires Marked(b) && OddMarked(rest)
    ensures OddMarked([a, b] + rest)
  {
    var parts := [a, b] + rest;
    forall i | 0 <= i < |parts| && i % 2 == 1
      ensures Marked(parts[i])
    {
      if i >= 2 {
        assert parts[i] == rest[i - 2];
        assert (i - 2) % 2 == 1;
      }
    }
  }

  /** Every odd part is a protected segment, beginning with its marker. */
  lemma {:induction false} OddPartsMarked(s: string, ends: seq<int>, pos: nat, p: nat)
    requires EndsOk(s, ends) && EndsMarked(s, ends) && pos <= p <= |s|
    ensures OddMarked(SplitFrom(s, ends, pos, p))
    decreases |s| - p
  {
    if p < |s| {
      if ends[p] == -1 {
        OddPartsMarked(s, ends, pos, p + 1);
      } else {
        var e := ends[p];
        OddPartsMarked(s, ends, e, e);
        OddMarkedPrepend(s[pos..p], s[p..e], SplitFrom(s, ends, e, e));
      }
    }
  }

  /** The odd parts of a message are its protected segments. */
  lemma {:induction false} PartsOddMarked(message: string)
    ensures OddMarked(Parts(message))
  {
    EndsAreMarked(message);
    OddPartsMarked(message, Ends(message), 0, 0);
  }

  /** No segment starts anywhere: one unprotected part. */
  lemma {:induction false} NoEndsOnePart(s: string, ends: seq<int>, pos: nat, p: nat)
    requires EndsOk(s, ends) && pos <= p <= |s|
    requires forall q :: p <= q < |s| ==> ends[q] == -1
    ensures SplitFrom(s, ends, pos, p) == [s[pos..]]
    decreases |s| - p
  {
    if p < |s| {
      NoEndsOnePart(s, ends, pos, p + 1);
    }
  }

  /** Text without any marker is one unprotected part. */
  lemma {:induction false} UnmarkedOnePart(s: string)
    requires forall q :: 0 <= q <= |s| ==> !OccursAt(s, "```", q) && !OccursAt(s, "~~~", q) && !OccursAtIgnoreCase(s, "<div", q)
    ensures Parts(s) == [s]
  {
    var ends := Ends(s);
    forall q | 0 <= q < |s|
      ensures ends[q] == -1
    {
      assert ends[q] == ProtectedEnd(s, q);
    }
    NoEndsOnePart(s, ends, 0, 0);
    assert s[0..] == s;
  }

  lemma {:induction false} OnePartEscaped(message: string)
    requires Parts(message) == [message]
    ensures EscapeHtmlTags(message) == EscapeText(message)
  {
    var a := Assemble([message]);
    assert a == [EscapeText(message)];
    assert a[1..] == [];
    assert Concat(a) == EscapeText(message) + Concat([]);
  }

  /** Without a fence or `<div`, the whole message is escaped, and decoding gives it back. */
  lemma {:induction false} UnmarkedEscapedWhole(message: string)
    requires forall q :: 0 <= q <= |message| ==> !OccursAt(message, "```", q) && !OccursAt(message, "~~~", q) && !OccursAtIgnoreCase(message, "<div", q)
    ensures EscapeHtmlTags(message) == EscapeChars(message)
    ensures Unescape(EscapeHtmlTags(message)) == message
  {
    UnmarkedOnePart(message);
    OnePartEscaped(message);
    EscapeTextPerChar(message);
    UnescapeEscape(message);
  }

  lemma {:induction false} PartOfConcat(parts: seq<string>, i: nat, c: char)
    requires i < |parts| && c in parts[i]
    ensures c in Concat(parts)
    decreases i
  {
    if i == 0 {
      assert Concat(parts) == parts[0] + Concat(parts[1..]);
    } else {
      PartOfConcat(parts[1..], i - 1, c);
      assert Concat(parts) == parts[0] + Concat(parts[1..]);
    }
  }

  /** A message with none of `&`, `<` and `>` is a fixed point. */
  lemma {:induction false} PlainFixedPoint(message: string)
    requires '&' !in message && '<' !in message && '>' !in message
    ensures EscapeHtmlTags(message) == message
  {
    var parts := Parts(message);
    PartsConcat(message);
    forall i | 0 <= i < |parts|
      ensures Assemble(parts)[i] == parts[i]
    {
      if i % 2 == 0 {
        forall c | c == '&' || c == '<' || c == '>'
          ensures c !in parts[i]
        {
          if c in parts[i] {
            PartOfConcat(parts, i, c);
          }
        }
        EscapeTextPerChar(parts[i]);
        EscapeKeepsPlain(parts[i]);
      }
    }
    assert Assemble(parts) == parts;
  }
}
