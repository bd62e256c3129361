/**
 * `process_ai_message` of the utilities module (the older of the two reply
 * post-processors): a colon that ends a line before a list gets a blank line
 * after it, a reply that does not start with a letter gets two newlines in
 * front, and fenced code blocks are shifted left.
 *
 * The colon rewrite is the substitution of ':\n\n' for every match of
 *
 *   :\s*(&lt;[^&gt;]+&gt;\s*)?\n(?=-|\d+\.)
 *
 * emulated in the engine's backtracking order. The greedy `\s*` after the
 * colon ends before a non-space character, so the optional group can only
 * start where the whitespace run ends; it is tried first. Its `[^&gt;]+` is a
 * character class (none of '&', 'g', 't', ';'), so it must run to the first
 * such character, which must begin "&gt;". Then the newline is the last one
 * in the whitespace run that is followed by a list marker; in the path
 * without the group it is the last such newline in the run after the colon.
 * The list marker is looked at, not consumed.
 */
module AiMessage {
  import opened Strings
  import opened Wrappers
  import Seqs
  import CodeFences
  import ReplyPipeline

  /** The number of digits from `i` on. */
  function DigitRun(s: string, i: nat): (n: nat)
    requires i <= |s|
    ensures i + n <= |s|
    decreases |s| - i
  {
    if i < |s| && IsDigit(s[i]) then 1 + DigitRun(s, i + 1) else 0
  }

  /** The look-ahead `(?=-|\d+\.)` at position `i`. */
  predicate ListAhead(s: string, i: nat)
    requires i <= |s|
  {
    (i < |s| && s[i] == '-')
    || (var d := DigitRun(s, i); d > 0 && i + d < |s| && s[i + d] == '.')
  }

  /** A '\n' at `k`, with the look-ahead holding after it. */
  predicate BreakBeforeList(s: string, k: nat)
  {
    k < |s| && s[k] == '\n' && ListAhead(s, k + 1)
  }

  /** The last `k` in `lo..hi-1` with `BreakBeforeList`: where a greedy `\s*\n` backtracks to. */
  function LastBreak(s: string, lo: nat, hi: nat): (r: Option<nat>)
    requires lo <= hi <= |s|
    ensures r.Some? ==> lo <= r.value < hi && BreakBeforeList(s, r.value)
    ensures r.Some? ==> forall k :: r.value < k < hi ==> !BreakBeforeList(s, k)
    ensures r.None? ==> forall k :: lo <= k < hi ==> !BreakBeforeList(s, k)
    decreases hi - lo
  {
    if lo == hi then None
    else if BreakBeforeList(s, hi - 1) then Some(hi - 1)
    else LastBreak(s, lo, hi - 1)
  }

  /** A character `[^&gt;]` accepts. */
  predicate NotEntityChar(c: char)
  {
    c != '&' && c != 'g' && c != 't' && c != ';'
  }

  /** The number of `NotEntityChar` characters from `i` on. */
  function NotEntityRun(s: string, i: nat): (n: nat)
    requires i <= |s|
    ensures i + n <= |s|
    decreases |s| - i
  {
    if i < |s| && NotEntityChar(s[i]) then 1 + NotEntityRun(s, i + 1) else 0
  }

  /** Where the group `&lt;[^&gt;]+&gt;` ends when it starts at `g`. */
  function EscapedTagEnd(s: string, g: nat): (r: Option<nat>)
    requires g <= |s|
    ensures r.Some? ==> g < r.value <= |s|
  {
    if !OccursAt(s, "&lt;", g) then None
    else
      var m := NotEntityRun(s, g + 4);
      if m > 0 && OccursAt(s, "&gt;", g + 4 + m) then Some(g + 4 + m + 4) else None
  }

  /** The newline the match at `p` ends with, as the engine backtracks to it. */
  function MatchBreak(s: string, p: nat): (r: Option<nat>)
    requires p < |s|
    ensures r.Some? ==> p < r.value && BreakBeforeList(s, r.value)
  {
    var g := p + 1 + SpaceRun(s, p + 1);
    var withTag :=
      match EscapedTagEnd(s, g)
      case None => None
      case Some(h) => LastBreak(s, h, h + SpaceRun(s, h));
    if withTag.Some? then withTag else LastBreak(s, p + 1, g)
  }

  /** The end of the match at `p`, just after the newline. */
  function ColonMatchAt(s: string, p: nat): (r: Option<nat>)
    requires p <= |s|
    ensures r.Some? ==> p + 1 < r.value <= |s|
    ensures r.Some? ==> s[p] == ':' && BreakBeforeList(s, r.value - 1)
  {
    if p == |s| || s[p] != ':' then None
    else
      match MatchBreak(s, p)
      case None => None
      case Some(k) => Some(k + 1)
  }

  /** The match end at every position. */
  function Ends(s: string): (t: seq<Option<nat>>)
    ensures |t| == |s| + 1
    ensures forall j :: 0 <= j <= |s| ==> t[j] == ColonMatchAt(s, j)
  {
    seq(|s| + 1, j requires 0 <= j <= |s| => ColonMatchAt(s, j))
  }

  predicate EndsOk(s: string, t: seq<Option<nat>>)
  {
    |t| == |s| + 1 && forall j :: 0 <= j < |t| && t[j].Some? ==> j < t[j].value <= |s|
  }

  /** `re.sub(pattern, ':\n\n', s)` from `i`. */
  function SubFrom(s: string, t: seq<Option<nat>>, i: nat): string
    requires EndsOk(s, t) && i <= |s|
    decreases |s| - i
  {
    if i == |s| then []
    else
      match t[i]
      case Some(e) => ":\n\n" + SubFrom(s, t, e)
      case None => [s[i]] + SubFrom(s, t, i + 1)
  }

  /** The colon rewrite: a reply without a colon is not changed. */
  function BlankLineBeforeLists(msg: string): (r: string)
    ensures (forall j :: 0 <= j < |msg| ==> msg[j] != ':') ==> r == msg
  {
    assert (forall j :: 0 <= j < |msg| ==> msg[j] != ':') ==> SubFrom(msg, Ends(msg), 0) == msg by {
      if forall j :: 0 <= j < |msg| ==> msg[j] != ':' {
        var t := Ends(msg);
        assert forall j :: 0 <= j <= |msg| ==> t[j].None?;
        SubNothing(msg, t, 0);
      }
    }
    SubFrom(msg, Ends(msg), 0)
  }

  /**
   * The whole function. Its code-block step is the second `dedent_code_blocks`
   * with the prefix test for the indentation (see `CodeFences`). A reply that
   * starts with a letter and holds no colon and no fence line comes back
   * unchanged.
   */
  function ProcessAiMessage(msg: string): (r: string)
    ensures msg != [] && IsAlpha(msg[0]) && (forall j :: 0 <= j < |msg| ==> msg[j] != ':')
      && (forall j :: 0 <= j < |SplitLinesKeep(msg)| ==> !CodeFences.FenceAt(SplitLinesKeep(msg)[j]))
      ==> r == msg
  {
    var m1 := BlankLineBeforeLists(msg);
    var m2 := ReplyPipeline.LeadWithBlankLine(m1);
    assert (forall j :: 0 <= j < |SplitLinesKeep(msg)| ==> !CodeFences.FenceAt(SplitLinesKeep(msg)[j]))
      ==> CodeFences.Dedent(msg, CodeFences.Strict, CodeFences.PrefixTest) == msg by {
      if forall j :: 0 <= j < |SplitLinesKeep(msg)| ==> !CodeFences.FenceAt(SplitLinesKeep(msg)[j]) {
        CodeFences.NoFenceNoChange(msg, CodeFences.Strict, CodeFences.PrefixTest);
      }
    }
    CodeFences.Dedent(m2, CodeFences.Strict, CodeFences.PrefixTest)
  }

  // ---------------------------------------------------------------------------
  // Properties

  /** Where no match starts from `i` on, the text is kept. */
  lemma {:induction false} SubNothing(s: string, t: seq<Option<nat>>, i: nat)
    requires EndsOk(s, t) && i <= |s|
    requires forall j :: i <= j <= |s| ==> t[j].None?
    ensures SubFrom(s, t, i) == s[i..]
    decreases |s| - i
  {
    if i < |s| {
      SubNothing(s, t, i + 1);
      Seqs.SplitHead(s, i);
    }
  }

  /** A colon directly followed by a newline and a list marker matches, up to the newline. */
  lemma {:induction false} ColonNewlineList(s: string, p: nat)
    requires p + 2 <= |s|
    requires s[p] == ':' && s[p + 1] == '\n' && ListAhead(s, p + 2)
    ensures ColonMatchAt(s, p) == Some(p + 2)
  {
    assert s[p + 2] == '-' || IsDigit(s[p + 2]);
    assert SpaceRun(s, p + 2) == 0;
    assert SpaceRun(s, p + 1) == 1;
    assert s[p + 2] != '&';
    assert EscapedTagEnd(s, p + 2).None?;
    assert BreakBeforeList(s, p + 1);
    assert LastBreak(s, p + 1, p + 2) == Some(p + 1);
    assert MatchBreak(s, p) == Some(p + 1);
  }

  /** Such a colon line gets its blank line: the text from it on becomes ":\n\n" and the rest. */
  lemma {:induction false} ColonLineGetsBlankLine(s: string, p: nat)
    requires p + 2 <= |s|
    requires s[p] == ':' && s[p + 1] == '\n' && ListAhead(s, p + 2)
    ensures SubFrom(s, Ends(s), p) == ":\n\n" + SubFrom(s, Ends(s), p + 2)
  {
    ColonNewlineList(s, p);
  }

  /**
   * Every match ends with a newline that stands before a list marker, so the
   * substitution leaves the list marker where it was: the marker is the next
   * character the scan copies.
   */
  lemma {:induction false} MatchKeepsListMarker(s: string, p: nat)
    requires p <= |s|
    requires ColonMatchAt(s, p).Some?
    ensures var e := ColonMatchAt(s, p).value;
      e < |s| && (s[e] == '-' || IsDigit(s[e]))
  {
    var e := ColonMatchAt(s, p).value;
    assert BreakBeforeList(s, e - 1);
    if DigitRun(s, e) > 0 {
      assert IsDigit(s[e]);
    }
  }

  /** A colon whose line does not end before a list is never rewritten. */
  lemma {:induction false} NoListNoMatch(s: string, p: nat)
    requires p <= |s|
    requires forall k :: p < k < |s| ==> !BreakBeforeList(s, k)
    ensures ColonMatchAt(s, p).None?
  {
  }
}
