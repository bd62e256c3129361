/**
 * `remove_masked_elements` of the utilities module: every element whose class
 * attribute holds the word "mask" is cut out of the text, with its content,
 * by a DOTALL regular expression substitution:
 *
 *   <([a-zA-Z0-9]+)([^>]*)\bclass\s*=\s*['"]([^"']*\bmask\b[^"']*)['"]([^>]*)>(.*?)</\1>
 *
 * The emulation follows the engine's backtracking order. The tag name
 * (group 1) is tried from the longest run of letters and digits down to one
 * character, and for each, the attribute text before `class` (group 2) from
 * the longest run without '>' down to nothing. For a given pair the rest is
 * determined: `\s*` before and after '=' can only be followed by '=' and by a
 * quote when it is greedy, the class value (group 3) runs to the next quote
 * of either kind and must hold "mask" between word boundaries, group 4 runs
 * to the next '>', and the lazy content ends at the first `</name>`.
 */
module MaskedElements {
  import opened Strings
  import opened Wrappers
  import Seqs

  predicate IsAlnum(c: char)
  {
    IsAlpha(c) || IsDigit(c)
  }

  predicate IsQuote(c: char)
  {
    c == '"' || c == '\''
  }

  /** The number of letters and digits from `i` on. */
  function AlnumRun(s: string, i: nat): (n: nat)
    requires i <= |s|
    ensures i + n <= |s|
    decreases |s| - i
  {
    if i < |s| && IsAlnum(s[i]) then 1 + AlnumRun(s, i + 1) else 0
  }

  /** The first index at or after `i` holding '>', or |s|: where `[^>]*` stops. */
  function NextGt(s: string, i: nat): (e: nat)
    requires i <= |s|
    ensures i <= e <= |s|
    ensures e < |s| ==> s[e] == '>'
    decreases |s| - i
  {
    if i == |s| || s[i] == '>' then i else NextGt(s, i + 1)
  }

  /** The first index at or after `i` holding a quote, or |s|: where `[^"']*` stops. */
  function NextQuote(s: string, i: nat): (e: nat)
    requires i <= |s|
    ensures i <= e <= |s|
    ensures e < |s| ==> IsQuote(s[e])
    decreases |s| - i
  {
    if i == |s| || IsQuote(s[i]) then i else NextQuote(s, i + 1)
  }

  /** `\bmask\b` at position `j`. */
  predicate MaskWordAt(s: string, j: nat)
  {
    j + 4 <= |s| && OccursAt(s, "mask", j) && WordBoundary(s, j) && WordBoundary(s, j + 4)
  }

  /** `\bmask\b` somewhere in `s[i..e]`. */
  predicate MaskWordIn(s: string, i: nat, e: nat)
  {
    exists j :: i <= j && j + 4 <= e && MaskWordAt(s, j)
  }

  /** The end of the match when group 1 is `s[p+1..n]` and the class attribute starts at `c`. */
  function TryAt(s: string, p: nat, n: nat, c: nat): (r: Option<nat>)
    requires p < n <= c <= |s|
    ensures r.Some? ==> c < r.value <= |s|
    ensures r.Some? ==> exists j :: c <= j && j + 4 <= |s| && MaskWordAt(s, j)
  {
    if !(WordBoundary(s, c) && OccursAt(s, "class", c)) then None
    else
      var k := c + 5 + SpaceRun(s, c + 5);
      if k == |s| || s[k] != '=' then None
      else
        var q := k + 1 + SpaceRun(s, k + 1);
        if q == |s| || !IsQuote(s[q]) then None
        else
          var v := NextQuote(s, q + 1);
          if v == |s| || !MaskWordIn(s, q + 1, v) then None
          else
            var g := NextGt(s, v + 1);
            if g == |s| then None
            else
              var close := "</" + s[p + 1..n] + ">";
              var e := Find(s, close, g + 1);
              if e == -1 then None else Some(e + |close|)
  }

  /** Group 2 ends at `c` or earlier, tried from `c` down to `n`. */
  function TryClass(s: string, p: nat, n: nat, c: nat): (r: Option<nat>)
    requires p < n <= c <= |s|
    ensures r.Some? ==> n < r.value <= |s|
    ensures r.Some? ==> exists j :: n <= j && j + 4 <= |s| && MaskWordAt(s, j)
    decreases c - n
  {
    match TryAt(s, p, n, c)
    case Some(e) => Some(e)
    case None => if c == n then None else TryClass(s, p, n, c - 1)
  }

  /** Group 1 ends at `n` or earlier, tried from `n` down to `p + 2`. */
  function TryName(s: string, p: nat, n: nat): (r: Option<nat>)
    requires p + 2 <= n <= |s|
    ensures r.Some? ==> p < r.value <= |s|
    ensures r.Some? ==> exists j :: p <= j && j + 4 <= |s| && MaskWordAt(s, j)
    decreases n
  {
    match TryClass(s, p, n, NextGt(s, n))
    case Some(e) => Some(e)
    case None => if n == p + 2 then None else TryName(s, p, n - 1)
  }

  /** The end of the match that starts at `p`, if the pattern matches there. */
  function MatchAt(s: string, p: nat): (r: Option<nat>)
    requires p <= |s|
    ensures r.Some? ==> p < r.value <= |s|
    ensures r.Some? ==> p < |s| && s[p] == '<'
    ensures r.Some? ==> exists j :: p <= j && j + 4 <= |s| && MaskWordAt(s, j)
  {
    if p < |s| && s[p] == '<' && AlnumRun(s, p + 1) > 0 then TryName(s, p, p + 1 + AlnumRun(s, p + 1))
    else None
  }

  /** The match end at every position. */
  function Ends(s: string): (t: seq<Option<nat>>)
    ensures |t| == |s| + 1
    ensures forall j :: 0 <= j <= |s| ==> t[j] == MatchAt(s, j)
  {
    seq(|s| + 1, j requires 0 <= j <= |s| => MatchAt(s, j))
  }

  predicate EndsOk(s: string, t: seq<Option<nat>>)
  {
    |t| == |s| + 1 && forall j :: 0 <= j < |t| && t[j].Some? ==> j < t[j].value <= |s|
  }

  /** `re.sub(pattern, '', s)` from `i`: the matches removed from left to right. */
  function RemoveFrom(s: string, t: seq<Option<nat>>, i: nat): (r: string)
    requires EndsOk(s, t) && i <= |s|
    ensures |r| <= |s| - i
    decreases |s| - i
  {
    if i == |s| then []
    else
      match t[i]
      case Some(e) => RemoveFrom(s, t, e)
      case None => [s[i]] + RemoveFrom(s, t, i + 1)
  }

  function RemoveMaskedElements(content: string): (r: string)
    ensures |r| <= |content|
  {
    RemoveFrom(content, Ends(content), 0)
  }

  // ---------------------------------------------------------------------------
  // Properties

  /** The characters `re.sub` keeps: every one it writes comes from the text, in order. */
  lemma {:induction false} RemoveKeepsSubsequence(s: string, t: seq<Option<nat>>, i: nat, k: nat)
    requires EndsOk(s, t) && i <= |s|
    requires k < |RemoveFrom(s, t, i)|
    ensures exists j :: i <= j < |s| && RemoveFrom(s, t, i)[k] == s[j] && t[j].None?
    decreases |s| - i
  {
    match t[i]
    case Some(e) =>
      RemoveKeepsSubsequence(s, t, e, k);
    case None =>
      if k > 0 {
        RemoveKeepsSubsequence(s, t, i + 1, k - 1);
      }
  }

  /** Where no match starts from `i` on, the text is kept as it is. */
  lemma {:induction false} RemoveNothing(s: string, t: seq<Option<nat>>, i: nat)
    requires EndsOk(s, t) && i <= |s|
    requires forall j :: i <= j <= |s| ==> t[j].None?
    ensures RemoveFrom(s, t, i) == s[i..]
    decreases |s| - i
  {
    if i < |s| {
      RemoveNothing(s, t, i + 1);
      Seqs.SplitHead(s, i);
    }
  }

  /** A text in which the word "mask" does not occur is returned unchanged. */
  lemma {:induction false} WithoutMaskUnchanged(content: string)
    requires forall j :: 0 <= j <= |content| ==> !MaskWordAt(content, j)
    ensures RemoveMaskedElements(content) == content
  {
    var t := Ends(content);
    assert forall j :: 0 <= j <= |content| ==> t[j].None?;
    RemoveNothing(content, t, 0);
  }

  /** A text without '<' is returned unchanged. */
  lemma {:induction false} WithoutTagUnchanged(content: string)
    requires forall j :: 0 <= j < |content| ==> content[j] != '<'
    ensures RemoveMaskedElements(content) == content
  {
    var t := Ends(content);
    assert forall j :: 0 <= j <= |content| ==> t[j].None?;
    RemoveNothing(content, t, 0);
  }

  /** Every character of the result is a character of the text at which no masked element starts. */
  lemma {:induction false} KeptCharactersFromText(content: string, k: nat)
    requires k < |RemoveMaskedElements(content)|
    ensures exists j :: (0 <= j < |content| && RemoveMaskedElements(content)[k] == content[j]
      && MatchAt(content, j).None?)
  {
    RemoveKeepsSubsequence(content, Ends(content), 0, k);
  }
}
