/**
 * `extract_workspace` of the utilities module: a reply may carry workspace
 * content, either in an explicit `<workspace language="...">` block or, failing
 * that, in a ``` code block.
 *
 * Both regular expressions run under DOTALL and MULTILINE and are emulated
 * here character by character:
 *
 *   ^<workspace(?: language="(.+?)")?>(.*?)^</workspace>
 *   ^```(?:([a-z]+))?\n(.*?)^```
 *
 * `^` holds at the start of the text and after every '\n'. In the first
 * pattern the lazy language group ends at the first `">` after at least one
 * character: a later end only moves the start of the content to the right,
 * so where the shortest choice finds no closing tag no longer one does
 * either. The content ends at the first closing tag at the start of a line.
 * In the second pattern the greedy `[a-z]+` must be followed by '\n', so it
 * is the whole run of lower-case letters after the backquotes.
 */
module ExtractWorkspace {
  import opened Strings
  import opened Wrappers
  import Seqs

  const OpenTag := "<workspace"
  const LanguageAttr := " language=\""
  const CloseTag := "</workspace>"
  const Fence := "```"
  const Placeholder := "I added content to the workspace!"
  const DefaultLanguage := "markdown"

  /** `^` under MULTILINE. */
  predicate LineStart(s: string, i: nat)
    requires i <= |s|
  {
    i == 0 || s[i - 1] == '\n'
  }

  /** `tag` starts a line at `e`. */
  predicate CloseAt(s: string, tag: string, e: nat)
  {
    e <= |s| && LineStart(s, e) && OccursAt(s, tag, e)
  }

  /** The first position at or after `from` where `tag` starts a line: how `(.*?)^tag` ends. */
  function FirstClose(s: string, tag: string, from: nat): (r: Option<nat>)
    ensures r.Some? ==> from <= r.value && CloseAt(s, tag, r.value)
    ensures r.Some? ==> forall j :: from <= j < r.value ==> !CloseAt(s, tag, j)
    ensures r.None? ==> forall j :: from <= j ==> !CloseAt(s, tag, j)
    decreases |s| - from
  {
    if from + |tag| > |s| then None
    else if CloseAt(s, tag, from) then Some(from)
    else FirstClose(s, tag, from + 1)
  }

  /** Positions of one match: an optional language group, the content group and the end. */
  datatype Found = Found(language: Option<(nat, nat)>, contentStart: nat, contentEnd: nat, end: nat)
  {
    predicate Within(s: string)
    {
      (language.Some? ==> language.value.0 < language.value.1 <= contentStart)
      && contentStart <= contentEnd < end <= |s|
    }
  }

  /** The workspace pattern matched at position `p`. */
  function WorkspaceAt(s: string, p: nat): (r: Option<Found>)
    requires p <= |s|
    ensures r.Some? ==> r.value.Within(s) && p < r.value.end
    ensures r.Some? ==> LineStart(s, p) && OccursAt(s, OpenTag, p)
    ensures r.Some? ==> CloseAt(s, CloseTag, r.value.contentEnd)
    ensures r.Some? ==> r.value.end == r.value.contentEnd + |CloseTag|
  {
    if !LineStart(s, p) || !OccursAt(s, OpenTag, p) then None
    else
      var a := p + |OpenTag|;
      if OccursAt(s, LanguageAttr, a) then
        var q := Find(s, "\">", a + |LanguageAttr| + 1);
        if q == -1 then None
        else
          match FirstClose(s, CloseTag, q + 2)
          case None => None
          case Some(e) => Some(Found(Some((a + |LanguageAttr|, q)), q + 2, e, e + |CloseTag|))
      else if a < |s| && s[a] == '>' then
        match FirstClose(s, CloseTag, a + 1)
        case None => None
        case Some(e) => Some(Found(None, a + 1, e, e + |CloseTag|))
      else None
  }

  /** The number of lower-case ASCII letters from `i` on. */
  function LowerRun(s: string, i: nat): (n: nat)
    requires i <= |s|
    ensures i + n <= |s|
    ensures forall j :: i <= j < i + n ==> 'a' <= s[j] <= 'z'
    ensures i + n < |s| ==> !('a' <= s[i + n] <= 'z')
    decreases |s| - i
  {
    if i < |s| && 'a' <= s[i] <= 'z' then 1 + LowerRun(s, i + 1) else 0
  }

  /** The code-block pattern matched at position `p`. */
  function CodeBlockAt(s: string, p: nat): (r: Option<Found>)
    requires p <= |s|
    ensures r.Some? ==> r.value.Within(s) && p < r.value.end
    ensures r.Some? ==> LineStart(s, p) && OccursAt(s, Fence, p)
    ensures r.Some? ==> CloseAt(s, Fence, r.value.contentEnd)
  {
    if !LineStart(s, p) || !OccursAt(s, Fence, p) then None
    else
      var a := p + 3;
      var b := a + LowerRun(s, a);
      if b < |s| && s[b] == '\n' then
        match FirstClose(s, Fence, b + 1)
        case None => None
        case Some(e) => Some(Found(if b > a then Some((a, b)) else None, b + 1, e, e + 3))
      else None
  }

  datatype Pattern = Workspace | CodeBlock

  function MatchAt(pat: Pattern, s: string, p: nat): (r: Option<Found>)
    requires p <= |s|
    ensures r.Some? ==> r.value.Within(s) && p < r.value.end
  {
    match pat
    case Workspace => WorkspaceAt(s, p)
    case CodeBlock => CodeBlockAt(s, p)
  }

  /**
   * The outcome of the pattern at every position of `s`. The search and the
   * substitution below range over this table.
   */
  function Table(pat: Pattern, s: string): (t: seq<Option<Found>>)
    ensures |t| == |s| + 1
    ensures forall j :: 0 <= j <= |s| ==> t[j] == MatchAt(pat, s, j)
  {
    seq(|s| + 1, j requires 0 <= j <= |s| => MatchAt(pat, s, j))
  }

  /** Every entry of `t` is a match inside `s` that ends after the position it starts at. */
  predicate TableOk(s: string, t: seq<Option<Found>>)
  {
    |t| == |s| + 1 && forall j :: 0 <= j < |t| && t[j].Some? ==> t[j].value.Within(s) && j < t[j].value.end
  }

  lemma {:induction false} TableIsOk(pat: Pattern, s: string)
    ensures TableOk(s, Table(pat, s))
  {
  }

  /** `re.search` from position `i`: the leftmost match at or after `i`. */
  function SearchFrom(t: seq<Option<Found>>, i: nat): (r: Option<Found>)
    requires i < |t|
    ensures r.Some? ==> r in t
    decreases |t| - i
  {
    if t[i].Some? then t[i]
    else if i == |t| - 1 then None
    else SearchFrom(t, i + 1)
  }

  /** `re.sub(pattern, "", s)` from position `i`: every match removed, left to right. */
  function RemoveFrom(s: string, t: seq<Option<Found>>, i: nat): (r: string)
    requires TableOk(s, t) && i <= |s|
    ensures |r| <= |s| - i
    decreases |s| - i
  {
    if i == |s| then []
    else
      match t[i]
      case Some(m) => RemoveFrom(s, t, m.end)
      case None => [s[i]] + RemoveFrom(s, t, i + 1)
  }

  function Search(pat: Pattern, s: string): (r: Option<Found>)
    ensures r.Some? ==> r.value.Within(s)
  {
    TableIsOk(pat, s);
    SearchFrom(Table(pat, s), 0)
  }

  function Remove(pat: Pattern, s: string): (r: string)
    ensures |r| <= |s|
  {
    TableIsOk(pat, s);
    RemoveFrom(s, Table(pat, s), 0)
  }

  /** The text of a group. */
  function Group(s: string, g: (nat, nat)): string
    requires g.0 <= g.1 <= |s|
  {
    s[g.0..g.1]
  }

  function LanguageOf(s: string, m: Found): string
    requires m.Within(s)
  {
    if m.language.Some? then Group(s, m.language.value) else DefaultLanguage
  }

  /** The result: the text, and the workspace content with its language when there is one. */
  datatype Extracted = Extracted(text: string, content: Option<string>, language: Option<string>)

  /**
   * `extract_workspace`: the text changes only when a workspace block is
   * found, and a content always comes with its language.
   */
  function Extract(txt: string): (r: Extracted)
    ensures r.content.Some? <==> r.language.Some?
    ensures Search(Workspace, txt).None? ==> r.text == txt
    ensures Search(Workspace, txt).Some? ==> r.content.Some? && r.text != []
  {
    match Search(Workspace, txt)
    case Some(m) =>
      var rest := Strip(Remove(Workspace, txt));
      Extracted(if rest == [] then Placeholder else rest,
                Some(Strip(txt[m.contentStart..m.contentEnd])), Some(LanguageOf(txt, m)))
    case None =>
      match Search(CodeBlock, txt)
      case Some(m) =>
        var content := Strip(txt[m.contentStart..m.contentEnd]);
        if |SplitLines(content)| > 2 then Extracted(txt, Some(content), Some(LanguageOf(txt, m)))
        else Extracted(txt, None, None)
      case None => Extracted(txt, None, None)
  }

  // ---------------------------------------------------------------------------
  // Properties

  /** `re.search` finds the leftmost match: there is none before it. */
  lemma {:induction false} SearchFromLeftmost(t: seq<Option<Found>>, i: nat)
    requires i < |t|
    ensures SearchFrom(t, i).None? <==> forall j :: i <= j < |t| ==> t[j].None?
    ensures SearchFrom(t, i).Some? ==>
      exists j :: i <= j < |t| && t[j] == SearchFrom(t, i) && forall k :: i <= k < j ==> t[k].None?
    decreases |t| - i
  {
    if t[i].None? && i < |t| - 1 {
      SearchFromLeftmost(t, i + 1);
      if SearchFrom(t, i).Some? {
        var j :| i + 1 <= j < |t| && t[j] == SearchFrom(t, i + 1) && forall k :: i + 1 <= k < j ==> t[k].None?;
        assert forall k :: i <= k < j ==> t[k].None?;
      }
    }
  }

  /** `re.search` returns the match at the leftmost position where the pattern matches. */
  lemma {:induction false} SearchLeftmost(pat: Pattern, s: string)
    ensures Search(pat, s).None? <==> forall j :: 0 <= j <= |s| ==> MatchAt(pat, s, j).None?
    ensures Search(pat, s).Some? ==>
      exists j :: 0 <= j <= |s| && MatchAt(pat, s, j) == Search(pat, s)
        && forall k :: 0 <= k < j ==> MatchAt(pat, s, k).None?
  {
    SearchFromLeftmost(Table(pat, s), 0);
  }

  /** Where no match starts, `re.sub` changes nothing. */
  lemma {:induction false} RemoveNothing(s: string, t: seq<Option<Found>>, i: nat)
    requires TableOk(s, t) && i <= |s|
    requires forall j :: i <= j <= |s| ==> t[j].None?
    ensures RemoveFrom(s, t, i) == s[i..]
    decreases |s| - i
  {
    if i < |s| {
      RemoveNothing(s, t, i + 1);
      Seqs.SplitHead(s, i);
    }
  }

  /** Where some match starts, `re.sub` makes the text strictly shorter. */
  lemma {:induction false} RemoveShortens(s: string, t: seq<Option<Found>>, i: nat, j: nat)
    requires TableOk(s, t) && i <= j <= |s|
    requires t[j].Some?
    ensures |RemoveFrom(s, t, i)| < |s| - i
    decreases |s| - i
  {
    if i == j {
      var m := t[i].value;
      assert |RemoveFrom(s, t, m.end)| <= |s| - m.end;
    } else {
      match t[i]
      case Some(m) =>
        assert |RemoveFrom(s, t, m.end)| <= |s| - m.end;
      case None =>
        RemoveShortens(s, t, i + 1, j);
    }
  }

  /** A text changes under `re.sub` exactly when the pattern matches somewhere in it. */
  lemma {:induction false} RemoveChangesIffMatch(pat: Pattern, s: string)
    ensures Remove(pat, s) == s <==> Search(pat, s).None?
    ensures Search(pat, s).Some? ==> |Remove(pat, s)| < |s|
  {
    var t := Table(pat, s);
    TableIsOk(pat, s);
    SearchFromLeftmost(t, 0);
    if Search(pat, s).None? {
      RemoveNothing(s, t, 0);
    } else {
      var j :| 0 <= j < |t| && t[j] == SearchFrom(t, 0);
      RemoveShortens(s, t, 0, j);
    }
  }

  /**
   * A workspace block is taken out of the text: the content is the stripped
   * text between the tags, the language the group or 'markdown', and the
   * text what is left once every block is removed and the rest stripped, or
   * the placeholder when nothing is left. The text is shorter than before.
   */
  lemma {:induction false} WorkspaceExtracted(txt: string)
    requires Search(Workspace, txt).Some?
    ensures Extract(txt).content == Some(Strip(txt[Search(Workspace, txt).value.contentStart..Search(Workspace, txt).value.contentEnd]))
    ensures var m := Search(Workspace, txt).value;
      Extract(txt).language == Some(if m.language.Some? then txt[m.language.value.0..m.language.value.1] else "markdown")
    ensures Extract(txt).text != []
    ensures Strip(Remove(Workspace, txt)) == [] ==> Extract(txt).text == Placeholder
    ensures Strip(Remove(Workspace, txt)) != [] ==> Extract(txt).text == Strip(Remove(Workspace, txt))
    ensures |Remove(Workspace, txt)| < |txt|
  {
    RemoveChangesIffMatch(Workspace, txt);
    var m := Search(Workspace, txt).value;
    var rest := Strip(Remove(Workspace, txt));
    assert Extract(txt) == Extracted(if rest == [] then Placeholder else rest,
      Some(Strip(txt[m.contentStart..m.contentEnd])), Some(LanguageOf(txt, m)));
  }

  /** Without a workspace block the text is always returned unchanged. */
  lemma {:induction false} NoWorkspaceTextUnchanged(txt: string)
    requires Search(Workspace, txt).None?
    ensures Extract(txt).text == txt
    ensures Extract(txt).content.Some? <==> Extract(txt).language.Some?
    ensures Extract(txt).content.Some? ==> |SplitLines(Extract(txt).content.value)| > 2
  {
  }

  /** Only a text without a workspace block can come back as an empty text: it is then the empty input. */
  lemma {:induction false} EmptyTextOnlyFromEmptyInput(txt: string)
    ensures Extract(txt).text == [] ==> txt == []
  {
  }

  /** A text in which "<workspace" does not occur is returned unchanged, and the search finds no block. */
  lemma {:induction false} WithoutTagNoWorkspace(txt: string)
    requires forall j :: 0 <= j <= |txt| ==> !OccursAt(txt, OpenTag, j)
    ensures Search(Workspace, txt).None?
    ensures Remove(Workspace, txt) == txt
    ensures Extract(txt).text == txt
  {
    SearchLeftmost(Workspace, txt);
    RemoveChangesIffMatch(Workspace, txt);
  }

  /** The content of a match holds no closing tag at the start of a line: the lazy group stops at the first. */
  lemma {:induction false} ContentStopsAtFirstClose(pat: Pattern, s: string, p: nat)
    requires p <= |s|
    requires MatchAt(pat, s, p).Some?
    ensures var m := MatchAt(pat, s, p).value;
      var tag := if pat == Workspace then CloseTag else Fence;
      CloseAt(s, tag, m.contentEnd)
      && forall j :: m.contentStart <= j < m.contentEnd ==> !CloseAt(s, tag, j)
  {
  }
}
