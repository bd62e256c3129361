/**
 * `process_ai_message` and `process_workspace_content` of the reply
 * post-processor: the rewrites applied one after another to a model reply.
 *
 * The code-fence step uses the evidently intended prefix test for the
 * indentation (see `CodeFences`). No step of the model can fail, so the
 * `try`/`except` around the steps, which returns the partly processed
 * message on an exception, has no effect here.
 */
module ReplyPipeline {
  import opened Strings
  import opened Wrappers
  import ThinkingBlock
  import MarkdownRewrites
  import ColonIndent
  import CodeFences
  import Headings
  import EscapeHtml

  /** The reply after the first step: the thinking block removed. */
  function WithoutThinking(msg: string): string
  {
    ThinkingBlock.Extract(msg).text
  }

  /** A message that does not start with a letter gets two newlines in front. */
  function LeadWithBlankLine(msg: string): (r: string)
    ensures msg == [] || IsAlpha(msg[0]) ==> r == msg
    ensures msg != [] && !IsAlpha(msg[0]) ==> r == "\n\n" + msg && r[2..] == msg
  {
    if msg != [] && !IsAlpha(msg[0]) then "\n\n" + msg else msg
  }

  /** The whole pipeline, step by step in the order of the source. */
  function Reply(msg: string): string
  {
    var m1 := WithoutThinking(msg);
    var m2 := MarkdownRewrites.NormalizeBulletPoints(m1);
    var m3 := MarkdownRewrites.ReplaceRoundBracketWithDot(m2);
    var m4 := ColonIndent.FixIndentation(m3);
    var m5 := MarkdownRewrites.AddBlankLineAfterColonHeaders(m4);
    var m6 := LeadWithBlankLine(m5);
    var m7 := CodeFences.Dedent(m6, CodeFences.Lenient, CodeFences.PrefixTest);
    var m8 := Headings.FixHeadings(m7);
    var m9 := MarkdownRewrites.FixListFormatting(m8);
    EscapeHtml.EscapeHtmlTags(m9)
  }

  /** `process_ai_message`, with the loop-based steps run as methods. */
  method ProcessAiMessage(msg: string) returns (r: string)
    ensures r == Reply(msg)
  {
    var m := WithoutThinking(msg);
    m := MarkdownRewrites.NormalizeBulletPoints(m);
    m := MarkdownRewrites.ReplaceRoundBracketWithDot(m);
    m := ColonIndent.FixIndentationAfterColon(m);
    m := MarkdownRewrites.AddBlankLineAfterColonHeaders(m);
    m := LeadWithBlankLine(m);
    m := CodeFences.DedentCodeBlocks(m, CodeFences.Lenient, CodeFences.PrefixTest);
    m := Headings.FixMarkdownHeadings(m);
    m := MarkdownRewrites.FixListFormatting(m);
    r := EscapeHtml.EscapeHtmlTags(m);
  }

  /** `process_workspace_content`: absent or empty content is returned as it is, other content is escaped. */
  function ProcessWorkspaceContent(msg: Option<string>): (r: Option<string>)
    ensures msg.None? <==> r.None?
    ensures msg == Some([]) ==> r == msg
  {
    if msg.Some? && msg.value != [] then Some(EscapeHtml.EscapeHtmlTags(msg.value)) else msg
  }

  // ---------------------------------------------------------------------------
  // An ordinary one-line reply

  /**
   * One line of text that starts with a letter, does not end in whitespace and
   * holds no line boundary and none of the characters the steps react to
   * (`&`, `<`, `>`, backquote and tilde).
   */
  predicate PlainLine(m: string)
  {
    m != [] && IsAlpha(m[0]) && !IsSpace(m[|m| - 1])
    && forall j :: 0 <= j < |m| ==> !IsLineBoundary(m[j]) && m[j] !in "&<>`~"
  }

  lemma {:induction false} PlainLineFacts(m: string)
    requires PlainLine(m)
    ensures '\n' !in m && '&' !in m && '<' !in m && '>' !in m
    ensures forall j :: 0 <= j <= |m| ==> !OccursAt(m, "<div", j)
  {
    forall j | 0 <= j <= |m|
      ensures !OccursAt(m, "<div", j)
    {
      if j + 4 <= |m| {
        assert m[j..j + 4][0] == m[j];
        assert m[j] !in "&<>`~";
      }
    }
  }

  /** Every list re-indentation rule needs at least one leading space. */
  lemma {:induction false} ListRulesSpareLetterStart(rules: seq<MarkdownRewrites.Rule>, m: string)
    requires '\n' !in m && m != [] && IsAlpha(m[0])
    requires forall k :: 0 <= k < |rules| ==>
      (rules[k].DashIndent? || rules[k].OrdinalIndent?) && rules[k].spaces >= 1
    ensures MarkdownRewrites.SubAll(rules, m) == m
    decreases |rules|
  {
    if rules != [] {
      MarkdownRewrites.OnLine(rules[0], m);
      assert MarkdownRewrites.Run(m, 0, MarkdownRewrites.SpaceChar) == 0;
      ListRulesSpareLetterStart(rules[1..], m);
    }
  }

  lemma {:induction false} PlainLineKeptByThinking(m: string)
    requires PlainLine(m)
    ensures WithoutThinking(m) == m
  {
    PlainLineFacts(m);
    ThinkingBlock.NoDivUnchanged(m);
  }

  lemma {:induction false} PlainLineKeptByRewrites(m: string)
    requires PlainLine(m)
    ensures MarkdownRewrites.NormalizeBulletPoints(m) == m
    ensures MarkdownRewrites.ReplaceRoundBracketWithDot(m) == m
    ensures MarkdownRewrites.AddBlankLineAfterColonHeaders(m) == m
  {
    PlainLineFacts(m);
    assert LeadingSpace(m) == 0;
    MarkdownRewrites.NonBulletLine(m);
    MarkdownRewrites.OnLine(MarkdownRewrites.RoundBracket, m);
    assert MarkdownRewrites.Run(m, 0, MarkdownRewrites.Space) == 0;
    assert MarkdownRewrites.Run(m, 0, MarkdownRewrites.Digit) == 0;
    MarkdownRewrites.OnLine(MarkdownRewrites.BlankBeforeList, m);
  }

  lemma {:induction false} PlainLineKeptByColonIndent(m: string)
    requires PlainLine(m)
    ensures ColonIndent.FixIndentation(m) == m
  {
    PlainLineFacts(m);
    SplitNoSep(m, '\n');
    ColonIndent.LastLineNeverOpens([m], 0);
    ColonIndent.NoHeaderNoChange(m);
  }

  lemma {:induction false} PlainLineKeptByDedent(m: string)
    requires PlainLine(m)
    ensures CodeFences.Dedent(m, CodeFences.Lenient, CodeFences.PrefixTest) == m
  {
    SingleLine(m);
    assert LeadingBlank(m) == 0;
    assert m[0] !in "&<>`~";
    assert !CodeFences.FenceAt(m);
    CodeFences.NoFenceNoChange(m, CodeFences.Lenient, CodeFences.PrefixTest);
  }

  lemma {:induction false} PlainLineKeptByHeadings(m: string)
    requires PlainLine(m)
    ensures Headings.FixHeadings(m) == m
  {
    SingleLine(m);
    assert TrailingSpace(m) == 0;
    assert RStrip(m) == m;
    assert Headings.HeadingsFrom([m], 1) == [];
    assert Headings.Headings([m]) == [m];
  }

  lemma {:induction false} PlainLineKeptByListsAndEscape(m: string)
    requires PlainLine(m)
    ensures MarkdownRewrites.FixListFormatting(m) == m
    ensures EscapeHtml.EscapeHtmlTags(m) == m
  {
    PlainLineFacts(m);
    ListRulesSpareLetterStart(MarkdownRewrites.ListFormattingRules, m);
    EscapeHtml.PlainFixedPoint(m);
  }

  /** An ordinary one-line reply passes through every step unchanged. */
  lemma {:induction false} PlainLineUnchanged(m: string)
    requires PlainLine(m)
    ensures Reply(m) == m
  {
    PlainLineKeptByThinking(m);
    PlainLineKeptByRewrites(m);
    PlainLineKeptByColonIndent(m);
    PlainLineKeptByDedent(m);
    PlainLineKeptByHeadings(m);
    PlainLineKeptByListsAndEscape(m);
  }
}
