/**
 * `deindent_code_blocks`, which appears twice with the same body (once in
 * each package's utilities): the lines of `splitlines()` outside a ``` block
 * are kept, a block from an opening line to the next line that starts with
 * ``` (after leading whitespace) is passed through `textwrap.dedent` as one
 * piece, and the lines of a block that is never closed are dropped.  The
 * pieces are joined with '\n'.
 *
 * `textwrap.dedent` is modelled on the block's lines: the block is the
 * '\n'-join of lines that hold no line boundary, so its regular expressions,
 * which work line by line under MULTILINE, see exactly these lines.
 */
module Deindent {
  import opened Strings
  import opened Wrappers

  /** Three backquotes after the leading whitespace. */
  predicate FenceStart(line: string)
  {
    FenceAfter(line, 0)
  }

  /** Three backquotes at the first non-whitespace position from `i` on. */
  predicate FenceAfter(line: string, i: nat)
    decreases |line| - i
  {
    if i + 3 > |line| then false
    else if IsSpace(line[i]) then FenceAfter(line, i + 1)
    else line[i] == '`' && line[i + 1] == '`' && line[i + 2] == '`'
  }

  lemma {:induction false} FenceAfterLeading(line: string, i: nat)
    requires i <= LeadingSpace(line)
    ensures FenceAfter(line, i) <==> (var w := LeadingSpace(line);
      w + 3 <= |line| && line[w] == '`' && line[w + 1] == '`' && line[w + 2] == '`')
    decreases |line| - i
  {
    if i + 3 <= |line| && i < LeadingSpace(line) {
      FenceAfterLeading(line, i + 1);
    }
  }

  /** `FenceStart` is `line.lstrip().startswith('```')`. */
  lemma {:induction false} FenceStartIsStripped(line: string)
    ensures FenceStart(line) <==> StartsWith(LStrip(line), "```")
  {
    var l := LStrip(line);
    var w := LeadingSpace(line);
    FenceAfterLeading(line, 0);
    if |l| >= 3 {
      assert l[..3] == [l[0], l[1], l[2]];
      assert l[0] == line[w] && l[1] == line[w + 1] && l[2] == line[w + 2];
    }
  }

  // ---------------------------------------------------------------------
  // textwrap.dedent
  // ---------------------------------------------------------------------

  /** A line that `^[ \t]+$` matches: it is emptied before anything else. */
  predicate WhitespaceOnly(line: string)
  {
    line != [] && LeadingBlank(line) == |line|
  }

  /** A line that `(^[ \t]*)(?:[^ \t\n])` matches: its indentation takes part in the margin. */
  predicate HasText(line: string)
  {
    LeadingBlank(line) < |line|
  }

  /** Group 1 of that pattern. */
  function Indent(line: string): string
  {
    line[..LeadingBlank(line)]
  }

  /** The position of the first difference in `zip(a, b)`, or the shorter length. */
  function FirstDiff(a: string, b: string, i: nat): (k: nat)
    requires i <= |a| && i <= |b|
    ensures i <= k <= |a| && k <= |b|
    ensures forall j :: i <= j < k ==> a[j] == b[j]
    ensures k < |a| && k < |b| ==> a[k] != b[k]
    decreases |a| - i
  {
    if i == |a| || i == |b| || a[i] != b[i] then i else FirstDiff(a, b, i + 1)
  }

  /**
   * One turn of the margin loop: keep the margin when the indentation
   * extends it, take the indentation when the margin extends it, and
   * otherwise cut the margin at the first differing character.
   */
  function MarginStep(margin: string, indent: string): string
  {
    if StartsWith(indent, margin) then margin
    else if StartsWith(margin, indent) then indent
    else margin[..FirstDiff(margin, indent, 0)]
  }

  /** The margin loop over the indentations of the text lines, left to right. */
  function MarginFold(lines: seq<string>, margin: Option<string>): Option<string>
    decreases |lines|
  {
    if lines == [] then margin
    else if !HasText(lines[0]) then MarginFold(lines[1..], margin)
    else
      var indent := Indent(lines[0]);
      MarginFold(lines[1..], Some(if margin.None? then indent else MarginStep(margin.value, indent)))
  }

  /** The margin, with "no text line" read as the empty margin (`if margin:` fails for both). */
  function Margin(lines: seq<string>): string
  {
    MarginFold(lines, None).UnwrapOr("")
  }

  /** What `dedent` leaves of one line, given the margin. */
  function DedentLine(line: string, margin: string): string
  {
    if WhitespaceOnly(line) then ""
    else if margin != "" && StartsWith(line, margin) then line[|margin|..]
    else line
  }

  /** `textwrap.dedent` on the lines of a block. */
  function DedentLines(lines: seq<string>): (r: seq<string>)
    ensures |r| == |lines|
  {
    var m := Margin(lines);
    seq(|lines|, i requires 0 <= i < |lines| => DedentLine(lines[i], m))
  }

  /** `textwrap.dedent('\n'.join(block))`. */
  function DedentText(block: seq<string>): string
  {
    Join(DedentLines(block), "\n")
  }

  /** A common prefix of the indentations of every text line. */
  predicate CommonIndent(lines: seq<string>, p: string)
  {
    forall i :: 0 <= i < |lines| && HasText(lines[i]) ==> StartsWith(Indent(lines[i]), p)
  }

  predicate SomeText(lines: seq<string>)
  {
    exists i :: 0 <= i < |lines| && HasText(lines[i])
  }

  /** A margin step is the longest common prefix of its two arguments. */
  lemma {:induction false} MarginStepCommon(margin: string, indent: string, p: string)
    ensures StartsWith(margin, MarginStep(margin, indent)) && StartsWith(indent, MarginStep(margin, indent))
    ensures StartsWith(margin, p) && StartsWith(indent, p) ==> StartsWith(MarginStep(margin, indent), p)
  {
    if !StartsWith(indent, margin) && !StartsWith(margin, indent) {
      var k := FirstDiff(margin, indent, 0);
      assert margin[..k] == indent[..k];
      if StartsWith(margin, p) && StartsWith(indent, p) {
        assert margin[..k][..|p|] == margin[..|p|];
      }
    }
  }

  /** The fold ends with a common prefix of the seed and of every text line's indentation. */
  lemma {:induction false} MarginFoldCommon(lines: seq<string>, margin: Option<string>)
    requires margin.Some? || SomeText(lines)
    ensures MarginFold(lines, margin).Some?
    ensures var r := MarginFold(lines, margin).value;
      CommonIndent(lines, r) && (margin.Some? ==> StartsWith(margin.value, r))
    decreases |lines|
  {
    if lines != [] {
      var tail := lines[1..];
      var next := if !HasText(lines[0]) then margin
        else Some(if margin.None? then Indent(lines[0]) else MarginStep(margin.value, Indent(lines[0])));
      if !HasText(lines[0]) && margin.None? {
        var i :| 0 <= i < |lines| && HasText(lines[i]);
        assert HasText(tail[i - 1]);
      }
      MarginFoldCommon(tail, next);
      var r := MarginFold(tail, next).value;
      if HasText(lines[0]) {
        if margin.Some? {
          MarginStepCommon(margin.value, Indent(lines[0]), r);
        }
        assert StartsWith(next.value, r);
        assert StartsWith(Indent(lines[0]), r) by {
          if margin.Some? {
            MarginStepCommon(margin.value, Indent(lines[0]), r);
            PrefixTrans(Indent(lines[0]), next.value, r);
          }
        }
        if margin.Some? {
          PrefixTrans(margin.value, next.value, r);
        }
      }
      forall i | 0 <= i < |lines| && HasText(lines[i])
        ensures StartsWith(Indent(lines[i]), r)
      {
        if i > 0 {
          assert lines[i] == tail[i - 1];
        }
      }
    }
  }

  lemma {:induction false} PrefixTrans(a: string, b: string, c: string)
    requires StartsWith(a, b) && StartsWith(b, c)
    ensures StartsWith(a, c)
  {
    assert a[..|b|][..|c|] == a[..|c|];
  }

  /** Every common prefix of the seed and of the indentations is a prefix of the fold's result. */
  lemma {:induction false} MarginFoldLongest(lines: seq<string>, margin: Option<string>, p: string)
    requires margin.Some? || SomeText(lines)
    requires CommonIndent(lines, p) && (margin.Some? ==> StartsWith(margin.value, p))
    ensures MarginFold(lines, margin).Some? && StartsWith(MarginFold(lines, margin).value, p)
    decreases |lines|
  {
    MarginFoldCommon(lines, margin);
    if lines != [] {
      var tail := lines[1..];
      var next := if !HasText(lines[0]) then margin
        else Some(if margin.None? then Indent(lines[0]) else MarginStep(margin.value, Indent(lines[0])));
      if !HasText(lines[0]) && margin.None? {
        var i :| 0 <= i < |lines| && HasText(lines[i]);
        assert HasText(tail[i - 1]);
      }
      if HasText(lines[0]) && margin.Some? {
        MarginStepCommon(margin.value, Indent(lines[0]), p);
      }
      assert CommonIndent(tail, p) by {
        forall i | 0 <= i < |tail| && HasText(tail[i])
          ensures StartsWith(Indent(tail[i]), p)
        {
          assert tail[i] == lines[i + 1];
        }
      }
      MarginFoldLongest(tail, next, p);
    }
  }

  /**
   * The margin is the longest common prefix of the indentations of the text
   * lines: it is a prefix of each of them, and every common prefix is a
   * prefix of it.
   */
  lemma {:induction false} MarginIsLongestCommonIndent(lines: seq<string>, p: string)
    ensures CommonIndent(lines, Margin(lines))
    ensures SomeText(lines) && CommonIndent(lines, p) ==> StartsWith(Margin(lines), p)
    ensures !SomeText(lines) ==> Margin(lines) == ""
  {
    if SomeText(lines) {
      MarginFoldCommon(lines, None);
      if CommonIndent(lines, p) {
        MarginFoldLongest(lines, None, p);
      }
    } else {
      NoTextNoMargin(lines, None);
    }
  }

  lemma {:induction false} NoTextNoMargin(lines: seq<string>, margin: Option<string>)
    requires !SomeText(lines)
    ensures MarginFold(lines, margin) == margin
    decreases |lines|
  {
    if lines != [] {
      assert !HasText(lines[0]);
      assert !SomeText(lines[1..]) by {
        forall i | 0 <= i < |lines| - 1
          ensures !HasText(lines[1..][i])
        {
          assert lines[1..][i] == lines[i + 1];
        }
      }
      NoTextNoMargin(lines[1..], margin);
    }
  }

  /** What `dedent` does to each line: whitespace-only lines empty, text lines lose the margin. */
  lemma {:induction false} DedentLinesShape(lines: seq<string>, i: nat)
    requires i < |lines|
    ensures var m := Margin(lines); var out := DedentLines(lines)[i];
      && (!HasText(lines[i]) ==> out == "")
      && (HasText(lines[i]) ==> StartsWith(lines[i], m) && out == lines[i][|m|..])
  {
    var m := Margin(lines);
    MarginIsLongestCommonIndent(lines, "");
    if HasText(lines[i]) {
      PrefixTrans(lines[i], Indent(lines[i]), m);
    } else if !WhitespaceOnly(lines[i]) {
      assert lines[i] == "";
    }
  }

  /** Removing a part of the indentation leaves the rest of the indentation. */
  lemma {:induction false} IndentAfterCut(line: string, m: string)
    requires HasText(line) && StartsWith(Indent(line), m)
    ensures HasText(line[|m|..]) && Indent(line[|m|..]) == Indent(line)[|m|..]
  {
    var n := LeadingBlank(line);
    var rest := line[|m|..];
    assert forall j :: 0 <= j < n - |m| ==> rest[j] == line[|m| + j];
    assert rest[n - |m|] == line[n];
    LeadingBlankIs(rest, n - |m|);
  }

  lemma {:induction false} LeadingBlankIs(s: string, n: nat)
    requires n < |s| && !IsBlank(s[n])
    requires forall j :: 0 <= j < n ==> IsBlank(s[j])
    ensures LeadingBlank(s) == n
    decreases n
  {
    if n > 0 {
      LeadingBlankIs(s[1..], n - 1);
    }
  }

  /** A dedented line has text exactly when the original has, and the margin plus its indentation. */
  lemma {:induction false} DedentedIndent(lines: seq<string>, i: nat)
    requires i < |lines|
    ensures var out := DedentLines(lines)[i];
      && (HasText(out) <==> HasText(lines[i]))
      && (HasText(lines[i]) ==> Indent(lines[i]) == Margin(lines) + Indent(out))
  {
    var m := Margin(lines);
    DedentLinesShape(lines, i);
    if HasText(lines[i]) {
      MarginIsLongestCommonIndent(lines, "");
      IndentAfterCut(lines[i], m);
      assert Indent(lines[i]) == Indent(lines[i])[..|m|] + Indent(lines[i])[|m|..];
    }
  }

  /** After `dedent` the text lines share no indentation any more. */
  lemma {:induction false} DedentedMarginEmpty(lines: seq<string>)
    ensures Margin(DedentLines(lines)) == ""
  {
    var m := Margin(lines);
    var out := DedentLines(lines);
    var r := Margin(out);
    MarginIsLongestCommonIndent(out, "");
    if SomeText(out) {
      assert CommonIndent(lines, m + r) by {
        forall i | 0 <= i < |lines| && HasText(lines[i])
          ensures StartsWith(Indent(lines[i]), m + r)
        {
          DedentedIndent(lines, i);
          assert StartsWith(Indent(out[i]), r);
        }
      }
      var i :| 0 <= i < |out| && HasText(out[i]);
      DedentedIndent(lines, i);
      MarginIsLongestCommonIndent(lines, m + r);
    }
  }

  /** `textwrap.dedent` is idempotent. */
  lemma {:induction false} DedentIdempotent(lines: seq<string>)
    ensures DedentLines(DedentLines(lines)) == DedentLines(lines)
  {
    var out := DedentLines(lines);
    DedentedMarginEmpty(lines);
    forall i | 0 <= i < |out|
      ensures DedentLine(out[i], "") == out[i]
    {
      DedentLinesShape(lines, i);
      if HasText(lines[i]) {
        MarginIsLongestCommonIndent(lines, "");
        IndentAfterCut(lines[i], Margin(lines));
      }
    }
  }

  /** Lines that already share no indentation and hold no whitespace-only line are left alone. */
  lemma {:induction false} DedentFlush(lines: seq<string>)
    requires forall i :: 0 <= i < |lines| ==> !WhitespaceOnly(lines[i])
    requires exists i :: 0 <= i < |lines| && HasText(lines[i]) && LeadingBlank(lines[i]) == 0
    ensures DedentLines(lines) == lines
  {
    var i :| 0 <= i < |lines| && HasText(lines[i]) && LeadingBlank(lines[i]) == 0;
    MarginIsLongestCommonIndent(lines, "");
    assert Margin(lines) == "";
  }

  // ---------------------------------------------------------------------
  // The block loop
  // ---------------------------------------------------------------------

  /** What the loop appends to its output list: a kept line, or a closed block to dedent. */
  datatype Piece = Kept(line: string) | Block(lines: seq<string>)

  function Text(p: Piece): string
  {
    match p
    case Kept(line) => line
    case Block(lines) => DedentText(lines)
  }

  function Render(ps: seq<Piece>): (r: seq<string>)
    ensures |r| == |ps|
  {
    if ps == [] then [] else [Text(ps[0])] + Render(ps[1..])
  }

  /** The pieces the loop emits for `lines` when it is outside a block. */
  function Pieces(lines: seq<string>): seq<Piece>
    decreases |lines|, 1
  {
    if lines == [] then []
    else if FenceStart(lines[0]) then OpenBlock([lines[0]], lines[1..])
    else [Kept(lines[0])] + Pieces(lines[1..])
  }

  /** The pieces the loop emits for `rest` while the lines of `block` are collected. */
  function OpenBlock(block: seq<string>, rest: seq<string>): seq<Piece>
    decreases |rest|, 0
  {
    if rest == [] then []
    else if FenceStart(rest[0]) then [Block(block + [rest[0]])] + Pieces(rest[1..])
    else OpenBlock(block + [rest[0]], rest[1..])
  }

  /**
   * `deindent_code_blocks`: the text of the pieces of the text's lines,
   * joined with '\n'.  The loop collects the pieces and each closed block
   * is then passed through `textwrap.dedent`; the source calls `dedent` as
   * soon as a block closes, which gives the same pieces since `dedent` is a
   * pure function of the block.
   */
  method DeindentCodeBlocks(text: string) returns (r: string)
    ensures r == Join(Render(Pieces(SplitLines(text))), "\n")
  {
    var pieces := DeindentLines(SplitLines(text));
    r := Join(Render(pieces), "\n");
  }

  /** The loop over the lines, with `in_block` and the `block` accumulator. */
  method DeindentLines(lines: seq<string>) returns (done: seq<Piece>)
    ensures done == Pieces(lines)
  {
    var inBlock := false;
    var block: seq<string> := [];
    done := [];
    var i := 0;
    while i < |lines|
      invariant 0 <= i <= |lines|
      invariant Pieces(lines) == done + (if inBlock then OpenBlock(block, lines[i..]) else Pieces(lines[i..]))
    {
      var line := lines[i];
      ghost var rest := lines[i + 1..];
      assert lines[i..] == [line] + rest;
      if inBlock {
        OpenBlockStep(block, line, rest);
        block := block + [line];
        if FenceStart(line) {
          inBlock := false;
          done := done + [Block(block)];
        }
      } else {
        PiecesStep(line, rest);
        if FenceStart(line) {
          inBlock := true;
          block := [line];
        } else {
          done := done + [Kept(line)];
        }
      }
      i := i + 1;
    }
    assert lines[i..] == [];
    assert OpenBlock(block, []) == [] && Pieces([]) == [];
    assert done + [] == done;
  }

  lemma {:induction false} PiecesStep(line: string, rest: seq<string>)
    ensures Pieces([line] + rest) == if FenceStart(line) then OpenBlock([line], rest) else [Kept(line)] + Pieces(rest)
  {
    assert ([line] + rest)[1..] == rest;
  }

  lemma {:induction false} OpenBlockStep(block: seq<string>, line: string, rest: seq<string>)
    ensures OpenBlock(block, [line] + rest)
      == if FenceStart(line) then [Block(block + [line])] + Pieces(rest) else OpenBlock(block + [line], rest)
  {
    assert ([line] + rest)[1..] == rest;
  }

  function KeptAll(lines: seq<string>): (r: seq<Piece>)
    ensures |r| == |lines|
  {
    if lines == [] then [] else [Kept(lines[0])] + KeptAll(lines[1..])
  }

  lemma {:induction false} RenderKept(lines: seq<string>)
    ensures Render(KeptAll(lines)) == lines
    decreases |lines|
  {
    if lines != [] {
      assert KeptAll(lines)[1..] == KeptAll(lines[1..]);
      RenderKept(lines[1..]);
    }
  }

  /** The index of the first line that starts with ```, or the number of lines. */
  function NextFence(lines: seq<string>): (k: nat)
    ensures k <= |lines|
  {
    if lines == [] || FenceStart(lines[0]) then 0 else 1 + NextFence(lines[1..])
  }

  lemma {:induction false} NextFenceIsFirst(lines: seq<string>)
    ensures NextFence(lines) < |lines| ==> FenceStart(lines[NextFence(lines)])
    ensures forall j :: 0 <= j < NextFence(lines) ==> !FenceStart(lines[j])
  {
    if lines != [] && !FenceStart(lines[0]) {
      NextFenceIsFirst(lines[1..]);
      forall j | 1 <= j < NextFence(lines)
        ensures !FenceStart(lines[j])
      {
        assert lines[j] == lines[1..][j - 1];
      }
    }
  }

  /** Every line before the first fence is kept as it is; the rest is processed from the fence on. */
  lemma {:induction false} KeptUntilFence(lines: seq<string>)
    ensures Pieces(lines) == KeptAll(lines[..NextFence(lines)]) + Pieces(lines[NextFence(lines)..])
  {
    var k := NextFence(lines);
    if lines == [] || FenceStart(lines[0]) {
      assert lines[..k] == [] && lines[k..] == lines;
    } else {
      var tail := lines[1..];
      assert lines == [lines[0]] + tail;
      PiecesStep(lines[0], tail);
      KeptUntilFence(tail);
      var k' := NextFence(tail);
      assert lines[..k] == [lines[0]] + tail[..k'];
      assert lines[..k][1..] == tail[..k'];
      assert KeptAll(lines[..k]) == [Kept(lines[0])] + KeptAll(tail[..k']);
      assert tail[k'..] == lines[k..];
    }
  }

  /**
   * Inside a block, the block runs to the first fence of `rest` and becomes
   * one piece with that closing line; with no fence left, nothing more is
   * emitted: the lines of an unterminated block are lost.
   */
  lemma {:induction false} OpenBlockUntilFence(block: seq<string>, rest: seq<string>)
    ensures OpenBlock(block, rest) == (var k := NextFence(rest);
      if k < |rest| then [Block(block + rest[..k + 1])] + Pieces(rest[k + 1..]) else [])
    decreases |rest|
  {
    if rest != [] {
      var tail := rest[1..];
      assert rest == [rest[0]] + tail;
      OpenBlockStep(block, rest[0], tail);
      if FenceStart(rest[0]) {
        assert rest[..1] == [rest[0]];
      } else {
        OpenBlockUntilFence(block + [rest[0]], tail);
        var k' := NextFence(tail);
        if k' < |tail| {
          SliceShift(block, rest, k');
        }
      }
    }
  }

  /**
   * A line that starts with ``` opens a block that the next such line
   * closes: the lines from the opening line through the closing line form one
   * piece, which is dedented as a whole; without a closing line the rest of
   * the text is dropped.
   */
  lemma {:induction false} FenceOpensBlock(lines: seq<string>)
    requires lines != [] && FenceStart(lines[0])
    ensures Pieces(lines) == (var k := 1 + NextFence(lines[1..]);
      if k < |lines| then [Block(lines[..k + 1])] + Pieces(lines[k + 1..]) else [])
  {
    var tail := lines[1..];
    assert Pieces(lines) == OpenBlock([lines[0]], tail);
    OpenBlockUntilFence([lines[0]], tail);
    var k' := NextFence(tail);
    if k' < |tail| {
      HeadShift(lines, k');
    }
  }

  lemma {:induction false} HeadShift<T>(r: seq<T>, k: nat)
    requires k + 2 <= |r|
    ensures [r[0]] + r[1..][..k + 1] == r[..k + 2]
    ensures r[1..][k + 1..] == r[k + 2..]
  {
  }

  /** Moving the head of `r` to the end of `b` leaves the same prefix and suffix. */
  lemma {:induction false} SliceShift<T>(b: seq<T>, r: seq<T>, k: nat)
    requires k + 2 <= |r|
    ensures b + [r[0]] + r[1..][..k + 1] == b + r[..k + 2]
    ensures r[1..][k + 1..] == r[k + 2..]
  {
    assert [r[0]] + r[1..][..k + 1] == r[..k + 2];
  }

  /** Text without a fence line comes back as its lines joined by '\n'. */
  lemma {:induction false} NoFenceUnchanged(text: string)
    requires NextFence(SplitLines(text)) == |SplitLines(text)|
    ensures Join(Render(Pieces(SplitLines(text))), "\n") == Join(SplitLines(text), "\n")
  {
    var lines := SplitLines(text);
    KeptUntilFence(lines);
    assert lines[..|lines|] == lines && lines[|lines|..] == [];
    assert KeptAll(lines) + [] == KeptAll(lines);
    RenderKept(lines);
  }
}
