/**
 * The two `dedent_code_blocks` functions: a fenced block (``` or ~~~) whose
 * closing fence has the same indentation as the opening one is shifted left by
 * that indentation when every line of the block is indented at least as much.
 *
 * Both functions test "indented at least as much" with Python's string
 * comparison `line_indent < indent`, which orders strings lexicographically by
 * code point. A space sorts after a tab, so a line indented by one space passes
 * the test against a fence indented by two tabs, and then loses two characters,
 * one of which is not indentation. `Compare.StringLess` models the code as
 * written and `Compare.PrefixTest` the evidently intended test (the line's
 * indentation starts with the fence's); the reply pipeline uses the latter.
 */
module CodeFences {
  import opened Strings
  import opened Seqs

  /** Python `a < b` on strings. */
  predicate PyLess(a: string, b: string)
    decreases |a|
  {
    if a == [] then b != []
    else if b == [] then false
    else if a[0] != b[0] then a[0] < b[0]
    else PyLess(a[1..], b[1..])
  }

  /** How a line's indentation is compared with the fence's. */
  datatype Compare = StringLess | PrefixTest

  /**
   * The differences between the two functions: `checkBlank` says whether
   * whitespace-only lines take part in the indentation test, `stripBlank`
   * whether they are shifted too. `Lenient` is the one in the reply
   * post-processor, `Strict` the one in the utilities module.
   */
  datatype Variant = Variant(checkBlank: bool, stripBlank: bool)

  const Lenient := Variant(false, false)
  const Strict := Variant(true, true)

  /**
   * `re.match(r'^([ \t]*)(```|~~~)([^\n]*)\r?\n?$', line)` on a line of
   * `splitlines(keepends=True)`: such a line holds a '\n' at most at its end,
   * which `[^\n]*\r?\n?$` always accepts, so the pattern matches exactly when
   * the indentation is followed by a fence.
   */
  predicate FenceAt(line: string)
  {
    var w := LeadingBlank(line);
    w + 3 <= |line| && (line[w] == '`' || line[w] == '~') && line[w + 1] == line[w] && line[w + 2] == line[w]
  }

  /** Group 1 of the fence pattern, and of `^([ \t]*)(.*)$`. */
  function IndentOf(line: string): string
  {
    line[..LeadingBlank(line)]
  }

  /** Group 2 of the fence pattern is three copies of this character. */
  function FenceOf(line: string): char
    requires FenceAt(line)
  {
    line[LeadingBlank(line)]
  }

  /** The closing fence: the same fence with exactly the same indentation. */
  predicate IsClose(line: string, indent: string, fence: char)
  {
    FenceAt(line) && FenceOf(line) == fence && IndentOf(line) == indent
  }

  /** The first closing fence at or after `j`. */
  function FindClose(lines: seq<string>, j: nat, indent: string, fence: char): (r: Option)
    requires j <= |lines|
    ensures r.Some? ==> j <= r.k < |lines|
    decreases |lines| - j
  {
    if j == |lines| then None
    else if IsClose(lines[j], indent, fence) then Some(j)
    else FindClose(lines, j + 1, indent, fence)
  }

  /** `FindClose` finds the first closing fence. */
  lemma {:induction false} FindCloseFirst(lines: seq<string>, j: nat, indent: string, fence: char, k: nat)
    requires j <= k < |lines| && IsClose(lines[k], indent, fence)
    requires forall m :: j <= m < k ==> !IsClose(lines[m], indent, fence)
    ensures FindClose(lines, j, indent, fence) == Some(k)
    decreases k - j
  {
    if j < k {
      FindCloseFirst(lines, j + 1, indent, fence, k);
    }
  }

  /** `FindClose` reports no closing fence only when there is none. */
  lemma {:induction false} FindCloseNone(lines: seq<string>, j: nat, indent: string, fence: char)
    requires j <= |lines|
    requires forall m :: j <= m < |lines| ==> !IsClose(lines[m], indent, fence)
    ensures FindClose(lines, j, indent, fence).None?
    decreases |lines| - j
  {
    if j < |lines| {
      FindCloseNone(lines, j + 1, indent, fence);
    }
  }

  /** What `FindClose` finds is a closing fence, and none comes before it. */
  lemma {:induction false} FindCloseSome(lines: seq<string>, j: nat, indent: string, fence: char)
    requires j <= |lines| && FindClose(lines, j, indent, fence).Some?
    ensures IsClose(lines[FindClose(lines, j, indent, fence).k], indent, fence)
    ensures forall m :: j <= m < FindClose(lines, j, indent, fence).k ==> !IsClose(lines[m], indent, fence)
    decreases |lines| - j
  {
    if !IsClose(lines[j], indent, fence) {
      FindCloseSome(lines, j + 1, indent, fence);
    }
  }

  datatype Option = None | Some(k: nat)

  /** `line_indent < indent` as written, or the intended prefix test. */
  predicate Below(lineIndent: string, indent: string, cmp: Compare)
  {
    match cmp
    case StringLess => PyLess(lineIndent, indent)
    case PrefixTest => !StartsWith(lineIndent, indent)
  }

  /** A block line passes the indentation test (or is skipped by it). */
  predicate Shares(line: string, indent: string, v: Variant, cmp: Compare)
  {
    (!v.checkBlank && AllSpace(line)) || !Below(IndentOf(line), indent, cmp)
  }

  predicate Uniform(block: seq<string>, indent: string, v: Variant, cmp: Compare)
  {
    forall m :: 0 <= m < |block| ==> Shares(block[m], indent, v, cmp)
  }

  /** `bline[len(indent):]`, kept as it is for blank lines in the lenient variant. */
  function DedentLine(line: string, n: nat, v: Variant): string
  {
    if !v.stripBlank && AllSpace(line) then line else Drop(line, n)
  }

  function DedentBlock(block: seq<string>, n: nat, v: Variant): (r: seq<string>)
    ensures |r| == |block|
  {
    seq(|block|, m requires 0 <= m < |block| => DedentLine(block[m], n, v))
  }

  /** What a closed block becomes: shifted left when every line passes the indentation test. */
  function BlockOut(block: seq<string>, indent: string, v: Variant, cmp: Compare): (r: seq<string>)
    ensures |r| == |block|
  {
    if Uniform(block, indent, v, cmp) then DedentBlock(block, |indent|, v) else block
  }

  /**
   * A piece of the scan: a line outside any block, a closed block from its
   * opening to its closing fence (with the opening fence's indentation), or
   * everything from an opening fence that is never closed.
   */
  datatype Seg = Plain(line: string) | Closed(indent: string, block: seq<string>) | Unclosed(rest: seq<string>)

  /** The input lines a piece stands for. */
  function SegIn(s: Seg): seq<string>
  {
    match s
    case Plain(line) => [line]
    case Closed(_, block) => block
    case Unclosed(rest) => rest
  }

  /** The output lines of a piece. */
  function SegOut(s: Seg, v: Variant, cmp: Compare): seq<string>
  {
    match s
    case Plain(line) => [line]
    case Closed(indent, block) => BlockOut(block, indent, v, cmp)
    case Unclosed(rest) => rest
  }

  /** How the loop cuts `lines[i..]` into pieces. */
  function Scan(lines: seq<string>, i: nat): seq<Seg>
    requires i <= |lines|
    decreases |lines| - i
  {
    if i == |lines| then []
    else if !FenceAt(lines[i]) then [Plain(lines[i])] + Scan(lines, i + 1)
    else
      match FindClose(lines, i + 1, IndentOf(lines[i]), FenceOf(lines[i]))
      case None => [Unclosed(lines[i..])]
      case Some(k) => [Closed(IndentOf(lines[i]), lines[i..k + 1])] + Scan(lines, k + 1)
  }

  function Render(segs: seq<Seg>, v: Variant, cmp: Compare): seq<string>
  {
    if segs == [] then [] else SegOut(segs[0], v, cmp) + Render(segs[1..], v, cmp)
  }

  function Inputs(segs: seq<Seg>): seq<string>
  {
    if segs == [] then [] else SegIn(segs[0]) + Inputs(segs[1..])
  }

  /** The output lines for `lines[i..]`. */
  function DedentFrom(lines: seq<string>, i: nat, v: Variant, cmp: Compare): seq<string>
    requires i <= |lines|
  {
    Render(Scan(lines, i), v, cmp)
  }

  function Dedent(message: string, v: Variant, cmp: Compare): string
  {
    Concat(DedentFrom(SplitLinesKeep(message), 0, v, cmp))
  }

  // ---------------------------------------------------------------------------
  // One step of the scan, as the three cases of the loop

  lemma {:induction false} ScanPlain(lines: seq<string>, i: nat)
    requires i < |lines| && !FenceAt(lines[i])
    ensures Scan(lines, i) == [Plain(lines[i])] + Scan(lines, i + 1)
  {
  }

  lemma {:induction false} ScanClosed(lines: seq<string>, i: nat, k: nat)
    requires i < |lines| && FenceAt(lines[i])
    requires FindClose(lines, i + 1, IndentOf(lines[i]), FenceOf(lines[i])) == Some(k)
    ensures Scan(lines, i) == [Closed(IndentOf(lines[i]), lines[i..k + 1])] + Scan(lines, k + 1)
  {
  }

  lemma {:induction false} ScanOpen(lines: seq<string>, i: nat)
    requires i < |lines| && FenceAt(lines[i])
    requires FindClose(lines, i + 1, IndentOf(lines[i]), FenceOf(lines[i])).None?
    ensures Scan(lines, i) == [Unclosed(lines[i..])]
  {
  }

  lemma {:induction false} RenderCons(s: Seg, segs: seq<Seg>, v: Variant, cmp: Compare)
    ensures Render([s] + segs, v, cmp) == SegOut(s, v, cmp) + Render(segs, v, cmp)
  {
    assert ([s] + segs)[1..] == segs;
  }

  lemma {:induction false} InputsCons(s: Seg, segs: seq<Seg>)
    ensures Inputs([s] + segs) == SegIn(s) + Inputs(segs)
  {
    assert ([s] + segs)[1..] == segs;
  }

  lemma {:induction false} RenderSnoc(segs: seq<Seg>, s: Seg, v: Variant, cmp: Compare)
    ensures Render(segs + [s], v, cmp) == Render(segs, v, cmp) + SegOut(s, v, cmp)
    decreases |segs|
  {
    if segs == [] {
      assert segs + [s] == [s] + [];
      RenderCons(s, [], v, cmp);
    } else {
      assert segs + [s] == [segs[0]] + (segs[1..] + [s]);
      RenderCons(segs[0], segs[1..] + [s], v, cmp);
      RenderSnoc(segs[1..], s, v, cmp);
      assert segs == [segs[0]] + segs[1..];
      RenderCons(segs[0], segs[1..], v, cmp);
    }
  }

  // ---------------------------------------------------------------------------
  // The loop

  /** The inner loop: collect lines from the opening fence at `i` up to and including its closing fence. */
  method CollectBlock(lines: seq<string>, i: nat, indent: string, fence: char)
    returns (blockLines: seq<string>, foundClosing: bool, iBlock: nat)
    requires i < |lines|
    ensures i + 1 <= iBlock <= |lines| && blockLines == lines[i..iBlock]
    ensures foundClosing ==> FindClose(lines, i + 1, indent, fence) == Some(iBlock - 1)
    ensures !foundClosing ==> FindClose(lines, i + 1, indent, fence).None? && iBlock == |lines|
  {
    var n := |lines|;
    blockLines := [lines[i]];
    foundClosing := false;
    iBlock := i + 1;
    while iBlock < n
      invariant i + 1 <= iBlock <= n
      invariant blockLines == lines[i..iBlock]
      invariant forall m :: i + 1 <= m < iBlock ==> !IsClose(lines[m], indent, fence)
      decreases n - iBlock
    {
      var candidate := lines[iBlock];
      if IsClose(candidate, indent, fence) {
        blockLines := blockLines + [candidate];
        foundClosing := true;
        iBlock := iBlock + 1;
        break;
      } else {
        blockLines := blockLines + [candidate];
        iBlock := iBlock + 1;
      }
    }
    if foundClosing {
      FindCloseFirst(lines, i + 1, indent, fence, iBlock - 1);
    } else {
      FindCloseNone(lines, i + 1, indent, fence);
    }
  }

  /** The indentation test over every line of a closed block, stopping at the first failure. */
  method AllShareIndent(blockLines: seq<string>, indent: string, v: Variant, cmp: Compare) returns (allShareIndent: bool)
    ensures allShareIndent <==> Uniform(blockLines, indent, v, cmp)
  {
    allShareIndent := true;
    var m := 0;
    while m < |blockLines|
      invariant 0 <= m <= |blockLines|
      invariant allShareIndent
      invariant forall q :: 0 <= q < m ==> Shares(blockLines[q], indent, v, cmp)
      decreases |blockLines| - m
    {
      var bline := blockLines[m];
      if v.checkBlank || !AllSpace(bline) {
        var lineIndent := IndentOf(bline);
        if Below(lineIndent, indent, cmp) {
          allShareIndent := false;
          break;
        }
      }
      m := m + 1;
    }
  }

  /** A closed block, shifted when every line passes the indentation test. */
  method ShiftBlock(blockLines: seq<string>, indent: string, v: Variant, cmp: Compare) returns (out: seq<string>)
    ensures out == BlockOut(blockLines, indent, v, cmp)
  {
    var allShareIndent := AllShareIndent(blockLines, indent, v, cmp);
    if allShareIndent {
      out := seq(|blockLines|, q requires 0 <= q < |blockLines| => DedentLine(blockLines[q], |indent|, v));
      assert out == DedentBlock(blockLines, |indent|, v);
    } else {
      out := blockLines;
    }
  }

  /**
   * The body of the outer loop for an opening fence at `i`: the block up to
   * its closing fence, shifted when all its lines pass the test, or the rest
   * of the message when there is no closing fence.
   */
  method FencedBlock(lines: seq<string>, i: nat, v: Variant, cmp: Compare)
    returns (out: seq<string>, next: nat, ghost seg: Seg)
    requires i < |lines| && FenceAt(lines[i])
    ensures i < next <= |lines|
    ensures Scan(lines, i) == [seg] + Scan(lines, next)
    ensures out == SegOut(seg, v, cmp)
  {
    var line := lines[i];
    var indent := IndentOf(line);
    var fence := FenceOf(line);
    var blockLines, foundClosing, iBlock := CollectBlock(lines, i, indent, fence);
    next := iBlock;
    if foundClosing {
      seg := Closed(indent, blockLines);
      ScanClosed(lines, i, iBlock - 1);
      out := ShiftBlock(blockLines, indent, v, cmp);
    } else {
      assert blockLines == lines[i..];
      seg := Unclosed(blockLines);
      ScanOpen(lines, i);
      out := blockLines;
      assert Scan(lines, next) == [];
      AppendNil([seg]);
    }
  }

  /** `dedent_code_blocks`, with the indentation test `cmp` in place of `line_indent < indent`. */
  method DedentCodeBlocks(message: string, v: Variant, cmp: Compare) returns (r: string)
    ensures r == Dedent(message, v, cmp)
  {
    var lines := SplitLinesKeep(message);
    var n := |lines|;
    var i := 0;
    var result: seq<string> := [];
    ghost var done: seq<Seg> := [];
    while i < n
      invariant 0 <= i <= n
      invariant result == Render(done, v, cmp)
      invariant done + Scan(lines, i) == Scan(lines, 0)
      decreases n - i
    {
      var out: seq<string>, next: nat;
      ghost var seg: Seg;
      var line := lines[i];
      if !FenceAt(line) {
        ScanPlain(lines, i);
        out, next, seg := [line], i + 1, Plain(line);
      } else {
        out, next, seg := FencedBlock(lines, i, v, cmp);
      }
      Shift(done, seg, Scan(lines, next));
      RenderSnoc(done, seg, v, cmp);
      result := result + out;
      done := done + [seg];
      i := next;
    }
    assert Scan(lines, i) == [];
    AppendNil(done);
    r := Concat(result);
  }

  // ---------------------------------------------------------------------------
  // Properties

  /** The pieces scanned from line `i` are exactly `lines[i..]`, in order. */
  predicate Covers(lines: seq<string>, i: nat)
    requires i <= |lines|
  {
    Inputs(Scan(lines, i)) == lines[i..]
  }

  lemma {:induction false} CoversEnd(lines: seq<string>, i: nat)
    requires i == |lines|
    ensures Covers(lines, i)
  {
    assert Scan(lines, i) == [];
  }

  lemma {:induction false} CoversPlain(lines: seq<string>, i: nat)
    requires i < |lines| && !FenceAt(lines[i])
    requires Covers(lines, i + 1)
    ensures Covers(lines, i)
  {
    ScanPlain(lines, i);
    InputsCons(Plain(lines[i]), Scan(lines, i + 1));
    SplitHead(lines, i);
  }

  lemma {:induction false} CoversOpen(lines: seq<string>, i: nat)
    requires i < |lines| && FenceAt(lines[i])
    requires FindClose(lines, i + 1, IndentOf(lines[i]), FenceOf(lines[i])).None?
    ensures Covers(lines, i)
  {
    ScanOpen(lines, i);
    InputsCons(Unclosed(lines[i..]), []);
    AppendNil(lines[i..]);
  }

  lemma {:induction false} CoversClosed(lines: seq<string>, i: nat, k: nat)
    requires i < |lines| && FenceAt(lines[i])
    requires FindClose(lines, i + 1, IndentOf(lines[i]), FenceOf(lines[i])) == Some(k)
    requires Covers(lines, k + 1)
    ensures Covers(lines, i)
  {
    ScanClosed(lines, i, k);
    InputsCons(Closed(IndentOf(lines[i]), lines[i..k + 1]), Scan(lines, k + 1));
    SplitAt(lines, i, k + 1);
  }

  /** Where the scan resumes after the piece that starts at line `i`. */
  function NextStart(lines: seq<string>, i: nat): (n: nat)
    requires i < |lines|
    ensures i < n <= |lines|
  {
    if !FenceAt(lines[i]) then i + 1
    else
      match FindClose(lines, i + 1, IndentOf(lines[i]), FenceOf(lines[i]))
      case None => |lines|
      case Some(k) => k + 1
  }

  lemma {:induction false} CoversStep(lines: seq<string>, i: nat)
    requires i < |lines|
    requires Covers(lines, NextStart(lines, i))
    ensures Covers(lines, i)
  {
    if !FenceAt(lines[i]) {
      CoversPlain(lines, i);
    } else {
      var found := FindClose(lines, i + 1, IndentOf(lines[i]), FenceOf(lines[i]));
      if found.None? {
        CoversOpen(lines, i);
      } else {
        CoversClosed(lines, i, found.k);
      }
    }
  }

  /** The pieces cover the input: together they are exactly `lines[i..]`, in order. */
  lemma {:induction false} ScanCovers(lines: seq<string>, i: nat)
    requires i <= |lines|
    ensures Covers(lines, i)
    decreases |lines| - i
  {
    if i == |lines| {
      CoversEnd(lines, i);
    } else {
      ScanCovers(lines, NextStart(lines, i));
      CoversStep(lines, i);
    }
  }

  /** `out` is what is left of `line` after removing a prefix of spaces and tabs. */
  predicate IndentRemoved(line: string, out: string)
  {
    EndsWith(line, out) && forall q :: 0 <= q < |line| - |out| ==> IsBlank(line[q])
  }

  /** Each output line is the input line at the same position, possibly shortened at the front. */
  predicate Trimmed(inp: seq<string>, out: seq<string>)
  {
    |inp| == |out| && forall j :: 0 <= j < |out| ==> EndsWith(inp[j], out[j])
  }

  /** As `Trimmed`, and what is removed is only indentation. */
  predicate IndentTrimmed(inp: seq<string>, out: seq<string>)
  {
    |inp| == |out| && forall j :: 0 <= j < |out| ==> IndentRemoved(inp[j], out[j])
  }

  lemma {:induction false} TrimmedConcat(a: seq<string>, b: seq<string>, c: seq<string>, d: seq<string>)
    requires Trimmed(a, b) && Trimmed(c, d)
    ensures Trimmed(a + c, b + d)
  {
    forall j | 0 <= j < |b + d|
      ensures EndsWith((a + c)[j], (b + d)[j])
    {
      if j >= |b| {
        assert (a + c)[j] == c[j - |a|] && (b + d)[j] == d[j - |b|];
      }
    }
  }

  lemma {:induction false} IndentTrimmedConcat(a: seq<string>, b: seq<string>, c: seq<string>, d: seq<string>)
    requires IndentTrimmed(a, b) && IndentTrimmed(c, d)
    ensures IndentTrimmed(a + c, b + d)
  {
    forall j | 0 <= j < |b + d|
      ensures IndentRemoved((a + c)[j], (b + d)[j])
    {
      if j >= |b| {
        assert (a + c)[j] == c[j - |a|] && (b + d)[j] == d[j - |b|];
      }
    }
  }

  lemma {:induction false} BlockTrimmed(block: seq<string>, indent: string, v: Variant, cmp: Compare)
    ensures Trimmed(block, BlockOut(block, indent, v, cmp))
  {
    var out := BlockOut(block, indent, v, cmp);
    forall j | 0 <= j < |out|
      ensures EndsWith(block[j], out[j])
    {
    }
  }

  /**
   * With the prefix test, a shifted line starts with the fence's indentation
   * and loses exactly that, so only spaces and tabs are removed.
   */
  lemma {:induction false} BlockIndentTrimmed(block: seq<string>, indent: string, v: Variant)
    requires v.checkBlank || !v.stripBlank
    ensures IndentTrimmed(block, BlockOut(block, indent, v, PrefixTest))
  {
    var out := BlockOut(block, indent, v, PrefixTest);
    forall j | 0 <= j < |out|
      ensures IndentRemoved(block[j], out[j])
    {
      if Uniform(block, indent, v, PrefixTest) && out[j] != block[j] {
        var line := block[j];
        assert Shares(line, indent, v, PrefixTest);
        assert v.stripBlank || !AllSpace(line);
        assert StartsWith(IndentOf(line), indent);
        assert out[j] == line[|indent|..];
        forall q | 0 <= q < |indent|
          ensures IsBlank(line[q])
        {
          assert line[q] == IndentOf(line)[q];
        }
      }
    }
  }

  lemma {:induction false} SegTrimmed(s: Seg, v: Variant, cmp: Compare)
    ensures Trimmed(SegIn(s), SegOut(s, v, cmp))
  {
    if s.Closed? {
      BlockTrimmed(s.block, s.indent, v, cmp);
    }
  }

  lemma {:induction false} SegIndentTrimmed(s: Seg, v: Variant)
    requires v.checkBlank || !v.stripBlank
    ensures IndentTrimmed(SegIn(s), SegOut(s, v, PrefixTest))
  {
    if s.Closed? {
      BlockIndentTrimmed(s.block, s.indent, v);
    }
  }

  lemma {:induction false} RenderTrimmed(segs: seq<Seg>, v: Variant, cmp: Compare)
    ensures Trimmed(Inputs(segs), Render(segs, v, cmp))
    decreases |segs|
  {
    if segs != [] {
      SegTrimmed(segs[0], v, cmp);
      RenderTrimmed(segs[1..], v, cmp);
      TrimmedConcat(SegIn(segs[0]), SegOut(segs[0], v, cmp), Inputs(segs[1..]), Render(segs[1..], v, cmp));
    }
  }

  lemma {:induction false} RenderIndentTrimmed(segs: seq<Seg>, v: Variant)
    requires v.checkBlank || !v.stripBlank
    ensures IndentTrimmed(Inputs(segs), Render(segs, v, PrefixTest))
    decreases |segs|
  {
    if segs != [] {
      SegIndentTrimmed(segs[0], v);
      RenderIndentTrimmed(segs[1..], v);
      IndentTrimmedConcat(SegIn(segs[0]), SegOut(segs[0], v, PrefixTest), Inputs(segs[1..]), Render(segs[1..], v, PrefixTest));
    }
  }

  /** The line count never changes and every line keeps its place, at most shortened at the front. */
  lemma {:induction false} DedentFromTrimmed(lines: seq<string>, i: nat, v: Variant, cmp: Compare)
    requires i <= |lines|
    ensures Trimmed(lines[i..], DedentFrom(lines, i, v, cmp))
  {
    ScanCovers(lines, i);
    RenderTrimmed(Scan(lines, i), v, cmp);
  }

  /** With the prefix test, only indentation (spaces and tabs) is ever removed. */
  lemma {:induction false} DedentFromIndentTrimmed(lines: seq<string>, i: nat, v: Variant)
    requires i <= |lines|
    requires v.checkBlank || !v.stripBlank
    ensures IndentTrimmed(lines[i..], DedentFrom(lines, i, v, PrefixTest))
  {
    ScanCovers(lines, i);
    RenderIndentTrimmed(Scan(lines, i), v);
  }

  /** A message without any fence line is returned unchanged. */
  lemma {:induction false} NoFenceKeepsLines(lines: seq<string>, i: nat, v: Variant, cmp: Compare)
    requires i <= |lines|
    requires forall j :: i <= j < |lines| ==> !FenceAt(lines[j])
    ensures DedentFrom(lines, i, v, cmp) == lines[i..]
    decreases |lines| - i
  {
    if i < |lines| {
      ScanPlain(lines, i);
      RenderCons(Plain(lines[i]), Scan(lines, i + 1), v, cmp);
      NoFenceKeepsLines(lines, i + 1, v, cmp);
      SplitHead(lines, i);
    }
  }

  lemma {:induction false} NoFenceNoChange(message: string, v: Variant, cmp: Compare)
    requires forall j :: 0 <= j < |SplitLinesKeep(message)| ==> !FenceAt(SplitLinesKeep(message)[j])
    ensures Dedent(message, v, cmp) == message
  {
    var lines := SplitLinesKeep(message);
    NoFenceKeepsLines(lines, 0, v, cmp);
    assert lines[0..] == lines;
    ConcatSplitLinesKeep(message);
  }

  /** An unclosed fence leaves the rest of the message untouched. */
  lemma {:induction false} UnclosedKeepsRest(lines: seq<string>, i: nat, v: Variant, cmp: Compare)
    requires i < |lines| && FenceAt(lines[i])
    requires forall m :: i + 1 <= m < |lines| ==> !IsClose(lines[m], IndentOf(lines[i]), FenceOf(lines[i]))
    ensures DedentFrom(lines, i, v, cmp) == lines[i..]
  {
    FindCloseNone(lines, i + 1, IndentOf(lines[i]), FenceOf(lines[i]));
    ScanOpen(lines, i);
    RenderCons(Unclosed(lines[i..]), [], v, cmp);
    assert [Unclosed(lines[i..])] + [] == [Unclosed(lines[i..])];
  }

  /** Every line of `block` without its first `n` characters. */
  function DropEach(block: seq<string>, n: nat): (r: seq<string>)
    ensures |r| == |block|
  {
    seq(|block|, m requires 0 <= m < |block| => Drop(block[m], n))
  }

  /** With the prefix test, a block whose lines all start with the (blank) indentation and are not blank loses exactly it. */
  lemma {:induction false} ShiftedWhenIndented(block: seq<string>, indent: string, v: Variant)
    requires forall q :: 0 <= q < |indent| ==> IsBlank(indent[q])
    requires forall m :: 0 <= m < |block| ==> StartsWith(block[m], indent) && !AllSpace(block[m])
    ensures BlockOut(block, indent, v, PrefixTest) == DropEach(block, |indent|)
  {
    forall m | 0 <= m < |block|
      ensures Shares(block[m], indent, v, PrefixTest)
    {
      BlankPrefixIndent(indent, block[m]);
    }
    assert Uniform(block, indent, v, PrefixTest);
    assert DedentBlock(block, |indent|, v) == DropEach(block, |indent|);
  }

  /**
   * With the prefix test, a closed block whose lines all start with the
   * fence's indentation and are not blank is shifted left by exactly that
   * indentation.
   */
  lemma {:induction false} IndentedBlockShifted(lines: seq<string>, i: nat, k: nat, v: Variant)
    requires i < k < |lines| && FenceAt(lines[i])
    requires FindClose(lines, i + 1, IndentOf(lines[i]), FenceOf(lines[i])) == Some(k)
    requires forall m :: i <= m <= k ==> StartsWith(lines[m], IndentOf(lines[i])) && !AllSpace(lines[m])
    ensures DedentFrom(lines, i, v, PrefixTest)
      == DropEach(lines[i..k + 1], |IndentOf(lines[i])|) + DedentFrom(lines, k + 1, v, PrefixTest)
  {
    var indent := IndentOf(lines[i]);
    var block := lines[i..k + 1];
    ScanClosed(lines, i, k);
    RenderCons(Closed(indent, block), Scan(lines, k + 1), v, PrefixTest);
    forall m | 0 <= m < |block|
      ensures StartsWith(block[m], indent) && !AllSpace(block[m])
    {
      assert block[m] == lines[i + m];
    }
    ShiftedWhenIndented(block, indent, v);
  }

  lemma {:induction false} BlankPrefixRun(indent: string, s: string)
    requires forall c :: c in indent ==> IsBlank(c)
    requires s != [] && !IsBlank(s[0])
    ensures LeadingBlank(indent + s) == |indent|
    decreases |indent|
  {
    if indent == [] {
      assert indent + s == s;
    } else {
      assert (indent + s)[1..] == indent[1..] + s;
      BlankPrefixRun(indent[1..], s);
    }
  }

  lemma {:induction false} BlankPrefixIndent(indent: string, line: string)
    requires forall q :: 0 <= q < |indent| ==> IsBlank(indent[q])
    requires StartsWith(line, indent)
    ensures StartsWith(IndentOf(line), indent)
    decreases |indent|
  {
    if indent != [] {
      assert IsBlank(line[0]) by { assert line[0] == indent[0]; }
      BlankPrefixIndent(indent[1..], line[1..]);
      assert IndentOf(line) == [line[0]] + IndentOf(line[1..]);
    }
  }

  // ---------------------------------------------------------------------------
  // The string comparison as written

  /**
   * With a fence indented by two tabs, a line indented by one space passes
   * `line_indent < indent` (a space sorts after a tab), so the line loses its
   * first two characters, the 'x' included: more than indentation is removed.
   */
  lemma {:induction false} StringLessDropsText(v: Variant)
    ensures var lines := ["\t\t```\n", " x\n", "\t\t```\n"];
      DedentFrom(lines, 0, v, StringLess) == ["```\n", "\n", "```\n"]
      && !IndentTrimmed(lines, DedentFrom(lines, 0, v, StringLess))
  {
    var lines := ["\t\t```\n", " x\n", "\t\t```\n"];
    CounterexampleScan(lines);
    RenderCons(Closed("\t\t", lines), [], v, StringLess);
    CounterexampleBlock(lines, v);
    assert !IndentRemoved(lines[1], "\n") by { assert !IsBlank(lines[1][1]); }
  }

  /** The three lines form one closed block indented by two tabs. */
  lemma {:induction false} CounterexampleScan(lines: seq<string>)
    requires lines == ["\t\t```\n", " x\n", "\t\t```\n"]
    ensures Scan(lines, 0) == [Closed("\t\t", lines)]
  {
    CounterexampleLines();
    FindCloseFirst(lines, 1, "\t\t", '`', 2);
    ScanClosed(lines, 0, 2);
    assert lines[0..3] == lines;
    assert Scan(lines, 3) == [];
  }

  /** Every line passes the string comparison, so each loses two characters. */
  lemma {:induction false} CounterexampleBlock(lines: seq<string>, v: Variant)
    requires lines == ["\t\t```\n", " x\n", "\t\t```\n"]
    ensures BlockOut(lines, "\t\t", v, StringLess) == ["```\n", "\n", "```\n"]
  {
    CounterexampleLines();
    assert Uniform(lines, "\t\t", v, StringLess);
  }

  /** The facts about the three lines of `StringLessDropsText` that the scan relies on. */
  lemma {:induction false} CounterexampleLines()
    ensures FenceAt("\t\t```\n") && IndentOf("\t\t```\n") == "\t\t" && FenceOf("\t\t```\n") == '`'
    ensures IndentOf(" x\n") == " " && !AllSpace(" x\n") && !FenceAt(" x\n")
    ensures !AllSpace("\t\t```\n")
    ensures !PyLess(" ", "\t\t") && !PyLess("\t\t", "\t\t")
    ensures Drop("\t\t```\n", 2) == "```\n" && Drop(" x\n", 2) == "\n"
  {
    var open := "\t\t```\n";
    assert LeadingBlank(open) == 2 by { BlankPrefixRun("\t\t", "```\n"); assert open == "\t\t" + "```\n"; }
    assert LeadingBlank(" x\n"[1..]) == 0;
    assert LeadingBlank(" x\n") == 1;
    assert !PyLess("\t", "\t") by { assert !PyLess("", ""); }
    assert !AllSpace(" x\n") by { assert " x\n"[1] == 'x'; }
    assert !AllSpace(open) by { assert open[2] == '`'; }
  }
}
