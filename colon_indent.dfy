/**
 * `fix_indentation_after_colon`: after a line that ends with ':' and is not
 * itself a list item, over-indented list items are shifted left by the
 * indentation of the line right after the header.
 *
 * The loop keeps two pieces of state, whether it is inside such an intro block
 * and the indentation to remove; `StateAt` is that state before line `i` and
 * `OutLine` is what the loop emits for line `i`.
 */
module ColonIndent {
  import opened Strings

  /** `stripped.endswith(':')` and not a dash or ordinal item. */
  predicate IsColonHeader(line: string)
  {
    var stripped := LStrip(line);
    EndsWith(stripped, ":") && !StartsWith(stripped, "-") && !StartsWithOrdinal(stripped)
  }

  /**
   * Line `i` opens an intro block. The source compares the line with the last
   * line by value, so any line equal to the last line never opens one.
   */
  predicate Opens(lines: seq<string>, i: nat)
    requires i < |lines|
  {
    IsColonHeader(lines[i]) && lines[|lines| - 1] != lines[i]
  }

  /** `re.match(r'^\s+- ', line)`. */
  predicate IndentedDash(line: string)
  {
    var w := LeadingSpace(line);
    w > 0 && w + 1 < |line| && line[w] == '-' && line[w + 1] == ' '
  }

  /** `re.match(r'^\s+\d+\.', line)`. */
  predicate IndentedOrdinal(line: string)
  {
    var w := LeadingSpace(line);
    w > 0 && StartsWithOrdinal(line[w..])
  }

  /** `re.match(r'^\s*-\s', line)`. */
  predicate DashItem(line: string)
  {
    var w := LeadingSpace(line);
    w + 1 < |line| && line[w] == '-' && IsSpace(line[w + 1])
  }

  predicate IsItem(line: string)
  {
    IndentedDash(line) || IndentedOrdinal(line)
  }

  /** A line that opens a block is never the last one, so the next line exists. */
  lemma {:induction false} OpensHasNext(lines: seq<string>, i: nat)
    requires i < |lines| && Opens(lines, i)
    ensures i + 1 < |lines|
  {
  }

  /**
   * What the loop body looks at in line `i`: whether it opens a block, is an
   * indented list item or matches `^\s*-\s`, and the indentation of the next
   * line (`len(lines[i+1]) - len(lines[i+1].lstrip())`).
   */
  datatype Info = Info(opens: bool, item: bool, dash: bool, nextIndent: nat)

  function InfoAt(lines: seq<string>, i: nat): Info
    requires i < |lines|
  {
    Info(Opens(lines, i), IsItem(lines[i]), DashItem(lines[i]),
      if i + 1 < |lines| then LeadingSpace(lines[i + 1]) else 0)
  }

  function Infos(lines: seq<string>): (r: seq<Info>)
    ensures |r| == |lines|
  {
    seq(|lines|, i requires 0 <= i < |lines| => InfoAt(lines, i))
  }

  /** The loop state: `inside_intro_block` and `indent`. */
  datatype Block = Block(inside: bool, indent: nat)

  /** The state after a line. */
  function Step(info: Info, st: Block): Block
  {
    if info.opens then Block(true, info.nextIndent)
    else if st.inside && info.item then st
    else if !info.dash then Block(false, st.indent)
    else st
  }

  /** What the loop emits for a line in state `st`. */
  function OutLine(line: string, info: Info, st: Block): string
  {
    if info.opens then line
    else if st.inside && info.item then Drop(line, st.indent)
    else line
  }

  /** The state before line `i`. */
  function Run(infos: seq<Info>, i: nat): Block
    requires i <= |infos|
  {
    if i == 0 then Block(false, 0) else Step(infos[i - 1], Run(infos, i - 1))
  }

  function StateAt(lines: seq<string>, i: nat): Block
    requires i <= |lines|
  {
    Run(Infos(lines), i)
  }

  /** The first `i` emitted lines. */
  function Emitted(lines: seq<string>, infos: seq<Info>, i: nat): (r: seq<string>)
    requires i <= |lines| == |infos|
    ensures |r| == i
    ensures forall j :: 0 <= j < i ==> r[j] == OutLine(lines[j], infos[j], Run(infos, j))
  {
    if i == 0 then [] else Emitted(lines, infos, i - 1) + [OutLine(lines[i - 1], infos[i - 1], Run(infos, i - 1))]
  }

  function FixLines(lines: seq<string>): seq<string>
  {
    Emitted(lines, Infos(lines), |lines|)
  }

  function FixIndentation(text: string): string
  {
    Join(FixLines(Split(text, '\n')), "\n")
  }

  lemma {:induction false} StateStep(lines: seq<string>, i: nat)
    requires i < |lines|
    ensures StateAt(lines, i + 1) == Step(InfoAt(lines, i), StateAt(lines, i))
  {
    assert Infos(lines)[i] == InfoAt(lines, i);
  }

  /** The loop body for line `i` in state `st`: the line it emits and the state after it. */
  method StepLine(lines: seq<string>, i: nat, st: Block) returns (out: string, next: Block)
    requires i < |lines|
    ensures out == OutLine(lines[i], InfoAt(lines, i), st)
    ensures next == Step(InfoAt(lines, i), st)
  {
    var line := lines[i];
    var stripped := LStrip(line);
    if EndsWith(stripped, ":") && !StartsWith(stripped, "-") && !StartsWithOrdinal(stripped)
      && !(lines[|lines| - 1] == line)
    {
      OpensHasNext(lines, i);
      out := line;
      next := Block(true, |lines[i + 1]| - |LStrip(lines[i + 1])|);
    } else if st.inside && IndentedDash(line) {
      out, next := Drop(line, st.indent), st;
    } else if st.inside && IndentedOrdinal(line) {
      out, next := Drop(line, st.indent), st;
    } else if !DashItem(line) {
      out, next := line, Block(false, st.indent);
    } else {
      out, next := line, st;
    }
  }

  /** `fix_indentation_after_colon`. */
  method FixIndentationAfterColon(text: string) returns (r: string)
    ensures r == FixIndentation(text)
  {
    var lines := Split(text, '\n');
    var fixed: seq<string> := [];
    var inside := false;
    var indent: nat := 0;
    for i := 0 to |lines|
      invariant fixed == Emitted(lines, Infos(lines), i)
      invariant Block(inside, indent) == StateAt(lines, i)
    {
      var out, next := StepLine(lines, i, Block(inside, indent));
      StateStep(lines, i);
      assert Infos(lines)[i] == InfoAt(lines, i);
      fixed := fixed + [out];
      inside, indent := next.inside, next.indent;
    }
    r := Join(fixed, "\n");
  }

  // ---------------------------------------------------------------------------
  // Properties

  /** Whatever the state, the emitted line is the input line with some leading characters removed. */
  lemma {:induction false} OutLineSuffix(line: string, info: Info, st: Block)
    ensures EndsWith(line, OutLine(line, info, st))
  {
  }

  /** Every output line is its input line with some leading characters removed. */
  lemma {:induction false} OutputLineIsSuffix(lines: seq<string>, j: nat)
    requires j < |lines|
    ensures |FixLines(lines)| == |lines|
    ensures EndsWith(lines[j], FixLines(lines)[j])
  {
    var infos := Infos(lines);
    OutLineSuffix(lines[j], infos[j], Run(infos, j));
  }

  /** The number of lines is preserved. */
  lemma {:induction false} LineCountPreserved(text: string)
    ensures |Split(FixIndentation(text), '\n')| == |Split(text, '\n')|
  {
    var lines := Split(text, '\n');
    var out := FixLines(lines);
    forall k | 0 <= k < |out| ensures '\n' !in out[k] {
      OutputLineIsSuffix(lines, k);
      var line := lines[k];
      assert out[k] == line[|line| - |out[k]|..];
    }
    SplitJoin(out, '\n');
  }

  /** The state after a header line: inside, with the next line's indentation. */
  lemma {:induction false} StateAfterHeader(lines: seq<string>, i: nat)
    requires i < |lines| && Opens(lines, i)
    ensures i + 1 < |lines|
    ensures StateAt(lines, i + 1) == Block(true, LeadingSpace(lines[i + 1]))
  {
    StateStep(lines, i);
  }

  /** An indented list item never opens a block itself. */
  lemma {:induction false} ItemNeverOpens(lines: seq<string>, j: nat)
    requires j < |lines| && IsItem(lines[j])
    ensures !Opens(lines, j)
  {
    var w := LeadingSpace(lines[j]);
    assert LStrip(lines[j]) == lines[j][w..];
  }

  /** In a block, a list item is shifted by the block's indentation. */
  lemma {:induction false} ItemShifted(lines: seq<string>, j: nat)
    requires j < |lines| && StateAt(lines, j).inside && IsItem(lines[j])
    ensures FixLines(lines)[j] == Drop(lines[j], StateAt(lines, j).indent)
  {
    ItemNeverOpens(lines, j);
  }

  /**
   * The header line itself is kept, and a list item right after it loses its
   * whole indentation.
   */
  lemma {:induction false} HeaderThenItem(lines: seq<string>, i: nat)
    requires i + 1 < |lines| && Opens(lines, i)
    requires IsItem(lines[i + 1])
    ensures FixLines(lines)[i] == lines[i]
    ensures FixLines(lines)[i + 1] == LStrip(lines[i + 1])
  {
    StateAfterHeader(lines, i);
    ItemShifted(lines, i + 1);
  }

  /** A run of list items inside a block keeps the state. */
  lemma {:induction false} RunKeepsState(infos: seq<Info>, a: nat, j: nat)
    requires a <= j <= |infos| && Run(infos, a).inside
    requires forall k :: a <= k < j ==> infos[k].item && !infos[k].opens
    ensures Run(infos, j) == Run(infos, a)
    decreases j - a
  {
    if a < j {
      RunKeepsState(infos, a, j - 1);
    }
  }

  /** Along a run of indented list items after a header the state stays as the header set it. */
  lemma {:induction false} ItemsKeepState(lines: seq<string>, i: nat, j: nat)
    requires i < j < |lines| && Opens(lines, i)
    requires forall k :: i < k <= j ==> IsItem(lines[k])
    ensures StateAt(lines, j) == Block(true, LeadingSpace(lines[i + 1]))
  {
    StateAfterHeader(lines, i);
    var infos := Infos(lines);
    forall k | i + 1 <= k < j
      ensures infos[k].item && !infos[k].opens
    {
      ItemNeverOpens(lines, k);
    }
    RunKeepsState(infos, i + 1, j);
  }

  /**
   * Every item of a run of indented list items after a header is shifted left by
   * the indentation of the first one.
   */
  lemma {:induction false} ItemsShiftedByFirstIndent(lines: seq<string>, i: nat, j: nat)
    requires i < j < |lines| && Opens(lines, i)
    requires forall k :: i < k <= j ==> IsItem(lines[k])
    ensures FixLines(lines)[j] == Drop(lines[j], LeadingSpace(lines[i + 1]))
  {
    ItemsKeepState(lines, i, j);
    ItemShifted(lines, j);
  }

  /** The last line never opens a block, nor does any line equal to it. */
  lemma {:induction false} LastLineNeverOpens(lines: seq<string>, i: nat)
    requires i < |lines| && lines[i] == lines[|lines| - 1]
    ensures !Opens(lines, i)
  {
  }

  /** A line that is not an indented list item is emitted unchanged. */
  lemma {:induction false} NonItemUnchanged(lines: seq<string>, j: nat)
    requires j < |lines|
    requires !IsItem(lines[j])
    ensures FixLines(lines)[j] == lines[j]
  {
  }

  /** No line opening a block: never inside one. */
  lemma {:induction false} RunNeverInside(infos: seq<Info>, j: nat)
    requires j <= |infos|
    requires forall k :: 0 <= k < |infos| ==> !infos[k].opens
    ensures !Run(infos, j).inside
  {
    if j > 0 {
      RunNeverInside(infos, j - 1);
    }
  }

  /** Without any header line the state never enters a block. */
  lemma {:induction false} NoHeaderNeverInside(lines: seq<string>, j: nat)
    requires j <= |lines|
    requires forall k :: 0 <= k < |lines| ==> !Opens(lines, k)
    ensures !StateAt(lines, j).inside
  {
    var infos := Infos(lines);
    forall k | 0 <= k < |infos|
      ensures !infos[k].opens
    {
    }
    RunNeverInside(infos, j);
  }

  /** Without any header line the text is unchanged. */
  lemma {:induction false} NoHeaderNoChange(text: string)
    requires forall k :: 0 <= k < |Split(text, '\n')| ==> !Opens(Split(text, '\n'), k)
    ensures FixIndentation(text) == text
  {
    var lines := Split(text, '\n');
    forall j | 0 <= j < |lines| ensures FixLines(lines)[j] == lines[j] {
      NoHeaderNeverInside(lines, j);
    }
    assert FixLines(lines) == lines;
    JoinSplit(text, '\n');
  }
}
