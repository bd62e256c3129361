/**
 * `fix_markdown_headings`: a non-blank line between two rule lines (ten or more
 * of '─' and '-') becomes a level-two Markdown heading followed by an empty
 * line. Every other line loses its trailing whitespace.
 */
module Headings {
  import opened Strings

  /** Every character is '─' (U+2500) or '-'. */
  predicate RuleChars(line: string)
  {
    line == [] || ((line[0] == '\U{2500}' || line[0] == '-') && RuleChars(line[1..]))
  }

  /** `re.fullmatch(r'[─-]{10,}', line)`. */
  predicate IsRule(line: string)
  {
    |line| >= 10 && RuleChars(line)
  }

  /** Lines `i..i+2` form a rule / heading / rule triple, compared after `rstrip()`. */
  predicate HeadingAt(lines: seq<string>, i: nat)
    requires i < |lines|
  {
    i + 2 < |lines| && IsRule(RStrip(lines[i])) && IsRule(RStrip(lines[i + 2]))
    && Strip(RStrip(lines[i + 1])) != []
  }

  /** Where the triples start, the only thing the scan needs to know about a line besides its text. */
  function Marks(lines: seq<string>): (m: seq<bool>)
    ensures |m| == |lines|
    ensures forall i :: 0 <= i < |lines| ==> (m[i] <==> HeadingAt(lines, i))
  {
    seq(|lines|, i requires 0 <= i < |lines| => HeadingAt(lines, i))
  }

  /** What an unconverted line becomes: the line without trailing whitespace. */
  function Kept(lines: seq<string>): (k: seq<string>)
    ensures |k| == |lines|
    ensures forall i :: 0 <= i < |lines| ==> k[i] == RStrip(lines[i])
  {
    seq(|lines|, i requires 0 <= i < |lines| => RStrip(lines[i]))
  }

  /** What a triple starting at a line becomes: the heading made of the next line. */
  function Titles(lines: seq<string>): (t: seq<string>)
    ensures |t| == |lines|
    ensures forall i :: 0 <= i < |lines| - 1 ==> t[i] == "## " + Strip(RStrip(lines[i + 1]))
  {
    seq(|lines|, i requires 0 <= i < |lines| =>
      if i + 1 < |lines| then "## " + Strip(RStrip(lines[i + 1])) else "")
  }

  /** The three per-line tables agree in length and a mark leaves room for the two lines after it. */
  predicate TablesOk(m: seq<bool>, kept: seq<string>, titles: seq<string>)
  {
    |kept| == |m| && |titles| == |m| && forall i :: 0 <= i < |m| && m[i] ==> i + 2 < |m|
  }

  lemma {:induction false} LinesTablesOk(lines: seq<string>)
    ensures TablesOk(Marks(lines), Kept(lines), Titles(lines))
  {
  }

  /** The output lines from line `i` on, given the tables. */
  function Scan(m: seq<bool>, kept: seq<string>, titles: seq<string>, i: nat): seq<string>
    requires TablesOk(m, kept, titles) && i <= |m|
    decreases |m| - i
  {
    if i == |m| then []
    else if m[i] then [titles[i], ""] + Scan(m, kept, titles, i + 3)
    else [kept[i]] + Scan(m, kept, titles, i + 1)
  }

  /** The output lines for `lines[i..]`. */
  function HeadingsFrom(lines: seq<string>, i: nat): seq<string>
    requires i <= |lines|
  {
    LinesTablesOk(lines);
    Scan(Marks(lines), Kept(lines), Titles(lines), i)
  }

  function Headings(lines: seq<string>): seq<string>
  {
    HeadingsFrom(lines, 0)
  }

  function FixHeadings(text: string): string
  {
    Join(Headings(SplitLines(text)), "\n")
  }

  /** Appending the first output lines of the scan to what came before. */
  lemma {:induction false} ScanStep(m: seq<bool>, kept: seq<string>, titles: seq<string>, i: nat, output: seq<string>)
    requires TablesOk(m, kept, titles) && i < |m|
    ensures m[i] ==> output + [titles[i]] + [""] + Scan(m, kept, titles, i + 3) == output + Scan(m, kept, titles, i)
    ensures !m[i] ==> output + [kept[i]] + Scan(m, kept, titles, i + 1) == output + Scan(m, kept, titles, i)
  {
    if m[i] {
      var t := Scan(m, kept, titles, i + 3);
      assert output + [titles[i]] + [""] + t == output + ([titles[i], ""] + t);
    } else {
      var t := Scan(m, kept, titles, i + 1);
      assert output + [kept[i]] + t == output + ([kept[i]] + t);
    }
  }

  /** A converting step of the loop: the triple at `i` becomes a heading and an empty line. */
  lemma {:induction false} ConvertStep(lines: seq<string>, i: nat, output: seq<string>, h: string)
    requires i < |lines| && HeadingAt(lines, i) && h == "## " + Strip(RStrip(lines[i + 1]))
    ensures output + [h] + [""] + HeadingsFrom(lines, i + 3) == output + HeadingsFrom(lines, i)
  {
    LinesTablesOk(lines);
    assert Marks(lines)[i];
    assert Titles(lines)[i] == h;
    ScanStep(Marks(lines), Kept(lines), Titles(lines), i, output);
  }

  /** A copying step of the loop: line `i` is emitted without trailing whitespace. */
  lemma {:induction false} KeepStep(lines: seq<string>, i: nat, output: seq<string>)
    requires i < |lines| && !HeadingAt(lines, i)
    ensures output + [RStrip(lines[i])] + HeadingsFrom(lines, i + 1) == output + HeadingsFrom(lines, i)
  {
    LinesTablesOk(lines);
    assert !Marks(lines)[i];
    assert Kept(lines)[i] == RStrip(lines[i]);
    ScanStep(Marks(lines), Kept(lines), Titles(lines), i, output);
  }

  /** `fix_markdown_headings`. */
  method FixMarkdownHeadings(text: string) returns (r: string)
    ensures r == FixHeadings(text)
  {
    var lines := SplitLines(text);
    var output: seq<string> := [];
    var i := 0;
    while i < |lines|
      invariant 0 <= i <= |lines|
      invariant output + HeadingsFrom(lines, i) == Headings(lines)
      decreases |lines| - i
    {
      var line := RStrip(lines[i]);
      if IsRule(line) {
        if i + 2 < |lines| {
          var headingCandidate := RStrip(lines[i + 1]);
          var nextLine := RStrip(lines[i + 2]);
          if IsRule(nextLine) {
            if Strip(headingCandidate) != [] {
              ConvertStep(lines, i, output, "## " + Strip(headingCandidate));
              output := output + ["## " + Strip(headingCandidate)];
              output := output + [""];
              i := i + 3;
              continue;
            }
          }
        }
      }
      KeepStep(lines, i, output);
      output := output + [line];
      i := i + 1;
    }
    assert output + HeadingsFrom(lines, i) == output;
    r := Join(output, "\n");
  }

  // ---------------------------------------------------------------------------
  // Properties

  /** The tables of `p + rest` after `p` are those of `rest`. */
  lemma {:induction false} TableShift(p: seq<string>, rest: seq<string>, i: nat)
    requires i < |rest|
    ensures Marks(p + rest)[|p| + i] == Marks(rest)[i]
    ensures Kept(p + rest)[|p| + i] == Kept(rest)[i]
    ensures Titles(p + rest)[|p| + i] == Titles(rest)[i]
  {
    var lines := p + rest;
    var j := |p| + i;
    assert lines[j] == rest[i];
    if i + 1 < |rest| {
      assert lines[j + 1] == rest[i + 1];
    }
    if i + 2 < |rest| {
      assert lines[j + 2] == rest[i + 2];
    }
  }

  /** Two table triples that agree from an offset on give the same scan from there. */
  lemma {:induction false} ScanSuffix(m: seq<bool>, kept: seq<string>, titles: seq<string>,
                                      m': seq<bool>, kept': seq<string>, titles': seq<string>, d: nat, i: nat)
    requires TablesOk(m, kept, titles) && TablesOk(m', kept', titles')
    requires |m| == d + |m'| && i <= |m'|
    requires forall k :: i <= k < |m'| ==> m[d + k] == m'[k] && kept[d + k] == kept'[k] && titles[d + k] == titles'[k]
    ensures Scan(m, kept, titles, d + i) == Scan(m', kept', titles', i)
    decreases |m'| - i
  {
    if i < |m'| {
      assert m[d + i] == m'[i] && kept[d + i] == kept'[i] && titles[d + i] == titles'[i];
      if m'[i] {
        assert i + 3 <= |m'|;
        ScanSuffix(m, kept, titles, m', kept', titles', d, i + 3);
        assert Scan(m, kept, titles, d + i) == [titles[d + i], ""] + Scan(m, kept, titles, d + i + 3);
      } else {
        ScanSuffix(m, kept, titles, m', kept', titles', d, i + 1);
        assert Scan(m, kept, titles, d + i) == [kept[d + i]] + Scan(m, kept, titles, d + i + 1);
      }
    }
  }

  /** The output for lines after a prefix `p` is the output for those lines alone. */
  lemma {:induction false} HeadingsShift(p: seq<string>, rest: seq<string>, i: nat)
    requires i <= |rest|
    ensures HeadingsFrom(p + rest, |p| + i) == HeadingsFrom(rest, i)
  {
    var lines := p + rest;
    LinesTablesOk(lines);
    LinesTablesOk(rest);
    forall k | i <= k < |rest|
      ensures Marks(lines)[|p| + k] == Marks(rest)[k] && Kept(lines)[|p| + k] == Kept(rest)[k]
        && Titles(lines)[|p| + k] == Titles(rest)[k]
    {
      TableShift(p, rest, k);
    }
    ScanSuffix(Marks(lines), Kept(lines), Titles(lines), Marks(rest), Kept(rest), Titles(rest), |p|, i);
  }

  /** A rule / heading / rule triple becomes "## heading" and an empty line. */
  lemma {:induction false} HeadingTriple(rule1: string, title: string, rule2: string, rest: seq<string>)
    requires IsRule(RStrip(rule1)) && IsRule(RStrip(rule2)) && Strip(title) != []
    ensures Headings([rule1, title, rule2] + rest) == ["## " + Strip(title), ""] + Headings(rest)
  {
    var lines := [rule1, title, rule2] + rest;
    StripOfRStrip(title);
    assert lines[0] == rule1 && lines[1] == title && lines[2] == rule2;
    assert Marks(lines)[0];
    assert Titles(lines)[0] == "## " + Strip(title);
    HeadingsShift([rule1, title, rule2], rest, 0);
  }

  /** A blank line between two rules is not a heading: the first rule is kept as it is. */
  lemma {:induction false} BlankMiddleNotConverted(rule1: string, middle: string, rule2: string, rest: seq<string>)
    requires AllSpace(middle)
    ensures Headings([rule1, middle, rule2] + rest) == [RStrip(rule1)] + Headings([middle, rule2] + rest)
  {
    var lines := [rule1, middle, rule2] + rest;
    StripOfRStrip(middle);
    StripEmptyIffAllSpace(middle);
    assert lines[0] == rule1 && lines[1] == middle;
    assert !Marks(lines)[0];
    assert Kept(lines)[0] == RStrip(rule1);
    assert lines == [rule1] + ([middle, rule2] + rest);
    HeadingsShift([rule1], [middle, rule2] + rest, 0);
  }

  /** `strip()` after `rstrip()` is `strip()`. */
  lemma {:induction false} StripOfRStrip(s: string)
    ensures Strip(RStrip(s)) == Strip(s)
  {
    var r := RStrip(s);
    var a := LeadingSpace(s);
    var b := TrailingSpace(s);
    if a + b >= |s| {
      // all of `s` is whitespace
      assert forall k :: 0 <= k < |s| ==> IsSpace(s[k]);
      assert AllSpace(r);
      StripEmptyIffAllSpace(r);
      StripEmptyIffAllSpace(s);
    } else {
      assert LeadingSpace(r) == a;
      var l := LStrip(s);
      assert l == s[a..];
      assert TrailingSpace(l) == b;
      assert LStrip(r) == s[a..|s| - b];
      assert TrailingSpace(LStrip(r)) == 0;
    }
  }

  /** Without marks every line is kept as its table entry. */
  lemma {:induction false} UnmarkedKept(m: seq<bool>, kept: seq<string>, titles: seq<string>, i: nat)
    requires TablesOk(m, kept, titles) && i <= |m|
    requires forall k :: 0 <= k < |m| ==> !m[k]
    ensures |Scan(m, kept, titles, i)| == |m| - i
    ensures forall k :: i <= k < |m| ==> Scan(m, kept, titles, i)[k - i] == kept[k]
    decreases |m| - i
  {
    if i < |m| {
      UnmarkedKept(m, kept, titles, i + 1);
    }
  }

  /** Without rule lines the text keeps its lines, each without trailing whitespace. */
  lemma {:induction false} NoRulesOnlyRStrip(lines: seq<string>)
    requires forall k :: 0 <= k < |lines| ==> !IsRule(RStrip(lines[k]))
    ensures |Headings(lines)| == |lines|
    ensures forall k :: 0 <= k < |lines| ==> Headings(lines)[k] == RStrip(lines[k])
  {
    var m := Marks(lines);
    forall k | 0 <= k < |lines|
      ensures !m[k]
    {
    }
    LinesTablesOk(lines);
    UnmarkedKept(m, Kept(lines), Titles(lines), 0);
  }

  /** The line has no trailing whitespace. */
  predicate EndsClean(s: string)
  {
    s == [] || !IsSpace(s[|s| - 1])
  }

  /** The output line for a mark ends in the title's last character. */
  lemma {:induction false} HeadingLineEnds(lines: seq<string>, i: nat)
    requires i < |lines| && HeadingAt(lines, i)
    ensures EndsClean("## " + Strip(RStrip(lines[i + 1])))
  {
    var s := Strip(RStrip(lines[i + 1]));
    assert ("## " + s)[|"## " + s| - 1] == s[|s| - 1];
  }

  /** When every table entry the scan can use ends clean, so does every output line. */
  lemma {:induction false} CleanFrom(m: seq<bool>, kept: seq<string>, titles: seq<string>, i: nat)
    requires TablesOk(m, kept, titles) && i <= |m|
    requires forall k :: 0 <= k < |m| ==> EndsClean(kept[k]) && (m[k] ==> EndsClean(titles[k]))
    ensures forall k :: 0 <= k < |Scan(m, kept, titles, i)| ==> EndsClean(Scan(m, kept, titles, i)[k])
    decreases |m| - i
  {
    if i < |m| {
      if m[i] {
        CleanFrom(m, kept, titles, i + 3);
      } else {
        CleanFrom(m, kept, titles, i + 1);
      }
    }
  }

  /** No output line ends in whitespace. */
  lemma {:induction false} NoTrailingSpace(lines: seq<string>)
    ensures forall k :: 0 <= k < |Headings(lines)| ==> EndsClean(Headings(lines)[k])
  {
    var m := Marks(lines);
    var kept := Kept(lines);
    var titles := Titles(lines);
    forall k | 0 <= k < |lines|
      ensures EndsClean(kept[k]) && (m[k] ==> EndsClean(titles[k]))
    {
      if m[k] {
        HeadingLineEnds(lines, k);
      }
    }
    LinesTablesOk(lines);
    CleanFrom(m, kept, titles, 0);
  }

  /** Every heading stands in for three lines and every other line for one, so lines are never added. */
  lemma {:induction false} NeverMoreLinesFrom(m: seq<bool>, kept: seq<string>, titles: seq<string>, i: nat)
    requires TablesOk(m, kept, titles) && i <= |m|
    ensures |Scan(m, kept, titles, i)| <= |m| - i
    decreases |m| - i
  {
    if i < |m| {
      if m[i] {
        NeverMoreLinesFrom(m, kept, titles, i + 3);
      } else {
        NeverMoreLinesFrom(m, kept, titles, i + 1);
      }
    }
  }

  lemma {:induction false} NeverMoreLines(lines: seq<string>)
    ensures |Headings(lines)| <= |lines|
  {
    LinesTablesOk(lines);
    NeverMoreLinesFrom(Marks(lines), Kept(lines), Titles(lines), 0);
  }
}
