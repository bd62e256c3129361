/**
 * The text helpers `md` and `clean` of both utilities modules.
 *
 * Markdown rendering and Jinja template rendering are not modelled: they are
 * parameters. `html.escape` with its default `quote=True` is modelled
 * exactly: '&', '<', '>', '"' and "'" become entities, '&' first, which
 * amounts to escaping each character on its own.
 */
module HtmlClean {
  import opened Strings
  import EscapeHtml

  /** The entity `html.escape` writes for one character. */
  function QuoteEntity(c: char): (r: string)
    ensures r == [c] <==> c != '&' && c != '<' && c != '>' && c != '"' && c != '\''
  {
    if c == '&' then "&amp;"
    else if c == '<' then "&lt;"
    else if c == '>' then "&gt;"
    else if c == '"' then "&quot;"
    else if c == '\'' then "&#x27;"
    else [c]
  }

  /** `html.escape(s)`. */
  function HtmlEscape(s: string): (r: string)
    ensures |r| >= |s|
  {
    if s == [] then [] else QuoteEntity(s[0]) + HtmlEscape(s[1..])
  }

  /** Decoding of the five entities, the inverse of `HtmlEscape`. */
  function HtmlUnescape(s: string): string
    decreases |s|
  {
    if s == [] then []
    else if s[0] != '&' then [s[0]] + HtmlUnescape(s[1..])
    else if StartsWith(s, "&amp;") then "&" + HtmlUnescape(s[5..])
    else if StartsWith(s, "&lt;") then "<" + HtmlUnescape(s[4..])
    else if StartsWith(s, "&gt;") then ">" + HtmlUnescape(s[4..])
    else if StartsWith(s, "&quot;") then "\"" + HtmlUnescape(s[6..])
    else if StartsWith(s, "&#x27;") then "'" + HtmlUnescape(s[6..])
    else [s[0]] + HtmlUnescape(s[1..])
  }

  /** heymans `md`: a reply with a status marker is passed through as it is, others are rendered. */
  function HeymansMd(text: string, markdown: string -> string): (r: string)
    ensures Contains(text, "<REPORTED>") || Contains(text, "<FINISHED>") ==> r == text
    ensures !Contains(text, "<REPORTED>") && !Contains(text, "<FINISHED>") ==> r == markdown(text)
  {
    if Contains(text, "<REPORTED>") || Contains(text, "<FINISHED>") then text else markdown(text)
  }

  /**
   * heymans `clean`: optional template rendering, then escaping with every
   * newline turned into a line break. With both off the text is returned as
   * it is; after escaping, the only markup left is the "<br>" in front of
   * each newline.
   */
  function HeymansClean(text: string, escapeHtml: bool, render: bool, renderTemplate: string -> string): (r: string)
    ensures !escapeHtml && !render ==> r == text
    ensures escapeHtml ==> OnlyBreaks(r)
  {
    var t := if render then renderTemplate(text) else text;
    var e := HtmlEscape(t);
    var b := Breaks(e);
    assert OnlyBreaks(b) by {
      EscapeNoMarkup(t);
      assert forall j :: 0 <= j < |e| ==> e[j] != '<';
      forall i | 0 <= i < |b| ensures (b[i] == '<' ==> BreakAt(b, i)) && (b[i] == '\n' ==> i >= 4 && BreakAt(b, i - 4)) {
        if b[i] == '<' {
          EveryLtStartsBreak(e, i);
        }
        if b[i] == '\n' {
          EveryNewlineEndsBreak(e, i);
        }
      }
    }
    if escapeHtml then b else t
  }

  /**
   * sigmund `clean`: optional template rendering, then escaping. With both
   * off the text is returned as it is; escaping leaves no markup character
   * and is undone by unescaping.
   */
  function SigmundClean(text: string, escapeHtml: bool, render: bool, renderTemplate: string -> string): (r: string)
    ensures !escapeHtml && !render ==> r == text
    ensures escapeHtml ==> forall i :: 0 <= i < |r| ==> !(r[i] in "<>\"'")
    ensures escapeHtml ==> HtmlUnescape(r) == (if render then renderTemplate(text) else text)
  {
    var t := if render then renderTemplate(text) else text;
    EscapeNoMarkup(t);
    UnescapeEscape(t);
    if escapeHtml then HtmlEscape(t) else t
  }

  // ---------------------------------------------------------------------------
  // Properties

  lemma {:induction false} UnescapeEntity(c: char, rest: string)
    ensures HtmlUnescape(QuoteEntity(c) + rest) == [c] + HtmlUnescape(rest)
  {
    var e := QuoteEntity(c);
    var s := e + rest;
    assert s[..|e|] == e;
    assert s[|e|..] == rest;
    if e == [c] {
      assert s[0] == c && s[1..] == rest;
    } else if c == '&' {
      assert StartsWith(s, "&amp;");
    } else if c == '<' {
      assert s[1] == 'l';
      assert StartsWith(s, "&lt;");
    } else if c == '>' {
      assert s[1] == 'g';
      assert StartsWith(s, "&gt;");
    } else if c == '"' {
      assert s[1] == 'q';
      assert StartsWith(s, "&quot;");
    } else {
      assert s[1] == '#';
      assert StartsWith(s, "&#x27;");
    }
  }

  /** Decoding the entities gives back the text: `html.escape` loses nothing. */
  lemma {:induction false} UnescapeEscape(s: string)
    ensures HtmlUnescape(HtmlEscape(s)) == s
    decreases |s|
  {
    if s != [] {
      UnescapeEntity(s[0], HtmlEscape(s[1..]));
      UnescapeEscape(s[1..]);
    }
  }

  /** The escaped text holds no markup character: '<', '>', '"' and "'" all became entities. */
  lemma {:induction false} EscapeNoMarkup(s: string)
    ensures forall i :: 0 <= i < |HtmlEscape(s)| ==> !(HtmlEscape(s)[i] in "<>\"'")
    decreases |s|
  {
    if s != [] {
      EscapeNoMarkup(s[1..]);
      var e := QuoteEntity(s[0]);
      var r := HtmlEscape(s[1..]);
      assert forall i :: 0 <= i < |e| ==> !(e[i] in "<>\"'");
      assert HtmlEscape(s) == e + r;
      forall i | 0 <= i < |e + r|
        ensures !((e + r)[i] in "<>\"'")
      {
        if i >= |e| {
          assert (e + r)[i] == r[i - |e|];
        }
      }
    }
  }

  /** The line-break form of `s`: "<br>" before every newline. */
  function Breaks(s: string): string
  {
    EscapeHtml.Replace(s, '\n', "<br>\n")
  }

  /** Every '<' of `r` starts a "<br>" and a newline, and every newline ends one. */
  predicate OnlyBreaks(r: string)
  {
    forall i :: 0 <= i < |r| ==> (r[i] == '<' ==> BreakAt(r, i)) && (r[i] == '\n' ==> i >= 4 && BreakAt(r, i - 4))
  }

  /** "<br>" stands at `i` of `r`, and a newline after it. */
  predicate BreakAt(r: string, i: nat)
  {
    i + 4 < |r| && r[i] == '<' && r[i + 1] == 'b' && r[i + 2] == 'r' && r[i + 3] == '>' && r[i + 4] == '\n'
  }

  /** In a text without '<', every '<' after the replacement starts "<br>" and a newline. */
  lemma {:induction false} EveryLtStartsBreak(s: string, i: nat)
    requires forall j :: 0 <= j < |s| ==> s[j] != '<'
    requires i < |Breaks(s)| && Breaks(s)[i] == '<'
    ensures BreakAt(Breaks(s), i)
    decreases |s|
  {
    var h := if s[0] == '\n' then "<br>\n" else [s[0]];
    var t := Breaks(s[1..]);
    assert Breaks(s) == h + t;
    if i >= |h| {
      assert (h + t)[i] == t[i - |h|];
      EveryLtStartsBreak(s[1..], i - |h|);
    }
  }

  /** After the replacement, every newline is the end of a "<br>" and a newline. */
  lemma {:induction false} EveryNewlineEndsBreak(s: string, i: nat)
    requires i < |Breaks(s)| && Breaks(s)[i] == '\n'
    ensures i >= 4 && BreakAt(Breaks(s), i - 4)
    decreases |s|
  {
    var h := if s[0] == '\n' then "<br>\n" else [s[0]];
    var t := Breaks(s[1..]);
    assert Breaks(s) == h + t;
    if i >= |h| {
      assert (h + t)[i] == t[i - |h|];
      EveryNewlineEndsBreak(s[1..], i - |h|);
    }
  }
}
