/**
 * The static helpers of the model base class that carry a thinking block of
 * an Anthropic reply inside the message text as two HTML elements.
 */
module ThinkingBlock {
  import opened Strings
  import opened Wrappers
  import opened Seqs

  const SignatureOpener := "class=\"thinking_block_signature\">"
  const ContentOpener := "class=\"thinking_block_content\">"
  const DivClose := "</div>"

  /** Python truthiness of an optional string: present and non-empty. */
  predicate Truthy(t: Option<string>)
  {
    t.Some? && t.value != []
  }

  /** `embed_thinking_block`: each part present only when it is truthy. */
  function Embed(signature: Option<string>, content: Option<string>): (r: string)
    ensures r == [] <==> !Truthy(signature) && !Truthy(content)
    ensures Truthy(signature) ==> StartsWith(r, "<div " + SignatureOpener + signature.value + DivClose)
  {
    var sig := if Truthy(signature) then "<div " + SignatureOpener + signature.value + DivClose else "";
    var cont := if Truthy(content) then "<div " + ContentOpener + content.value + DivClose else "";
    assert StartsWith(sig + cont, sig) by { assert (sig + cont)[..|sig|] == sig; }
    sig + cont
  }

  /** No '\n' in `s[a..b]`, which `.` needs without DOTALL. */
  predicate LineFree(s: string, a: nat, b: nat)
    requires a <= b <= |s|
  {
    forall j :: a <= j < b ==> s[j] != '\n'
  }

  /** A match of `<div\s+<opener>(.*?)</div>`: it starts at `start`, group 1 is `s[inner..close]`. */
  datatype Span = Span(start: nat, inner: nat, close: nat)

  /**
   * The match of `<div\s+<opener>(.*?)</div>` starting at `p`. `\s+` is
   * greedy and is followed by a letter, so it takes the whole whitespace run;
   * `.*?` stops at the first `</div>`, and without DOTALL fails if a '\n'
   * comes before it.
   */
  function MatchAt(s: string, p: nat, opener: string, dotAll: bool): (r: Option<Span>)
    requires p <= |s|
    ensures r.Some? ==> (r.value.start == p && p < r.value.inner <= r.value.close
      && r.value.close + |DivClose| <= |s| && OccursAt(s, DivClose, r.value.close))
  {
    if !OccursAt(s, "<div", p) then None
    else
      var w := SpaceRun(s, p + 4);
      var inner := p + 4 + w + |opener|;
      if w == 0 || !OccursAt(s, opener, p + 4 + w) then None
      else
        var close := Find(s, DivClose, inner);
        if close == -1 || !(dotAll || LineFree(s, inner, close)) then None
        else Some(Span(p, inner, close))
  }

  /** Where the pattern matches: entry `q` says whether a match starts at `q`. */
  function Hits(s: string, opener: string, dotAll: bool): (h: seq<bool>)
    ensures |h| == |s| + 1
    ensures forall q :: 0 <= q <= |s| ==> (h[q] <==> MatchAt(s, q, opener, dotAll).Some?)
  {
    seq(|s| + 1, q requires 0 <= q <= |s| => MatchAt(s, q, opener, dotAll).Some?)
  }

  /** The first marked position at or after `p`, or `|h|` when there is none. */
  function First(h: seq<bool>, p: nat): (q: nat)
    requires p <= |h|
    ensures p <= q <= |h|
    ensures q < |h| ==> h[q]
    decreases |h| - p
  {
    if p == |h| || h[p] then p else First(h, p + 1)
  }

  /** No position before the first marked one is marked. */
  lemma {:induction false} FirstLeftmost(h: seq<bool>, p: nat)
    requires p <= |h|
    ensures forall q :: p <= q < First(h, p) ==> !h[q]
    decreases |h| - p
  {
    if p < |h| && !h[p] {
      FirstLeftmost(h, p + 1);
    }
  }

  /** `re.search`: the leftmost match at or after `p`. */
  function SearchFrom(s: string, p: nat, opener: string, dotAll: bool): (r: Option<Span>)
    requires p <= |s|
    ensures r.Some? ==> p <= r.value.start <= |s| && MatchAt(s, r.value.start, opener, dotAll) == r
  {
    var q := First(Hits(s, opener, dotAll), p);
    if q <= |s| then MatchAt(s, q, opener, dotAll) else None
  }

  /** The match found is the leftmost one: there is none before it, and none at all when the search fails. */
  lemma {:induction false} SearchFromLeftmost(s: string, p: nat, opener: string, dotAll: bool)
    requires p <= |s|
    ensures var r := SearchFrom(s, p, opener, dotAll);
      r.Some? ==> forall q :: p <= q < r.value.start ==> MatchAt(s, q, opener, dotAll).None?
    ensures SearchFrom(s, p, opener, dotAll).None? ==> forall q :: p <= q <= |s| ==> MatchAt(s, q, opener, dotAll).None?
  {
    var h := Hits(s, opener, dotAll);
    FirstLeftmost(h, p);
  }

  function Group(s: string, m: Span): string
    requires m.inner <= m.close <= |s|
  {
    s[m.inner..m.close]
  }

  /** `re.sub(pattern, '', s, count=1)` once the first match is `m`. */
  function Cut(s: string, m: Span): (r: string)
    requires m.start <= m.close && m.close + |DivClose| <= |s|
    ensures |r| == |s| - (m.close + |DivClose| - m.start)
  {
    s[..m.start] + s[m.close + |DivClose|..]
  }

  /** The outcome of `extract_thinking_block`: the cleaned text, the signature and the thinking content. */
  datatype Extracted = Extracted(text: string, signature: Option<string>, content: Option<string>)

  function Extract(message: string): (r: Extracted)
    ensures r.signature.Some? || r.content.Some? ==> Truthy(r.signature) || Truthy(r.content)
    ensures r.signature.Some? || r.content.Some? ==> r.text == Strip(r.text)
  {
    var m1 := SearchFrom(message, 0, SignatureOpener, false);
    var signature := if m1.Some? then Some(Group(message, m1.value)) else None;
    var afterSig := if m1.Some? then Cut(message, m1.value) else message;
    var m2 := SearchFrom(afterSig, 0, ContentOpener, true);
    var content := if m2.Some? then Some(Group(afterSig, m2.value)) else None;
    var afterContent := if m2.Some? then Cut(afterSig, m2.value) else afterSig;
    if Truthy(signature) || Truthy(content) then
      StripIdempotent(afterContent);
      Extracted(Strip(afterContent), signature, content)
    else Extracted(afterContent, None, None)
  }

  lemma {:induction false} StripIdempotent(s: string)
    ensures Strip(Strip(s)) == Strip(s)
  {
    var t := Strip(s);
    if t != [] {
      assert !IsSpace(t[0]) && !IsSpace(t[|t| - 1]);
    }
  }

  /** `t` holds no `</div>`. */
  predicate NoClose(t: string)
  {
    forall j :: 0 <= j < |t| ==> !OccursAt(t, DivClose, j)
  }

  /** The first `</div>` after a body without one is the one right after the body. */
  lemma {:induction false} FindCloseAfterBody(pre: string, body: string, tail: string)
    requires NoClose(body)
    ensures Find(pre + body + DivClose + tail, DivClose, |pre|) == |pre| + |body|
  {
    var s := pre + body + DivClose + tail;
    var c := |pre| + |body|;
    assert s[c..c + 6] == DivClose;
    forall j | |pre| <= j < c
      ensures !OccursAt(s, DivClose, j)
    {
      if j + 6 <= c {
        assert s[j..j + 6] == body[j - |pre|..j - |pre| + 6];
        assert !OccursAt(body, DivClose, j - |pre|);
      } else if j + 6 <= |s| {
        var d := c - j;
        assert s[j..j + 6][d] == s[c] == '<';
        assert DivClose[d] != '<';
      }
    }
    var r := Find(s, DivClose, |pre|);
    assert OccursAt(s, DivClose, c);
    assert r != -1;
    assert !(r < c);
    assert !(c < r);
  }

  /** The opening tag of an embedded element, `<div ` and the opener. */
  lemma {:induction false} EmbeddedTag(opener: string, rest: string)
    requires opener != [] && !IsSpace(opener[0])
    ensures var s := "<div " + opener + rest;
      OccursAt(s, "<div", 0) && SpaceRun(s, 4) == 1 && OccursAt(s, opener, 5)
  {
    var s := "<div " + opener + rest;
    assert s[0..4] == "<div";
    assert s[4] == ' ' && s[5] == opener[0];
    assert SpaceRun(s, 5) == 0;
    assert s[5..5 + |opener|] == opener;
  }

  /** The body of an embedded element holds no '\n'. */
  lemma {:induction false} EmbeddedLineFree(opener: string, body: string, tail: string)
    requires forall j :: 0 <= j < |body| ==> body[j] != '\n'
    ensures var s := "<div " + opener + body + DivClose + tail;
      LineFree(s, 5 + |opener|, 5 + |opener| + |body|)
  {
    var s := "<div " + opener + body + DivClose + tail;
    var inner := 5 + |opener|;
    forall j | inner <= j < inner + |body|
      ensures s[j] != '\n'
    {
      assert s[j] == body[j - inner];
    }
  }

  /** The element `embed_thinking_block` writes is matched at its start, with the body as group 1. */
  lemma {:induction false} EmbeddedMatch(opener: string, body: string, tail: string, dotAll: bool)
    requires opener != [] && !IsSpace(opener[0])
    requires NoClose(body)
    requires !dotAll ==> forall j :: 0 <= j < |body| ==> body[j] != '\n'
    ensures var s := "<div " + opener + body + DivClose + tail;
      MatchAt(s, 0, opener, dotAll) == Some(Span(0, 5 + |opener|, 5 + |opener| + |body|))
  {
    var s := "<div " + opener + body + DivClose + tail;
    EmbeddedTag(opener, body + DivClose + tail);
    Assoc4("<div " + opener, body, DivClose, tail);
    FindCloseAfterBody("<div " + opener, body, tail);
    if !dotAll {
      EmbeddedLineFree(opener, body, tail);
    }
    MatchFromParts(s, opener, dotAll, 5 + |opener| + |body|);
  }

  /** A match at 0 from its parts: the tag, one space, the opener and the first `</div>` after it. */
  lemma {:induction false} MatchFromParts(s: string, opener: string, dotAll: bool, close: nat)
    requires OccursAt(s, "<div", 0) && SpaceRun(s, 4) == 1 && OccursAt(s, opener, 5)
    requires 5 + |opener| <= close && Find(s, DivClose, 5 + |opener|) == close
    requires dotAll || LineFree(s, 5 + |opener|, close)
    ensures MatchAt(s, 0, opener, dotAll) == Some(Span(0, 5 + |opener|, close))
  {
  }

  /** Searching an embedded element finds it at the start; cutting it leaves the tail. */
  lemma {:induction false} EmbeddedFound(opener: string, body: string, tail: string, dotAll: bool)
    requires opener != [] && !IsSpace(opener[0])
    requires NoClose(body)
    requires !dotAll ==> forall j :: 0 <= j < |body| ==> body[j] != '\n'
    ensures var s := "<div " + opener + body + DivClose + tail;
      var m := SearchFrom(s, 0, opener, dotAll);
      m.Some? && m.value.inner <= m.value.close && Group(s, m.value) == body && Cut(s, m.value) == tail
  {
    var s := "<div " + opener + body + DivClose + tail;
    EmbeddedMatch(opener, body, tail, dotAll);
    var m := Span(0, 5 + |opener|, 5 + |opener| + |body|);
    assert SearchFrom(s, 0, opener, dotAll) == Some(m);
    assert s[m.inner..m.close] == body;
    assert s[m.close + |DivClose|..] == tail;
  }

  /** `extract_thinking_block` when both searches succeed with non-empty groups. */
  lemma {:induction false} ExtractBoth(message: string)
    requires SearchFrom(message, 0, SignatureOpener, false).Some?
    requires var m1 := SearchFrom(message, 0, SignatureOpener, false).value;
      Group(message, m1) != [] && SearchFrom(Cut(message, m1), 0, ContentOpener, true).Some?
    ensures var m1 := SearchFrom(message, 0, SignatureOpener, false).value;
      var afterSig := Cut(message, m1);
      var m2 := SearchFrom(afterSig, 0, ContentOpener, true).value;
      Extract(message) == Extracted(Strip(Cut(afterSig, m2)), Some(Group(message, m1)), Some(Group(afterSig, m2)))
  {
  }

  /**
   * Extraction inverts embedding: a message that starts with the embedded
   * signature and content yields both back, and the rest stripped.
   */
  lemma {:induction false} ExtractEmbed(signature: string, content: string, rest: string)
    requires signature != [] && content != []
    requires NoClose(signature) && NoClose(content)
    requires forall j :: 0 <= j < |signature| ==> signature[j] != '\n'
    ensures Extract(Embed(Some(signature), Some(content)) + rest) == Extracted(Strip(rest), Some(signature), Some(content))
  {
    var b := "<div " + ContentOpener + content + DivClose;
    var s := Embed(Some(signature), Some(content)) + rest;
    assert s == "<div " + SignatureOpener + signature + DivClose + (b + rest);
    EmbeddedFound(SignatureOpener, signature, b + rest, false);
    assert b + rest == "<div " + ContentOpener + content + DivClose + rest;
    EmbeddedFound(ContentOpener, content, rest, true);
    ExtractBoth(s);
  }

  lemma {:induction false} NoDivNoMatch(s: string, p: nat, opener: string, dotAll: bool)
    requires p <= |s|
    requires forall j :: p <= j <= |s| ==> !OccursAt(s, "<div", j)
    ensures SearchFrom(s, p, opener, dotAll).None?
  {
    var h := Hits(s, opener, dotAll);
    FirstLeftmost(h, p);
    var q := First(h, p);
    if q <= |s| {
      assert !OccursAt(s, "<div", q);
    }
  }

  /** Without any `<div`, the message comes back unchanged and nothing is extracted. */
  lemma {:induction false} NoDivUnchanged(message: string)
    requires forall j :: 0 <= j <= |message| ==> !OccursAt(message, "<div", j)
    ensures Extract(message) == Extracted(message, None, None)
  {
    NoDivNoMatch(message, 0, SignatureOpener, false);
    NoDivNoMatch(message, 0, ContentOpener, true);
  }

  /**
   * A signature element whose group is empty is still cut out, but the
   * result is neither stripped nor reported: the text is returned with the
   * element removed.
   */
  lemma {:induction false} EmptySignatureCutUnstripped(rest: string)
    requires forall j :: 0 <= j <= |rest| ==> !OccursAt(rest, "<div", j)
    ensures Extract("<div " + SignatureOpener + DivClose + rest) == Extracted(rest, None, None)
  {
    var s := "<div " + SignatureOpener + DivClose + rest;
    assert s == "<div " + SignatureOpener + [] + DivClose + rest;
    EmbeddedFound(SignatureOpener, [], rest, false);
    NoDivNoMatch(rest, 0, ContentOpener, true);
  }
}
