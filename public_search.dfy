/**
 * The public search endpoint of sigmund: the documents the documentation
 * search returns, read from an offset of whole result pages, with documents
 * whose URL was taken already skipped, each kept document's content cut to a
 * maximum length, and at most a page of documents kept; the public model's
 * answer to a prompt quoting those documents is returned as HTML.
 *
 * The search sources, the public model and the Markdown renderer are oracles:
 * the search is given the documents each source returns for the query, the
 * model's reply is a function of the kept documents, and `utils.md` a
 * function of strings.
 */
module PublicSearch {
  import opened Wrappers
  import opened Strings
  import SD = SigmundDocumentation
  import PyLists
  import Seqs

  /** `config.public_search_docs_max`. */
  const DocsMax: nat := 6

  /** `config.public_search_max_doc_length`. */
  const MaxDocLength: nat := 1000

  /** The fields of the request body the endpoint reads; `None` when a key is missing. */
  datatype Request = Request(source: Option<string>, query: Option<string>, offset: Option<int>)

  /** The URL of a document that has one. */
  function UrlOf(d: SD.Doc): string
  {
    if d.url.Some? then d.url.value else ""
  }

  /** The URLs of the kept documents, in order. */
  function UrlsOf(kept: seq<SD.Doc>): (r: seq<string>)
    ensures |r| == |kept|
    ensures forall k :: 0 <= k < |kept| ==> r[k] == UrlOf(kept[k])
    decreases |kept|
  {
    if kept == [] then [] else UrlsOf(kept[..|kept| - 1]) + [UrlOf(kept[|kept| - 1])]
  }

  /** A document with its content cut to `maxLen` characters. */
  function Truncated(d: SD.Doc, maxLen: nat): SD.Doc
  {
    d.(pageContent := Take(d.pageContent, maxLen))
  }

  /**
   * The scan over the documents from the offset: `urls` are the URLs taken
   * and `kept` the documents kept so far. A document without a URL raises a
   * `KeyError`; the scan stops once `cap` documents are kept, checked after
   * each document is added.
   */
  function Pick(ds: seq<SD.Doc>, cap: nat, maxLen: nat, urls: seq<string>, kept: seq<SD.Doc>): Result<seq<SD.Doc>>
    decreases |ds|
  {
    if ds == [] then Ok(kept)
    else
      var d := ds[0];
      if d.url.None? then Err(KeyError("url"))
      else if d.url.value in urls then Pick(ds[1..], cap, maxLen, urls, kept)
      else
        var kept' := kept + [Truncated(d, maxLen)];
        if |kept'| >= cap then Ok(kept')
        else Pick(ds[1..], cap, maxLen, urls + [d.url.value], kept')
  }

  /** A document is the truncated form of a document from the list. */
  predicate TruncationIn(x: SD.Doc, ds: seq<SD.Doc>, maxLen: nat)
  {
    exists j :: 0 <= j < |ds| && x == Truncated(ds[j], maxLen)
  }

  /** The kept documents are the truncated forms of documents from the list. */
  predicate TruncationsOf(r: seq<SD.Doc>, ds: seq<SD.Doc>, maxLen: nat)
  {
    forall k :: 0 <= k < |r| ==> TruncationIn(r[k], ds, maxLen)
  }

  /** Some document of the list has no URL. */
  predicate MissingUrl(ds: seq<SD.Doc>)
  {
    exists j :: 0 <= j < |ds| && ds[j].url.None?
  }

  /** The scan only adds to what was kept. */
  lemma {:induction false} PickGrows(ds: seq<SD.Doc>, cap: nat, maxLen: nat, urls: seq<string>, kept: seq<SD.Doc>)
    ensures var p := Pick(ds, cap, maxLen, urls, kept); p.Ok? ==> kept <= p.value
    decreases |ds|
  {
    if ds != [] && ds[0].url.Some? {
      var kept' := kept + [Truncated(ds[0], maxLen)];
      PickGrows(ds[1..], cap, maxLen, urls, kept);
      PickGrows(ds[1..], cap, maxLen, urls + [ds[0].url.value], kept');
      var p := Pick(ds[1..], cap, maxLen, urls + [ds[0].url.value], kept');
      if p.Ok? {
        Seqs.PrefixChain(kept, kept', p.value);
      }
    }
  }

  /** The scan adds at most one document per document of the list, and stops at the cap (one document when the cap is 0). */
  lemma {:induction false} PickBounded(ds: seq<SD.Doc>, cap: nat, maxLen: nat, urls: seq<string>, kept: seq<SD.Doc>)
    requires kept == [] || |kept| < cap
    ensures var p := Pick(ds, cap, maxLen, urls, kept);
      p.Ok? ==> |p.value| <= |kept| + |ds| && |p.value| <= (if cap == 0 then 1 else cap)
    decreases |ds|
  {
    if ds != [] && ds[0].url.Some? {
      var kept' := kept + [Truncated(ds[0], maxLen)];
      PickBounded(ds[1..], cap, maxLen, urls, kept);
      if |kept'| < cap {
        PickBounded(ds[1..], cap, maxLen, urls + [ds[0].url.value], kept');
      }
    }
  }

  /** URLs taken are kept unique: a document is only kept for a URL not taken before. */
  lemma {:induction false} PickUnique(ds: seq<SD.Doc>, cap: nat, maxLen: nat, urls: seq<string>, kept: seq<SD.Doc>)
    requires urls == UrlsOf(kept) && PyLists.NoDuplicates(urls)
    ensures var p := Pick(ds, cap, maxLen, urls, kept);
      p.Ok? ==> PyLists.NoDuplicates(UrlsOf(p.value))
    decreases |ds|
  {
    if ds != [] && ds[0].url.Some? {
      var u := ds[0].url.value;
      var kept' := kept + [Truncated(ds[0], maxLen)];
      assert UrlsOf(kept') == urls + [u];
      PickUnique(ds[1..], cap, maxLen, urls, kept);
      if u !in urls {
        assert PyLists.NoDuplicates(urls + [u]) by {
          forall i, j | 0 <= i < j < |urls + [u]|
            ensures (urls + [u])[i] != (urls + [u])[j]
          {
            if j == |urls| {
              assert (urls + [u])[i] == urls[i];
            }
          }
        }
        PickUnique(ds[1..], cap, maxLen, urls + [u], kept');
      }
    }
  }

  /** Every kept document has a URL and content of at most `maxLen` characters. */
  lemma {:induction false} PickShort(ds: seq<SD.Doc>, cap: nat, maxLen: nat, urls: seq<string>, kept: seq<SD.Doc>)
    requires forall k :: 0 <= k < |kept| ==> kept[k].url.Some? && |kept[k].pageContent| <= maxLen
    ensures var p := Pick(ds, cap, maxLen, urls, kept);
      p.Ok? ==> forall k :: 0 <= k < |p.value| ==> p.value[k].url.Some? && |p.value[k].pageContent| <= maxLen
    decreases |ds|
  {
    if ds != [] && ds[0].url.Some? {
      var kept' := kept + [Truncated(ds[0], maxLen)];
      assert kept'[|kept|] == Truncated(ds[0], maxLen);
      PickShort(ds[1..], cap, maxLen, urls, kept);
      PickShort(ds[1..], cap, maxLen, urls + [ds[0].url.value], kept');
    }
  }

  /** What the scan adds is the truncated forms of documents of the list. */
  lemma {:induction false} PickFrom(ds: seq<SD.Doc>, cap: nat, maxLen: nat, urls: seq<string>, kept: seq<SD.Doc>)
    ensures var p := Pick(ds, cap, maxLen, urls, kept);
      p.Ok? ==> |kept| <= |p.value| && TruncationsOf(p.value[|kept|..], ds, maxLen)
    decreases |ds|
  {
    var p := Pick(ds, cap, maxLen, urls, kept);
    PickGrows(ds, cap, maxLen, urls, kept);
    if ds != [] && ds[0].url.Some? && p.Ok? {
      var u := ds[0].url.value;
      var kept' := kept + [Truncated(ds[0], maxLen)];
      if u in urls {
        PickFrom(ds[1..], cap, maxLen, urls, kept);
        assert p == Pick(ds[1..], cap, maxLen, urls, kept);
        TruncationsTail(p.value[|kept|..], ds, maxLen);
      } else if |kept'| >= cap {
        assert p.value[|kept|..] == [Truncated(ds[0], maxLen)];
      } else {
        PickFrom(ds[1..], cap, maxLen, urls + [u], kept');
        PickGrows(ds[1..], cap, maxLen, urls + [u], kept');
        assert p == Pick(ds[1..], cap, maxLen, urls + [u], kept');
        assert p.value[|kept|] == kept'[|kept|];
        var rest := p.value[|kept'|..];
        TruncationsTail(rest, ds, maxLen);
        assert p.value[|kept|..] == [Truncated(ds[0], maxLen)] + rest;
      }
    }
  }

  /** Truncations of documents after the first are truncations of documents of the list. */
  lemma TruncationsTail(r: seq<SD.Doc>, ds: seq<SD.Doc>, maxLen: nat)
    requires ds != [] && TruncationsOf(r, ds[1..], maxLen)
    ensures TruncationsOf(r, ds, maxLen)
  {
    forall k | 0 <= k < |r|
      ensures TruncationIn(r[k], ds, maxLen)
    {
      var j :| 0 <= j < |ds[1..]| && r[k] == Truncated(ds[1..][j], maxLen);
      assert ds[1..][j] == ds[j + 1];
      assert r[k] == Truncated(ds[j + 1], maxLen);
    }
  }

  /** The scan fails only on a document without a URL, with a `KeyError` on `url`, and not at all when every document has one. */
  lemma {:induction false} PickFails(ds: seq<SD.Doc>, cap: nat, maxLen: nat, urls: seq<string>, kept: seq<SD.Doc>)
    ensures var p := Pick(ds, cap, maxLen, urls, kept);
      && (p.Err? ==> p.error == KeyError("url") && MissingUrl(ds))
      && ((forall j :: 0 <= j < |ds| ==> ds[j].url.Some?) ==> p.Ok?)
    decreases |ds|
  {
    if ds != [] && ds[0].url.Some? {
      var u := ds[0].url.value;
      var kept' := kept + [Truncated(ds[0], maxLen)];
      var p := Pick(ds, cap, maxLen, urls, kept);
      var q := if u in urls then Pick(ds[1..], cap, maxLen, urls, kept)
        else Pick(ds[1..], cap, maxLen, urls + [u], kept');
      PickFails(ds[1..], cap, maxLen, urls, kept);
      PickFails(ds[1..], cap, maxLen, urls + [u], kept');
      if p.Err? {
        assert p == q;
        var j :| 0 <= j < |ds[1..]| && ds[1..][j].url.None?;
        assert ds[j + 1].url.None?;
      }
      if forall j :: 0 <= j < |ds| ==> ds[j].url.Some? {
        assert forall j :: 0 <= j < |ds[1..]| ==> ds[1..][j] == ds[j + 1];
      }
    }
  }

  /** When fewer than the cap are kept, every document of the list had its URL taken: only duplicates were skipped. */
  lemma {:induction false} PickComplete(ds: seq<SD.Doc>, cap: nat, maxLen: nat, urls: seq<string>, kept: seq<SD.Doc>)
    requires urls == UrlsOf(kept)
    ensures var p := Pick(ds, cap, maxLen, urls, kept);
      p.Ok? && |p.value| < cap ==>
        forall j :: 0 <= j < |ds| ==> ds[j].url.Some? && ds[j].url.value in UrlsOf(p.value)
    decreases |ds|
  {
    var p := Pick(ds, cap, maxLen, urls, kept);
    if ds != [] && p.Ok? && |p.value| < cap {
      var u := ds[0].url.value;
      var kept' := kept + [Truncated(ds[0], maxLen)];
      assert UrlsOf(kept') == urls + [u];
      var kk := if u in urls then kept else kept';
      assert u in UrlsOf(kk);
      if u in urls {
        assert p == Pick(ds[1..], cap, maxLen, urls, kept);
        PickComplete(ds[1..], cap, maxLen, urls, kept);
        PickGrows(ds[1..], cap, maxLen, urls, kept);
      } else {
        assert |kept'| < cap;
        assert p == Pick(ds[1..], cap, maxLen, urls + [u], kept');
        PickComplete(ds[1..], cap, maxLen, urls + [u], kept');
        PickGrows(ds[1..], cap, maxLen, urls + [u], kept');
      }
      UrlsPrefix(kk, p.value);
      forall j | 0 <= j < |ds|
        ensures ds[j].url.Some? && ds[j].url.value in UrlsOf(p.value)
      {
        if j > 0 {
          assert ds[j] == ds[1..][j - 1];
        }
      }
    }
  }

  /** The URLs of a prefix are a prefix of the URLs. */
  lemma UrlsPrefix(a: seq<SD.Doc>, b: seq<SD.Doc>)
    requires a <= b
    ensures UrlsOf(a) <= UrlsOf(b)
  {
    var ua, ub := UrlsOf(a), UrlsOf(b);
    assert forall k :: 0 <= k < |ua| ==> ua[k] == UrlOf(a[k]) == UrlOf(b[k]) == ub[k];
  }

  /**
   * The scan of the endpoint's loop, shaped like the Python loop: `continue`
   * past a taken URL, `break` once `cap` documents are kept.
   */
  method Select(ds: seq<SD.Doc>, cap: nat, maxLen: nat) returns (r: Result<seq<SD.Doc>>)
    ensures r == Pick(ds, cap, maxLen, [], [])
  {
    var kept: seq<SD.Doc> := [];
    var urls: seq<string> := [];
    var i := 0;
    while i < |ds|
      invariant i <= |ds|
      invariant Pick(ds, cap, maxLen, [], []) == Pick(ds[i..], cap, maxLen, urls, kept)
    {
      var doc := ds[i];
      assert ds[i..][1..] == ds[i + 1..];
      i := i + 1;
      if doc.url.None? {
        return Err(KeyError("url"));
      }
      if doc.url.value in urls {
        continue;
      }
      urls := urls + [doc.url.value];
      kept := kept + [Truncated(doc, maxLen)];
      if |kept| >= cap {
        return Ok(kept);
      }
    }
    return Ok(kept);
  }

  /** The documents the endpoint keeps: the scan from `offset` pages into the search results. */
  function Kept(found: seq<seq<SD.Doc>>, offset: int): Result<seq<SD.Doc>>
  {
    var docs := PyLists.AddNew([], PyLists.Flatten(found));
    Pick(PySliceFrom(docs, offset * DocsMax), DocsMax, MaxDocLength, [], [])
  }

  /** The endpoint's result: the model's reply with a blank line before each list item dropped, rendered as HTML. */
  function Results(kept: seq<SD.Doc>, answer: seq<SD.Doc> -> string, md: string -> string): string
  {
    md(ReplaceAll(answer(kept), "\n\n-", "\n-"))
  }

  /** The process-wide configuration the endpoint writes, and the endpoint. */
  class PublicSearch {
    /** `config.db_cache`. */
    var dbCache: string

    constructor ()
      ensures dbCache == "default"
    {
      dbCache := "default";
    }

    /**
     * `search`: `found` is what each documentation source returns for the
     * query, `answer` the public model's reply to the prompt quoting the kept
     * documents, `md` the Markdown renderer.
     */
    method Search(request: Request, found: seq<seq<SD.Doc>>, answer: seq<SD.Doc> -> string, md: string -> string)
      returns (r: Result<string>, kept: seq<SD.Doc>)
      modifies this
      ensures dbCache == request.source.UnwrapOr("default")
      ensures var k := Kept(found, request.offset.UnwrapOr(0));
        && (k.Err? ==> r == Err(k.error) && kept == [])
        && (k.Ok? ==> r == Ok(Results(k.value, answer, md)) && kept == k.value)
    {
      dbCache := request.source.UnwrapOr("default");
      var offset := request.offset.UnwrapOr(0) * DocsMax;
      var documentation := new SD.Documentation();
      documentation.Clear();
      documentation.Search(found);
      var scanned := Select(PySliceFrom(documentation.documents, offset), DocsMax, MaxDocLength);
      if scanned.Err? {
        return Err(scanned.error), [];
      }
      documentation.documents := scanned.value;
      kept := documentation.documents;
      r := Ok(Results(kept, answer, md));
    }
  }

  /**
   * What the endpoint returns: one document per URL, at most a page of them,
   * each a document of the search results cut to the maximum length; fewer
   * than a page only when every document from the offset on was taken or a
   * duplicate; and a `KeyError` only for a document without a URL, which
   * does not happen when every document has one.
   */
  lemma KeptSpec(found: seq<seq<SD.Doc>>, offset: int)
    ensures var ds := PySliceFrom(PyLists.AddNew([], PyLists.Flatten(found)), offset * DocsMax);
      var k := Kept(found, offset);
      && (k.Ok? ==>
        && |k.value| <= DocsMax && |k.value| <= |ds|
        && PyLists.NoDuplicates(UrlsOf(k.value))
        && (forall i :: 0 <= i < |k.value| ==> |k.value[i].pageContent| <= MaxDocLength)
        && TruncationsOf(k.value, ds, MaxDocLength)
        && (|k.value| < DocsMax ==> forall j :: 0 <= j < |ds| ==> ds[j].url.Some? && ds[j].url.value in UrlsOf(k.value)))
      && (k.Err? ==> k.error == KeyError("url") && MissingUrl(ds))
      && ((forall j :: 0 <= j < |ds| ==> ds[j].url.Some?) ==> k.Ok?)
  {
    var ds := PySliceFrom(PyLists.AddNew([], PyLists.Flatten(found)), offset * DocsMax);
    var none: seq<SD.Doc> := [];
    assert UrlsOf(none) == [];
    assert Kept(found, offset) == Pick(ds, DocsMax, MaxDocLength, [], none);
    PickBounded(ds, DocsMax, MaxDocLength, [], none);
    PickUnique(ds, DocsMax, MaxDocLength, [], none);
    PickShort(ds, DocsMax, MaxDocLength, [], none);
    PickFrom(ds, DocsMax, MaxDocLength, [], none);
    PickFails(ds, DocsMax, MaxDocLength, [], none);
    PickComplete(ds, DocsMax, MaxDocLength, [], none);
    var k := Kept(found, offset);
    if k.Ok? {
      assert k.value[0..] == k.value;
    }
  }

  /** A reply without a blank line before a list item is rendered as it is. */
  lemma ResultsUnchanged(kept: seq<SD.Doc>, answer: seq<SD.Doc> -> string, md: string -> string)
    requires !Contains(answer(kept), "\n\n-")
    ensures Results(kept, answer, md) == md(answer(kept))
  {
    ReplaceAbsent(answer(kept), "\n\n-", "\n-");
  }
}
