/**
 * The documentation of sigmund: the list of retrieved documents the answer
 * prompt quotes, kept free of duplicate contents under `append`, searched
 * from a list of sources, and stripped of documents the condense model
 * judges irrelevant; and the FAISS source, which ranks its hits by score and
 * alternates documents with and without a URL.
 *
 * The vector store, the embeddings and the condense model are oracles: a
 * search is given the hits each query returns, and `strip_irrelevant` the
 * parsed reply to each document's relevance prompt.
 */
module SigmundDocumentation {
  import opened Wrappers
  import opened Strings
  import PyLists

  /** `config.search_docs_max`. */
  const SearchDocsMax: nat := 6

  /** A document: its content and the metadata the code reads. */
  datatype Doc = Doc(pageContent: string, url: Option<string>, title: Option<string>, important: bool)

  /** A FAISS hit: a document and its distance to the query. */
  datatype Hit = Hit(doc: Doc, score: real)

  /** What the condense model's reply to a relevance prompt parses to. */
  datatype Verdict = InvalidJson | NotDict | Dict(relevant: bool)

  /** A metadata value that is there and not empty. */
  predicate Given(o: Option<string>)
  {
    o.Some? && o.value != ""
  }

  /** `_doc_to_str`: the document tag, the title and source when given, the content. */
  function DocToStr(d: Doc): string
  {
    "<document>\n"
    + (if Given(d.title) then "# " + d.title.value + "\n\n" else "")
    + (if Given(d.url) then "Source: " + d.url.value + "\n\n" else "")
    + d.pageContent + "\n</document>"
  }

  /** `__str__`: the documents one after another, separated by blank lines. */
  function Str(docs: seq<Doc>): string
  {
    if docs == [] then "" else Join(seq(|docs|, i requires 0 <= i < |docs| => DocToStr(docs[i])), "\n\n")
  }

  const PromptHeader := "# Documentation\n\nYou have retrieved the following documentation to answer the user's question:\n\n<documentation>\n"
  const PromptFooter := "\n</documentation>"

  /** `prompt`: nothing without documents, otherwise the documents inside the documentation section. */
  function Prompt(docs: seq<Doc>): (r: Option<string>)
    ensures r.None? <==> docs == []
    ensures r.Some? ==> r.value == PromptHeader + Str(docs) + PromptFooter
  {
    if docs == [] then None else Some(PromptHeader + Str(docs) + PromptFooter)
  }

  /** `to_json` before `json.dumps`: one item per document, its content and its URL. */
  function JsonItems(docs: seq<Doc>): (r: seq<(string, Option<string>)>)
    ensures |r| == |docs|
    ensures forall i :: 0 <= i < |docs| ==> r[i].0 == docs[i].pageContent && r[i].1 == docs[i].url
  {
    seq(|docs|, i requires 0 <= i < |docs| => (docs[i].pageContent, docs[i].url))
  }

  /** `__len__`: the number of characters of all contents. */
  function TotalLength(docs: seq<Doc>): nat
    decreases |docs|
  {
    if docs == [] then 0 else TotalLength(docs[..|docs| - 1]) + |docs[|docs| - 1].pageContent|
  }

  /** Some document has the content `c`. */
  predicate HasContent(docs: seq<Doc>, c: string)
  {
    exists i :: 0 <= i < |docs| && docs[i].pageContent == c
  }

  /** No two documents have the same content. */
  predicate UniqueContents(docs: seq<Doc>)
  {
    forall i, j :: 0 <= i < j < |docs| ==> docs[i].pageContent != docs[j].pageContent
  }

  /** `append`: the document goes at the end unless its content is there already. */
  function AppendSpec(docs: seq<Doc>, d: Doc): seq<Doc>
  {
    if HasContent(docs, d.pageContent) then docs else docs + [d]
  }

  function IsImportant(d: Doc): bool { d.important }

  function IsOptional(d: Doc): bool { !d.important }

  /** A reply that parsed to a dictionary whose 'relevant' is truthy. */
  predicate Keeps(v: Verdict)
  {
    v.Dict? && v.relevant
  }

  /** The documents of a batch the condense model judges relevant, in order. */
  function Kept(batch: seq<Doc>, judge: Doc -> Verdict): (r: seq<Doc>)
    ensures |r| <= |batch|
    decreases |batch|
  {
    if batch == [] then []
    else Kept(batch[..|batch| - 1], judge) + (if Keeps(judge(batch[|batch| - 1])) then [batch[|batch| - 1]] else [])
  }

  /** `optional[:search_docs_max]`. */
  function Batch(optional: seq<Doc>): (r: seq<Doc>)
    ensures |r| <= SearchDocsMax && |r| <= |optional| && r == optional[..|r|]
    ensures optional != [] ==> r != []
  {
    Take(optional, SearchDocsMax)
  }

  /**
   * The `while` loop of `strip_irrelevant`: while optional documents remain
   * and fewer than `search_docs_max` are important, the next batch is
   * judged and its relevant documents become important.
   */
  function StripFrom(important: seq<Doc>, optional: seq<Doc>, judge: Doc -> Verdict): seq<Doc>
    decreases |optional|
  {
    if optional == [] || |important| >= SearchDocsMax then important
    else StripFrom(important + Kept(Batch(optional), judge), Drop(optional, SearchDocsMax), judge)
  }

  /** `strip_irrelevant`: the important documents in order, then the relevant optional ones the loop reached. */
  function StripSpec(docs: seq<Doc>, judge: Doc -> Verdict): seq<Doc>
  {
    StripFrom(PyLists.Filter(docs, IsImportant), PyLists.Filter(docs, IsOptional), judge)
  }

  class Documentation {
    var documents: seq<Doc>

    constructor ()
      ensures documents == []
    {
      documents := [];
    }

    /** `__len__`. */
    function Length(): nat
      reads this
    {
      TotalLength(documents)
    }

    /** `append`: a document whose content is there already is dropped. */
    method Append(doc: Doc)
      modifies this
      ensures documents == AppendSpec(old(documents), doc)
    {
      if HasContent(documents, doc.pageContent) {
        return;
      }
      documents := documents + [doc];
    }

    /** `strip_irrelevant`, the reply to each document's relevance prompt given by `judge`. */
    method StripIrrelevant(judge: Doc -> Verdict)
      modifies this
      ensures documents == StripSpec(old(documents), judge)
    {
      var important := PyLists.Filter(documents, IsImportant);
      var optional := PyLists.Filter(documents, IsOptional);
      ghost var goal := StripFrom(important, optional, judge);
      while optional != [] && |important| < SearchDocsMax
        invariant StripFrom(important, optional, judge) == goal
        decreases |optional|
      {
        var batch := Batch(optional);
        optional := Drop(optional, SearchDocsMax);
        ghost var before := important;
        var i := 0;
        while i < |batch|
          invariant i <= |batch|
          invariant important == before + Kept(batch[..i], judge)
        {
          var reply := judge(batch[i]);
          assert batch[..i + 1][..i] == batch[..i];
          i := i + 1;
          if reply.InvalidJson? {
            continue;
          }
          if reply.NotDict? {
            continue;
          }
          if !reply.relevant {
            continue;
          }
          important := important + [batch[i - 1]];
        }
        assert batch[..i] == batch;
      }
      documents := important;
    }

    /** `clear`. */
    method Clear()
      modifies this
      ensures documents == []
    {
      documents := [];
    }

    /**
     * `search`: the documents each source returns, source by source, each
     * appended unless an equal document is there already.
     */
    method Search(results: seq<seq<Doc>>)
      modifies this
      ensures documents == PyLists.AddNew(old(documents), PyLists.Flatten(results))
    {
      ghost var start := documents;
      for i := 0 to |results|
        invariant documents == PyLists.AddNew(start, PyLists.Flatten(results[..i]))
      {
        assert results[..i + 1][..i] == results[..i];
        assert PyLists.Flatten(results[..i]) + results[i][..0] == PyLists.Flatten(results[..i]);
        for j := 0 to |results[i]|
          invariant documents == PyLists.AddNew(start, PyLists.Flatten(results[..i]) + results[i][..j])
        {
          var doc := results[i][j];
          ghost var cs := PyLists.Flatten(results[..i]) + results[i][..j + 1];
          assert cs[..|cs| - 1] == PyLists.Flatten(results[..i]) + results[i][..j];
          if doc !in documents {
            documents := documents + [doc];
          }
        }
        assert results[i][..|results[i]|] == results[i];
      }
      assert results[..|results|] == results;
    }
  }

  // ---------------------------------------------------------------------------
  // The FAISS source

  /** A hit with some content `c`. */
  predicate Collected(hs: seq<Hit>, c: string)
  {
    exists i :: 0 <= i < |hs| && hs[i].doc.pageContent == c
  }

  /**
   * The collecting loop of the FAISS `search`: a hit whose content was
   * collected earlier in the call is skipped. (The two further checks, a
   * content `not in` the documentation and `not in` the collected pairs,
   * compare a string with documents and pairs and always hold.)
   */
  function Collect(hs: seq<Hit>): seq<Hit>
    decreases |hs|
  {
    if hs == [] then []
    else
      var c := Collect(hs[..|hs| - 1]);
      if Collected(c, hs[|hs| - 1].doc.pageContent) then c else c + [hs[|hs| - 1]]
  }

  /** Ascending by score. */
  predicate SortedByScore(hs: seq<Hit>)
  {
    forall i, j :: 0 <= i < j < |hs| ==> hs[i].score <= hs[j].score
  }

  /** A hit inserted after every hit with a score at most its own. */
  function Insert(s: seq<Hit>, h: Hit): (r: seq<Hit>)
    ensures |r| == |s| + 1
    decreases |s|
  {
    if s == [] || s[|s| - 1].score <= h.score then s + [h]
    else Insert(s[..|s| - 1], h) + [s[|s| - 1]]
  }

  /** `sorted(docs, key=lambda doc: doc[1])`: a stable sort by score. */
  function SortByScore(s: seq<Hit>): (r: seq<Hit>)
    ensures |r| == |s|
    decreases |s|
  {
    if s == [] then [] else Insert(SortByScore(s[..|s| - 1]), s[|s| - 1])
  }

  /** The hits with score `x`, in order. */
  function WithScore(s: seq<Hit>, x: real): seq<Hit>
    decreases |s|
  {
    if s == [] then [] else WithScore(s[..|s| - 1], x) + (if s[|s| - 1].score == x then [s[|s| - 1]] else [])
  }

  function HasUrl(h: Hit): bool { h.doc.url.Some? }

  function NoUrl(h: Hit): bool { h.doc.url.None? }

  /** The reordering loop: one with a URL, then one without, while either list has any left. */
  function Interleave(a: seq<Hit>, b: seq<Hit>): seq<Hit>
    decreases |a| + |b|
  {
    if a == [] && b == [] then []
    else Firsts(a, b) + Interleave(Tail(a), Tail(b))
  }

  /** A list after `pop(0)`, when it has an element to pop. */
  function Tail(s: seq<Hit>): seq<Hit>
  {
    if s == [] then [] else s[1..]
  }

  /** What one round of the loop appends: the first of each list that has any left. */
  function Firsts(a: seq<Hit>, b: seq<Hit>): seq<Hit>
  {
    (if a != [] then [a[0]] else []) + (if b != [] then [b[0]] else [])
  }

  /** The documents of the hits. */
  function DocsOf(hs: seq<Hit>): (r: seq<Doc>)
    ensures |r| == |hs| && forall i :: 0 <= i < |hs| ==> r[i] == hs[i].doc
  {
    seq(|hs|, i requires 0 <= i < |hs| => hs[i].doc)
  }

  /** The collected hits ranked by score: the list `docs` after `sorted`. */
  function Ranked(hits: seq<seq<Hit>>): seq<Hit>
  {
    SortByScore(Collect(PyLists.Flatten(hits)))
  }

  /** The hits in the order the FAISS search returns their documents. */
  function Reordered(hits: seq<seq<Hit>>): seq<Hit>
  {
    Interleave(PyLists.Filter(Ranked(hits), HasUrl), PyLists.Filter(Ranked(hits), NoUrl))
  }

  /** What the FAISS search returns for the hits of its queries. */
  function FAISSSpec(hits: seq<seq<Hit>>): seq<Doc>
  {
    DocsOf(Reordered(hits))
  }

  /**
   * `FAISSDocumentationSource.search`, `hits[q]` being what the vector store
   * returns for query `q`: nothing without an OpenAI key.
   */
  method FAISSSearch(hasKey: bool, hits: seq<seq<Hit>>) returns (r: seq<Doc>)
    ensures r == if hasKey then FAISSSpec(hits) else []
  {
    if !hasKey {
      return [];
    }
    var docs: seq<Hit> := [];
    for q := 0 to |hits|
      invariant docs == Collect(PyLists.Flatten(hits[..q]))
    {
      assert hits[..q + 1][..q] == hits[..q];
      assert PyLists.Flatten(hits[..q]) + hits[q][..0] == PyLists.Flatten(hits[..q]);
      for j := 0 to |hits[q]|
        invariant docs == Collect(PyLists.Flatten(hits[..q]) + hits[q][..j])
      {
        var hit := hits[q][j];
        ghost var hs := PyLists.Flatten(hits[..q]) + hits[q][..j + 1];
        assert hs[..|hs| - 1] == PyLists.Flatten(hits[..q]) + hits[q][..j];
        if !Collected(docs, hit.doc.pageContent) {
          docs := docs + [hit];
        }
      }
      assert hits[q][..|hits[q]|] == hits[q];
    }
    assert hits[..|hits|] == hits;
    var sorted := SortByScore(docs);
    var withUrl := PyLists.Filter(sorted, HasUrl);
    var withoutUrl := PyLists.Filter(sorted, NoUrl);
    var reordered := Reorder(withUrl, withoutUrl);
    r := DocsOf(reordered);
  }

  /** The `while` loop that alternates the hits with and without a URL, popping from the front. */
  method Reorder(withUrl: seq<Hit>, withoutUrl: seq<Hit>) returns (reordered: seq<Hit>)
    ensures reordered == Interleave(withUrl, withoutUrl)
  {
    var a, b := withUrl, withoutUrl;
    reordered := [];
    while a != [] || b != []
      invariant reordered + Interleave(a, b) == Interleave(withUrl, withoutUrl)
      decreases |a| + |b|
    {
      ghost var prev, a0, b0 := reordered, a, b;
      ReorderStep(reordered, a, b);
      if a != [] {
        reordered := reordered + [a[0]];
        a := a[1..];
      }
      assert reordered == prev + (if a0 != [] then [a0[0]] else []);
      if b != [] {
        reordered := reordered + [b[0]];
        b := b[1..];
      }
      assert reordered == prev + Firsts(a0, b0);
    }
  }

  /** One round of the reordering loop. */
  lemma {:induction false} ReorderStep(prev: seq<Hit>, a: seq<Hit>, b: seq<Hit>)
    requires a != [] || b != []
    ensures prev + Interleave(a, b) == (prev + Firsts(a, b)) + Interleave(Tail(a), Tail(b))
  {
  }

  // ---------------------------------------------------------------------------
  // Properties of the documentation

  /**
   * `append` keeps the contents unique: the document's content is there
   * afterwards, the earlier documents are kept in order, and appending the
   * same document again changes nothing.
   */
  lemma {:induction false} AppendKeepsUnique(docs: seq<Doc>, d: Doc)
    requires UniqueContents(docs)
    ensures var r := AppendSpec(docs, d);
      && UniqueContents(r) && HasContent(r, d.pageContent)
      && |docs| <= |r| <= |docs| + 1 && r[..|docs|] == docs
      && AppendSpec(r, d) == r
  {
    var r := AppendSpec(docs, d);
    if !HasContent(docs, d.pageContent) {
      assert r[|docs|] == d;
    }
  }

  /** `__len__` grows by the content of a document `append` adds. */
  lemma {:induction false} LengthAfterAppend(docs: seq<Doc>, d: Doc)
    ensures TotalLength(AppendSpec(docs, d)) == TotalLength(docs) + (if HasContent(docs, d.pageContent) then 0 else |d.pageContent|)
  {
    if !HasContent(docs, d.pageContent) {
      assert (docs + [d])[..|docs|] == docs;
    }
  }

  /** `__len__` is 0 exactly when every content is empty, so a documentation of empty documents is falsy. */
  lemma {:induction false} LengthZero(docs: seq<Doc>)
    ensures TotalLength(docs) == 0 <==> forall i :: 0 <= i < |docs| ==> docs[i].pageContent == ""
    decreases |docs|
  {
    if docs != [] {
      var init := docs[..|docs| - 1];
      LengthZero(init);
      assert forall i :: 0 <= i < |init| ==> init[i] == docs[i];
    }
  }

  /** A document string opens and closes the document tag around the content, the title and source coming first when given. */
  lemma {:induction false} DocToStrParts(d: Doc)
    ensures StartsWith(DocToStr(d), "<document>\n")
    ensures EndsWith(DocToStr(d), d.pageContent + "\n</document>")
    ensures !Given(d.title) && !Given(d.url) ==> DocToStr(d) == "<document>\n" + d.pageContent + "\n</document>"
  {
    var mid := (if Given(d.title) then "# " + d.title.value + "\n\n" else "") + (if Given(d.url) then "Source: " + d.url.value + "\n\n" else "");
    var tail := d.pageContent + "\n</document>";
    assert DocToStr(d) == "<document>\n" + (mid + tail);
    assert DocToStr(d) == ("<document>\n" + mid) + tail;
  }

  /** The string of one document is its document string, and of none the empty string. */
  lemma {:induction false} StrSingle(d: Doc)
    ensures Str([d]) == DocToStr(d) && Str([]) == ""
  {
  }

  /** A batch keeps a document exactly when it is in the batch and judged relevant. */
  lemma {:induction false} KeptMembers(batch: seq<Doc>, judge: Doc -> Verdict, x: Doc)
    ensures x in Kept(batch, judge) <==> x in batch && Keeps(judge(x))
    decreases |batch|
  {
    if batch != [] {
      var init := batch[..|batch| - 1];
      KeptMembers(init, judge, x);
      assert batch == init + [batch[|batch| - 1]];
    }
  }

  /** A batch judged relevant throughout is kept whole. */
  lemma {:induction false} KeptAll(batch: seq<Doc>, judge: Doc -> Verdict)
    requires forall i :: 0 <= i < |batch| ==> Keeps(judge(batch[i]))
    ensures Kept(batch, judge) == batch
    decreases |batch|
  {
    if batch != [] {
      KeptAll(batch[..|batch| - 1], judge);
    }
  }

  /**
   * The loop keeps the important documents in front, in order, and adds
   * after them only optional documents judged relevant.
   */
  lemma {:induction false} StripFromPrefix(important: seq<Doc>, optional: seq<Doc>, judge: Doc -> Verdict)
    ensures var r := StripFrom(important, optional, judge);
      && |r| >= |important| && r[..|important|] == important
      && forall k :: |important| <= k < |r| ==> r[k] in optional && Keeps(judge(r[k]))
    decreases |optional|
  {
    if optional != [] && |important| < SearchDocsMax {
      var batch := Batch(optional);
      var kept := Kept(batch, judge);
      var rest := Drop(optional, SearchDocsMax);
      StripFromPrefix(important + kept, rest, judge);
      var r := StripFrom(important, optional, judge);
      assert r == StripFrom(important + kept, rest, judge);
      assert r[..|important|] == (important + kept)[..|important|];
      forall k | |important| <= k < |r|
        ensures r[k] in optional && Keeps(judge(r[k]))
      {
        if k < |important + kept| {
          assert r[k] == kept[k - |important|];
          KeptMembers(batch, judge, r[k]);
        } else {
          assert r[k] in rest;
        }
      }
    }
  }

  /**
   * `strip_irrelevant` keeps every important document, in order, at the
   * front, and after them keeps only optional documents of the list that
   * the condense model judged relevant.
   */
  lemma {:induction false} StripKeepsImportant(docs: seq<Doc>, judge: Doc -> Verdict)
    ensures var important := PyLists.Filter(docs, IsImportant);
      var r := StripSpec(docs, judge);
      && |r| >= |important| && r[..|important|] == important
      && forall k :: |important| <= k < |r| ==> r[k] in docs && !r[k].important && Keeps(judge(r[k]))
  {
    var important := PyLists.Filter(docs, IsImportant);
    var optional := PyLists.Filter(docs, IsOptional);
    StripFromPrefix(important, optional, judge);
    var r := StripSpec(docs, judge);
    forall k | |important| <= k < |r|
      ensures r[k] in docs && !r[k].important
    {
      PyLists.FilterMembers(docs, IsOptional, r[k]);
    }
  }

  /**
   * Batches hold at most `search_docs_max` documents and the loop stops as
   * soon as that many are important: with that many important documents
   * nothing is judged, and with fewer the result has fewer than twice that
   * many.
   */
  lemma {:induction false} StripBound(important: seq<Doc>, optional: seq<Doc>, judge: Doc -> Verdict)
    ensures |important| >= SearchDocsMax ==> StripFrom(important, optional, judge) == important
    ensures |important| < SearchDocsMax ==> |StripFrom(important, optional, judge)| < 2 * SearchDocsMax
    decreases |optional|
  {
    if optional != [] && |important| < SearchDocsMax {
      var next := important + Kept(Batch(optional), judge);
      StripBound(next, Drop(optional, SearchDocsMax), judge);
    }
  }

  /** When every optional document is judged relevant, the first batch of them is kept, in order, after the important ones. */
  lemma {:induction false} StripAllRelevant(important: seq<Doc>, optional: seq<Doc>, judge: Doc -> Verdict)
    requires |important| < SearchDocsMax
    requires forall i :: 0 <= i < |optional| ==> Keeps(judge(optional[i]))
    ensures StripFrom(important, optional, judge) == important + Batch(optional)
  {
    if optional != [] {
      var batch := Batch(optional);
      KeptAll(batch, judge);
      StripBound(important + batch, Drop(optional, SearchDocsMax), judge);
    }
  }

  /** When no optional document is judged relevant, only the important ones remain. */
  lemma {:induction false} StripNoneRelevant(important: seq<Doc>, optional: seq<Doc>, judge: Doc -> Verdict)
    requires forall i :: 0 <= i < |optional| ==> !Keeps(judge(optional[i]))
    ensures StripFrom(important, optional, judge) == important
    decreases |optional|
  {
    if optional != [] && |important| < SearchDocsMax {
      var batch := Batch(optional);
      if Kept(batch, judge) != [] {
        var x := Kept(batch, judge)[0];
        KeptMembers(batch, judge, x);
        assert false;
      }
      assert important + Kept(batch, judge) == important;
      StripNoneRelevant(important, Drop(optional, SearchDocsMax), judge);
    }
  }

  // ---------------------------------------------------------------------------
  // Properties of the FAISS search

  /** No two hits have the same content. */
  predicate UniqueHitContents(hs: seq<Hit>)
  {
    forall i, j :: 0 <= i < j < |hs| ==> hs[i].doc.pageContent != hs[j].doc.pageContent
  }

  /** The collected hits have distinct contents and are hits of the queries. */
  lemma {:induction false} CollectUnique(hs: seq<Hit>)
    ensures UniqueHitContents(Collect(hs))
    ensures forall k :: 0 <= k < |Collect(hs)| ==> Collect(hs)[k] in hs
    decreases |hs|
  {
    if hs != [] {
      var init := hs[..|hs| - 1];
      CollectUnique(init);
      assert forall k :: 0 <= k < |Collect(init)| ==> Collect(init)[k] in hs;
    }
  }

  /** Every content some query returned is among the collected hits. */
  lemma {:induction false} CollectCovers(hs: seq<Hit>, j: nat)
    requires j < |hs|
    ensures Collected(Collect(hs), hs[j].doc.pageContent)
    decreases |hs|
  {
    var init := hs[..|hs| - 1];
    var h := hs[|hs| - 1];
    var c := Collect(init);
    if j < |hs| - 1 {
      CollectCovers(init, j);
      assert init[j] == hs[j];
      var i :| 0 <= i < |c| && c[i].doc.pageContent == hs[j].doc.pageContent;
      if !Collected(c, h.doc.pageContent) {
        assert (c + [h])[i] == c[i];
      }
    } else if !Collected(c, h.doc.pageContent) {
      assert (c + [h])[|c|] == h;
    }
  }

  /** Insertion adds the hit and only it. */
  lemma {:induction false} InsertPermutes(s: seq<Hit>, h: Hit)
    ensures multiset(Insert(s, h)) == multiset(s) + multiset{h}
    decreases |s|
  {
    if !(s == [] || s[|s| - 1].score <= h.score) {
      var init := s[..|s| - 1];
      InsertPermutes(init, h);
      assert s == init + [s[|s| - 1]];
    }
  }

  /** Insertion into a sorted list keeps it sorted. */
  lemma {:induction false} InsertSorted(s: seq<Hit>, h: Hit)
    requires SortedByScore(s)
    ensures SortedByScore(Insert(s, h))
    decreases |s|
  {
    if !(s == [] || s[|s| - 1].score <= h.score) {
      var init := s[..|s| - 1];
      var last := s[|s| - 1];
      InsertSorted(init, h);
      InsertPermutes(init, h);
      var t := Insert(init, h);
      forall i | 0 <= i < |t|
        ensures t[i].score <= last.score
      {
        assert t[i] in multiset(t);
        if t[i] != h {
          assert t[i] in init;
        }
      }
    }
  }

  /** Insertion puts the hit after every hit of its own score. */
  lemma {:induction false} InsertStable(s: seq<Hit>, h: Hit, x: real)
    ensures WithScore(Insert(s, h), x) == WithScore(s, x) + (if h.score == x then [h] else [])
    decreases |s|
  {
    if s == [] || s[|s| - 1].score <= h.score {
      assert (s + [h])[..|s|] == s;
    } else {
      var init := s[..|s| - 1];
      var last := s[|s| - 1];
      InsertStable(init, h, x);
      assert (Insert(init, h) + [last])[..|Insert(init, h)|] == Insert(init, h);
    }
  }

  /**
   * `sorted` by score: the result is ascending by score, is a permutation
   * of the list, and keeps hits of equal score in their order (it is stable).
   */
  lemma {:induction false} SortByScoreCorrect(s: seq<Hit>, x: real)
    ensures SortedByScore(SortByScore(s))
    ensures multiset(SortByScore(s)) == multiset(s)
    ensures WithScore(SortByScore(s), x) == WithScore(s, x)
    decreases |s|
  {
    if s != [] {
      var init := s[..|s| - 1];
      SortByScoreCorrect(init, x);
      InsertSorted(SortByScore(init), s[|s| - 1]);
      InsertPermutes(SortByScore(init), s[|s| - 1]);
      InsertStable(SortByScore(init), s[|s| - 1], x);
      assert s == init + [s[|s| - 1]];
    }
  }

  /** A list already ascending by score is left as it is. */
  lemma {:induction false} SortSortedUnchanged(s: seq<Hit>)
    requires SortedByScore(s)
    ensures SortByScore(s) == s
    decreases |s|
  {
    if s != [] {
      var init := s[..|s| - 1];
      SortSortedUnchanged(init);
      assert s == init + [s[|s| - 1]];
    }
  }

  /** A list is its first element, if any, then its tail. */
  lemma {:induction false} HeadTail(a: seq<Hit>)
    ensures a == (if a != [] then [a[0]] else []) + Tail(a)
  {
  }

  /** The reordering loses and adds no hit. */
  lemma {:induction false} InterleavePermutes(a: seq<Hit>, b: seq<Hit>)
    ensures multiset(Interleave(a, b)) == multiset(a) + multiset(b)
    decreases |a| + |b|
  {
    if a != [] || b != [] {
      var x := if a != [] then [a[0]] else [];
      var y := if b != [] then [b[0]] else [];
      var rest := Interleave(Tail(a), Tail(b));
      InterleavePermutes(Tail(a), Tail(b));
      ReorderStep([], a, b);
      assert Interleave(a, b) == (x + y) + rest;
      HeadTail(a);
      HeadTail(b);
      assert multiset(a) == multiset(x) + multiset(Tail(a));
      assert multiset(b) == multiset(y) + multiset(Tail(b));
      assert multiset(Interleave(a, b)) == multiset(x) + multiset(y) + multiset(rest);
    }
  }

  /** The reordering alternates: the k-th of each list sits at 2k and 2k + 1 while both have one. */
  lemma {:induction false} InterleaveAlternates(a: seq<Hit>, b: seq<Hit>, k: nat)
    requires k < |a| && k < |b|
    ensures |Interleave(a, b)| > 2 * k + 1
    ensures Interleave(a, b)[2 * k] == a[k] && Interleave(a, b)[2 * k + 1] == b[k]
    decreases k
  {
    if k > 0 {
      InterleaveAlternates(Tail(a), Tail(b), k - 1);
      assert Interleave(a, b) == [a[0], b[0]] + Interleave(Tail(a), Tail(b));
    }
  }

  /** Filtering one round's hits. */
  lemma {:induction false} FilterFirsts(a: seq<Hit>, b: seq<Hit>, p: Hit -> bool)
    requires a != [] ==> p(a[0])
    requires b != [] ==> !p(b[0])
    ensures PyLists.Filter(Firsts(a, b), p) == (if a != [] then [a[0]] else [])
  {
    var x := if a != [] then [a[0]] else [];
    var y := if b != [] then [b[0]] else [];
    PyLists.FilterAppend(x, y, p);
    if a != [] {
      assert x[..0] == [];
    }
    if b != [] {
      assert y[..0] == [];
    }
  }

  /** Filtering one round's hits the other way. */
  lemma {:induction false} FilterFirstsRight(a: seq<Hit>, b: seq<Hit>, p: Hit -> bool)
    requires a != [] ==> !p(a[0])
    requires b != [] ==> p(b[0])
    ensures PyLists.Filter(Firsts(a, b), p) == (if b != [] then [b[0]] else [])
  {
    var x := if a != [] then [a[0]] else [];
    var y := if b != [] then [b[0]] else [];
    PyLists.FilterAppend(x, y, p);
    if a != [] {
      assert x[..0] == [];
    }
    if b != [] {
      assert y[..0] == [];
    }
  }

  /** Reordering keeps the order of the first list among the hits of its kind. */
  lemma {:induction false} InterleaveKeepsLeft(a: seq<Hit>, b: seq<Hit>, p: Hit -> bool)
    requires forall i :: 0 <= i < |a| ==> p(a[i])
    requires forall i :: 0 <= i < |b| ==> !p(b[i])
    ensures PyLists.Filter(Interleave(a, b), p) == a
    decreases |a| + |b|
  {
    if a != [] || b != [] {
      var rest := Interleave(Tail(a), Tail(b));
      InterleaveKeepsLeft(Tail(a), Tail(b), p);
      FilterFirsts(a, b, p);
      ReorderStep([], a, b);
      assert Interleave(a, b) == Firsts(a, b) + rest;
      PyLists.FilterAppend(Firsts(a, b), rest, p);
      HeadTail(a);
    }
  }

  /** Reordering keeps the order of the second list among the hits of its kind. */
  lemma {:induction false} InterleaveKeepsRight(a: seq<Hit>, b: seq<Hit>, p: Hit -> bool)
    requires forall i :: 0 <= i < |a| ==> !p(a[i])
    requires forall i :: 0 <= i < |b| ==> p(b[i])
    ensures PyLists.Filter(Interleave(a, b), p) == b
    decreases |a| + |b|
  {
    if a != [] || b != [] {
      var rest := Interleave(Tail(a), Tail(b));
      InterleaveKeepsRight(Tail(a), Tail(b), p);
      FilterFirstsRight(a, b, p);
      ReorderStep([], a, b);
      assert Interleave(a, b) == Firsts(a, b) + rest;
      PyLists.FilterAppend(Firsts(a, b), rest, p);
      HeadTail(b);
    }
  }

  /** Filtering a sorted list keeps it sorted. */
  lemma {:induction false} FilterSorted(s: seq<Hit>, p: Hit -> bool)
    requires SortedByScore(s)
    ensures SortedByScore(PyLists.Filter(s, p))
    decreases |s|
  {
    if s != [] {
      var init := s[..|s| - 1];
      FilterSorted(init, p);
      forall x | x in PyLists.Filter(init, p)
        ensures x.score <= s[|s| - 1].score
      {
        PyLists.FilterMembers(init, p, x);
      }
    }
  }

  /**
   * The FAISS search returns every collected hit exactly once; the hits with
   * a URL come in ascending order of score, and so do those without; and it
   * starts with a hit with a URL when there is one.
   */
  lemma {:induction false} FAISSOrder(hits: seq<seq<Hit>>)
    ensures multiset(Reordered(hits)) == multiset(Collect(PyLists.Flatten(hits)))
    ensures PyLists.Filter(Reordered(hits), HasUrl) == PyLists.Filter(Ranked(hits), HasUrl)
    ensures PyLists.Filter(Reordered(hits), NoUrl) == PyLists.Filter(Ranked(hits), NoUrl)
    ensures SortedByScore(PyLists.Filter(Reordered(hits), HasUrl))
    ensures SortedByScore(PyLists.Filter(Reordered(hits), NoUrl))
    ensures PyLists.Filter(Ranked(hits), HasUrl) != [] ==> HasUrl(Reordered(hits)[0])
  {
    var ranked := Ranked(hits);
    var a := PyLists.Filter(ranked, HasUrl);
    var b := PyLists.Filter(ranked, NoUrl);
    SortByScoreCorrect(Collect(PyLists.Flatten(hits)), 0.0);
    PyLists.FilterSplit(ranked, HasUrl, NoUrl);
    InterleavePermutes(a, b);
    InterleaveKeepsLeft(a, b, HasUrl);
    InterleaveKeepsRight(a, b, NoUrl);
    FilterSorted(ranked, HasUrl);
    FilterSorted(ranked, NoUrl);
  }
}
