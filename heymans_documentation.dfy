/**
 * The documentation of heymans: a list of document texts kept free of
 * duplicates, stripped of the documents the condense model calls
 * irrelevant, and searched from a FAISS retriever (one new document per
 * query) and from a keyword router that picks the OpenSesame Python or
 * JavaScript reference.
 *
 * The retriever and the condense model are oracles: a search is given what
 * the retriever returns for each query, and `strip_irrelevant` the reply
 * to each document's relevance prompt.
 */
module HeymansDocumentation {
  import opened Wrappers
  import opened Strings
  import PyLists

  /** `__str__`: each document inside the document tag, separated by blank lines. */
  function Str(docs: seq<string>): string
  {
    Join(seq(|docs|, i requires 0 <= i < |docs| => "<document>" + docs[i] + "</document>\n"), "\n\n")
  }

  /** `__len__`: the number of characters of all documents. */
  function TotalLength(docs: seq<string>): nat
    decreases |docs|
  {
    if docs == [] then 0 else TotalLength(docs[..|docs| - 1]) + |docs[|docs| - 1]|
  }

  /** A reply that calls a document relevant: one that does not start with 'no', in any case. */
  predicate RelevantReply(reply: string)
  {
    !StartsWith(Lower(reply), "no")
  }

  /** The documents whose reply calls them relevant, in order. */
  function Relevant(docs: seq<string>, reply: string -> string): (r: seq<string>)
    ensures |r| <= |docs|
    decreases |docs|
  {
    if docs == [] then []
    else Relevant(docs[..|docs| - 1], reply) + (if RelevantReply(reply(docs[|docs| - 1])) then [docs[|docs| - 1]] else [])
  }

  class Documentation {
    var documents: seq<string>

    constructor ()
      ensures documents == []
    {
      documents := [];
    }

    /** `append`: a document that is there already is dropped. */
    method Append(doc: string)
      modifies this
      ensures documents == if doc in old(documents) then old(documents) else old(documents) + [doc]
    {
      if doc !in documents {
        documents := documents + [doc];
      }
    }

    /** `strip_irrelevant`, the condense model's reply to each document's prompt given by `reply`. */
    method StripIrrelevant(reply: string -> string)
      modifies this
      ensures documents == Relevant(old(documents), reply)
    {
      var docs := documents;
      var replies := seq(|docs|, i requires 0 <= i < |docs| => reply(docs[i]));
      var relevant := [];
      for i := 0 to |docs|
        invariant relevant == Relevant(docs[..i], reply)
      {
        assert docs[..i + 1][..i] == docs[..i];
        if RelevantReply(replies[i]) {
          relevant := relevant + [docs[i]];
        }
      }
      assert docs[..|docs|] == docs;
      documents := relevant;
    }

    /** `clear`. */
    method Clear()
      modifies this
      ensures documents == []
    {
      documents := [];
    }

    /** `search`: the documents each source returns, source by source, each appended unless it is there already. */
    method Search(results: seq<seq<string>>)
      modifies this
      ensures documents == PyLists.AddNew(old(documents), PyLists.Flatten(results))
    {
      ghost var start := documents;
      for i := 0 to |results|
        invariant documents == PyLists.AddNew(start, PyLists.Flatten(results[..i]))
      {
        assert results[..i + 1][..i] == results[..i];
        assert PyLists.Flatten(results[..i]) + results[i][..0] == PyLists.Flatten(results[..i]);
        for j := 0 to |results[i]|
          invariant documents == PyLists.AddNew(start, PyLists.Flatten(results[..i]) + results[i][..j])
        {
          var doc := results[i][j];
          ghost var cs := PyLists.Flatten(results[..i]) + results[i][..j + 1];
          assert cs[..|cs| - 1] == PyLists.Flatten(results[..i]) + results[i][..j];
          if doc !in documents {
            documents := documents + [doc];
          }
        }
        assert results[i][..|results[i]|] == results[i];
      }
      assert results[..|results|] == results;
    }
  }

  // ---------------------------------------------------------------------------
  // The FAISS source

  /** The first retrieved content that is neither in the documentation nor collected already. */
  function FirstNew(rs: seq<string>, known: seq<string>, docs: seq<string>): (r: Option<string>)
    ensures r.Some? ==> r.value in rs && r.value !in known && r.value !in docs
    ensures r.None? ==> forall k :: 0 <= k < |rs| ==> rs[k] in known || rs[k] in docs
    decreases |rs|
  {
    if rs == [] then None
    else if rs[0] !in known && rs[0] !in docs then Some(rs[0])
    else
      var r := FirstNew(rs[1..], known, docs);
      assert forall k :: 1 <= k < |rs| ==> rs[k] == rs[1..][k - 1];
      r
  }

  /** What the FAISS search collects from the contents the retriever returns for each query. */
  function OnePerQuery(hits: seq<seq<string>>, known: seq<string>): seq<string>
    decreases |hits|
  {
    if hits == [] then []
    else
      var docs := OnePerQuery(hits[..|hits| - 1], known);
      match FirstNew(hits[|hits| - 1], known, docs)
      case Some(c) => docs + [c]
      case None => docs
  }

  /**
   * `FAISSDocumentationSource.search`, `hits[q]` holding the contents the
   * retriever returns for query `q` and `known` the current documentation:
   * per query, the first content that is new goes in and the rest of that
   * query's results are skipped.
   */
  method FAISSSearch(hits: seq<seq<string>>, known: seq<string>) returns (docs: seq<string>)
    ensures docs == OnePerQuery(hits, known)
  {
    docs := [];
    for q := 0 to |hits|
      invariant docs == OnePerQuery(hits[..q], known)
    {
      assert hits[..q + 1][..q] == hits[..q];
      ghost var before := docs;
      var rs := hits[q];
      var j := 0;
      while j < |rs|
        invariant j <= |rs| && docs == before
        invariant FirstNew(rs[j..], known, docs) == FirstNew(rs, known, docs)
      {
        if rs[j] !in known && rs[j] !in docs {
          docs := docs + [rs[j]];
          break;
        }
        assert rs[j..][1..] == rs[j + 1..];
        j := j + 1;
      }
    }
    assert hits[..|hits|] == hits;
  }

  // ---------------------------------------------------------------------------
  // The OpenSesame source

  const PyKeywords: seq<string> := [
    "opensesame", "inline_script", "python", "canvas", "keyboard", "mouse",
    "sampler", "synth", "sequence", "loop", "variable", "experiment",
    "stimulus", "display", "task", "paradigm", "run if", "run-if", "show if",
    "show-if"
  ]

  const JsKeywords: seq<string> := [
    "osweb", "javascript", "online", "browser", "inline_javascript",
    "firefox", "safari"
  ]

  /** Some keyword occurs in the text. */
  predicate AnyKeyword(text: string, keywords: seq<string>)
  {
    exists k :: 0 <= k < |keywords| && Contains(text, keywords[k])
  }

  /**
   * `OpenSesameDocumentationSource.search`: the queries joined and lower-cased;
   * with any keyword the JavaScript reference when a JavaScript keyword
   * occurs and the Python reference otherwise; without one nothing.
   */
  function OpenSesameSearch(queries: seq<string>, pyDoc: string, jsDoc: string): seq<string>
  {
    var text := Lower(Concat(queries));
    if AnyKeyword(text, PyKeywords + JsKeywords) then
      if AnyKeyword(text, JsKeywords) then [jsDoc] else [pyDoc]
    else []
  }

  // ---------------------------------------------------------------------------
  // Properties

  /** `append` keeps the documents free of duplicates and the new document is there afterwards. */
  lemma {:induction false} AppendKeepsUnique(docs: seq<string>, doc: string)
    requires PyLists.NoDuplicates(docs)
    ensures var r := if doc in docs then docs else docs + [doc];
      PyLists.NoDuplicates(r) && doc in r && r[..|docs|] == docs
  {
  }

  /** `__len__` grows by the length of a document `append` adds. */
  lemma {:induction false} LengthAfterAppend(docs: seq<string>, doc: string)
    requires doc !in docs
    ensures TotalLength(docs + [doc]) == TotalLength(docs) + |doc|
  {
    assert (docs + [doc])[..|docs|] == docs;
  }

  /** `strip_irrelevant` keeps a document exactly when the reply to it does not start with 'no', in any case. */
  lemma {:induction false} RelevantMembers(docs: seq<string>, reply: string -> string, x: string)
    ensures x in Relevant(docs, reply) <==> x in docs && RelevantReply(reply(x))
    decreases |docs|
  {
    if docs != [] {
      var init := docs[..|docs| - 1];
      RelevantMembers(init, reply, x);
      assert docs == init + [docs[|docs| - 1]];
    }
  }

  /** `strip_irrelevant` keeps the order: what it keeps of a concatenation is what it keeps of each part. */
  lemma {:induction false} RelevantAppend(a: seq<string>, b: seq<string>, reply: string -> string)
    ensures Relevant(a + b, reply) == Relevant(a, reply) + Relevant(b, reply)
    decreases |b|
  {
    if b == [] {
      assert a + b == a;
    } else {
      var b' := b[..|b| - 1];
      RelevantAppend(a, b', reply);
      assert (a + b)[..|a + b| - 1] == a + b';
      assert (a + b)[|a + b| - 1] == b[|b| - 1];
    }
  }

  /** A reply starting with 'No', 'no' or 'NO' strips the document, whatever follows. */
  lemma {:induction false} NoStrips(rest: string)
    ensures !RelevantReply("No" + rest) && !RelevantReply("no" + rest) && !RelevantReply("NO" + rest)
  {
    var l := Lower("No" + rest);
    assert l[0] == 'n' && l[1] == 'o';
    assert l[..2] == "no";
    var l2 := Lower("NO" + rest);
    assert l2[..2] == "no";
    var l3 := Lower("no" + rest);
    assert l3[..2] == "no";
  }

  /** The FAISS search adds at most one document per query, and only new ones, none twice. */
  lemma {:induction false} OnePerQueryBound(hits: seq<seq<string>>, known: seq<string>)
    ensures |OnePerQuery(hits, known)| <= |hits|
    ensures PyLists.NoDuplicates(OnePerQuery(hits, known))
    ensures forall k :: 0 <= k < |OnePerQuery(hits, known)| ==> OnePerQuery(hits, known)[k] !in known
    decreases |hits|
  {
    if hits != [] {
      OnePerQueryBound(hits[..|hits| - 1], known);
    }
  }

  /** A query whose results all are known already adds nothing. */
  lemma {:induction false} KnownQueryAddsNothing(hits: seq<seq<string>>, rs: seq<string>, known: seq<string>)
    requires forall k :: 0 <= k < |rs| ==> rs[k] in known
    ensures OnePerQuery(hits + [rs], known) == OnePerQuery(hits, known)
  {
    assert (hits + [rs])[..|hits|] == hits;
    assert FirstNew(rs, known, OnePerQuery(hits, known)).None?;
  }

  /** A query whose first result is new adds that result. */
  lemma {:induction false} NewFirstResultAdded(hits: seq<seq<string>>, rs: seq<string>, known: seq<string>)
    requires rs != [] && rs[0] !in known && rs[0] !in OnePerQuery(hits, known)
    ensures OnePerQuery(hits + [rs], known) == OnePerQuery(hits, known) + [rs[0]]
  {
    assert (hits + [rs])[..|hits|] == hits;
  }

  /**
   * The keyword router picks the JavaScript reference exactly when a
   * JavaScript keyword occurs, the Python reference when only a Python
   * keyword does, and nothing otherwise.
   */
  lemma {:induction false} OpenSesameRouting(queries: seq<string>, pyDoc: string, jsDoc: string)
    ensures var text := Lower(Concat(queries));
      && (AnyKeyword(text, JsKeywords) ==> OpenSesameSearch(queries, pyDoc, jsDoc) == [jsDoc])
      && (!AnyKeyword(text, JsKeywords) && AnyKeyword(text, PyKeywords) ==> OpenSesameSearch(queries, pyDoc, jsDoc) == [pyDoc])
      && (!AnyKeyword(text, JsKeywords) && !AnyKeyword(text, PyKeywords) ==> OpenSesameSearch(queries, pyDoc, jsDoc) == [])
  {
    var text := Lower(Concat(queries));
    var all := PyKeywords + JsKeywords;
    if AnyKeyword(text, JsKeywords) {
      var k :| 0 <= k < |JsKeywords| && Contains(text, JsKeywords[k]);
      assert all[|PyKeywords| + k] == JsKeywords[k];
    } else if AnyKeyword(text, PyKeywords) {
      var k :| 0 <= k < |PyKeywords| && Contains(text, PyKeywords[k]);
      assert all[k] == PyKeywords[k];
    } else {
      forall k | 0 <= k < |all|
        ensures !Contains(text, all[k])
      {
        if k < |PyKeywords| {
          assert all[k] == PyKeywords[k];
        } else {
          assert all[k] == JsKeywords[k - |PyKeywords|];
        }
      }
    }
  }
}
