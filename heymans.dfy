/**
 * The chatbot of heymans: `send_user_message` appends the user message,
 * optionally runs a search phase in which the search model's reply is
 * handed to the tools, and then answers. Every answer is handed to the
 * tools too; their results are attached to the reply, and when a tool asks
 * for it the results are stored and a feedback answer is attached as well.
 *
 * The conversation and the documentation are the `Messages` and
 * `Documentation` objects of their own modules. The tools (topics, search,
 * code execution, in that order) run `BaseTool.run`; the matches of their
 * patterns, their `use` methods, `json.loads`, the documents their `use`
 * adds and what the language models answer are given.
 */
module Heymans {
  import opened Wrappers
  import opened Strings
  import SM = SigmundMessages
  import HM = HeymansMessages
  import HD = HeymansDocumentation
  import BT = HeymansBaseTool
  import PyLists
  import Seqs

  /** A tool: its class name (for the placeholder) and its `use`. */
  datatype Tool = Tool(className: string, use: (string, seq<(BT.Json, BT.Json)>) -> BT.Use)

  datatype Config = Config(searchPrompt: string, answerPrompt: string)

  /** What the chatbot reads from outside. */
  datatype World = World(
    matches: (nat, string) -> seq<BT.Match>,   // what the pattern of the tool at this index finds in a reply
    decode: string -> Option<BT.Json>,           // `json.loads`
    found: (nat, string) -> seq<string>,         // the documents the `use` of the tool at this index adds for a reply
    searchModel: seq<SM.Pair> -> string,         // the search model, on a prompt
    answer: seq<SM.Pair> -> string,              // the answer model, on a prompt
    relevance: string -> string,                 // the condense model's reply on whether a document is relevant
    condense: string -> string)                  // the condense model's summary

  /** Where the tools are after some of them ran: the reply, the results, the flags and the documents added, or the exception that stopped them. */
  datatype Tools = Tools(reply: string, results: seq<string>, needs: seq<bool>, found: seq<string>, err: Option<Exception>)

  /** What the system prompt reads from the documentation. */
  function DocsOf(docs: seq<string>): HM.Docs
  {
    HM.Docs(HD.TotalLength(docs), HD.Str(docs))
  }

  /** `messages.prompt()` with these documents. */
  function PromptOf(m: HM.Messages, docs: seq<string>): seq<SM.Pair>
    reads m
  {
    [SM.Pair("system", HM.SystemPrompt(m.templates, DocsOf(docs), m.condensedText))] + m.condensed
  }

  /** The prompt of the search phase: the documentation cleared, and the user message appended and condensed. */
  function SearchPrompt(m: HM.Messages, message: string, world: World): seq<SM.Pair>
    reads m
  {
    var (condensed, text) := HM.CondenseResult(m.condensed + [SM.Pair("user", message)], m.condensedText, world.condense);
    [SM.Pair("system", HM.SystemPrompt(m.templates, DocsOf([]), text))] + condensed
  }

  /** The documents a tool adds: none when its pattern does not match, since `use` is called once per match. */
  function Found(world: World, k: nat, reply: string): seq<string>
  {
    if world.matches(k, reply) == [] then [] else world.found(k, reply)
  }

  /** A tool run: the tool at an index on a reply. */
  type Runner = (nat, string) -> Result<BT.RunResult>

  /** `tool.run(reply)` for the tool at index `k`: `BaseTool.run` on its matches, with its `use`. */
  function ToolRuns(world: World, tools: seq<Tool>): Runner
  {
    (k: nat, r: string) =>
      if k < |tools| then BT.RunSpec(r, world.matches(k, r), tools[k].use, world.decode, tools[k].className)
      else Ok(BT.RunResult(r, [], false))
  }

  /** The tool at index `k` run on the reply the tools before it left. */
  function Step(run: Runner, world: World, reply: string, k: nat): Result<BT.RunResult>
  {
    run(k, RunAll(run, world, reply, k).reply)
  }

  /** The first `n` tools run one after the other, each on the reply the one before it left. */
  function RunAll(run: Runner, world: World, reply: string, n: nat): Tools
    decreases n
  {
    if n == 0 then Tools(reply, [], [], [], None)
    else
      var t := RunAll(run, world, reply, n - 1);
      if t.err.Some? then t
      else
        var found := t.found + Found(world, n - 1, t.reply);
        match run(n - 1, t.reply)
        case Err(e) => Tools(t.reply, t.results, t.needs, found, Some(e))
        case Ok(rr) => Tools(rr.message, t.results + rr.results, t.needs + [rr.needsReply], found, None)
  }

  /** What `_run_tools` returns: the reply, the results joined by blank lines, and whether any tool needs a reply. */
  function Outcome(t: Tools): Result<(string, string, bool)>
  {
    if t.err.Some? then Err(t.err.value) else Ok((t.reply, Join(t.results, "\n\n"), BT.AnyTrue(t.needs)))
  }

  /** The reply with the results attached, when there are any. */
  function WithResult(reply: string, result: string): string
  {
    if result != "" then reply + "\n\n" + result else reply
  }

  class Heymans {
    const config: Config
    const searchFirst: bool
    const tools: seq<Tool>
    const messages: HM.Messages
    const documentation: HD.Documentation
    /** `system_prompt`: which of the two prompts the phase uses. */
    var systemPrompt: string

    constructor (config: Config, searchFirst: bool, tools: seq<Tool>, messages: HM.Messages, documentation: HD.Documentation)
      ensures this.config == config && this.searchFirst == searchFirst && this.tools == tools
      ensures this.messages == messages && this.documentation == documentation
      ensures systemPrompt == config.answerPrompt
    {
      this.config := config;
      this.searchFirst := searchFirst;
      this.tools := tools;
      this.messages := messages;
      this.documentation := documentation;
      systemPrompt := config.answerPrompt;
    }

    /**
     * `send_user_message(message)`: the user message is appended first;
     * then the search phase, when searching first, and the answer with at
     * most `fuel` feedback rounds. The metadata it returns with the reply
     * is always None, because `append` returns nothing.
     */
    method SendUserMessage(message: string, world: World, fuel: nat) returns (r: Result<string>)
      modifies this, messages, documentation
      ensures old(messages.history) + [SM.Pair("user", message)] <= messages.history
      ensures !searchFirst ==> old(documentation.documents) <= documentation.documents
      ensures searchFirst ==>
        var t := RunAll(ToolRuns(world, tools), world, world.searchModel(old(SearchPrompt(messages, message, world))), |tools|);
        && (t.err.Some? ==>
              r == Err(t.err.value)
              && messages.history == old(messages.history) + [SM.Pair("user", message)]
              && documentation.documents == PyLists.AddNew([], t.found))
        && (t.err.None? ==> HD.Relevant(PyLists.AddNew([], t.found), world.relevance) <= documentation.documents)
    {
      messages.Append("user", message, world.condense);
      assert PromptOf(messages, []) == old(SearchPrompt(messages, message, world));
      ghost var afterUser := messages.history;
      if searchFirst {
        var err := Search(world);
        if err.Some? {
          return Err(err.value);
        }
      }
      ghost var d := documentation.documents;
      ghost var raw := world.answer(PromptOf(messages, d));
      ghost var t := RunAll(ToolRuns(world, tools), world, raw, |tools|);
      r := Answer(world, fuel);
      Seqs.PrefixExtend(afterUser, [SM.Pair("assistant", raw)], messages.history);
      PyLists.AddNewPrefix(d, t.found);
      Seqs.PrefixChain(d, PyLists.AddNew(d, t.found), documentation.documents);
    }

    /**
     * `_search`: the documentation cleared, the search model's reply
     * handed to the tools, whose results are dropped, and the irrelevant
     * documents stripped.
     */
    method Search(world: World) returns (err: Option<Exception>)
      modifies this, documentation
      ensures systemPrompt == config.searchPrompt
      ensures !searchFirst ==> err.None? && documentation.documents == []
      ensures searchFirst ==>
        var t := RunAll(ToolRuns(world, tools), world, world.searchModel(old(PromptOf(messages, []))), |tools|);
        && err == t.err
        && (err.Some? ==> documentation.documents == PyLists.AddNew([], t.found))
        && (err.None? ==> documentation.documents == HD.Relevant(PyLists.AddNew([], t.found), world.relevance))
    {
      systemPrompt := config.searchPrompt;
      documentation.Clear();
      if searchFirst {
        var prompt := messages.Prompt(DocsOf(documentation.documents));
        var reply := world.searchModel(prompt);
        var out := RunTools(reply, world);
        if out.Err? {
          return Some(out.error);
        }
      }
      documentation.StripIrrelevant(world.relevance);
      return None;
    }

    /**
     * `_answer`: the answer model's reply is stored and handed to the
     * tools; their results are attached when there are any, and when a
     * tool needs a reply the results are stored too and the reply of a
     * feedback answer is attached (at most `fuel` more answers).
     */
    method Answer(world: World, fuel: nat) returns (r: Result<string>)
      modifies this, messages, documentation
      ensures systemPrompt == config.answerPrompt
      ensures
        var raw := world.answer(old(PromptOf(messages, documentation.documents)));
        var t := RunAll(ToolRuns(world, tools), world, raw, |tools|);
        var result := Join(t.results, "\n\n");
        var stored := old(messages.history) + [SM.Pair("assistant", raw)];
        var docs := PyLists.AddNew(old(documentation.documents), t.found);
        && stored <= messages.history
        && docs <= documentation.documents
        && (t.err.Some? ==> r == Err(t.err.value))
        && (t.err.None? && !BT.AnyTrue(t.needs) ==> r == Ok(WithResult(t.reply, result)))
        && (t.err.Some? || !BT.AnyTrue(t.needs) ==> messages.history == stored && documentation.documents == docs)
        && (t.err.None? && BT.AnyTrue(t.needs) ==>
              && stored + [SM.Pair("assistant", result)] <= messages.history
              && (fuel == 0 ==> r == Err(RecursionError) && messages.history == stored + [SM.Pair("assistant", result)] && documentation.documents == docs)
              && (r.Ok? ==> WithResult(t.reply, result) + "\n\n" <= r.value))
      decreases fuel
    {
      var out := Round(world);
      if out.Err? {
        return Err(out.error);
      }
      var (reply, result, needsFeedback) := out.value;
      if result != "" {
        reply := reply + "\n\n" + result;
      }
      if needsFeedback {
        messages.Append("assistant", result, world.condense);
        if fuel == 0 {
          return Err(RecursionError);
        }
        ghost var h := messages.history;
        ghost var d := documentation.documents;
        ghost var raw := world.answer(PromptOf(messages, d));
        ghost var t := RunAll(ToolRuns(world, tools), world, raw, |tools|);
        var feedback := Answer(world, fuel - 1);
        Seqs.PrefixExtend(h, [SM.Pair("assistant", raw)], messages.history);
        PyLists.AddNewPrefix(d, t.found);
        Seqs.PrefixChain(d, PyLists.AddNew(d, t.found), documentation.documents);
        if feedback.Err? {
          return Err(feedback.error);
        }
        reply := reply + "\n\n" + feedback.value;
      }
      return Ok(reply);
    }

    /** One answer: the prompt, the reply stored as it came, and the tools run on it. */
    method Round(world: World) returns (r: Result<(string, string, bool)>)
      modifies this, messages, documentation
      ensures systemPrompt == config.answerPrompt
      ensures
        var raw := world.answer(old(PromptOf(messages, documentation.documents)));
        var t := RunAll(ToolRuns(world, tools), world, raw, |tools|);
        && messages.history == old(messages.history) + [SM.Pair("assistant", raw)]
        && documentation.documents == PyLists.AddNew(old(documentation.documents), t.found)
        && r == Outcome(t)
    {
      systemPrompt := config.answerPrompt;
      var prompt := messages.Prompt(DocsOf(documentation.documents));
      var reply := world.answer(prompt);
      messages.Append("assistant", reply, world.condense);
      r := RunTools(reply, world);
    }

    /**
     * `_run_tools`: every tool in order on the reply the one before it
     * left, its results added to the list and its flag to the flags; an
     * exception of a tool ends the run.
     */
    method RunTools(reply: string, world: World) returns (r: Result<(string, string, bool)>)
      modifies documentation
      ensures var t := RunAll(ToolRuns(world, tools), world, reply, |tools|);
        && documentation.documents == PyLists.AddNew(old(documentation.documents), t.found)
        && r == Outcome(t)
    {
      var current := reply;
      var results: seq<string> := [];
      var needsReply: seq<bool> := [];
      ghost var found: seq<string> := [];
      for i := 0 to |tools|
        invariant RunAll(ToolRuns(world, tools), world, reply, i) == Tools(current, results, needsReply, found, None)
        invariant documentation.documents == PyLists.AddNew(old(documentation.documents), found)
      {
        var out;
        out, found := UseTool(reply, world, i, current, results, needsReply, found, old(documentation.documents));
        if out.Err? {
          RunAllKeepsError(ToolRuns(world, tools), world, reply, i + 1, |tools|);
          return Err(out.error);
        }
        current, results, needsReply := out.value.0, out.value.1, out.value.2;
      }
      r := Ok((current, Join(results, "\n\n"), BT.AnyTrue(needsReply)));
    }

    /** One turn of the loop of `_run_tools`: the tool at index `i`, its documents added and its results and flag collected. */
    method UseTool(reply: string, world: World, i: nat, current: string, results: seq<string>, needsReply: seq<bool>,
                   ghost found: seq<string>, ghost start: seq<string>)
      returns (out: Result<(string, seq<string>, seq<bool>)>, ghost found': seq<string>)
      requires i < |tools|
      requires RunAll(ToolRuns(world, tools), world, reply, i) == Tools(current, results, needsReply, found, None)
      requires documentation.documents == PyLists.AddNew(start, found)
      modifies documentation
      ensures documentation.documents == PyLists.AddNew(start, found')
      ensures out.Err? ==> RunAll(ToolRuns(world, tools), world, reply, i + 1) == Tools(current, results, needsReply, found', Some(out.error))
      ensures out.Ok? ==> RunAll(ToolRuns(world, tools), world, reply, i + 1) == Tools(out.value.0, out.value.1, out.value.2, found', None)
    {
      // The documents the tool's `use` adds, each unless it is there already.
      var added := Found(world, i, current);
      documentation.Search([added]);
      assert PyLists.Flatten([added]) == added by {
        assert [added][..0] == [];
      }
      PyLists.AddNewConcat(start, found, added);
      found' := found + added;
      var run := RunTool(i, current, world);
      if run.Err? {
        RunAllRaise(ToolRuns(world, tools), world, reply, i, run.error);
        return Err(run.error), found';
      }
      RunAllStep(ToolRuns(world, tools), world, reply, i, run.value);
      out := Ok((run.value.message, results + run.value.results, needsReply + [run.value.needsReply]));
    }

    /** `tool.run(reply)` for the tool at index `i`. */
    method RunTool(i: nat, reply: string, world: World) returns (out: Result<BT.RunResult>)
      requires i < |tools|
      ensures out == ToolRuns(world, tools)(i, reply)
    {
      out := BT.Run(reply, world.matches(i, reply), tools[i].use, world.decode, tools[i].className);
    }
  }

  // ---------------------------------------------------------------------------
  // Properties

  /** Once a tool raised, the tools after it do not run. */
  lemma {:induction false} RunAllKeepsError(run: Runner, world: World, reply: string, i: nat, n: nat)
    requires i <= n
    requires RunAll(run, world, reply, i).err.Some?
    ensures RunAll(run, world, reply, n) == RunAll(run, world, reply, i)
    decreases n - i
  {
    if i < n {
      RunAllKeepsError(run, world, reply, i, n - 1);
    }
  }

  /** A tool run that succeeds moves the reply on and adds its results, its flag and its documents. */
  lemma {:induction false} RunAllStep(run: Runner, world: World, reply: string, i: nat, rr: BT.RunResult)
    requires RunAll(run, world, reply, i).err.None?
    requires run(i, RunAll(run, world, reply, i).reply) == Ok(rr)
    ensures var t := RunAll(run, world, reply, i);
      RunAll(run, world, reply, i + 1) == Tools(rr.message, t.results + rr.results, t.needs + [rr.needsReply], t.found + Found(world, i, t.reply), None)
  {
  }

  /** A tool run that raises stops the tools, keeping its documents. */
  lemma {:induction false} RunAllRaise(run: Runner, world: World, reply: string, i: nat, e: Exception)
    requires RunAll(run, world, reply, i).err.None?
    requires run(i, RunAll(run, world, reply, i).reply) == Err(e)
    ensures var t := RunAll(run, world, reply, i);
      RunAll(run, world, reply, i + 1) == Tools(t.reply, t.results, t.needs, t.found + Found(world, i, t.reply), Some(e))
  {
  }

  /** When all `n` tools ran, so did the first `k`, and their results and flags come first. */
  lemma {:induction false} RunAllGrows(run: Runner, world: World, reply: string, k: nat, n: nat)
    requires k <= n
    requires RunAll(run, world, reply, n).err.None?
    ensures RunAll(run, world, reply, k).err.None?
    ensures |RunAll(run, world, reply, n).needs| == n
    ensures RunAll(run, world, reply, k).results <= RunAll(run, world, reply, n).results
    ensures RunAll(run, world, reply, k).needs <= RunAll(run, world, reply, n).needs
    decreases n
  {
    if n > 0 {
      var t := RunAll(run, world, reply, n - 1);
      assert t.err.None?;
      if k < n {
        RunAllGrows(run, world, reply, k, n - 1);
        var u := RunAll(run, world, reply, n);
        Seqs.PrefixExtend(t.results, u.results[|t.results|..], u.results);
        Seqs.PrefixChain(RunAll(run, world, reply, k).results, t.results, u.results);
        Seqs.PrefixChain(RunAll(run, world, reply, k).needs, t.needs, u.needs);
      } else {
        RunAllGrows(run, world, reply, n - 1, n - 1);
      }
    }
  }

  /**
   * When every tool ran, the one at index `k` ran on the reply the tools
   * before it left, its flag is the one at its index, and its results
   * follow those of the tools before it.
   */
  lemma {:induction false} RunAllAt(run: Runner, world: World, reply: string, k: nat, n: nat)
    requires k < n
    requires RunAll(run, world, reply, n).err.None?
    ensures Step(run, world, reply, k).Ok? && |RunAll(run, world, reply, n).needs| == n
    ensures RunAll(run, world, reply, n).needs[k] == Step(run, world, reply, k).value.needsReply
    ensures RunAll(run, world, reply, k + 1).reply == Step(run, world, reply, k).value.message
    ensures RunAll(run, world, reply, k).results + Step(run, world, reply, k).value.results <= RunAll(run, world, reply, n).results
  {
    RunAllGrows(run, world, reply, k + 1, n);
    RunAllGrows(run, world, reply, k, k);
    var t := RunAll(run, world, reply, k);
    var u := RunAll(run, world, reply, k + 1);
    assert t.err.None?;
    var out := run(k, t.reply);
    assert out.Ok?;
    assert u.needs == t.needs + [out.value.needsReply];
    assert u.needs[k] == out.value.needsReply;
  }

  /** `any(needs_reply)`: a reply is needed exactly when one of the tools asks for it. */
  lemma {:induction false} NeedsReplyIsAny(run: Runner, world: World, reply: string, n: nat)
    requires RunAll(run, world, reply, n).err.None?
    ensures BT.AnyTrue(RunAll(run, world, reply, n).needs) <==>
      exists k :: 0 <= k < n && Step(run, world, reply, k).Ok? && Step(run, world, reply, k).value.needsReply
  {
    RunAllGrows(run, world, reply, n, n);
    forall k | 0 <= k < n
      ensures Step(run, world, reply, k).Ok? && RunAll(run, world, reply, n).needs[k] == Step(run, world, reply, k).value.needsReply
    {
      RunAllAt(run, world, reply, k, n);
    }
  }

  /** Tools whose patterns match nothing leave the reply as it is, give no results, add no documents and need no reply. */
  lemma {:induction false} NoMatchesNoChange(world: World, tools: seq<Tool>, reply: string, n: nat)
    requires n <= |tools|
    requires forall k :: 0 <= k < n ==> world.matches(k, reply) == []
    ensures var t := RunAll(ToolRuns(world, tools), world, reply, n);
      t.reply == reply && t.results == [] && t.found == [] && t.err.None? && |t.needs| == n && !BT.AnyTrue(t.needs)
    ensures n == |tools| ==> Outcome(RunAll(ToolRuns(world, tools), world, reply, n)) == Ok((reply, "", false))
    decreases n
  {
    if n > 0 {
      NoMatchesNoChange(world, tools, reply, n - 1);
      var t := RunAll(ToolRuns(world, tools), world, reply, n - 1);
      BT.RunNoMatches(reply, tools[n - 1].use, world.decode, tools[n - 1].className);
      assert ToolRuns(world, tools)(n - 1, reply) == Ok(BT.RunResult(reply, [], false));
      var needs := t.needs + [false];
      assert !BT.AnyTrue(needs) by {
        forall i | 0 <= i < |needs|
          ensures !needs[i]
        {
          if i < |t.needs| {
            assert needs[i] == t.needs[i];
          }
        }
      }
    }
  }

  /** `if result: reply += '\n\n' + result`: nothing is attached for an empty result, the result after a blank line otherwise. */
  lemma {:induction false} ResultAttached(reply: string, result: string)
    ensures result == "" ==> WithResult(reply, result) == reply
    ensures result != "" ==> reply + "\n\n" <= WithResult(reply, result) && WithResult(reply, result)[|reply| + 2..] == result
  {
  }
}
