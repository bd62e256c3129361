/**
 * The chatbot of sigmund: `send_user_message` is a generator that yields
 * loading-indicator actions and messages. It checks the rate limit, appends
 * the user message, optionally runs a documentation search phase, then runs
 * answer rounds, another one whenever a tool or the model asks for feedback.
 *
 * The generator is modelled as a method that returns the events it yields,
 * in order, and the exception that ends it, if any. The conversation and the
 * documentation are the `Messages` and `Documentation` objects of their own
 * modules; the database's activity log and the answer model's token counter
 * are fields. What the language models answer, what `get_activity` reports
 * for the past hour, the clock, `uuid4` and `json.dumps` are given.
 */
module Sigmund {
  import opened Wrappers
  import opened Strings
  import SM = SigmundMessages
  import SD = SigmundDocumentation
  import PyLists
  import Seqs

  /** What the generator yields: an action for the loading indicator, or a message and its metadata. */
  datatype Event = Indicator(message: string) | Said(text: string, metadata: SM.Metadata)

  /** A truthy tool result: the dictionary's content (the rest of it only reaches `json.dumps`). */
  datatype ToolResult = ToolResult(content: string)

  /** What the answer model replies: text, or a tool that, called, gives a message, a result and whether it needs feedback. */
  datatype Answer =
    | Text(reply: string)
    | ToolCall(toolMessage: string, result: Option<ToolResult>, needsFeedback: bool)

  /** What the search tool does when the search model calls it: topic documents to append, then the results of its queries. */
  datatype SearchCall = SearchCall(topicDocs: seq<SD.Doc>, results: seq<seq<SD.Doc>>)

  datatype Config = Config(
    maxTokensPerHour: nat,
    limitMessage: string,
    aiName: string,
    searchPrompt: string,
    notDoneYetMarker: string,
    supportsToolFeedback: bool,
    supportsNotDoneYet: bool)

  /** What the chatbot reads from outside. */
  datatype World = World(
    pastHour: seq<nat> -> nat,             // `get_activity`, given the activity recorded so far
    ctx: seq<SD.Doc> -> SM.Context,          // the clock, the models and `to_json` of the documentation
    uuid: nat -> string,                     // the id `uuid4` gives the entry at this index of the history
    summarise: string -> string,             // the condense model
    userResults: seq<seq<SD.Doc>>,           // what the sources find for the user message
    searchReply: Option<SearchCall>,         // the search model's reply: a tool call, or None when it calls none
    judge: SD.Doc -> SD.Verdict,             // the relevance verdicts of the condense model
    answer: nat -> Answer,                   // the answer model's reply in each round
    tokens: nat -> nat,                      // what the answer model counts for each round's prediction
    dumps: ToolResult -> string)             // `json.dumps`

  function Sum(s: seq<nat>): nat
    decreases |s|
  {
    if s == [] then 0 else Sum(s[..|s| - 1]) + s[|s| - 1]
  }

  /** `_rate_limit_exceeded`: strictly more tokens in the past hour than allowed. */
  predicate Limited(config: Config, world: World, activity: seq<nat>)
  {
    world.pastHour(activity) > config.maxTokensPerHour
  }

  function Searching(config: Config): Event
  {
    Indicator(config.aiName + " is searching ")
  }

  function Thinking(config: Config): Event
  {
    Indicator(config.aiName + " is thinking and typing ")
  }

  /** What the system prompt reads from the documentation. */
  function DocsOf(docs: seq<SD.Doc>): SM.Docs
  {
    SM.Docs(SD.TotalLength(docs), SD.Prompt(docs).UnwrapOr(""))
  }

  /** The metadata `append` gives the entry at index `k`, with no workspace and no message id. */
  function Meta(world: World, docs: seq<SD.Doc>, k: nat): SM.Metadata
  {
    SM.MakeMetadata(world.ctx(docs), None, None, None, world.uuid(k))
  }

  /** Whether one round asks for another: a tool that needs feedback from a model that supports it, or the marker in a reply. */
  predicate NeedsFeedback(config: Config, a: Answer)
  {
    match a
    case ToolCall(_, _, nf) => nf && config.supportsToolFeedback
    case Text(reply) => config.supportsNotDoneYet && Contains(reply, config.notDoneYetMarker)
  }

  /** The entries one round appends after `k` entries: the reply, or the tool message and, for a result, its JSON. */
  function RoundEntries(world: World, docs: seq<SD.Doc>, k: nat, a: Answer): seq<SM.Entry>
  {
    match a
    case Text(reply) => [SM.Entry("assistant", reply, Meta(world, docs, k))]
    case ToolCall(tm, result, _) =>
      [SM.Entry("assistant", tm, Meta(world, docs, k))]
      + (if result.Some? then [SM.Entry("tool", world.dumps(result.value), Meta(world, docs, k + 1))] else [])
  }

  /** The messages one round yields after its indicator: the reply, or the tool message and a non-empty result content. */
  function RoundReplies(world: World, docs: seq<SD.Doc>, k: nat, a: Answer): seq<Event>
  {
    match a
    case Text(reply) => [Said(reply, Meta(world, docs, k))]
    case ToolCall(tm, result, _) =>
      [Said(tm, Meta(world, docs, k))]
      + (if result.Some? && result.value.content != "" then [Said(result.value.content, Meta(world, docs, k + 1))] else [])
  }

  /** Whether `prompt` gets past its roles: it raises ValueError on a role it does not know. */
  predicate PromptBuilds(cs: seq<SM.Pair>)
  {
    SM.FirstInvalid(SM.MaskedPairs(cs), |SM.MaskedPairs(cs)|).None?
  }

  /** `documentation.append` for each document in turn. */
  function AppendAll(docs: seq<SD.Doc>, ds: seq<SD.Doc>): seq<SD.Doc>
    decreases |ds|
  {
    if ds == [] then docs else SD.AppendSpec(AppendAll(docs, ds[..|ds| - 1]), ds[|ds| - 1])
  }

  /** The documentation after the searches: the user message's, then the search tool's, if called. */
  function Searched(world: World): seq<SD.Doc>
  {
    var first := PyLists.AddNew([], PyLists.Flatten(world.userResults));
    match world.searchReply
    case None => first
    case Some(call) => PyLists.AddNew(AppendAll(first, call.topicDocs), PyLists.Flatten(call.results))
  }

  /**
   * The arguments `send_user_message` means to give `append` for the user
   * message: no workspace, and the client's message id.
   */
  function UserAppendArgs(messageId: Option<string>): (args: (Option<string>, Option<string>, Option<string>))
    ensures args.0.None? && args.1.None? && args.2 == messageId
  {
    (None, None, messageId)
  }

  /**
   * The arguments as the source passes them: positionally, so the message
   * id lands in the workspace content slot.
   */
  function UserAppendArgsAsWritten(messageId: Option<string>): (args: (Option<string>, Option<string>, Option<string>))
    ensures args.0 == messageId && args.1.None? && args.2.None?
  {
    (messageId, None, None)
  }

  class Sigmund {
    const config: Config
    const searchFirst: bool
    const messages: SM.Messages
    const documentation: SD.Documentation
    /** The tokens `add_activity` recorded. */
    var activity: seq<nat>
    /** `answer_model.total_tokens_consumed`. */
    var answerTokens: nat

    predicate Valid()
      reads this, messages
    {
      messages.Valid()
    }

    constructor (config: Config, searchFirst: bool, messages: SM.Messages, documentation: SD.Documentation)
      requires messages.Valid()
      ensures Valid()
      ensures this.config == config && this.searchFirst == searchFirst
      ensures this.messages == messages && this.documentation == documentation
      ensures activity == [] && answerTokens == 0
    {
      this.config := config;
      this.searchFirst := searchFirst;
      this.messages := messages;
      this.documentation := documentation;
      activity := [];
      answerTokens := 0;
    }

    method RateLimitExceeded(world: World) returns (b: bool)
      ensures b == Limited(config, world, activity)
    {
      var tokensConsumedPastHour := world.pastHour(activity);
      b := tokensConsumedPastHour > config.maxTokensPerHour;
    }

    /**
     * `send_user_message(message, message_id)`, for at most `fuel` feedback
     * rounds after the first answer round.
     */
    method SendUserMessage(message: string, messageId: Option<string>, world: World, fuel: nat)
      returns (events: seq<Event>, err: Option<Exception>)
      requires Valid()
      modifies this, messages, documentation
      ensures Valid()
      ensures Limited(config, world, old(activity)) ==>
        && events == [Said(config.limitMessage, SM.MakeMetadata(world.ctx(old(documentation.documents)), None, None, None, world.uuid(|old(messages.history)|)))]
        && err.None?
        && messages.history == old(messages.history) && activity == old(activity)
        && documentation.documents == old(documentation.documents)
      ensures !Limited(config, world, old(activity)) ==>
        && |messages.history| > |old(messages.history)|
        && messages.history[..|old(messages.history)|] == old(messages.history)
        && messages.history[|old(messages.history)|] ==
             SM.Entry("user", message, SM.MakeMetadata(world.ctx(old(documentation.documents)), None, None, messageId, world.uuid(|old(messages.history)|)))
        && events != []
        && (searchFirst ==> events[0] == Searching(config) && (|events| == 1 ==> err.Some?) && (|events| > 1 ==> events[1] == Thinking(config)))
        && (!searchFirst ==> events[0] == Thinking(config))
      ensures old(answerTokens) <= answerTokens && Sum(activity) == Sum(old(activity)) + (answerTokens - old(answerTokens))
    {
      var limited := RateLimitExceeded(world);
      if limited {
        var metadata := SM.MakeMetadata(world.ctx(documentation.documents), None, None, None, world.uuid(|messages.history|));
        return [Said(config.limitMessage, metadata)], None;
      }
      var (wc, wl, mid) := UserAppendArgs(messageId);
      var _ := messages.Append("user", message, wc, wl, mid, world.ctx(documentation.documents), world.uuid(|messages.history|), world.summarise);
      ghost var before := old(messages.history);
      ghost var afterUser := messages.history;
      assert afterUser[..|before|] == before;
      events := [];
      if searchFirst {
        var searchErr;
        events, searchErr := Search(message, world);
        if searchErr.Some? {
          return events, searchErr;
        }
      }
      ghost var searched := events;
      var answered;
      answered, err := Answer(world, 0, fuel);
      events := events + answered;
      Seqs.PrefixTrans(before, afterUser, messages.history);
      assert searchFirst ==> events[..1] == searched && events[1..] == answered;
      assert !searchFirst ==> events == answered;
    }

    /** `_search`: one indicator, then the searches, then the irrelevant documents stripped. */
    method Search(message: string, world: World) returns (events: seq<Event>, err: Option<Exception>)
      modifies documentation
      ensures events == [Searching(config)]
      ensures err.Some? <==> !PromptBuilds(messages.condensed)
      ensures err.Some? ==> documentation.documents == PyLists.AddNew([], PyLists.Flatten(world.userResults))
      ensures err.None? ==> documentation.documents == SD.StripSpec(Searched(world), world.judge)
    {
      events := [Searching(config)];
      documentation.Clear();
      documentation.Search(world.userResults);
      err := BuildPrompt(Some(config.searchPrompt), documentation.documents);
      if err.Some? {
        return;
      }
      match world.searchReply {
        case None =>
        case Some(call) =>
          AppendEach(call.topicDocs);
          documentation.Search(call.results);
      }
      documentation.StripIrrelevant(world.judge);
      return events, None;
    }

    /** The search tool's appends of the topic documents. */
    method AppendEach(ds: seq<SD.Doc>)
      modifies documentation
      ensures documentation.documents == AppendAll(old(documentation.documents), ds)
    {
      for i := 0 to |ds|
        invariant documentation.documents == AppendAll(old(documentation.documents), ds[..i])
      {
        assert ds[..i + 1][..i] == ds[..i];
        documentation.Append(ds[i]);
      }
      assert ds[..|ds|] == ds;
    }

    /**
     * `_answer`: the indicator, one round, and another round when feedback
     * is needed and the rate limit allows it (at most `fuel` more rounds).
     */
    method Answer(world: World, round: nat, fuel: nat) returns (events: seq<Event>, err: Option<Exception>)
      requires Valid()
      modifies this, messages
      ensures Valid()
      ensures events != [] && events[0] == Thinking(config)
      ensures |messages.history| >= |old(messages.history)| && messages.history[..|old(messages.history)|] == old(messages.history)
      ensures |activity| >= |old(activity)| && activity[..|old(activity)|] == old(activity)
      ensures old(answerTokens) <= answerTokens && Sum(activity) == Sum(old(activity)) + (answerTokens - old(answerTokens))
      ensures !old(PromptBuilds(messages.condensed)) ==>
        events == [Thinking(config)] && err.Some? && messages.history == old(messages.history) && activity == old(activity)
      ensures old(PromptBuilds(messages.condensed)) ==>
        var a := world.answer(round);
        var k := |old(messages.history)|;
        var replies := RoundReplies(world, documentation.documents, k, a);
        var entries := RoundEntries(world, documentation.documents, k, a);
        var more := NeedsFeedback(config, a) && !Limited(config, world, old(activity) + [world.tokens(round)]) && fuel > 0;
        && |old(activity)| < |activity| && activity[|old(activity)|] == world.tokens(round)
        && |events| >= 1 + |replies| && events[1..1 + |replies|] == replies
        && |messages.history| >= k + |entries| && messages.history[k..k + |entries|] == entries
        && (more <==> |events| > 1 + |replies|)
        && (more ==> events[1 + |replies|] == Thinking(config))
        && (!more ==> err.None? && messages.history == old(messages.history) + entries)
      decreases fuel
    {
      events := [Thinking(config)];
      var replies, needsFeedback;
      replies, needsFeedback, err := Round(world, round);
      if err.Some? {
        return;
      }
      events := events + replies;
      var limited := RateLimitExceeded(world);
      if needsFeedback && !limited && fuel > 0 {
        ghost var h := messages.history;
        ghost var act := activity;
        ghost var tokens := answerTokens;
        var more;
        more, err := Answer(world, round + 1, fuel - 1);
        ghost var one := [Thinking(config)] + replies;
        assert events[..|one|] == one;
        events := events + more;
        assert events[..|one|] == one;
        assert events[|one|] == more[0];
        Seqs.PrefixTrans(old(messages.history), h, messages.history);
        assert messages.history[|old(messages.history)|..|h|] == h[|old(messages.history)|..];
        assert act[..|old(activity)|] == old(activity);
        Seqs.PrefixTrans(old(activity), act, activity);
        assert Sum(activity) == Sum(act) + (answerTokens - tokens);
      }
    }

    /** One round: the prompt, the prediction and its recorded activity, and the replies stored and yielded. */
    method Round(world: World, round: nat) returns (replies: seq<Event>, needsFeedback: bool, err: Option<Exception>)
      requires Valid()
      modifies this, messages
      ensures Valid()
      ensures !old(PromptBuilds(messages.condensed)) ==>
        err.Some? && messages.history == old(messages.history) && activity == old(activity) && answerTokens == old(answerTokens)
      ensures old(PromptBuilds(messages.condensed)) ==>
        var a := world.answer(round);
        var k := |old(messages.history)|;
        && err.None?
        && replies == RoundReplies(world, documentation.documents, k, a)
        && messages.history == old(messages.history) + RoundEntries(world, documentation.documents, k, a)
        && needsFeedback == NeedsFeedback(config, a)
        && activity == old(activity) + [world.tokens(round)]
        && answerTokens == old(answerTokens) + world.tokens(round)
    {
      var tokensConsumedBefore := answerTokens;
      err := BuildPrompt(None, documentation.documents);
      if err.Some? {
        return [], false, err;
      }
      var reply := world.answer(round);
      answerTokens := answerTokens + world.tokens(round);
      var tokensConsumed := answerTokens - tokensConsumedBefore;
      activity := activity + [tokensConsumed];
      replies, needsFeedback := StoreReply(reply, world);
    }

    /** `messages.prompt(system_prompt)`, for the exception it may raise. */
    method BuildPrompt(systemPrompt: Option<string>, docs: seq<SD.Doc>) returns (err: Option<Exception>)
      ensures err.Some? <==> !PromptBuilds(messages.condensed)
    {
      var prompt := messages.Prompt(systemPrompt, DocsOf(docs));
      PromptBuildsIff(messages, systemPrompt.UnwrapOr(SM.SystemPrompt(messages.templates, DocsOf(docs), messages.condensedText)), DocsOf(docs));
      err := if prompt.Err? then Some(prompt.error) else None;
    }

    /** What the reply is turned into: the entries stored, the messages yielded, and whether feedback is needed. */
    method StoreReply(reply: Answer, world: World) returns (replies: seq<Event>, needsFeedback: bool)
      requires Valid()
      modifies messages
      ensures Valid()
      ensures replies == RoundReplies(world, documentation.documents, |old(messages.history)|, reply)
      ensures messages.history == old(messages.history) + RoundEntries(world, documentation.documents, |old(messages.history)|, reply)
      ensures needsFeedback == NeedsFeedback(config, reply)
    {
      match reply {
        case ToolCall(toolMessage, toolResult, nf) =>
          needsFeedback := nf;
          if needsFeedback && !config.supportsToolFeedback {
            needsFeedback := false;
          }
          var metadata := Store("assistant", toolMessage, world);
          replies := [Said(toolMessage, metadata)];
          if toolResult.Some? {
            metadata := Store("tool", world.dumps(toolResult.value), world);
            if toolResult.value.content != "" {
              replies := replies + [Said(toolResult.value.content, metadata)];
            }
          }
        case Text(text) =>
          var metadata := Store("assistant", text, world);
          replies := [Said(text, metadata)];
          needsFeedback := config.supportsNotDoneYet && Contains(text, config.notDoneYetMarker);
      }
    }

    /** `messages.append(role, text)`: the entry and its metadata. */
    method Store(role: string, text: string, world: World) returns (metadata: SM.Metadata)
      requires Valid()
      modifies messages
      ensures Valid()
      ensures metadata == Meta(world, documentation.documents, |old(messages.history)|)
      ensures messages.history == old(messages.history) + [SM.Entry(role, text, metadata)]
    {
      metadata := messages.Append(role, text, None, None, None, world.ctx(documentation.documents), world.uuid(|messages.history|), world.summarise);
    }
  }

  // ---------------------------------------------------------------------------
  // Properties

  /** `prompt` builds exactly when no role it does not know is left in the condensed history. */
  lemma {:induction false} PromptBuildsIff(m: SM.Messages, sp: string, docs: SM.Docs)
    ensures PromptBuilds(m.condensed) <==>
      SM.PromptSpec(SM.MaskedPairs(m.condensed), sp, m.templates, m.workspaceContent, m.workspaceLanguage).Ok?
  {
  }

  /** A tool's message is always yielded; its result's content is yielded only when there is a result with content. */
  lemma {:induction false} ToolReplies(world: World, docs: seq<SD.Doc>, k: nat, tm: string, result: Option<ToolResult>, nf: bool)
    ensures var rs := RoundReplies(world, docs, k, ToolCall(tm, result, nf));
      && rs[0] == Said(tm, Meta(world, docs, k))
      && (|rs| == 2 <==> result.Some? && result.value.content != "")
      && |rs| <= 2
      && (|rs| == 2 ==> rs[1].text == result.value.content)
  {
  }

  /** A tool result is stored even when its content is empty; a tool reply that is a result only in the store is never shown. */
  lemma {:induction false} ToolResultStored(world: World, docs: seq<SD.Doc>, k: nat, tm: string, r: ToolResult, nf: bool)
    requires r.content == ""
    ensures |RoundEntries(world, docs, k, ToolCall(tm, Some(r), nf))| == 2
    ensures |RoundReplies(world, docs, k, ToolCall(tm, Some(r), nf))| == 1
  {
  }

  /** Every reply a round yields is also an entry it appends, with the same metadata. */
  lemma {:induction false} RepliesAreStored(world: World, docs: seq<SD.Doc>, k: nat, a: Answer, i: nat)
    requires i < |RoundReplies(world, docs, k, a)|
    ensures var e := RoundReplies(world, docs, k, a)[i];
      exists j :: 0 <= j < |RoundEntries(world, docs, k, a)| && RoundEntries(world, docs, k, a)[j].metadata == e.metadata
  {
    var rs := RoundReplies(world, docs, k, a);
    var es := RoundEntries(world, docs, k, a);
    if i == 0 {
      assert es[0].metadata == rs[0].metadata;
    } else {
      assert es[1].metadata == rs[1].metadata;
    }
  }

  /** A tool that needs feedback gets none from a model that does not support it; a reply without the marker never asks for more. */
  lemma {:induction false} FeedbackCases(config: Config, a: Answer)
    ensures a.ToolCall? && !config.supportsToolFeedback ==> !NeedsFeedback(config, a)
    ensures a.ToolCall? ==> (NeedsFeedback(config, a) <==> a.needsFeedback && config.supportsToolFeedback)
    ensures a.Text? ==> (NeedsFeedback(config, a) <==> config.supportsNotDoneYet && Contains(a.reply, config.notDoneYetMarker))
  {
  }

  /** The activity of a whole message is the sum of what each round recorded. */
  lemma {:induction false} SumAppend(a: seq<nat>, b: seq<nat>)
    ensures Sum(a + b) == Sum(a) + Sum(b)
    decreases |b|
  {
    if b != [] {
      assert (a + b)[..|a + b| - 1] == a + b[..|b| - 1];
      SumAppend(a, b[..|b| - 1]);
    } else {
      assert a + b == a;
    }
  }

  /** The documentation the search phase leaves keeps every important document the searches found. */
  lemma {:induction false} SearchKeepsImportant(world: World, d: SD.Doc)
    requires d in Searched(world) && d.important
    ensures d in SD.StripSpec(Searched(world), world.judge)
  {
    var docs := Searched(world);
    var important := PyLists.Filter(docs, SD.IsImportant);
    PyLists.FilterMembers(docs, SD.IsImportant, d);
    SD.StripKeepsImportant(docs, world.judge);
    var r := SD.StripSpec(docs, world.judge);
    var i :| 0 <= i < |important| && important[i] == d;
    assert r[i] == d;
  }

  /**
   * As the source passes the arguments, the client's message id is stored
   * as workspace content and the entry gets a fresh id instead.
   */
  lemma {:induction false} UserMessageIdLost(ctx: SM.Context, id: string, newId: string)
    requires id != newId
    ensures var (wc, wl, mid) := UserAppendArgsAsWritten(Some(id));
      var md := SM.MakeMetadata(ctx, wc, wl, mid, newId);
      md.messageId == Some(newId) && md.messageId != Some(id) && md.workspaceContent == Some(id)
  {
  }

  /** With the arguments passed by keyword, the entry keeps the client's id and has no workspace. */
  lemma {:induction false} UserMessageIdKept(ctx: SM.Context, messageId: Option<string>, newId: string)
    ensures var (wc, wl, mid) := UserAppendArgs(messageId);
      var md := SM.MakeMetadata(ctx, wc, wl, mid, newId);
      md.messageId == Some(messageId.UnwrapOr(newId)) && md.workspaceContent.None? && md.workspaceLanguage.None?
  {
  }
}
