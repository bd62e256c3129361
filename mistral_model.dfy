/**
 * The Mistral chat model of sigmund: a provider on the OpenAI model's message
 * linking and reading of the answer, which puts an assistant message between
 * a tool message and a user message right after it, and which sends no tools
 * when the last message is a tool message.
 */
module MistralModel {
  import opened Wrappers
  import opened ModelBase
  import OpenAI = OpenAIModel

  /** The assistant message put after a tool message. */
  function Filler(): Msg
  {
    Message("assistant", "Tool was executed.")
  }

  /** A tool message at `i` directly followed by a user message. */
  predicate PairAt(ms: seq<Msg>, i: nat)
  {
    i + 1 < |ms| && ms[i].role == "tool" && ms[i + 1].role == "user"
  }

  predicate NoPairs(ms: seq<Msg>)
  {
    forall i :: 0 <= i < |ms| ==> !PairAt(ms, i)
  }

  /** The number of tool messages followed by a user message. */
  function PairCount(ms: seq<Msg>): nat
    decreases |ms|
  {
    if ms == [] then 0 else (if PairAt(ms, 0) then 1 else 0) + PairCount(ms[1..])
  }

  /** The messages with the filler put after every tool message that a user message follows. */
  function Fill(ms: seq<Msg>): seq<Msg>
    decreases |ms|
  {
    if ms == [] then []
    else if PairAt(ms, 0) then [ms[0], Filler()] + Fill(ms[1..])
    else [ms[0]] + Fill(ms[1..])
  }

  /** `messages.insert(i + 1, filler)`. */
  function InsertAfter(ms: seq<Msg>, i: nat): seq<Msg>
    requires i < |ms|
  {
    ms[..i + 1] + [Filler()] + ms[i + 1..]
  }

  /**
   * The `while True` loop of `predict`: each pass scans the list for the
   * first tool message followed by a user message and puts the filler between
   * them; a pass that finds none ends the loop.
   */
  method InsertFillers(messages: seq<Msg>) returns (ms: seq<Msg>)
    ensures ms == Fill(messages)
  {
    ms := messages;
    while true
      invariant Fill(ms) == Fill(messages)
      decreases PairCount(ms)
    {
      var i := 0;
      var found := false;
      while i + 1 < |ms|
        invariant forall j :: 0 <= j < i ==> !PairAt(ms, j)
      {
        if ms[i].role == "tool" && ms[i + 1].role == "user" {
          found := true;
          break;
        }
        i := i + 1;
      }
      if !found {
        assert NoPairs(ms);
        FillNoPairsFixed(ms);
        return;
      }
      InsertKeepsFill(ms, i);
      ms := InsertAfter(ms, i);
    }
  }

  // ---------------------------------------------------------------------------
  // The request

  /**
   * The request `_mistral_invoke` sends: without tool arguments when the last
   * message is a tool message; an empty list has no last message.
   */
  function MistralRequest(model: string, ms: seq<Msg>, tools: Option<seq<Tool>>, choice: ToolChoice, jsonMode: bool)
    : Result<OpenAI.Request>
  {
    if ms == [] then Err(IndexError)
    else if ms[|ms| - 1].role == "tool" then Ok(OpenAI.Request(model, ms, None, jsonMode))
    else Ok(OpenAI.Request(model, ms, OpenAI.ToolArgs(tools, choice), jsonMode))
  }

  /**
   * The messages `predict` sends: a string as one user message, a list
   * linked; then the fillers. The list is taken as the linking step receives
   * it: `prepare_messages` and `convert_message` are not applied to it here.
   */
  function Prepared(input: Prompt, decode: string -> Result<ToolInfo>): Result<seq<Msg>>
  {
    match OpenAI.Prepared(input, decode)
    case Err(e) => Err(e)
    case Ok(ms) => Ok(Fill(ms))
  }

  /** What the model answers to the prepared messages. */
  function Answer(p: Result<seq<Msg>>, model: string, tools: Option<seq<Tool>>, choice: ToolChoice, jsonMode: bool,
                  respond: OpenAI.Request -> OpenAI.Completion): Result<Reply>
  {
    match p
    case Err(e) => Err(e)
    case Ok(ms) =>
      match MistralRequest(model, ms, tools, choice, jsonMode)
      case Err(e) => Err(e)
      case Ok(request) => OpenAI.CompletionReply(respond(request), tools)
  }

  /** The choice as the constructor stores it: any tool choice at all becomes 'any'. */
  function MistralChoice(toolChoice: Option<string>): ToolChoice
  {
    if toolChoice.Some? then ChoiceName("any") else NoChoice
  }

  class MistralModel {
    const base: BaseModel

    /** The constructor runs the base constructor only, not the OpenAI one. */
    constructor(modelName: string, thinking: bool, tools: Option<seq<Tool>>, toolChoice: Option<string>)
      ensures fresh(base)
      ensures base.modelName == modelName && base.thinking == thinking && base.tools == tools
      ensures base.toolChoice == MistralChoice(toolChoice) && !base.jsonMode
      ensures base.totalTokensConsumed == 0 && base.promptTokensConsumed == 0 && base.completionTokensConsumed == 0
      ensures base.Valid()
    {
      base := new BaseModel(modelName, thinking, tools, toolChoice);
      new;
      if base.toolChoice != NoChoice {
        base.toolChoice := ChoiceName("any");
      }
    }

    /** `predict`: the messages are linked and filled, sent, and the answer is read and counted. */
    method Predict(input: Prompt, decode: string -> Result<ToolInfo>, respond: OpenAI.Request -> OpenAI.Completion)
      returns (r: Result<Reply>)
      modifies base
      ensures var p := Prepared(input, decode);
        && r == Answer(p, base.modelName, base.tools, old(base.toolChoice), old(base.jsonMode), respond)
        && (r.Ok? ==> base.promptTokensConsumed == old(base.promptTokensConsumed) + PromptTokens(PromptList(p.value)))
        && (r.Ok? ==> base.completionTokensConsumed == old(base.completionTokensConsumed) + CompletionTokens(r.value))
        && (r.Ok? ==> base.totalTokensConsumed == old(base.totalTokensConsumed)
                        + PromptTokens(PromptList(p.value)) + CompletionTokens(r.value))
        && (r.Err? ==> unchanged(base))
    {
      var ms: seq<Msg>;
      if input.PromptText? {
        ms := [Message("user", input.text)];
      } else {
        var linked := OpenAI.PrepareToolMessages(input.messages, decode);
        if linked.Err? {
          return Err(linked.error);
        }
        ms := linked.value;
      }
      ms := InsertFillers(ms);
      var request := MistralRequest(base.modelName, ms, base.tools, base.toolChoice, base.jsonMode);
      if request.Err? {
        return Err(request.error);
      }
      var reply := OpenAI.GetResponse(base, respond(request.value));
      if reply.Err? {
        return Err(reply.error);
      }
      var answer := base.Predict(PromptList(ms), reply.value, true);
      r := Ok(answer);
    }
  }

  // ---------------------------------------------------------------------------
  // Properties

  /** Putting the filler after a tool message that a user message follows changes nothing of the outcome, and leaves one pair fewer. */
  lemma {:induction false} InsertKeepsFill(ms: seq<Msg>, i: nat)
    requires PairAt(ms, i)
    ensures Fill(InsertAfter(ms, i)) == Fill(ms)
    ensures PairCount(InsertAfter(ms, i)) < PairCount(ms)
    decreases i
  {
    var ins := InsertAfter(ms, i);
    if i == 0 {
      assert ins == [ms[0], Filler()] + ms[1..];
      assert ins[1..] == [Filler()] + ms[1..];
      assert ins[1..][1..] == ms[1..];
      assert !PairAt(ins, 0) && !PairAt(ins[1..], 0);
      assert Fill(ins[1..]) == [Filler()] + Fill(ms[1..]);
    } else {
      assert ins[0] == ms[0] && ins[1] == ms[1];
      assert ins[1..] == InsertAfter(ms[1..], i - 1);
      assert PairAt(ms[1..], i - 1);
      InsertKeepsFill(ms[1..], i - 1);
    }
  }

  /** A list without a tool message followed by a user message is its own outcome. */
  lemma {:induction false} FillNoPairsFixed(ms: seq<Msg>)
    requires NoPairs(ms)
    ensures Fill(ms) == ms
    decreases |ms|
  {
    if ms != [] {
      assert !PairAt(ms, 0);
      assert forall i :: 0 <= i < |ms[1..]| ==> (PairAt(ms[1..], i) ==> PairAt(ms, i + 1));
      FillNoPairsFixed(ms[1..]);
    }
  }

  /** The outcome starts with the first message. */
  lemma {:induction false} FillHead(ms: seq<Msg>)
    requires ms != []
    ensures Fill(ms) != [] && Fill(ms)[0] == ms[0]
  {
  }

  /** After the loop, no tool message is followed by a user message. */
  lemma {:induction false} FillNoPairs(ms: seq<Msg>)
    ensures NoPairs(Fill(ms))
    decreases |ms|
  {
    if ms != [] {
      FillNoPairs(ms[1..]);
      var t := Fill(ms[1..]);
      var h := if PairAt(ms, 0) then [ms[0], Filler()] else [ms[0]];
      assert Fill(ms) == h + t;
      if |ms| > 1 {
        FillHead(ms[1..]);
        assert t[0] == ms[1];
      }
      forall i | 0 <= i < |h + t|
        ensures !PairAt(h + t, i)
      {
        if i >= |h| {
          assert (h + t)[i] == t[i - |h|];
          if i + 1 < |h + t| {
            assert (h + t)[i + 1] == t[i - |h| + 1];
          }
          assert !PairAt(t, i - |h|);
        }
      }
    }
  }

  /** The loop is idempotent: running it on its own outcome changes nothing. */
  lemma {:induction false} FillIdempotent(ms: seq<Msg>)
    ensures Fill(Fill(ms)) == Fill(ms)
  {
    FillNoPairs(ms);
    FillNoPairsFixed(Fill(ms));
  }

  /** One filler per pair: the outcome is longer by the number of pairs. */
  lemma {:induction false} FillLength(ms: seq<Msg>)
    ensures |Fill(ms)| == |ms| + PairCount(ms)
    decreases |ms|
  {
    if ms != [] {
      FillLength(ms[1..]);
    }
  }

  /** The number of tool messages before `k` that a user message follows. */
  function PairsBefore(ms: seq<Msg>, k: nat): nat
  {
    if k == 0 then 0 else PairsBefore(ms, k - 1) + (if PairAt(ms, k - 1) then 1 else 0)
  }

  /** Where the message at `k` stands in the outcome: one place further for each filler before it. */
  function Origin(ms: seq<Msg>, k: nat): nat
  {
    k + PairsBefore(ms, k)
  }

  /** The pairs before `k > 0` are the first one, if any, and those of the tail before `k - 1`. */
  lemma {:induction false} PairsBeforeTail(ms: seq<Msg>, k: nat)
    requires 0 < k <= |ms|
    ensures PairsBefore(ms, k) == (if PairAt(ms, 0) then 1 else 0) + PairsBefore(ms[1..], k - 1)
  {
    if k > 1 {
      PairsBeforeTail(ms, k - 1);
      assert PairAt(ms, k - 1) == PairAt(ms[1..], k - 2);
    }
  }

  /** All pairs are before the end, and they are all counted there. */
  lemma {:induction false} PairsBeforeAll(ms: seq<Msg>)
    ensures PairsBefore(ms, |ms|) == PairCount(ms)
    decreases |ms|
  {
    if ms != [] {
      PairsBeforeAll(ms[1..]);
      PairsBeforeTail(ms, |ms|);
    }
  }

  /** The outcome keeps every original message, at its origin. */
  lemma {:induction false} FillKeepsMessages(ms: seq<Msg>, k: nat)
    requires k < |ms|
    ensures Origin(ms, k) < |Fill(ms)| && Fill(ms)[Origin(ms, k)] == ms[k]
    decreases |ms|
  {
    if k > 0 {
      FillKeepsMessages(ms[1..], k - 1);
      PairsBeforeTail(ms, k);
      var h := if PairAt(ms, 0) then [ms[0], Filler()] else [ms[0]];
      var t := Fill(ms[1..]);
      assert Fill(ms) == h + t;
      assert (h + t)[Origin(ms[1..], k - 1) + |h|] == t[Origin(ms[1..], k - 1)];
    }
  }

  /** After a tool message followed by a user message, the outcome holds the filler. */
  lemma {:induction false} FillFillerAfterPair(ms: seq<Msg>, k: nat)
    requires PairAt(ms, k)
    ensures Origin(ms, k) + 1 < |Fill(ms)| && Fill(ms)[Origin(ms, k) + 1] == Filler()
    decreases |ms|
  {
    var h := if PairAt(ms, 0) then [ms[0], Filler()] else [ms[0]];
    var t := Fill(ms[1..]);
    assert Fill(ms) == h + t;
    if k > 0 {
      assert PairAt(ms[1..], k - 1);
      FillFillerAfterPair(ms[1..], k - 1);
      PairsBeforeTail(ms, k);
      assert (h + t)[Origin(ms[1..], k - 1) + 1 + |h|] == t[Origin(ms[1..], k - 1) + 1];
    }
  }

  /**
   * The outcome is the list with fillers put in and nothing else: the
   * original messages stand in their order from the first place to the last,
   * each right after the one before it, or two places after it, with the
   * filler between them, when that one was a tool message followed by a user
   * message.
   */
  lemma {:induction false} FillShape(ms: seq<Msg>)
    requires ms != []
    ensures Origin(ms, 0) == 0 && Origin(ms, |ms| - 1) + 1 == |Fill(ms)|
    ensures forall k :: 0 <= k < |ms| - 1 ==> Origin(ms, k + 1) == Origin(ms, k) + (if PairAt(ms, k) then 2 else 1)
  {
    PairsBeforeAll(ms);
    FillLength(ms);
    assert !PairAt(ms, |ms| - 1);
  }

  /** When the last message is a tool message, the request carries no tools, whatever the model has. */
  lemma {:induction false} LastToolNoTools(model: string, ms: seq<Msg>, tools: Option<seq<Tool>>, choice: ToolChoice, jsonMode: bool)
    requires ms != [] && ms[|ms| - 1].role == "tool"
    ensures MistralRequest(model, ms, tools, choice, jsonMode) == Ok(OpenAI.Request(model, ms, None, jsonMode))
  {
  }

  /** Otherwise the tools go with the request as the OpenAI model sends them, and the JSON format follows the model's mode. */
  lemma {:induction false} OtherwiseOpenAITools(model: string, ms: seq<Msg>, tools: Option<seq<Tool>>, choice: ToolChoice, jsonMode: bool)
    requires ms != [] && ms[|ms| - 1].role != "tool"
    ensures MistralRequest(model, ms, tools, choice, jsonMode).Ok?
    ensures MistralRequest(model, ms, tools, choice, jsonMode).value == OpenAI.InvokeRequest(model, ms, tools, choice, jsonMode)
  {
  }

  /** The constructor keeps `None` and turns every other tool choice into 'any'. */
  lemma {:induction false} ChoiceIsAny(toolChoice: Option<string>)
    ensures MistralChoice(toolChoice) == NoChoice <==> toolChoice.None?
    ensures toolChoice.Some? ==> MistralChoice(toolChoice) == ChoiceName("any")
  {
  }
}
