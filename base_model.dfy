/**
 * The provider-independent part of the chat models (`BaseModel`): the message
 * values the providers exchange, the approximate token counters, the tool
 * list and the look-up of a tool that the model asked to call.
 *
 * A provider message is a dictionary. Here it is a `Msg` value whose optional
 * fields are the keys the providers add to it ('tool_calls', 'tool_call_id',
 * 'name'). The content of a message is a string or, once a provider has
 * rewritten it, a list of content blocks.
 */
module ModelBase {
  import opened Wrappers
  import opened Strings
  import PC = PythonCalls

  datatype Content = Text(text: string) | Blocks(blocks: seq<Block>)

  /** The content blocks of the Anthropic message format. */
  datatype Block =
    | TextBlock(text: Content)
    | ToolUseBlock(id: string, args: string, name: string)
    | ToolResultBlock(toolUseId: string, content: seq<Block>)

  /** One entry of the 'tool_calls' list of the OpenAI message format. */
  datatype FunctionCall = FunctionCall(id: string, name: string, arguments: string)

  datatype Msg = Msg(
    role: string,
    content: Content,
    toolCalls: Option<seq<FunctionCall>>,
    toolCallId: Option<string>,
    name: Option<string>)

  /** `{'role': role, 'content': text}`. */
  function Message(role: string, text: string): Msg
  {
    Msg(role, Text(text), None, None, None)
  }

  /** The decoded content of a tool message: the JSON object with the keys 'content', 'args' and 'name'. */
  datatype ToolInfo = ToolInfo(content: string, args: string, name: string)

  /**
   * `json.loads(content)` of a tool message followed by the look-up of its
   * keys. `decode` stands for the parser and the look-ups; a content that is
   * already a list of blocks is not a string, and `json.loads` rejects it.
   */
  function ToolInfoOf(content: Content, decode: string -> Result<ToolInfo>): Result<ToolInfo>
  {
    match content
    case Text(s) => decode(s)
    case Blocks(_) => Err(TypeError("the JSON object must be str, bytes or bytearray, not list"))
  }

  // ---------------------------------------------------------------------------
  // Prompts, replies and their length

  /** What `predict` is given: a single string or a list of messages. */
  datatype Prompt = PromptText(text: string) | PromptList(messages: seq<Msg>)

  /**
   * What the model answers: text, no text (a `None` content), a tool bound to
   * the arguments the model gave (by its index in the tool list), or the
   * `invalid_tool` method, returned when the model names an unknown tool.
   */
  datatype Reply = TextReply(text: string) | NoText | BoundTool(index: nat, args: string) | InvalidTool

  /** `len(content)`: characters of a string, elements of a block list. */
  function ContentLength(c: Content): nat
  {
    match c
    case Text(s) => |s|
    case Blocks(b) => |b|
  }

  function SumLengths(ms: seq<Msg>): nat
  {
    if ms == [] then 0 else ContentLength(ms[0].content) + SumLengths(ms[1..])
  }

  /** `messages_length`: the length of a string prompt, the summed content lengths of a list. */
  function MessagesLength(p: Prompt): nat
  {
    match p
    case PromptText(s) => |s|
    case PromptList(ms) => SumLengths(ms)
  }

  /** `len(reply)` for a string reply, 0 for anything else. */
  function ReplyLength(r: Reply): nat
  {
    if r.TextReply? then |r.text| else 0
  }

  const CharactersPerToken: nat := 4

  function PromptTokens(p: Prompt): nat
  {
    MessagesLength(p) / CharactersPerToken
  }

  function CompletionTokens(r: Reply): nat
  {
    ReplyLength(r) / CharactersPerToken
  }

  /** The length of a list is the sum of the lengths of its parts. */
  lemma {:induction false} SumLengthsAppend(a: seq<Msg>, b: seq<Msg>)
    ensures SumLengths(a + b) == SumLengths(a) + SumLengths(b)
    decreases |a|
  {
    if a == [] {
      assert a + b == b;
    } else {
      assert (a + b)[1..] == a[1..] + b;
      SumLengthsAppend(a[1..], b);
    }
  }

  /** A string prompt is as long as the one-message list it is wrapped into. */
  lemma {:induction false} WrappedPromptLength(s: string)
    ensures MessagesLength(PromptList([Message("user", s)])) == MessagesLength(PromptText(s))
  {
    var ms := [Message("user", s)];
    assert ms[1..] == [];
    assert SumLengths(ms) == ContentLength(ms[0].content) + SumLengths(ms[1..]);
  }

  // ---------------------------------------------------------------------------
  // Converting inputs to message dictionaries

  /** An element of the list given to `predict`: a string, a message dictionary or another object. */
  datatype Item = StrItem(s: string) | DictItem(m: Msg) | ObjectItem(repr: string)

  /** `convert_message`: a string becomes a user message, a dictionary is kept, anything else is refused. */
  function ConvertMessage(item: Item): (r: Result<Msg>)
    ensures item.StrItem? ==> r == Ok(Message("user", item.s))
    ensures item.DictItem? ==> r == Ok(item.m)
    ensures r.Err? <==> item.ObjectItem?
    ensures r.Err? ==> r.error == ValueError("Unknown message type: " + item.repr)
  {
    match item
    case StrItem(s) => Ok(Message("user", s))
    case DictItem(m) => Ok(m)
    case ObjectItem(repr) => Err(ValueError("Unknown message type: " + repr))
  }

  /** Converting is idempotent: a converted message converts to itself. */
  lemma {:induction false} ConvertIdempotent(item: Item)
    requires ConvertMessage(item).Ok?
    ensures ConvertMessage(DictItem(ConvertMessage(item).value)) == ConvertMessage(item)
  {
  }

  // ---------------------------------------------------------------------------
  // Tools

  /** The 'function' description of a tool: its name, description and JSON parameter schema. */
  datatype FunctionSpec = FunctionSpec(name: string, description: string, parameters: string)

  /** A tool; `toolSpec` is `None` where the tool's spec is falsy. */
  datatype Tool = Tool(name: string, toolSpec: Option<FunctionSpec>)

  /** `{"type": kind, "function": spec}`. */
  datatype ToolEntry = ToolEntry(kind: string, spec: FunctionSpec)

  /** The entries of the tools that have a spec, in order. */
  function WithSpecs(ts: seq<Tool>): (r: seq<ToolEntry>)
    ensures |r| <= |ts|
    ensures forall i :: 0 <= i < |r| ==> r[i].kind == "function"
  {
    if ts == [] then []
    else if ts[0].toolSpec.Some? then [ToolEntry("function", ts[0].toolSpec.value)] + WithSpecs(ts[1..])
    else WithSpecs(ts[1..])
  }

  /** `tools()`: no entries without a tool list, otherwise one entry per tool with a spec. */
  function ToolEntries(tools: Option<seq<Tool>>): (r: seq<ToolEntry>)
    ensures tools.None? ==> r == []
    ensures tools.Some? ==> |r| <= |tools.value|
  {
    match tools
    case None => []
    case Some(ts) => WithSpecs(ts)
  }

  /** The entries of two lists of tools are the entries of the first followed by those of the second. */
  lemma {:induction false} WithSpecsAppend(a: seq<Tool>, b: seq<Tool>)
    ensures WithSpecs(a + b) == WithSpecs(a) + WithSpecs(b)
    decreases |a|
  {
    if a == [] {
      assert a + b == b;
    } else {
      assert (a + b)[0] == a[0];
      assert (a + b)[1..] == a[1..] + b;
      WithSpecsAppend(a[1..], b);
    }
  }

  /** When every tool has a spec, there is one entry per tool, holding that tool's spec. */
  lemma {:induction false} WithSpecsAll(ts: seq<Tool>)
    requires forall i :: 0 <= i < |ts| ==> ts[i].toolSpec.Some?
    ensures |WithSpecs(ts)| == |ts|
    ensures forall i :: 0 <= i < |ts| ==> WithSpecs(ts)[i] == ToolEntry("function", ts[i].toolSpec.value)
    decreases |ts|
  {
    if ts != [] {
      WithSpecsAll(ts[1..]);
      var r := WithSpecs(ts);
      var t := WithSpecs(ts[1..]);
      assert r == [ToolEntry("function", ts[0].toolSpec.value)] + t;
      forall i | 0 <= i < |ts|
        ensures r[i] == ToolEntry("function", ts[i].toolSpec.value)
      {
        if i > 0 {
          assert r[i] == t[i - 1];
          assert ts[1..][i - 1] == ts[i];
        }
      }
    }
  }

  /** Tools without a spec contribute nothing. */
  lemma {:induction false} WithSpecsNone(ts: seq<Tool>)
    requires forall i :: 0 <= i < |ts| ==> ts[i].toolSpec.None?
    ensures WithSpecs(ts) == []
    decreases |ts|
  {
    if ts != [] {
      assert forall i :: 0 <= i < |ts[1..]| ==> ts[1..][i] == ts[i + 1];
      WithSpecsNone(ts[1..]);
    }
  }

  /** `k` is the first index of a tool called `name`. */
  predicate FirstNamed(ts: seq<Tool>, name: string, k: nat)
  {
    k < |ts| && ts[k].name == name && forall j :: 0 <= j < k ==> ts[j].name != name
  }

  /** The index of the first tool called `name`. */
  function NamedIndex(ts: seq<Tool>, name: string): (r: Option<nat>)
    ensures r.Some? ==> FirstNamed(ts, name, r.value)
    ensures r.None? ==> forall i :: 0 <= i < |ts| ==> ts[i].name != name
    decreases |ts|
  {
    if ts == [] then None
    else if ts[0].name == name then Some(0)
    else match NamedIndex(ts[1..], name)
      case None => None
      case Some(k) => Some(k + 1)
  }

  const NotIterable := "'NoneType' object is not iterable"

  /**
   * The reply for a call of the tool `name`: the first tool of that name bound
   * to `args`, `invalid_tool` when there is none; without a tool list the loop
   * over the tools iterates over `None`, which raises.
   */
  function BoundReply(tools: Option<seq<Tool>>, name: string, args: string): Result<Reply>
  {
    match tools
    case None => Err(TypeError(NotIterable))
    case Some(ts) =>
      match NamedIndex(ts, name)
      case Some(k) => Ok(BoundTool(k, args))
      case None => Ok(InvalidTool)
  }

  /**
   * The choice of tool: the value of the 'tool_choice' setting as the model
   * holds it, possibly rewritten by a provider.
   */
  datatype ToolChoice = NoChoice | ChoiceName(name: string) | FunctionChoice(name: string)

  /** The setting as the base constructor stores it. */
  function ChoiceOf(toolChoice: Option<string>): ToolChoice
  {
    match toolChoice
    case None => NoChoice
    case Some(s) => ChoiceName(s)
  }

  class BaseModel {
    const modelName: string
    const thinking: bool
    const tools: Option<seq<Tool>>
    var toolChoice: ToolChoice
    var jsonMode: bool
    var totalTokensConsumed: nat
    var promptTokensConsumed: nat
    var completionTokensConsumed: nat

    /** The total is always the sum of the prompt and the completion counts. */
    ghost predicate Valid()
      reads this
    {
      totalTokensConsumed == promptTokensConsumed + completionTokensConsumed
    }

    constructor(modelName: string, thinking: bool, tools: Option<seq<Tool>>, toolChoice: Option<string>)
      ensures this.modelName == modelName && this.thinking == thinking && this.tools == tools
      ensures this.toolChoice == ChoiceOf(toolChoice) && !jsonMode
      ensures totalTokensConsumed == 0 && promptTokensConsumed == 0 && completionTokensConsumed == 0
      ensures Valid()
    {
      this.modelName := modelName;
      this.thinking := thinking;
      this.tools := tools;
      this.toolChoice := ChoiceOf(toolChoice);
      this.jsonMode := false;
      totalTokensConsumed := 0;
      promptTokensConsumed := 0;
      completionTokensConsumed := 0;
    }

    /**
     * The accounting part of `predict`, once the model has answered `reply` to
     * `prompt`: a quarter of the prompt length is counted as prompt tokens, a
     * quarter of the reply length as completion tokens, both rounded down, and
     * their sum is added to the total. The reply is handed back unchanged.
     */
    method Predict(prompt: Prompt, reply: Reply, trackTokens: bool) returns (r: Reply)
      modifies this
      ensures r == reply
      ensures trackTokens ==> promptTokensConsumed == old(promptTokensConsumed) + PromptTokens(prompt)
      ensures trackTokens ==> completionTokensConsumed == old(completionTokensConsumed) + CompletionTokens(reply)
      ensures trackTokens ==> totalTokensConsumed == old(totalTokensConsumed) + PromptTokens(prompt) + CompletionTokens(reply)
      ensures !trackTokens ==> unchanged(this)
      ensures old(Valid()) ==> Valid()
      ensures old(totalTokensConsumed) <= totalTokensConsumed
      ensures old(promptTokensConsumed) <= promptTokensConsumed
      ensures old(completionTokensConsumed) <= completionTokensConsumed
      ensures toolChoice == old(toolChoice) && jsonMode == old(jsonMode)
    {
      var msgLen := MessagesLength(prompt);
      var promptTokens := msgLen / CharactersPerToken;
      var replyLen := if reply.TextReply? then |reply.text| else 0;
      if trackTokens {
        var completionTokens := replyLen / CharactersPerToken;
        var totalTokens := promptTokens + completionTokens;
        totalTokensConsumed := totalTokensConsumed + totalTokens;
        promptTokensConsumed := promptTokensConsumed + promptTokens;
        completionTokensConsumed := completionTokensConsumed + completionTokens;
      }
      r := reply;
    }

    /**
     * The `for tool in self._tools` look-up of `get_response`: the first tool
     * called `name`, bound to `args`, or `invalid_tool` when there is none.
     */
    method BindTool(name: string, args: string) returns (r: Result<Reply>)
      ensures r == BoundReply(tools, name, args)
    {
      if tools.None? {
        return Err(TypeError(NotIterable));
      }
      var ts := tools.value;
      var i := 0;
      while i < |ts|
        invariant 0 <= i <= |ts|
        invariant forall j :: 0 <= j < i ==> ts[j].name != name
      {
        if ts[i].name == name {
          return Ok(BoundTool(i, args));
        }
        i := i + 1;
      }
      return Ok(InvalidTool);
    }
  }

  // ---------------------------------------------------------------------------
  // Binding the constructor's arguments

  /** `BaseModel.__init__(self, sigmund, model, thinking=False, tools=None, tool_choice='auto')`. */
  const InitParams: seq<PC.Param> := [
    PC.Param("self", false), PC.Param("sigmund", false), PC.Param("model", false),
    PC.Param("thinking", true), PC.Param("tools", true), PC.Param("tool_choice", true)]

  /** The keyword arguments a provider constructor receives and passes on. */
  predicate ProviderKeywords(kws: seq<string>)
  {
    (forall k :: 0 <= k < |kws| ==> kws[k] in ["thinking", "tools", "tool_choice"])
    && (forall k, l :: 0 <= k < l < |kws| ==> kws[k] != kws[l])
  }

  lemma {:induction false} ProviderKeywordsFit(kws: seq<string>, npos: nat)
    requires ProviderKeywords(kws) && npos <= 3
    ensures PC.KeywordsFit(InitParams, npos, kws)
  {
    forall k | 0 <= k < |kws| ensures PC.NamedAfter(InitParams, npos, kws[k]) {
      var names := ["thinking", "tools", "tool_choice"];
      assert kws[k] in names;
      var i :| 0 <= i < 3 && names[i] == kws[k];
      var j := i + 3;
      assert npos <= j < |InitParams| && InitParams[j].name == kws[k];
    }
  }

  /**
   * The providers' `super().__init__(sigmund, **kwargs)` passes `self` and
   * `sigmund` alone: `model` is given neither way, and the call raises
   * `TypeError` for every keyword arguments a provider can receive.
   */
  lemma {:induction false} ProviderInitMissesModel(kws: seq<string>)
    requires ProviderKeywords(kws)
    ensures PC.Call(InitParams, 2, kws) == PC.Raises(PC.MissingArgument("model"))
  {
    assert PC.DistinctNames(InitParams);
    ProviderKeywordsFit(kws, 2);
    PC.KeywordErrorNone(InitParams, 2, kws);
    assert "model" !in kws;
  }

  /** Passing `model` on as well, `super().__init__(sigmund, model, **kwargs)`, binds every such call. */
  lemma {:induction false} ProviderInitBinds(kws: seq<string>)
    requires ProviderKeywords(kws)
    ensures PC.Call(InitParams, 3, kws) == PC.Binds
  {
    assert PC.DistinctNames(InitParams);
    ProviderKeywordsFit(kws, 3);
    PC.CallBinds(InitParams, 3, kws);
  }
}
