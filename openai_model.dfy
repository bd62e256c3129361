/**
 * The OpenAI chat model of sigmund: the normalisation of the tool choice, the
 * linking of tool messages to the message before them, the reading of a chat
 * completion, and the keyword arguments of the request.
 *
 * Messages are values: `_prepare_tool_messages` changes the dictionaries of
 * the list in place, which is modelled as a new list of messages. `decode`
 * stands for `json.loads` and the look-up of the keys, `respond` for the API.
 */
module OpenAIModel {
  import opened Wrappers
  import opened Strings
  import opened ModelBase

  /** `f'call_{i}'`: the id that links the tool message at `i` to the message before it. */
  function CallId(i: nat): string
  {
    "call_" + NatToString(i)
  }

  /** The choice as the constructor normalises it: a tool named other than 'auto' becomes a function choice. */
  function NormalisedChoice(c: ToolChoice): ToolChoice
  {
    if c.ChoiceName? && c.name != "auto" then FunctionChoice(c.name) else c
  }

  // ---------------------------------------------------------------------------
  // Linking tool messages

  /** A tool message that the loop links: every tool message but the first message of the list. */
  predicate Linked(ms: seq<Msg>, i: nat)
  {
    0 < i < |ms| && ms[i].role == "tool"
  }

  /** A linked tool message whose content does not decode. */
  predicate Fails(ms: seq<Msg>, i: nat, decode: string -> Result<ToolInfo>)
  {
    Linked(ms, i) && ToolInfoOf(ms[i].content, decode).Err?
  }

  /** The decoded content of a linked tool message. */
  function InfoAt(ms: seq<Msg>, i: nat, decode: string -> Result<ToolInfo>): Option<ToolInfo>
  {
    if Linked(ms, i) && ToolInfoOf(ms[i].content, decode).Ok? then Some(ToolInfoOf(ms[i].content, decode).value) else None
  }

  /** The message at `i` after its own step: a linked tool message gets its call id, its tool name and the tool's output. */
  function Converted(ms: seq<Msg>, i: nat, decode: string -> Result<ToolInfo>): Msg
    requires i < |ms|
  {
    match InfoAt(ms, i, decode)
    case None => ms[i]
    case Some(info) => ms[i].(toolCallId := Some(CallId(i)), name := Some(info.name), content := Text(info.content))
  }

  /**
   * The message at `i` once the loop is over: after its own step, the step of
   * a linked tool message right after it empties its content and gives it the
   * one tool call of that message.
   */
  function LinkedAt(ms: seq<Msg>, i: nat, decode: string -> Result<ToolInfo>): Msg
    requires i < |ms|
  {
    var m := Converted(ms, i, decode);
    match InfoAt(ms, i + 1, decode)
    case None => m
    case Some(info) => m.(content := Text(""), toolCalls := Some([FunctionCall(CallId(i + 1), info.name, info.args)]))
  }

  /** The first index below `n` of a linked tool message that does not decode. */
  function FirstFailure(ms: seq<Msg>, n: nat, decode: string -> Result<ToolInfo>): (r: Option<nat>)
    ensures r.Some? ==> r.value < n && Fails(ms, r.value, decode)
    ensures r.Some? ==> forall j :: 0 <= j < r.value ==> !Fails(ms, j, decode)
    ensures r.None? ==> forall j :: 0 <= j < n ==> !Fails(ms, j, decode)
  {
    if n == 0 then None
    else match FirstFailure(ms, n - 1, decode)
      case Some(k) => Some(k)
      case None => if Fails(ms, n - 1, decode) then Some(n - 1) else None
  }

  /**
   * What `_prepare_tool_messages` makes of `ms`: the error of the first
   * linked tool message that does not decode, or every message as `LinkedAt`
   * has it.
   */
  function PrepareSpec(ms: seq<Msg>, decode: string -> Result<ToolInfo>): Result<seq<Msg>>
  {
    match FirstFailure(ms, |ms|, decode)
    case Some(i) => Err(ToolInfoOf(ms[i].content, decode).error)
    case None => Ok(seq(|ms|, i requires 0 <= i < |ms| => LinkedAt(ms, i, decode)))
  }

  /** The `for` loop of `_prepare_tool_messages`. */
  method PrepareToolMessages(messages: seq<Msg>, decode: string -> Result<ToolInfo>) returns (r: Result<seq<Msg>>)
    ensures r == PrepareSpec(messages, decode)
  {
    var ms := messages;
    var i := 0;
    while i < |ms|
      invariant 0 <= i <= |messages| && |ms| == |messages|
      invariant FirstFailure(messages, i, decode).None?
      invariant forall j :: 0 <= j < i - 1 ==> ms[j] == LinkedAt(messages, j, decode)
      invariant i > 0 ==> ms[i - 1] == Converted(messages, i - 1, decode)
      invariant forall j :: i <= j < |ms| ==> ms[j] == messages[j]
    {
      if i != 0 && ms[i].role == "tool" {
        var info := ToolInfoOf(ms[i].content, decode);
        if info.Err? {
          FirstFailureAt(messages, i, |messages|, decode);
          return Err(info.error);
        }
        var id := CallId(i);
        ms := ms[i - 1 := ms[i - 1].(content := Text(""), toolCalls := Some([FunctionCall(id, info.value.name, info.value.args)]))];
        ms := ms[i := ms[i].(toolCallId := Some(id), name := Some(info.value.name), content := Text(info.value.content))];
      }
      i := i + 1;
    }
    assert InfoAt(messages, |ms|, decode).None?;
    assert forall j :: 0 <= j < |ms| ==> ms[j] == LinkedAt(messages, j, decode);
    assert ms == PrepareSpec(messages, decode).value;
    return Ok(ms);
  }

  // ---------------------------------------------------------------------------
  // The answer of the API

  /** A call of a tool in the answer: the tool's name and the arguments as JSON text. */
  datatype ToolCall = ToolCall(name: string, arguments: string)

  /** The message of one choice of a chat completion. */
  datatype ChoiceMessage = ChoiceMessage(content: Option<string>, toolCalls: Option<seq<ToolCall>>)

  datatype Completion = Completion(choices: seq<ChoiceMessage>)

  /**
   * `get_response`: the first tool call of the first choice, when it has
   * any, bound to its tool; otherwise its content.
   */
  function CompletionReply(resp: Completion, tools: Option<seq<Tool>>): Result<Reply>
  {
    if resp.choices == [] then Err(IndexError)
    else
      var m := resp.choices[0];
      if m.toolCalls.Some? && m.toolCalls.value != [] then
        BoundReply(tools, m.toolCalls.value[0].name, m.toolCalls.value[0].arguments)
      else match m.content
        case None => Ok(NoText)
        case Some(s) => Ok(TextReply(s))
  }

  /** `get_response`, with the look-up of the tool by `BindTool`. */
  method GetResponse(model: BaseModel, resp: Completion) returns (r: Result<Reply>)
    ensures r == CompletionReply(resp, model.tools)
  {
    if resp.choices == [] {
      return Err(IndexError);
    }
    var m := resp.choices[0];
    if m.toolCalls.Some? && m.toolCalls.value != [] {
      var call := m.toolCalls.value[0];
      r := model.BindTool(call.name, call.arguments);
      return;
    }
    if m.content.None? {
      return Ok(NoText);
    }
    return Ok(TextReply(m.content.value));
  }

  // ---------------------------------------------------------------------------
  // The request

  /** The 'tools' and 'tool_choice' keyword arguments. */
  datatype ToolKwargs = ToolKwargs(tools: seq<ToolEntry>, toolChoice: ToolChoice)

  /** A request of a chat completion; `jsonFormat` is the 'response_format' of type 'json_object'. */
  datatype Request = Request(model: string, messages: seq<Msg>, toolKwargs: Option<ToolKwargs>, jsonFormat: bool)

  /** `_tool_args`: nothing without tools (`None` or an empty list), otherwise the tool entries and the choice. */
  function ToolArgs(tools: Option<seq<Tool>>, choice: ToolChoice): Option<ToolKwargs>
  {
    if tools.None? || tools.value == [] then None else Some(ToolKwargs(ToolEntries(tools), choice))
  }

  /** The request `_openai_invoke` sends. */
  function InvokeRequest(model: string, ms: seq<Msg>, tools: Option<seq<Tool>>, choice: ToolChoice, jsonMode: bool): Request
  {
    Request(model, ms, ToolArgs(tools, choice), jsonMode)
  }

  /** The messages `predict` sends: a string wrapped as one user message, a list linked. */
  function Prepared(input: Prompt, decode: string -> Result<ToolInfo>): Result<seq<Msg>>
  {
    match input
    case PromptText(s) => Ok([Message("user", s)])
    case PromptList(ms) => PrepareSpec(ms, decode)
  }

  /** What the model answers to the prepared messages. */
  function Answer(p: Result<seq<Msg>>, model: string, tools: Option<seq<Tool>>, choice: ToolChoice, jsonMode: bool,
                  respond: Request -> Completion): Result<Reply>
  {
    match p
    case Err(e) => Err(e)
    case Ok(ms) => CompletionReply(respond(InvokeRequest(model, ms, tools, choice, jsonMode)), tools)
  }

  class OpenAIModel {
    const base: BaseModel

    constructor(modelName: string, thinking: bool, tools: Option<seq<Tool>>, toolChoice: Option<string>)
      ensures fresh(base)
      ensures base.modelName == modelName && base.thinking == thinking && base.tools == tools
      ensures base.toolChoice == NormalisedChoice(ChoiceOf(toolChoice)) && !base.jsonMode
      ensures base.totalTokensConsumed == 0 && base.promptTokensConsumed == 0 && base.completionTokensConsumed == 0
      ensures base.Valid()
    {
      base := new BaseModel(modelName, thinking, tools, toolChoice);
      new;
      if base.toolChoice.ChoiceName? && base.toolChoice.name != "auto" {
        base.toolChoice := FunctionChoice(base.toolChoice.name);
      }
    }

    /** `predict`: the messages are prepared, sent, and the answer is read and counted. */
    method Predict(input: Prompt, decode: string -> Result<ToolInfo>, respond: Request -> Completion) returns (r: Result<Reply>)
      modifies base
      ensures var p := Prepared(input, decode);
        && r == Answer(p, base.modelName, base.tools, old(base.toolChoice), old(base.jsonMode), respond)
        && (r.Ok? ==> base.promptTokensConsumed == old(base.promptTokensConsumed) + PromptTokens(PromptList(p.value)))
        && (r.Ok? ==> base.completionTokensConsumed == old(base.completionTokensConsumed) + CompletionTokens(r.value))
        && (r.Ok? ==> base.totalTokensConsumed == old(base.totalTokensConsumed)
                        + PromptTokens(PromptList(p.value)) + CompletionTokens(r.value))
        && (r.Err? ==> unchanged(base))
    {
      var ms: seq<Msg>;
      if input.PromptText? {
        ms := [Message("user", input.text)];
      } else {
        var linked := PrepareToolMessages(input.messages, decode);
        if linked.Err? {
          return Err(linked.error);
        }
        ms := linked.value;
      }
      var request := Request(base.modelName, ms, ToolArgs(base.tools, base.toolChoice), base.jsonMode);
      var reply := GetResponse(base, respond(request));
      if reply.Err? {
        return Err(reply.error);
      }
      var answer := base.Predict(PromptList(ms), reply.value, true);
      r := Ok(answer);
    }
  }

  // ---------------------------------------------------------------------------
  // Properties

  /** A linked tool message that does not decode, with none before it, is the first failure. */
  lemma {:induction false} FirstFailureAt(ms: seq<Msg>, i: nat, n: nat, decode: string -> Result<ToolInfo>)
    requires i < n && Fails(ms, i, decode) && FirstFailure(ms, i, decode).None?
    ensures FirstFailure(ms, n, decode) == Some(i)
    decreases n
  {
    if n > i + 1 {
      FirstFailureAt(ms, i, n - 1, decode);
    }
  }

  /** The constructor's normalisation: `None` and 'auto' are kept, any other name chosen as a function; doing it twice changes nothing. */
  lemma {:induction false} ChoiceNormalisation(toolChoice: Option<string>)
    ensures toolChoice.None? ==> NormalisedChoice(ChoiceOf(toolChoice)) == NoChoice
    ensures toolChoice == Some("auto") ==> NormalisedChoice(ChoiceOf(toolChoice)) == ChoiceName("auto")
    ensures toolChoice.Some? && toolChoice.value != "auto" ==> NormalisedChoice(ChoiceOf(toolChoice)) == FunctionChoice(toolChoice.value)
    ensures NormalisedChoice(NormalisedChoice(ChoiceOf(toolChoice))) == NormalisedChoice(ChoiceOf(toolChoice))
  {
  }

  /** The linking fails exactly when a tool message after the first message does not decode; a tool message at index 0 is never decoded. */
  lemma {:induction false} PrepareFails(ms: seq<Msg>, decode: string -> Result<ToolInfo>)
    ensures PrepareSpec(ms, decode).Err? <==> exists i :: 0 < i < |ms| && ms[i].role == "tool" && ToolInfoOf(ms[i].content, decode).Err?
  {
    if FirstFailure(ms, |ms|, decode).Some? {
      var i := FirstFailure(ms, |ms|, decode).value;
      assert Fails(ms, i, decode);
    } else {
      assert PrepareSpec(ms, decode).Ok?;
      forall i | 0 < i < |ms| && ms[i].role == "tool"
        ensures ToolInfoOf(ms[i].content, decode).Ok?
      {
        assert !Fails(ms, i, decode);
      }
    }
  }

  /** The linking keeps the length of the list and the role of every message. */
  lemma {:induction false} PrepareKeepsRoles(ms: seq<Msg>, decode: string -> Result<ToolInfo>)
    requires PrepareSpec(ms, decode).Ok?
    ensures |PrepareSpec(ms, decode).value| == |ms|
    ensures forall i :: 0 <= i < |ms| ==> PrepareSpec(ms, decode).value[i].role == ms[i].role
  {
  }

  /**
   * Every linked tool message carries the id `call_i` of its index, its
   * tool's name, and the message before it has no content and exactly one
   * tool call, with that id, that name and the tool's arguments.
   */
  lemma {:induction false} PrepareLinks(ms: seq<Msg>, i: nat, decode: string -> Result<ToolInfo>)
    requires PrepareSpec(ms, decode).Ok? && 0 < i < |ms| && ms[i].role == "tool"
    ensures ToolInfoOf(ms[i].content, decode).Ok?
    ensures var r := PrepareSpec(ms, decode).value;
      var info := ToolInfoOf(ms[i].content, decode).value;
      && r[i].toolCallId == Some(CallId(i)) && r[i].name == Some(info.name)
      && r[i - 1].content == Text("")
      && r[i - 1].toolCalls == Some([FunctionCall(CallId(i), info.name, info.args)])
  {
    assert !Fails(ms, i, decode);
    assert InfoAt(ms, i, decode).Some?;
  }

  /** A linked tool message that is not followed by another one holds the output of its tool. */
  lemma {:induction false} PrepareToolOutput(ms: seq<Msg>, i: nat, decode: string -> Result<ToolInfo>)
    requires PrepareSpec(ms, decode).Ok? && 0 < i < |ms| && ms[i].role == "tool"
    requires i + 1 == |ms| || ms[i + 1].role != "tool"
    ensures ToolInfoOf(ms[i].content, decode).Ok?
    ensures PrepareSpec(ms, decode).value[i].content == Text(ToolInfoOf(ms[i].content, decode).value.content)
  {
    assert !Fails(ms, i, decode);
    assert InfoAt(ms, i + 1, decode).None?;
  }

  /** A message that is neither a linked tool message nor followed by one is left as it is. */
  lemma {:induction false} PrepareUntouched(ms: seq<Msg>, i: nat, decode: string -> Result<ToolInfo>)
    requires PrepareSpec(ms, decode).Ok? && i < |ms|
    requires i == 0 || ms[i].role != "tool"
    requires i + 1 == |ms| || ms[i + 1].role != "tool"
    ensures PrepareSpec(ms, decode).value[i] == ms[i]
  {
    assert InfoAt(ms, i, decode).None? && InfoAt(ms, i + 1, decode).None?;
  }

  /** Without tool messages after the first message, the list is sent as it is. */
  lemma {:induction false} PrepareWithoutTools(ms: seq<Msg>, decode: string -> Result<ToolInfo>)
    requires forall i :: 0 < i < |ms| ==> ms[i].role != "tool"
    ensures PrepareSpec(ms, decode) == Ok(ms)
  {
    assert forall j :: 0 <= j < |ms| ==> !Fails(ms, j, decode);
    var r := PrepareSpec(ms, decode).value;
    forall i | 0 <= i < |ms|
      ensures r[i] == ms[i]
    {
      PrepareUntouched(ms, i, decode);
    }
    assert r == ms;
  }

  /**
   * The reply names the first tool called in the first choice: a bound tool
   * is the first of the tool list with that name, with the call's arguments;
   * `invalid_tool` means no tool has that name; without calls, the content.
   */
  lemma {:induction false} CompletionReplyMeaning(resp: Completion, tools: Option<seq<Tool>>)
    requires resp.choices != []
    ensures var m := resp.choices[0];
      var r := CompletionReply(resp, tools);
      var called := m.toolCalls.Some? && m.toolCalls.value != [];
      && (r.Ok? && r.value.BoundTool? ==>
            called && FirstNamed(tools.value, m.toolCalls.value[0].name, r.value.index)
            && r.value.args == m.toolCalls.value[0].arguments)
      && (r == Ok(InvalidTool) <==>
            called && tools.Some? && forall i :: 0 <= i < |tools.value| ==> tools.value[i].name != m.toolCalls.value[0].name)
      && (r.Err? <==> called && tools.None?)
      && (!called ==> r == (if m.content.None? then Ok(NoText) else Ok(TextReply(m.content.value))))
  {
    var m := resp.choices[0];
    if m.toolCalls.Some? && m.toolCalls.value != [] && tools.Some? {
      var name := m.toolCalls.value[0].name;
      if NamedIndex(tools.value, name).Some? {
        assert tools.value[NamedIndex(tools.value, name).value].name == name;
      }
    }
  }

  /** An answer without choices raises IndexError. */
  lemma {:induction false} NoChoiceFails(tools: Option<seq<Tool>>)
    ensures CompletionReply(Completion([]), tools) == Err(IndexError)
  {
  }

  /** Without tools the request has no tool arguments; with tools it carries every tool with a specification and the choice. */
  lemma {:induction false} ToolArgsMeaning(tools: Option<seq<Tool>>, choice: ToolChoice)
    ensures ToolArgs(tools, choice).None? <==> tools.None? || tools.value == []
    ensures ToolArgs(tools, choice).Some? ==>
      ToolArgs(tools, choice).value.toolChoice == choice
      && |ToolArgs(tools, choice).value.tools| <= |tools.value|
      && forall i :: 0 <= i < |ToolArgs(tools, choice).value.tools| ==> ToolArgs(tools, choice).value.tools[i].kind == "function"
  {
  }
}
