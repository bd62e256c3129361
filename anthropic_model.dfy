/**
 * The Anthropic chat model: the rewrite of tool messages into the content
 * blocks the Anthropic messages API expects, the request it sends (tools in
 * the alternative format, the system prompt as a separate argument) and the
 * reading of the answer.
 *
 * The messages API has no tool role. A tool message becomes a user message
 * holding a tool-result block, the message before it gets a tool-use block
 * with the same id, and a user message right after it is merged into it so
 * that no two user messages follow each other. The ids come from a counter
 * of the model object.
 */
module AnthropicModel {
  import opened Wrappers
  import opened Strings
  import opened ModelBase
  import PyLists

  const FirstToolMessage := "The first message cannot be a tool message"

  function ToolCount(ms: seq<Msg>): nat
  {
    if ms == [] then 0 else (if ms[0].role == "tool" then 1 else 0) + ToolCount(ms[1..])
  }

  predicate NoTools(ms: seq<Msg>)
  {
    forall i :: 0 <= i < |ms| ==> ms[i].role != "tool"
  }

  function Roles(ms: seq<Msg>): (r: seq<string>)
    ensures |r| == |ms|
  {
    seq(|ms|, i requires 0 <= i < |ms| => ms[i].role)
  }

  /**
   * The roles a list of messages has after the rewrite, from its roles alone:
   * a tool becomes a user, and a user right after a tool disappears into it.
   */
  function Collapse(rs: seq<string>): seq<string>
    decreases |rs|
  {
    if rs == [] then []
    else if rs[0] != "tool" then [rs[0]] + Collapse(rs[1..])
    else if |rs| > 1 && rs[1] == "user" then ["user"] + Collapse(rs[2..])
    else ["user"] + Collapse(rs[1..])
  }

  /** Some tool message of the list can not be decoded. */
  predicate BadTool(ms: seq<Msg>, decode: string -> Result<ToolInfo>)
  {
    exists k :: 0 <= k < |ms| && ms[k].role == "tool" && ToolInfoOf(ms[k].content, decode).Err?
  }

  /** The message before a tool message: its content as a text block, and a tool-use block. */
  function WithToolUse(m: Msg, id: string, info: ToolInfo): Msg
  {
    m.(content := Blocks([TextBlock(m.content), ToolUseBlock(id, info.args, info.name)]))
  }

  /** A tool message as a user message holding one tool-result block. */
  function AsToolResult(m: Msg, id: string, info: ToolInfo): Msg
  {
    m.(role := "user", content := Blocks([ToolResultBlock(id, [TextBlock(Text(info.content))])]))
  }

  /** A converted tool message with the content of the next user message appended as a text block. */
  function Merged(m: Msg, next: Msg): Msg
  {
    match m.content
    case Blocks(bs) => m.(content := Blocks(bs + [TextBlock(next.content)]))
    case Text(_) => m
  }

  /** The rewritten messages, or the error, and the counter after the rewrite. */
  datatype Outcome = Outcome(messages: Result<seq<Msg>>, nextId: nat)

  /**
   * The rewrite with `done` already rewritten and `rest` still to go, the
   * counter standing at `id`.
   */
  function RewriteFrom(done: seq<Msg>, rest: seq<Msg>, id: nat, decode: string -> Result<ToolInfo>): Outcome
    decreases |rest|
  {
    if rest == [] then Outcome(Ok(done), id)
    else if rest[0].role != "tool" then RewriteFrom(done + [rest[0]], rest[1..], id, decode)
    else if done == [] then Outcome(Err(ValueError(FirstToolMessage)), id)
    else match ToolInfoOf(rest[0].content, decode)
      case Err(e) => Outcome(Err(e), id)
      case Ok(info) =>
        var key := NatToString(id);
        var prev := WithToolUse(done[|done| - 1], key, info);
        var conv := AsToolResult(rest[0], key, info);
        if |rest| > 1 && rest[1].role == "user" then
          RewriteFrom(done[..|done| - 1] + [prev, Merged(conv, rest[1])], rest[2..], id + 1, decode)
        else
          RewriteFrom(done[..|done| - 1] + [prev, conv], rest[1..], id + 1, decode)
  }

  /** The tool-message rewrite of `predict`, with the counter at `id` to begin with. */
  function Rewrite(ms: seq<Msg>, id: nat, decode: string -> Result<ToolInfo>): Outcome
  {
    RewriteFrom([], ms, id, decode)
  }

  // ---------------------------------------------------------------------------
  // The request and the answer

  /** A tool in the format of the Anthropic API. */
  datatype AltTool = AltTool(name: string, description: string, inputSchema: string)

  /** The tool entries of type 'function', in the alternative format. */
  function AltTools(es: seq<ToolEntry>): seq<AltTool>
  {
    if es == [] then []
    else
      var init := AltTools(es[..|es| - 1]);
      var e := es[|es| - 1];
      if e.kind == "function" then init + [AltTool(e.spec.name, e.spec.description, e.spec.parameters)] else init
  }

  /** The 'tools' argument: absent without tools, or with an empty tool list. */
  function ToolArgsSpec(tools: Option<seq<Tool>>): Option<seq<AltTool>>
  {
    if tools.None? || tools.value == [] then None else Some(AltTools(ToolEntries(tools)))
  }

  /** A leading system message is taken out of the list; an empty list has no first message. */
  function SplitSystem(ms: seq<Msg>): (r: Result<(Option<Content>, seq<Msg>)>)
    ensures r.Err? <==> ms == []
    ensures r.Err? ==> r.error == IndexError
    ensures r.Ok? && ms[0].role == "system" ==> r.value == (Some(ms[0].content), ms[1..])
    ensures r.Ok? && ms[0].role != "system" ==> r.value == (None, ms)
  {
    if ms == [] then Err(IndexError)
    else if ms[0].role == "system" then Ok((Some(ms[0].content), ms[1..]))
    else Ok((None, ms))
  }

  datatype Request = Request(model: string, messages: seq<Msg>, tools: Option<seq<AltTool>>, system: Option<Content>)

  /** A block of the answer of the API. */
  datatype ResponseBlock = RText(text: string) | RToolUse(name: string, input: string) | ROther

  /** The index of the first tool-use block. */
  function FirstToolUse(bs: seq<ResponseBlock>): (r: Option<nat>)
    ensures r.Some? ==> r.value < |bs| && bs[r.value].RToolUse?
    ensures r.Some? ==> forall j :: 0 <= j < r.value ==> !bs[j].RToolUse?
    ensures r.None? ==> forall j :: 0 <= j < |bs| ==> !bs[j].RToolUse?
    decreases |bs|
  {
    if bs == [] then None
    else if bs[0].RToolUse? then Some(0)
    else match FirstToolUse(bs[1..])
      case None => None
      case Some(k) => Some(k + 1)
  }

  /** The texts of the text blocks, in order. */
  function Texts(bs: seq<ResponseBlock>): seq<string>
  {
    if bs == [] then []
    else
      var init := Texts(bs[..|bs| - 1]);
      if bs[|bs| - 1].RText? then init + [bs[|bs| - 1].text] else init
  }

  /**
   * `get_response`: the first tool-use block decides the reply; without one,
   * the texts of the text blocks joined by newlines.
   */
  function ResponseReply(bs: seq<ResponseBlock>, tools: Option<seq<Tool>>): Result<Reply>
  {
    match FirstToolUse(bs)
    case Some(k) => BoundReply(tools, bs[k].name, bs[k].input)
    case None => Ok(TextReply(Join(Texts(bs), "\n")))
  }

  /** The request `invoke` sends for `ms` and what the model then answers. */
  function Answer(ms: seq<Msg>, model: string, tools: Option<seq<Tool>>, respond: Request -> seq<ResponseBlock>): Result<Reply>
  {
    match SplitSystem(ms)
    case Err(e) => Err(e)
    case Ok(split) => ResponseReply(respond(Request(model, split.1, ToolArgsSpec(tools), split.0)), tools)
  }

  /**
   * The messages `predict` sends: a string wrapped as one user message, a
   * list rewritten. The list is taken as the rewrite loop receives it:
   * `prepare_messages` and `convert_message` are not applied to it here.
   */
  function Prepared(input: Prompt, id: nat, decode: string -> Result<ToolInfo>): Outcome
  {
    match input
    case PromptText(s) => Outcome(Ok([Message("user", s)]), id)
    case PromptList(ms) => Rewrite(ms, id, decode)
  }

  /**
   * The state of the loop: the first `k` messages are rewritten (no tool
   * message among them) and the others are the messages of the input from
   * `j` on, untouched; rewriting the rest from there gives the final outcome.
   */
  ghost predicate Frontier(ms: seq<Msg>, k: nat, input: seq<Msg>, j: nat, id: nat, decode: string -> Result<ToolInfo>, goal: Outcome)
  {
    k <= |ms| && j <= |input| && ms[k..] == input[j..] && NoTools(ms[..k])
    && RewriteFrom(ms[..k], input[j..], id, decode) == goal
  }

  /** How a pass of the loop ends: at the end of the list, at an error, or after a merge at `index`. */
  datatype PassEnd = Finished | Failed(error: Exception) | MergedAt(index: nat)

  class AnthropicModel {
    const base: BaseModel
    var toolUseId: nat

    constructor(modelName: string, thinking: bool, tools: Option<seq<Tool>>, toolChoice: Option<string>)
      ensures fresh(base) && toolUseId == 0
      ensures base.modelName == modelName && base.thinking == thinking && base.tools == tools
      ensures base.toolChoice == ChoiceOf(toolChoice) && !base.jsonMode
      ensures base.totalTokensConsumed == 0 && base.promptTokensConsumed == 0 && base.completionTokensConsumed == 0
    {
      base := new BaseModel(modelName, thinking, tools, toolChoice);
      toolUseId := 0;
    }

    /**
     * The rewrite loop of `predict`. Each pass scans the list from the start,
     * converting the tool messages it meets, and stops at a tool message that
     * is followed by a user message; that user message has been merged, and is
     * taken out of the list before the next pass. A pass that reaches the end
     * of the list ends the loop.
     */
    method RewriteToolMessages(input: seq<Msg>, decode: string -> Result<ToolInfo>) returns (r: Result<seq<Msg>>)
      modifies this
      ensures Outcome(r, toolUseId) == Rewrite(input, old(toolUseId), decode)
    {
      ghost var goal := Rewrite(input, toolUseId, decode);
      var ms := input;
      ghost var k := 0;
      ghost var j := 0;
      assert ms[..0] == [] && ms[0..] == input[0..];
      while true
        invariant Frontier(ms, k, input, j, toolUseId, decode, goal)
        decreases |input| - j
      {
        var cur, end;
        ghost var j1 := j;
        cur, end, k, j := Pass(ms, decode, input, k, j, goal);
        match end
        case Finished =>
          return Ok(cur);
        case Failed(e) =>
          return Err(e);
        case MergedAt(i) =>
          ms := cur[..i + 1] + cur[i + 2..];
      }
    }

    /** One pass of the `for` loop over the list, from its start. */
    method Pass(ms: seq<Msg>, decode: string -> Result<ToolInfo>, ghost input: seq<Msg>, ghost k: nat, ghost j: nat, ghost goal: Outcome)
      returns (cur: seq<Msg>, end: PassEnd, ghost k1: nat, ghost j1: nat)
      modifies this
      requires Frontier(ms, k, input, j, toolUseId, decode, goal)
      ensures end.Finished? ==> Outcome(Ok(cur), toolUseId) == goal
      ensures end.Failed? ==> Outcome(Err(end.error), toolUseId) == goal
      ensures end.MergedAt? ==>
        j < j1 && end.index + 1 < |cur|
        && Frontier(cur[..end.index + 1] + cur[end.index + 2..], k1, input, j1, toolUseId, decode, goal)
    {
      cur := ms;
      k1 := k;
      j1 := j;
      var i := 0;
      while i < |cur|
        invariant 0 <= i <= k1 && j <= j1 && Frontier(cur, k1, input, j1, toolUseId, decode, goal)
        decreases |cur| - i
      {
        if cur[i].role == "tool" {
          var merged, stop;
          cur, merged, stop, j1 := Convert(cur, i, decode, input, j1, goal);
          k1 := i + 1;
          if stop.Some? {
            return cur, Failed(stop.value), k1, j1;
          }
          if merged {
            return cur, MergedAt(i), k1, j1;
          }
        } else if i == k1 {
          PlainStep(cur, k1, input, j1, toolUseId, decode);
          k1 := k1 + 1;
          j1 := j1 + 1;
        }
        i := i + 1;
      }
      assert cur[..k1] == cur;
      end := Finished;
    }

    /**
     * The body of the `for` loop at a tool message: it is converted, the
     * message before it gets its tool-use block, the counter goes up, and a
     * user message after it is merged into it.
     */
    method Convert(ms: seq<Msg>, i: nat, decode: string -> Result<ToolInfo>, ghost input: seq<Msg>, ghost j: nat, ghost goal: Outcome)
      returns (cur: seq<Msg>, merged: bool, stop: Option<Exception>, ghost j1: nat)
      modifies this
      requires i < |ms| && ms[i].role == "tool" && Frontier(ms, i, input, j, toolUseId, decode, goal)
      ensures stop.Some? ==> Outcome(Err(stop.value), toolUseId) == goal
      ensures stop.None? && merged ==>
        j1 == j + 2 && i + 1 < |cur|
        && Frontier(cur[..i + 1] + cur[i + 2..], i + 1, input, j1, toolUseId, decode, goal)
      ensures stop.None? && !merged ==> j1 == j + 1 && Frontier(cur, i + 1, input, j1, toolUseId, decode, goal)
    {
      cur := ms;
      j1 := j;
      merged := false;
      assert input[j..][0] == ms[i];
      if i == 0 {
        assert ms[..i] == [];
        return cur, false, Some(ValueError(FirstToolMessage)), j1;
      }
      var info := ToolInfoOf(ms[i].content, decode);
      if info.Err? {
        return cur, false, Some(info.error), j1;
      }
      MergeStep(ms, i, input, j, toolUseId, info.value, decode);
      var key := NatToString(toolUseId);
      var conv := AsToolResult(ms[i], key, info.value);
      cur := ms[i - 1 := WithToolUse(ms[i - 1], key, info.value)][i := conv];
      toolUseId := toolUseId + 1;
      stop := None;
      if |cur| > i + 1 && cur[i + 1].role == "user" {
        cur := cur[i := Merged(conv, cur[i + 1])];
        merged := true;
        j1 := j + 2;
        assert (cur[..i + 1] + cur[i + 2..])[..i + 1] == cur[..i + 1];
        assert (cur[..i + 1] + cur[i + 2..])[i + 1..] == cur[i + 2..];
      } else {
        j1 := j + 1;
      }
    }

    /** `_tool_args`: the tools in the alternative format, or no 'tools' argument. */
    method ToolArgs() returns (r: Option<seq<AltTool>>)
      ensures r == ToolArgsSpec(base.tools)
    {
      if base.tools.None? || base.tools.value == [] {
        return None;
      }
      var es := ToolEntries(base.tools);
      var alt: seq<AltTool> := [];
      var i := 0;
      while i < |es|
        invariant 0 <= i <= |es|
        invariant alt == AltTools(es[..i])
      {
        assert es[..i + 1][..i] == es[..i];
        if es[i].kind == "function" {
          alt := alt + [AltTool(es[i].spec.name, es[i].spec.description, es[i].spec.parameters)];
        }
        i := i + 1;
      }
      assert es[..|es|] == es;
      return Some(alt);
    }

    /** `get_response`: the scan over the answer's blocks. */
    method GetResponse(bs: seq<ResponseBlock>) returns (r: Result<Reply>)
      ensures r == ResponseReply(bs, base.tools)
    {
      var text: seq<string> := [];
      var i := 0;
      while i < |bs|
        invariant 0 <= i <= |bs|
        invariant forall j :: 0 <= j < i ==> !bs[j].RToolUse?
        invariant text == Texts(bs[..i])
      {
        assert bs[..i + 1][..i] == bs[..i];
        if bs[i].RToolUse? {
          assert FirstToolUse(bs) == Some(i);
          r := base.BindTool(bs[i].name, bs[i].input);
          return;
        }
        if bs[i].RText? {
          text := text + [bs[i].text];
        }
        i := i + 1;
      }
      assert bs[..|bs|] == bs;
      r := Ok(TextReply(Join(text, "\n")));
    }

    /**
     * `predict`: the messages are rewritten, sent, and the answer is read and
     * counted. `decode` stands for `json.loads`, `respond` for the API.
     */
    method Predict(input: Prompt, decode: string -> Result<ToolInfo>, respond: Request -> seq<ResponseBlock>)
      returns (r: Result<Reply>)
      modifies this, base
      ensures var o := Prepared(input, old(toolUseId), decode);
        && toolUseId == o.nextId
        && r == (match o.messages
                 case Err(e) => Err(e)
                 case Ok(ms) => Answer(ms, base.modelName, base.tools, respond))
        && (r.Ok? ==> base.totalTokensConsumed == old(base.totalTokensConsumed)
                        + PromptTokens(PromptList(o.messages.value)) + CompletionTokens(r.value))
        && (r.Ok? ==> base.promptTokensConsumed == old(base.promptTokensConsumed) + PromptTokens(PromptList(o.messages.value)))
        && (r.Ok? ==> base.completionTokensConsumed == old(base.completionTokensConsumed) + CompletionTokens(r.value))
        && (r.Err? ==> unchanged(base))
    {
      var ms: seq<Msg>;
      if input.PromptText? {
        ms := [Message("user", input.text)];
      } else {
        var rewritten := RewriteToolMessages(input.messages, decode);
        if rewritten.Err? {
          return Err(rewritten.error);
        }
        ms := rewritten.value;
      }
      var toolArgs := ToolArgs();
      var split := SplitSystem(ms);
      if split.Err? {
        return Err(split.error);
      }
      var reply := GetResponse(respond(Request(base.modelName, split.value.1, toolArgs, split.value.0)));
      if reply.Err? {
        return Err(reply.error);
      }
      var answer := base.Predict(PromptList(ms), reply.value, true);
      r := Ok(answer);
    }
  }

  /** One step of the scan over a message that is not a tool message. */
  lemma {:induction false} PlainStep(ms: seq<Msg>, k: nat, input: seq<Msg>, j: nat, id: nat, decode: string -> Result<ToolInfo>)
    requires k < |ms| && j <= |input| && ms[k..] == input[j..] && ms[k].role != "tool"
    requires NoTools(ms[..k])
    ensures j < |input| && ms[k + 1..] == input[j + 1..] && NoTools(ms[..k + 1])
    ensures RewriteFrom(ms[..k + 1], input[j + 1..], id, decode) == RewriteFrom(ms[..k], input[j..], id, decode)
  {
    assert input[j..][0] == ms[k];
    assert input[j..][1..] == input[j + 1..];
    assert ms[..k + 1] == ms[..k] + [ms[k]];
    assert ms[k + 1..] == ms[k..][1..];
  }

  /** One conversion, in terms of `RewriteFrom`, with or without the merge of the next message. */
  lemma {:induction false} MergeStep(ms: seq<Msg>, i: nat, input: seq<Msg>, j: nat, id: nat, info: ToolInfo, decode: string -> Result<ToolInfo>)
    requires 0 < i < |ms| && j <= |input| && ms[i..] == input[j..] && ms[i].role == "tool"
    requires NoTools(ms[..i])
    requires ToolInfoOf(ms[i].content, decode) == Ok(info)
    ensures j < |input|
    ensures var key := NatToString(id);
      var conv := AsToolResult(ms[i], key, info);
      var ms1 := ms[i - 1 := WithToolUse(ms[i - 1], key, info)][i := conv];
      && ms1[i + 1..] == input[j + 1..]
      && NoTools(ms1[..i + 1])
      && (|ms1| > i + 1 && ms1[i + 1].role == "user" ==>
            && j + 1 < |input|
            && ms1[i := Merged(conv, ms1[i + 1])][i + 2..] == input[j + 2..]
            && NoTools(ms1[i := Merged(conv, ms1[i + 1])][..i + 1])
            && RewriteFrom(ms1[i := Merged(conv, ms1[i + 1])][..i + 1], input[j + 2..], id + 1, decode)
               == RewriteFrom(ms[..i], input[j..], id, decode))
      && (!(|ms1| > i + 1 && ms1[i + 1].role == "user") ==>
            RewriteFrom(ms1[..i + 1], input[j + 1..], id + 1, decode) == RewriteFrom(ms[..i], input[j..], id, decode))
  {
    var key := NatToString(id);
    var conv := AsToolResult(ms[i], key, info);
    var prev := WithToolUse(ms[i - 1], key, info);
    var ms1 := ms[i - 1 := prev][i := conv];
    var done := ms[..i];
    var rest := input[j..];
    assert rest[0] == ms[i];
    assert done[|done| - 1] == ms[i - 1];
    assert done[..|done| - 1] == ms[..i - 1];
    assert ms1[..i + 1] == ms[..i - 1] + [prev, conv];
    assert ms1[i + 1..] == ms[i + 1..];
    assert ms[i + 1..] == ms[i..][1..];
    assert rest[1..] == input[j + 1..];
    if |ms1| > i + 1 && ms1[i + 1].role == "user" {
      assert rest[1] == ms1[i + 1];
      var ms2 := ms1[i := Merged(conv, ms1[i + 1])];
      assert ms2[..i + 1] == ms[..i - 1] + [prev, Merged(conv, rest[1])];
      assert ms2[i + 2..] == ms1[i + 1..][1..];
      assert rest[2..] == input[j + 2..];
    }
  }

  // ---------------------------------------------------------------------------
  // Properties of the rewrite

  lemma {:induction false} RewriteFromNoTools(done: seq<Msg>, rest: seq<Msg>, id: nat, decode: string -> Result<ToolInfo>)
    requires NoTools(done)
    ensures RewriteFrom(done, rest, id, decode).messages.Ok? ==> NoTools(RewriteFrom(done, rest, id, decode).messages.value)
    decreases |rest|
  {
    if rest != [] {
      if rest[0].role != "tool" {
        RewriteFromNoTools(done + [rest[0]], rest[1..], id, decode);
      } else if done != [] && ToolInfoOf(rest[0].content, decode).Ok? {
        var info := ToolInfoOf(rest[0].content, decode).value;
        var key := NatToString(id);
        var prev := WithToolUse(done[|done| - 1], key, info);
        var conv := AsToolResult(rest[0], key, info);
        if |rest| > 1 && rest[1].role == "user" {
          RewriteFromNoTools(done[..|done| - 1] + [prev, Merged(conv, rest[1])], rest[2..], id + 1, decode);
        } else {
          RewriteFromNoTools(done[..|done| - 1] + [prev, conv], rest[1..], id + 1, decode);
        }
      }
    }
  }

  /** After a successful rewrite no tool message is left. */
  lemma {:induction false} RewriteNoTools(ms: seq<Msg>, id: nat, decode: string -> Result<ToolInfo>)
    ensures Rewrite(ms, id, decode).messages.Ok? ==> NoTools(Rewrite(ms, id, decode).messages.value)
  {
    RewriteFromNoTools([], ms, id, decode);
  }

  lemma {:induction false} RewriteFromCount(done: seq<Msg>, rest: seq<Msg>, id: nat, decode: string -> Result<ToolInfo>)
    ensures RewriteFrom(done, rest, id, decode).messages.Ok? ==> RewriteFrom(done, rest, id, decode).nextId == id + ToolCount(rest)
    decreases |rest|
  {
    if rest != [] {
      if rest[0].role != "tool" {
        RewriteFromCount(done + [rest[0]], rest[1..], id, decode);
      } else if done != [] && ToolInfoOf(rest[0].content, decode).Ok? {
        var info := ToolInfoOf(rest[0].content, decode).value;
        var key := NatToString(id);
        var prev := WithToolUse(done[|done| - 1], key, info);
        var conv := AsToolResult(rest[0], key, info);
        if |rest| > 1 && rest[1].role == "user" {
          RewriteFromCount(done[..|done| - 1] + [prev, Merged(conv, rest[1])], rest[2..], id + 1, decode);
          assert rest[1..][1..] == rest[2..];
          assert ToolCount(rest[1..]) == ToolCount(rest[2..]);
        } else {
          RewriteFromCount(done[..|done| - 1] + [prev, conv], rest[1..], id + 1, decode);
        }
      }
    }
  }

  /** The counter goes up by one for every tool message of the list. */
  lemma {:induction false} RewriteCount(ms: seq<Msg>, id: nat, decode: string -> Result<ToolInfo>)
    ensures Rewrite(ms, id, decode).messages.Ok? ==> Rewrite(ms, id, decode).nextId == id + ToolCount(ms)
  {
    RewriteFromCount([], ms, id, decode);
  }

  lemma {:induction false} RolesAppend(a: seq<Msg>, b: seq<Msg>)
    ensures Roles(a + b) == Roles(a) + Roles(b)
  {
  }

  /** Replacing the last message by one of the same role and adding a user message adds one user role. */
  lemma {:induction false} RolesConvert(init: seq<Msg>, last: Msg, prev: Msg, x: Msg)
    requires prev.role == last.role && x.role == "user"
    ensures Roles(init + [prev, x]) == Roles(init + [last]) + ["user"]
  {
    RolesAppend(init, [prev, x]);
    RolesAppend(init, [last]);
    assert Roles([prev, x]) == [prev.role, "user"];
    assert Roles([last]) == [last.role];
  }

  /** What `RolesAfter` promises for `done` and `rest`. */
  ghost predicate RolesAfter(done: seq<Msg>, rest: seq<Msg>, o: Outcome)
  {
    o.messages.Ok? ==> Roles(o.messages.value) == Roles(done) + Collapse(Roles(rest))
  }

  /** The roles step over a message that is not a tool message. */
  lemma {:induction false} RolesPlain(done: seq<Msg>, rest: seq<Msg>, o: Outcome)
    requires rest != [] && rest[0].role != "tool"
    requires RolesAfter(done + [rest[0]], rest[1..], o)
    ensures RolesAfter(done, rest, o)
  {
    var rs := Roles(rest);
    assert rs[1..] == Roles(rest[1..]);
    assert Collapse(rs) == [rest[0].role] + Collapse(rs[1..]);
    RolesAppend(done, [rest[0]]);
    assert Roles([rest[0]]) == [rest[0].role];
  }

  /** The roles step over a converted tool message, `skip` being 2 when the next message was merged. */
  lemma {:induction false} RolesTool(init: seq<Msg>, last: Msg, prev: Msg, x: Msg, rest: seq<Msg>, skip: nat, o: Outcome)
    requires rest != [] && rest[0].role == "tool" && prev.role == last.role && x.role == "user"
    requires skip == 1 || (skip == 2 && |rest| > 1 && rest[1].role == "user")
    requires skip == 1 ==> !(|rest| > 1 && rest[1].role == "user")
    requires RolesAfter(init + [prev, x], rest[skip..], o)
    ensures RolesAfter(init + [last], rest, o)
  {
    var rs := Roles(rest);
    assert rs[skip..] == Roles(rest[skip..]);
    if skip == 2 {
      assert rs[1] == "user";
      assert Collapse(rs) == ["user"] + Collapse(rs[2..]);
    } else {
      assert Collapse(rs) == ["user"] + Collapse(rs[1..]);
    }
    RolesConvert(init, last, prev, x);
  }

  lemma {:induction false} RewriteFromRoles(done: seq<Msg>, rest: seq<Msg>, id: nat, decode: string -> Result<ToolInfo>)
    ensures RolesAfter(done, rest, RewriteFrom(done, rest, id, decode))
    decreases |rest|
  {
    var o := RewriteFrom(done, rest, id, decode);
    if rest == [] {
      assert Roles(rest) == [];
      assert o.messages == Ok(done);
    } else if rest[0].role != "tool" {
      assert o == RewriteFrom(done + [rest[0]], rest[1..], id, decode);
      RewriteFromRoles(done + [rest[0]], rest[1..], id, decode);
      RolesPlain(done, rest, o);
    } else if done != [] && ToolInfoOf(rest[0].content, decode).Ok? {
      var info := ToolInfoOf(rest[0].content, decode).value;
      var key := NatToString(id);
      var last := done[|done| - 1];
      var prev := WithToolUse(last, key, info);
      var conv := AsToolResult(rest[0], key, info);
      var init := done[..|done| - 1];
      assert done == init + [last];
      if |rest| > 1 && rest[1].role == "user" {
        assert o == RewriteFrom(init + [prev, Merged(conv, rest[1])], rest[2..], id + 1, decode);
        RewriteFromRoles(init + [prev, Merged(conv, rest[1])], rest[2..], id + 1, decode);
        RolesTool(init, last, prev, Merged(conv, rest[1]), rest, 2, o);
      } else {
        assert o == RewriteFrom(init + [prev, conv], rest[1..], id + 1, decode);
        RewriteFromRoles(init + [prev, conv], rest[1..], id + 1, decode);
        RolesTool(init, last, prev, conv, rest, 1, o);
      }
    }
  }

  /**
   * The roles after the rewrite depend on the roles alone: every tool message
   * became a user message, and every user message right after a tool message
   * was merged into it; the other messages keep their place.
   */
  lemma {:induction false} RewriteRoles(ms: seq<Msg>, id: nat, decode: string -> Result<ToolInfo>)
    ensures var o := Rewrite(ms, id, decode);
      o.messages.Ok? ==> Roles(o.messages.value) == Collapse(Roles(ms))
  {
    RewriteFromRoles([], ms, id, decode);
    assert Roles([]) == [];
  }

  lemma {:induction false} RewriteFromFails(done: seq<Msg>, rest: seq<Msg>, id: nat, decode: string -> Result<ToolInfo>)
    requires done != []
    ensures RewriteFrom(done, rest, id, decode).messages.Err? <==> BadTool(rest, decode)
    decreases |rest|
  {
    var o := RewriteFrom(done, rest, id, decode);
    if rest == [] {
      assert o.messages.Ok?;
    } else if rest[0].role != "tool" {
      assert o == RewriteFrom(done + [rest[0]], rest[1..], id, decode);
      RewriteFromFails(done + [rest[0]], rest[1..], id, decode);
      BadToolTail(rest, 1, decode);
    } else {
      var t := ToolInfoOf(rest[0].content, decode);
      if t.Ok? {
        var key := NatToString(id);
        var prev := WithToolUse(done[|done| - 1], key, t.value);
        var conv := AsToolResult(rest[0], key, t.value);
        var init := done[..|done| - 1];
        if |rest| > 1 && rest[1].role == "user" {
          assert o == RewriteFrom(init + [prev, Merged(conv, rest[1])], rest[2..], id + 1, decode);
          RewriteFromFails(init + [prev, Merged(conv, rest[1])], rest[2..], id + 1, decode);
          BadToolTail(rest, 2, decode);
        } else {
          assert o == RewriteFrom(init + [prev, conv], rest[1..], id + 1, decode);
          RewriteFromFails(init + [prev, conv], rest[1..], id + 1, decode);
          BadToolTail(rest, 1, decode);
        }
      } else {
        assert o.messages == Err(t.error);
        assert rest[0].role == "tool" && t.Err?;
      }
    }
  }

  /** Past `n` leading messages that are not undecodable tool messages, a bad tool lies in the tail. */
  lemma {:induction false} BadToolTail(ms: seq<Msg>, n: nat, decode: string -> Result<ToolInfo>)
    requires n <= |ms|
    requires forall k :: 0 <= k < n ==> !(ms[k].role == "tool" && ToolInfoOf(ms[k].content, decode).Err?)
    ensures BadTool(ms, decode) <==> BadTool(ms[n..], decode)
  {
    if BadTool(ms, decode) {
      var k :| 0 <= k < |ms| && ms[k].role == "tool" && ToolInfoOf(ms[k].content, decode).Err?;
      assert ms[n..][k - n] == ms[k];
    }
    if BadTool(ms[n..], decode) {
      var k :| 0 <= k < |ms[n..]| && ms[n..][k].role == "tool" && ToolInfoOf(ms[n..][k].content, decode).Err?;
      assert ms[n + k] == ms[n..][k];
    }
  }

  /**
   * The rewrite fails exactly when the first message is a tool message, with
   * the ValueError for it, or some tool message can not be decoded.
   */
  lemma {:induction false} RewriteFails(ms: seq<Msg>, id: nat, decode: string -> Result<ToolInfo>)
    ensures ms != [] && ms[0].role == "tool" ==> Rewrite(ms, id, decode).messages == Err(ValueError(FirstToolMessage))
    ensures Rewrite(ms, id, decode).messages.Err? <==> (ms != [] && ms[0].role == "tool") || BadTool(ms, decode)
  {
    if ms != [] && ms[0].role != "tool" {
      assert [] + [ms[0]] == [ms[0]];
      assert Rewrite(ms, id, decode) == RewriteFrom([ms[0]], ms[1..], id, decode);
      RewriteFromFails([ms[0]], ms[1..], id, decode);
      BadToolTail(ms, 1, decode);
    }
  }

  lemma {:induction false} RewriteFromPlain(done: seq<Msg>, rest: seq<Msg>, id: nat, decode: string -> Result<ToolInfo>)
    requires NoTools(rest)
    ensures RewriteFrom(done, rest, id, decode) == Outcome(Ok(done + rest), id)
    decreases |rest|
  {
    if rest == [] {
      assert done + rest == done;
    } else {
      assert rest[0].role != "tool";
      assert NoTools(rest[1..]) by {
        forall k | 0 <= k < |rest[1..]| ensures rest[1..][k].role != "tool" {
          assert rest[1..][k] == rest[k + 1];
        }
      }
      RewriteFromPlain(done + [rest[0]], rest[1..], id, decode);
      assert done + [rest[0]] + rest[1..] == done + rest;
    }
  }

  /** A list without tool messages is sent as it is, and the counter does not move. */
  lemma {:induction false} RewriteWithoutTools(ms: seq<Msg>, id: nat, decode: string -> Result<ToolInfo>)
    requires NoTools(ms)
    ensures Rewrite(ms, id, decode) == Outcome(Ok(ms), id)
  {
    RewriteFromPlain([], ms, id, decode);
    assert [] + ms == ms;
  }

  /** Blocks after the first tool-use block do not change the reply. */
  lemma {:induction false} ToolUseDecides(bs: seq<ResponseBlock>, more: seq<ResponseBlock>, tools: Option<seq<Tool>>)
    requires FirstToolUse(bs).Some?
    ensures ResponseReply(bs + more, tools) == ResponseReply(bs, tools)
  {
    var k := FirstToolUse(bs).value;
    assert (bs + more)[k] == bs[k];
    assert forall j :: 0 <= j < k ==> (bs + more)[j] == bs[j];
    assert FirstToolUse(bs + more) == Some(k);
  }

  // ---------------------------------------------------------------------------
  // The removal of the merged message as written

  /**
   * `messages.remove(next_message)` after a merge at `i`, as the loop does it:
   * dictionaries compare by value, so the first message equal to the merged
   * one goes, wherever it stands.
   */
  function RemoveMergedAsWritten(cur: seq<Msg>, i: nat): (r: seq<Msg>)
    requires i + 1 < |cur|
    ensures |r| + 1 == |cur|
    ensures exists k :: 0 <= k <= i + 1 && r == cur[..k] + cur[k + 1..] && cur[k] == cur[i + 1]
  {
    var k := PyLists.FirstIndex(cur, cur[i + 1]).value;
    cur[..k] + cur[k + 1..]
  }

  /**
   * A conversation in which the user repeats, word for word, the message that
   * opened it: [u, a, t, u]. The pass converts the tool message and merges the
   * second u into it; `remove` then takes out the first u, so the rewritten
   * conversation starts with the assistant message and the merged u is sent
   * twice. Taking out the message at i + 1, as the rewrite in this model does,
   * gives [u, a', t'].
   */
  lemma RemoveDropsEarlierDuplicate(u: Msg, a: Msg, c: string, info: ToolInfo, decode: string -> Result<ToolInfo>)
    requires u.role == "user" && a.role == "assistant" && decode(c) == Ok(info)
    ensures var t := Msg("tool", Text(c), None, None, None);
      var a1 := WithToolUse(a, "0", info);
      var t1 := Merged(AsToolResult(t, "0", info), u);
      var cur := [u, a1, t1, u];
      RemoveMergedAsWritten(cur, 2) == [a1, t1, u]
      && Rewrite([u, a, t, u], 0, decode) == Outcome(Ok([u, a1, t1]), 1)
  {
    var t := Msg("tool", Text(c), None, None, None);
    var a1 := WithToolUse(a, "0", info);
    var t1 := Merged(AsToolResult(t, "0", info), u);
    var cur := [u, a1, t1, u];
    assert PyLists.FirstIndex(cur, u) == Some(0);
    assert NatToString(0) == "0";
    var ms := [u, a, t, u];
    assert ToolInfoOf(t.content, decode) == Ok(info);
    assert ms[1..] == [a, t, u] && ms[1..][1..] == [t, u] && [t, u][2..] == [];
    assert [] + [u] == [u] && [u] + [a] == [u, a];
    assert Rewrite(ms, 0, decode) == RewriteFrom([u], [a, t, u], 0, decode);
    assert RewriteFrom([u], [a, t, u], 0, decode) == RewriteFrom([u, a], [t, u], 0, decode);
    assert [u, a][..1] + [a1, t1] == [u, a1, t1];
    assert RewriteFrom([u, a], [t, u], 0, decode) == RewriteFrom([u, a1, t1], [], 1, decode);
  }
}
