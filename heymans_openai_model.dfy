/**
 * The OpenAI chat model of heymans: the older linking of tool messages, which
 * keeps every content and links each tool message to a 'dummy' call of the
 * message before it. Its `get_response` and `_tool_args` are those of the
 * sigmund OpenAI model, and so is the normalisation of the tool choice.
 *
 * The heymans base model, whose `predict` this `predict` hands the linked
 * list to, is not part of this model.
 */
module HeymansOpenAIModel {
  import opened Wrappers
  import opened ModelBase
  import OpenAI = OpenAIModel

  /** The message at `i` once the loop is over: a linked tool message gets its call id, the message before one gets a 'dummy' call with that id. */
  function LinkedAt(ms: seq<Msg>, i: nat): Msg
    requires i < |ms|
  {
    var m := if OpenAI.Linked(ms, i) then ms[i].(toolCallId := Some(OpenAI.CallId(i))) else ms[i];
    if OpenAI.Linked(ms, i + 1) then m.(toolCalls := Some([FunctionCall(OpenAI.CallId(i + 1), "dummy", "")])) else m
  }

  /** The list the linking loop makes. */
  function LinkSpec(ms: seq<Msg>): seq<Msg>
  {
    seq(|ms|, i requires 0 <= i < |ms| => LinkedAt(ms, i))
  }

  /** The `for` loop of `predict` over the converted messages. */
  method LinkToolMessages(messages: seq<Msg>) returns (ms: seq<Msg>)
    ensures ms == LinkSpec(messages)
  {
    ms := messages;
    var i := 0;
    while i < |ms|
      invariant 0 <= i <= |messages| && |ms| == |messages|
      invariant forall j :: 0 <= j < i - 1 ==> ms[j] == LinkedAt(messages, j)
      invariant i > 0 ==> ms[i - 1] == (if OpenAI.Linked(messages, i - 1) then messages[i - 1].(toolCallId := Some(OpenAI.CallId(i - 1))) else messages[i - 1])
      invariant forall j :: i <= j < |ms| ==> ms[j] == messages[j]
    {
      if i != 0 && ms[i].role == "tool" {
        var id := OpenAI.CallId(i);
        ms := ms[i - 1 := ms[i - 1].(toolCalls := Some([FunctionCall(id, "dummy", "")]))];
        ms := ms[i := ms[i].(toolCallId := Some(id))];
      }
      i := i + 1;
    }
    assert forall j :: 0 <= j < |ms| ==> ms[j] == LinkedAt(messages, j);
  }

  /** The request `invoke` sends: the tool arguments, and no JSON format. */
  function InvokeRequest(model: string, ms: seq<Msg>, tools: Option<seq<Tool>>, choice: ToolChoice): OpenAI.Request
  {
    OpenAI.Request(model, ms, OpenAI.ToolArgs(tools, choice), false)
  }

  // ---------------------------------------------------------------------------
  // Properties

  /** The linking keeps the length of the list, and the role and the content of every message. */
  lemma {:induction false} LinkKeepsContents(ms: seq<Msg>)
    ensures |LinkSpec(ms)| == |ms|
    ensures forall i :: 0 <= i < |ms| ==> LinkSpec(ms)[i].role == ms[i].role && LinkSpec(ms)[i].content == ms[i].content
  {
  }

  /** Every linked tool message carries the id `call_i` of its index, and the message before it exactly one call with that id. */
  lemma {:induction false} LinkIds(ms: seq<Msg>, i: nat)
    requires 0 < i < |ms| && ms[i].role == "tool"
    ensures LinkSpec(ms)[i].toolCallId == Some(OpenAI.CallId(i))
    ensures LinkSpec(ms)[i - 1].toolCalls == Some([FunctionCall(OpenAI.CallId(i), "dummy", "")])
  {
  }

  /** Without tool messages after the first message, the list is sent as it is. */
  lemma {:induction false} LinkWithoutTools(ms: seq<Msg>)
    requires forall i :: 0 < i < |ms| ==> ms[i].role != "tool"
    ensures LinkSpec(ms) == ms
  {
    assert forall i :: 0 <= i < |ms| ==> LinkedAt(ms, i) == ms[i];
  }

  /**
   * Where the sigmund linking succeeds, it links the same messages with the
   * same ids: both give a tool message the id of its index.
   */
  lemma {:induction false} SameIdsAsSigmund(ms: seq<Msg>, i: nat, decode: string -> Result<ToolInfo>)
    requires OpenAI.PrepareSpec(ms, decode).Ok? && 0 < i < |ms| && ms[i].role == "tool"
    ensures OpenAI.PrepareSpec(ms, decode).value[i].toolCallId == LinkSpec(ms)[i].toolCallId
    ensures var p := OpenAI.PrepareSpec(ms, decode).value[i - 1].toolCalls;
      var q := LinkSpec(ms)[i - 1].toolCalls;
      p.Some? && q.Some? && |p.value| == 1 && |q.value| == 1 && p.value[0].id == q.value[0].id
  {
    OpenAI.PrepareLinks(ms, i, decode);
  }
}
