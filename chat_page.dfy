/**
 * The chat turn of sigmund's page (`main.js`). Sending a message shows it,
 * starts the loading indicator, disables the input and posts the message
 * with up to three tries; only when that post settles to a response does
 * the page open the event stream and arm the cancel button. On the stream,
 * `close` ends the turn, `set_loading_indicator` only relabels the
 * indicator, other actions are ignored, and every other event appends one
 * AI message box (its sources listed once per distinct non-empty URL). A
 * stream error closes the stream and shows an error box; cancelling posts a
 * cancel request, hides the cancel button and tells the companion socket,
 * and ends the turn only when the request answers `ok`.
 *
 * The network, `JSON.parse` and HTML parsing are oracles: the outcome of
 * each try of the start request, the parsed stream events and a `parse`
 * function from HTML text to nodes are parameters; message ids
 * (`generateUUID`) are parameters too.
 */
module ChatPage {
  import opened Wrappers
  import opened DomNodes
  import PyLists
  import Seqs
  import FR = FetchRetry
  import CI = ChatInput
  import LI = LoadingIndicator
  import AT = Attachments
  import WS = Workspace
  import SC = SocketClient

  /** `fetchWithRetry`'s default number of tries, which `sendMessage` uses. */
  const StartRetries: int := 3

  /** What the loading indicator first says, after the assistant's name. */
  const ReadingSuffix: string := " is reading your message "

  /** The body of the box `displayErrorMessage` shows. */
  const ErrorHtml: string :=
    "<p>The connection to the server has been lost. This might be because:</p>\n<ul>\n"
    + "    <li>Your login session has expired</li>\n"
    + "    <li>The server is temporarily unavailable</li>\n"
    + "    <li>There's a network connectivity issue</li>\n</ul>\n"
    + "<p>Please reload the page to reconnect.</p>\n"
    + "<button onclick=\"location.reload()\" class=\"modal-reload-button\">Reload Page</button>\n"

  /** An entry of `metadata.sources`: its `url`, `None` when absent or `null`. */
  datatype SourceRef = SourceRef(url: Option<string>)

  /** A workspace: its content and its language. */
  datatype Snapshot = Snapshot(content: string, language: string)

  /** An AI message event: `workspace` is `None` for a `null` `workspace_content`. */
  datatype Reply = Reply(response: string, workspace: Option<Snapshot>, messageId: string,
                         timestamp: string, answerModel: string, sources: seq<SourceRef>)

  /** A parsed stream event: one with an `action` field, or an AI message. */
  datatype Event = Action(action: string, message: string) | Message(reply: Reply)

  /** A box appended to `responseDiv`. */
  datatype Box =
    | UserBox(id: string, text: string, workspace: Option<Snapshot>)
    | AiBox(id: string, html: string, workspace: Option<Snapshot>, timestamp: string,
            answerModel: string, links: Option<seq<string>>)
    | ErrorBox(id: string)

  /** The state of the current event source's connection. */
  datatype Stream = Stream(open: bool, forward: bool, loading: LI.Indicator)

  /** Whether a source's `url` is truthy: present and not empty. */
  predicate Truthy(url: Option<string>)
  {
    url.Some? && url.value != ""
  }

  /** The truthy URLs of the first `k` sources, in order, repeats included. */
  function TruthyUrls(sources: seq<SourceRef>, k: nat): (r: seq<string>)
    requires k <= |sources|
    ensures forall u :: u in r <==> exists j :: 0 <= j < k && Truthy(sources[j].url) && sources[j].url.value == u
  {
    if k == 0 then []
    else
      var prev := TruthyUrls(sources, k - 1);
      var u := sources[k - 1].url;
      prev + (if Truthy(u) then [u.value] else [])
  }

  /** The links the sources div holds: each truthy URL once, at its first occurrence. */
  function Links(sources: seq<SourceRef>): seq<string>
  {
    PyLists.AddNew([], TruthyUrls(sources, |sources|))
  }

  /**
   * Every truthy URL is linked, nothing else is, and none twice; the
   * sources div is left out exactly when no source has a truthy URL.
   */
  lemma LinksMeaning(sources: seq<SourceRef>)
    ensures PyLists.NoDuplicates(Links(sources))
    ensures forall u :: u in Links(sources) <==> exists j :: 0 <= j < |sources| && Truthy(sources[j].url) && sources[j].url.value == u
    ensures Links(sources) == [] <==> forall j :: 0 <= j < |sources| ==> !Truthy(sources[j].url)
  {
    var urls := TruthyUrls(sources, |sources|);
    PyLists.AddNewNoDuplicates([], urls);
    forall u
      ensures u in Links(sources) <==> u in urls
    {
      PyLists.AddNewMembers([], urls, u);
    }
    if Links(sources) != [] {
      assert Links(sources)[0] in urls;
    }
    if exists j :: 0 <= j < |sources| && Truthy(sources[j].url) {
      var j :| 0 <= j < |sources| && Truthy(sources[j].url);
      assert sources[j].url.value in urls;
    }
  }

  /** The `forEach` over the sources: a link for each truthy URL not yet in `uniqueURLs`. */
  method RenderSources(sources: seq<SourceRef>) returns (links: seq<string>, hasValidSources: bool)
    ensures links == Links(sources)
    ensures hasValidSources <==> links != []
  {
    links := [];
    var uniqueUrls: set<string> := {};
    hasValidSources := false;
    for i := 0 to |sources|
      invariant links == PyLists.AddNew([], TruthyUrls(sources, i))
      invariant uniqueUrls == set u | u in links
      invariant hasValidSources <==> links != []
    {
      var url := sources[i].url;
      var prev := TruthyUrls(sources, i);
      if Truthy(url) {
        assert TruthyUrls(sources, i + 1) == prev + [url.value];
        assert (prev + [url.value])[..|prev|] == prev;
      } else {
        assert TruthyUrls(sources, i + 1) == prev;
      }
      if url.Some? && url.value != "" && url.value !in uniqueUrls {
        hasValidSources := true;
        uniqueUrls := uniqueUrls + {url.value};
        links := links + [url.value];
      }
    }
  }

  /** The box `createAIMessageElement` builds for a reply. */
  function AiBoxOf(r: Reply): Box
  {
    var links := Links(r.sources);
    AiBox(r.messageId, r.response, r.workspace, r.timestamp, r.answerModel, if links == [] then None else Some(links))
  }

  /** The user box `displayUserMessage` adds, if any: none for an empty message. */
  function UserBoxes(message: string, id: string, content: string, mode: string): seq<Box>
  {
    if message == "" then []
    else [UserBox(id, "You: " + message, if content != "" then Some(Snapshot(content, mode)) else None)]
  }

  /** The frame `createAIMessageElement` forwards to the companion socket. */
  function Forwarded(r: Reply): SC.Envelope
  {
    SC.Envelope("ai_message", SC.Str(r.response),
      if r.workspace.Some? then SC.Str(r.workspace.value.content) else SC.Null,
      if r.workspace.Some? then SC.Str(r.workspace.value.language) else SC.Null)
  }

  /** The frame `cancelStreaming` sends. */
  const CancelFrame: SC.Envelope := SC.Envelope("cancel_message", SC.Undefined, SC.Undefined, SC.Undefined)

  /** The index of the first `close` action, or the number of events when there is none. */
  function CloseAt(events: seq<Event>): (n: nat)
    ensures n <= |events|
    ensures n < |events| ==> events[n].Action? && events[n].action == "close"
    ensures forall j :: 0 <= j < n ==> !(events[j].Action? && events[j].action == "close")
    decreases |events|
  {
    if events == [] then 0
    else if events[0].Action? && events[0].action == "close" then 0
    else 1 + CloseAt(events[1..])
  }

  /** The AI boxes the first `k` events add: one per message event, in order. */
  function RepliesBoxes(events: seq<Event>, k: nat): (r: seq<Box>)
    requires k <= |events|
    ensures |r| <= k
  {
    if k == 0 then []
    else RepliesBoxes(events, k - 1) + (if events[k - 1].Message? then [AiBoxOf(events[k - 1].reply)] else [])
  }

  /** The frames the first `k` events forward. */
  function RepliesFrames(events: seq<Event>, k: nat): seq<SC.Envelope>
    requires k <= |events|
  {
    if k == 0 then []
    else RepliesFrames(events, k - 1) + (if events[k - 1].Message? then [Forwarded(events[k - 1].reply)] else [])
  }

  /** The base message after the first `k` events: the last `set_loading_indicator` wins. */
  function LabelAfter(base: string, events: seq<Event>, k: nat): string
    requires k <= |events|
  {
    if k == 0 then base
    else if events[k - 1].Action? && events[k - 1].action == "set_loading_indicator" then events[k - 1].message
    else LabelAfter(base, events, k - 1)
  }

  /** Every box of a stream is built from one of its message events, and a stream of actions adds none. */
  lemma {:induction false} RepliesInOrder(events: seq<Event>, k: nat)
    requires k <= |events|
    ensures forall i :: 0 <= i < |RepliesBoxes(events, k)| ==> FromMessage(events, k, RepliesBoxes(events, k)[i])
    ensures (forall j :: 0 <= j < k ==> events[j].Action?) ==> RepliesBoxes(events, k) == []
  {
    if k > 0 {
      RepliesInOrder(events, k - 1);
      var prev := RepliesBoxes(events, k - 1);
      forall i | 0 <= i < |RepliesBoxes(events, k)|
        ensures FromMessage(events, k, RepliesBoxes(events, k)[i])
      {
        if i < |prev| {
          assert FromMessage(events, k - 1, prev[i]);
          var j :| 0 <= j < k - 1 && events[j].Message? && prev[i] == AiBoxOf(events[j].reply);
          assert RepliesBoxes(events, k)[i] == AiBoxOf(events[j].reply);
        } else {
          assert events[k - 1].Message?;
          assert RepliesBoxes(events, k)[i] == AiBoxOf(events[k - 1].reply);
        }
      }
    }
  }

  /** `b` is the box of one of the first `k` events, a message event. */
  predicate FromMessage(events: seq<Event>, k: nat, b: Box)
    requires k <= |events|
  {
    exists j :: 0 <= j < k && events[j].Message? && b == AiBoxOf(events[j].reply)
  }

  /** The `i`-th AI box of a stream is built from the `i`-th message event. */
  lemma {:induction false} RepliesBoxAt(events: seq<Event>, k: nat, j: nat)
    requires j < k <= |events| && events[j].Message?
    ensures var i := |RepliesBoxes(events, j)|;
      i < |RepliesBoxes(events, k)| && RepliesBoxes(events, k)[i] == AiBoxOf(events[j].reply)
  {
    if j < k - 1 {
      RepliesBoxAt(events, k - 1, j);
      RepliesGrow(events, j + 1, k - 1);
    }
  }

  lemma {:induction false} RepliesGrow(events: seq<Event>, j: nat, k: nat)
    requires j <= k <= |events|
    ensures RepliesBoxes(events, j) <= RepliesBoxes(events, k)
  {
    if j < k {
      RepliesGrow(events, j, k - 1);
    }
  }

  /** The first box with the id goes, the rest stay in order. */
  function RemoveFirst(boxes: seq<Box>, id: string): (r: seq<Box>)
    decreases |boxes|
  {
    if boxes == [] then []
    else if boxes[0].id == id then boxes[1..]
    else [boxes[0]] + RemoveFirst(boxes[1..], id)
  }

  /** `querySelector` finds the first box with the id, and `remove` takes out that one only; without one nothing changes. */
  lemma {:induction false} RemoveFirstMeaning(boxes: seq<Box>, id: string, k: nat)
    requires k <= |boxes| && forall j :: 0 <= j < k ==> boxes[j].id != id
    ensures k == |boxes| ==> RemoveFirst(boxes, id) == boxes
    ensures k < |boxes| && boxes[k].id == id ==> RemoveFirst(boxes, id) == boxes[..k] + boxes[k + 1..]
    decreases k
  {
    if k > 0 {
      RemoveFirstMeaning(boxes[1..], id, k - 1);
      if k == |boxes| {
        assert [boxes[0]] + boxes[1..] == boxes;
      } else if boxes[k].id == id {
        assert boxes[1..][..k - 1] == boxes[1..k];
        assert [boxes[0]] + boxes[1..k] == boxes[..k];
        assert boxes[1..][k..] == boxes[k + 1..];
      }
    } else if |boxes| > 0 {
      assert boxes[..0] + boxes[1..] == boxes[1..];
    }
  }

  /** The delete button each box starts with. */
  const DeleteButton: Node := Element("button", ["message-delete"], [Element("i", ["fas", "fa-trash"], [])])

  /** `createWorkspaceDiv`. */
  function WorkspaceDiv(w: Snapshot): Node
  {
    Element("div", ["message-workspace"], [
      Element("a", [], [Text("Load workspace")]),
      Element("pre", ["workspace-content"], [Text(w.content)]),
      Element("div", ["workspace-language"], [Text(w.language)])])
  }

  /** The links of the sources div, each followed by a line break. */
  function LinkNodes(links: seq<string>): seq<Node>
  {
    if links == [] then [] else [Element("a", [], [Text(links[0])]), Element("br", [], [])] + LinkNodes(links[1..])
  }

  /** The element a box is in the page, `parse` giving the nodes of an HTML text. */
  function NodeOf(box: Box, parse: string -> seq<Node>): Node
  {
    match box
    case UserBox(_, text, w) =>
      Element("div", ["message-user", "message"], [DeleteButton, Text(text)] + (if w.Some? then [WorkspaceDiv(w.value)] else []))
    case AiBox(_, html, w, timestamp, answerModel, links) =>
      Element("div", ["message-ai", "message"],
        [DeleteButton] + parse(html) + (if w.Some? then [WorkspaceDiv(w.value)] else [])
        + [Element("div", ["message-timestamp"], parse(timestamp)), Element("div", ["message-answer-model"], parse(answerModel))]
        + (if links.Some? then [Element("div", ["message-sources"], LinkNodes(links.value))] else []))
    case ErrorBox(_) =>
      Element("div", ["message-ai", "message", "message-error"], parse(ErrorHtml))
  }

  /** The elements of all boxes, in page order. */
  function NodesOf(boxes: seq<Box>, parse: string -> seq<Node>): (r: seq<Node>)
    ensures |r| == |boxes| && forall i :: 0 <= i < |boxes| ==> r[i] == NodeOf(boxes[i], parse)
  {
    seq(|boxes|, i requires 0 <= i < |boxes| => NodeOf(boxes[i], parse))
  }

  /** A user box is replayed to the companion as its text alone: the delete button and the workspace are stripped. */
  lemma UserBoxReplay(id: string, text: string, w: Option<Snapshot>, parse: string -> seq<Node>)
    ensures CopyAndStrip(NodeOf(UserBox(id, text, w), parse)) == Element("div", ["message-user", "message"], [Text(text)])
    ensures TextContent(CopyAndStrip(NodeOf(UserBox(id, text, w), parse))) == text
  {
    var tail := if w.Some? then [WorkspaceDiv(w.value)] else [];
    var n := NodeOf(UserBox(id, text, w), parse);
    var cs := StrippedClasses;
    assert StripIn([DeleteButton, Text(text)] + tail, cs[0]) == [Text(text)] + StripIn(tail, cs[0]) by {
      assert ([DeleteButton, Text(text)] + tail)[1..] == [Text(text)] + tail;
      assert ([Text(text)] + tail)[1..] == tail;
    }
    var tail1 := StripIn(tail, cs[0]);
    assert StripIn([Text(text)] + tail1, cs[1]) == [Text(text)] by {
      assert ([Text(text)] + tail1)[1..] == tail1;
      if w.Some? {
        var ws0 := Strip(WorkspaceDiv(w.value), cs[0]);
        assert tail1 == [ws0];
        assert HasClass(ws0, cs[1]);
        assert tail1[1..] == [];
        assert StripIn(tail1, cs[1]) == [];
      } else {
        assert StripIn(tail1, cs[1]) == [];
      }
    }
    var one := Element("div", ["message-user", "message"], [Text(text)]);
    assert StripUpTo(n, cs, 1) == Element("div", ["message-user", "message"], [Text(text)] + tail1);
    assert StripUpTo(n, cs, 2) == one;
    TextOnlyStays(one, cs[2]);
    assert StripUpTo(n, cs, 3) == one;
    TextOnlyStays(one, cs[3]);
    assert StripUpTo(n, cs, 4) == one;
    TextOnlyStays(one, cs[4]);
    assert StripUpTo(n, cs, 5) == one;
    assert TextIn([Text(text)]) == text;
  }

  /** An element holding one text node keeps it whatever class is stripped. */
  lemma TextOnlyStays(n: Node, c: string)
    requires n.Element? && |n.children| == 1 && n.children[0].Text?
    ensures Strip(n, c) == n
  {
    var t := n.children[0];
    assert n.children[1..] == [];
    assert StripIn(n.children, c) == [Strip(t, c)] + StripIn([], c);
    assert [t] == n.children;
  }

  /** The whole chat page: its globals, the widgets it drives and the boxes it shows. */
  class Page {
    /** `{{ ai_name }}`. */
    const aiName: string
    const input: CI.MessageInput
    const attachments: AT.AttachmentList
    const editor: WS.Editor
    const socket: SC.Connection
    /** `isStreaming`. */
    var isStreaming: bool
    /** `currentEventSource`: `None` for `null`. */
    var source: Option<Stream>
    /** `currentLoadingMessageBox` and `currentLoadingInterval`. */
    var loading: LI.Indicator?
    /** `messageInput.disabled`. */
    var inputDisabled: bool
    /** Whether the send and cancel buttons are displayed. */
    var sendShown: bool
    var cancelShown: bool
    /** Whether `cancelButton.onclick` is `cancelStreaming`. */
    var cancelArmed: bool
    /** Cancel requests sent and not yet answered. */
    var pendingCancels: nat
    /** The boxes of `responseDiv`, in page order. */
    var boxes: seq<Box>

    /**
     * The widgets are consistent, the send and cancel buttons are never
     * shown together, and a disabled input has a disabled send button.
     */
    predicate Valid()
      reads this, input, attachments, editor, socket, socket.timer
    {
      && attachments.Valid() && editor.Valid() && socket.Valid()
      && !(sendShown && cancelShown)
      && (inputDisabled ==> input.sendDisabled)
    }

    /** `initMain` and the scripts' start-up: the counter, the workspace and the first socket. */
    constructor (aiName: string, maxLength: int, needLogin: bool, text: string, sendDisabled: bool,
                 content: string, dataMode: string, options: seq<string>)
      ensures Valid() && fresh(input) && fresh(attachments) && fresh(editor) && fresh(socket) && fresh(socket.timer)
      ensures this.aiName == aiName && input.maxLength == maxLength && input.gateSend == !needLogin
      ensures input.value == CI.Bounded(text, maxLength) && input.sendDisabled == sendDisabled
      ensures attachments.files == [] && editor.value == content && socket.state == SC.Connecting
      ensures !isStreaming && source == None && loading == null && boxes == []
      ensures !inputDisabled && sendShown && !cancelShown && !cancelArmed && pendingCancels == 0
    {
      this.aiName := aiName;
      input := new CI.MessageInput(maxLength, !needLogin, text, sendDisabled);
      attachments := new AT.AttachmentList();
      editor := new WS.Editor(content, dataMode, options);
      socket := new SC.Connection();
      isStreaming := false;
      source := None;
      loading := null;
      inputDisabled := false;
      sendShown := true;
      cancelShown := false;
      cancelArmed := false;
      pendingCancels := 0;
      boxes := [];
    }

    /** `disableMessageInput`. */
    method DisableInput()
      requires Valid()
      modifies this, input
      ensures Valid() && inputDisabled && input.sendDisabled && !sendShown && cancelShown
      ensures input.value == old(input.value) && input.counterText == old(input.counterText)
      ensures isStreaming == old(isStreaming) && source == old(source) && loading == old(loading)
      ensures cancelArmed == old(cancelArmed) && pendingCancels == old(pendingCancels) && boxes == old(boxes)
    {
      inputDisabled := true;
      input.sendDisabled := true;
      sendShown := false;
      cancelShown := true;
    }

    /** `enableMessageInput`: the send button is shown again but stays disabled until the next input event. */
    method EnableInput()
      requires Valid()
      modifies this
      ensures Valid() && !inputDisabled && sendShown && !cancelShown
      ensures isStreaming == old(isStreaming) && source == old(source) && loading == old(loading)
      ensures cancelArmed == old(cancelArmed) && pendingCancels == old(pendingCancels) && boxes == old(boxes)
    {
      inputDisabled := false;
      sendShown := true;
      cancelShown := false;
    }

    /** An `input` event in the enabled message box. */
    method Type(typed: string)
      requires Valid() && !inputDisabled
      modifies input
      ensures Valid()
      ensures input.value == CI.Bounded(typed, input.maxLength)
      ensures input.sendDisabled == CI.SendDisabled(input.value, input.gateSend, old(input.sendDisabled))
    {
      input.Input(typed);
    }

    /** The start of `sendMessage`, before the start request: the user box, a new loading indicator and the input disabled. */
    method Begin(message: string, id: string) returns (indicator: LI.Indicator)
      requires Valid()
      modifies this, input
      ensures Valid() && isStreaming && loading == indicator
      ensures boxes == old(boxes) + UserBoxes(message, id, editor.value, editor.mode)
      ensures fresh(indicator) && indicator.baseMessage == aiName + ReadingSuffix && indicator.text == indicator.baseMessage
      ensures indicator.dotCount == 0 && indicator.ticking && indicator.attached
      ensures input.counterText == "" && input.value == old(input.value)
      ensures inputDisabled && !sendShown && cancelShown
      ensures source == old(source) && cancelArmed == old(cancelArmed) && pendingCancels == old(pendingCancels)
    {
      isStreaming := true;
      input.counterText := "";
      boxes := boxes + UserBoxes(message, id, editor.value, editor.mode);
      indicator := new LI.Indicator(aiName + ReadingSuffix);
      loading := indicator;
      DisableInput();
    }

    /** `sendMessage`: everything up to and including the reaction to the start request. */
    method SendMessage(message: string, id: string, forward: bool, attempt: nat -> FR.Attempt<()>) returns (started: bool)
      requires Valid()
      modifies this, input
      ensures Valid()
      ensures started <==> !FR.Retry(attempt, 0, StartRetries).Threw?
      ensures boxes == old(boxes) + UserBoxes(message, id, editor.value, editor.mode)
      ensures fresh(loading) && loading.baseMessage == aiName + ReadingSuffix && loading.text == loading.baseMessage
      ensures loading.dotCount == 0 && loading.ticking && loading.attached
      ensures input.counterText == "" && input.value == old(input.value)
      ensures inputDisabled && !sendShown && cancelShown
      ensures started ==> isStreaming && source == Some(Stream(true, forward, loading)) && cancelArmed
      ensures !started ==> !isStreaming && source == old(source) && cancelArmed == old(cancelArmed)
      ensures pendingCancels == old(pendingCancels)
    {
      var indicator := Begin(message, id);
      var outcome, calls := FR.FetchWithRetry(attempt, StartRetries);
      if outcome.Threw? {
        isStreaming := false;
        return false;
      }
      source := Some(Stream(true, forward, indicator));
      cancelArmed := true;
      return true;
    }

    /** A click on the send button: the box's text is taken out and sent. */
    method ClickSend(id: string, attempt: nat -> FR.Attempt<()>) returns (message: string, started: bool)
      requires Valid() && !input.sendDisabled
      modifies this, input
      ensures Valid() && message == old(input.value) && input.value == ""
      ensures started <==> !FR.Retry(attempt, 0, StartRetries).Threw?
      ensures boxes == old(boxes) + UserBoxes(message, id, editor.value, editor.mode)
      ensures started ==> isStreaming && loading != null && source == Some(Stream(true, false, loading))
    {
      message := input.Click();
      started := SendMessage(message, id, false, attempt);
    }

    /** `endStream`. */
    method EndStream()
      requires Valid()
      modifies this, attachments, loading
      ensures Valid()
      ensures !isStreaming && source == None && attachments.files == [] && attachments.alerts == old(attachments.alerts)
      ensures loading == old(loading) && (loading != null ==> !loading.ticking && !loading.attached)
      ensures loading != null ==> loading.baseMessage == old(loading.baseMessage) && loading.text == old(loading.text)
      ensures !inputDisabled && sendShown && !cancelShown
      ensures cancelArmed == old(cancelArmed) && pendingCancels == old(pendingCancels) && boxes == old(boxes)
    {
      attachments.Clear();
      if loading != null {
        loading.Remove();
      }
      EnableInput();
      source := None;
      isStreaming := false;
    }

    /** `set_loading_indicator`: the base message of the stream's own indicator changes, nothing else. */
    method Relabel(message: string)
      requires Valid() && source.Some?
      modifies source.value.loading
      ensures Valid()
      ensures source.value.loading.baseMessage == message
      ensures source.value.loading.dotCount == old(source.value.loading.dotCount)
      ensures source.value.loading.text == old(source.value.loading.text)
      ensures source.value.loading.ticking == old(source.value.loading.ticking)
    {
      source.value.loading.SetBaseMessage(message);
    }

    /**
     * `createAIMessageElement` and the append: a reply with a workspace
     * loads it into the editor first, then is forwarded to the companion
     * when the stream was opened with forwarding; a socket still connecting
     * throws there, and the box is then never appended.
     */
    method ShowReply(r: Reply)
      requires Valid() && source.Some?
      modifies this, editor, socket
      ensures Valid() && source == old(source)
      ensures r.workspace.Some? ==>
        editor.value == r.workspace.value.content && editor.mode == WS.WorkspaceLanguage(r.workspace.value.language, editor.options).1
      ensures r.workspace.None? ==> editor.value == old(editor.value) && editor.mode == old(editor.mode)
      ensures var threw := source.value.forward && old(socket.state) == SC.Connecting;
        boxes == old(boxes) + (if threw then [] else [AiBoxOf(r)])
      ensures socket.sent == old(socket.sent) + (if source.value.forward && old(socket.state) == SC.Open then [Forwarded(r)] else [])
      ensures socket.state == old(socket.state) && socket.sockets == old(socket.sockets)
      ensures isStreaming == old(isStreaming) && source == old(source) && loading == old(loading)
      ensures inputDisabled == old(inputDisabled) && sendShown == old(sendShown) && cancelShown == old(cancelShown)
      ensures cancelArmed == old(cancelArmed) && pendingCancels == old(pendingCancels)
    {
      if r.workspace.Some? {
        editor.SetWorkspace(r.workspace.value.content, r.workspace.value.language);
      }
      var threw := false;
      if source.value.forward {
        threw := socket.Send(Forwarded(r));
      }
      if !threw {
        AppendReply(r);
      }
    }

    /** The box of a reply appended, its sources rendered. */
    method AppendReply(r: Reply)
      modifies this
      ensures boxes == old(boxes) + [AiBoxOf(r)]
      ensures isStreaming == old(isStreaming) && source == old(source) && loading == old(loading)
      ensures inputDisabled == old(inputDisabled) && sendShown == old(sendShown) && cancelShown == old(cancelShown)
      ensures cancelArmed == old(cancelArmed) && pendingCancels == old(pendingCancels)
    {
      var links, hasValidSources := RenderSources(r.sources);
      boxes := boxes + [AiBox(r.messageId, r.response, r.workspace, r.timestamp, r.answerModel,
                              if hasValidSources then Some(links) else None)];
    }

    /** `onmessage` of the open event source. */
    method OnStreamEvent(e: Event)
      requires Valid() && source.Some? && source.value.open
      modifies this, attachments, loading, source.value.loading, editor, socket
      ensures Valid()
      ensures e.Action? && e.action == "close" ==>
        !isStreaming && source == None && attachments.files == [] && !inputDisabled && sendShown && !cancelShown
        && (loading != null ==> !loading.ticking && !loading.attached) && boxes == old(boxes)
      ensures e.Action? && e.action == "set_loading_indicator" ==>
        old(source).value.loading.baseMessage == e.message && source == old(source) && boxes == old(boxes)
      ensures e.Action? && e.action != "close" ==> isStreaming == old(isStreaming) && source == old(source) && boxes == old(boxes)
      ensures e.Message? && (!old(source).value.forward || old(socket.state) != SC.Connecting) ==>
        boxes == old(boxes) + [AiBoxOf(e.reply)] && source == old(source) && isStreaming == old(isStreaming)
      ensures loading == old(loading) && cancelArmed == old(cancelArmed) && pendingCancels == old(pendingCancels)
    {
      if e.Action? {
        if e.action == "close" {
          EndStream();
        } else if e.action == "set_loading_indicator" {
          Relabel(e.message);
        }
        return;
      }
      ShowReply(e.reply);
    }

    /**
     * The events of one stream handled in arrival order: the boxes are the
     * message events' boxes up to the first `close`, which ends the turn;
     * later events never arrive because the source is closed.
     */
    method Consume(events: seq<Event>) returns (handled: nat)
      requires Valid() && source.Some? && source.value.open
      requires !source.value.forward || socket.state != SC.Connecting
      modifies this, attachments, loading, source.value.loading, editor, socket
      ensures Valid()
      ensures handled == CloseAt(events) + (if CloseAt(events) < |events| then 1 else 0)
      ensures boxes == old(boxes) + RepliesBoxes(events, CloseAt(events))
      ensures socket.sent == old(socket.sent)
        + (if old(source).value.forward && old(socket.state) == SC.Open then RepliesFrames(events, CloseAt(events)) else [])
      ensures old(source).value.loading.baseMessage == LabelAfter(old(source.value.loading.baseMessage), events, CloseAt(events))
      ensures CloseAt(events) < |events| ==> !isStreaming && source == None && !inputDisabled && sendShown && !cancelShown
      ensures CloseAt(events) == |events| ==> source == old(source) && isStreaming == old(isStreaming)
    {
      ghost var boxes0, sent0, stream := boxes, socket.sent, source.value;
      ghost var base0 := stream.loading.baseMessage;
      ghost var fwd := stream.forward && socket.state == SC.Open;
      var i := 0;
      while i < |events|
        invariant i <= CloseAt(events) && loading == old(loading)
        invariant Valid() && source == Some(stream) && isStreaming == old(isStreaming)
        invariant socket.state == old(socket.state)
        invariant boxes == boxes0 + RepliesBoxes(events, i)
        invariant socket.sent == sent0 + (if fwd then RepliesFrames(events, i) else [])
        invariant stream.loading.baseMessage == LabelAfter(base0, events, i)
        decreases |events| - i
      {
        var e := events[i];
        if e.Action? && e.action == "close" {
          EndStream();
          return i + 1;
        }
        PassEvent(e);
        Seqs.Assoc(boxes0, RepliesBoxes(events, i), if e.Message? then [AiBoxOf(e.reply)] else []);
        if fwd {
          Seqs.Assoc(sent0, RepliesFrames(events, i), if e.Message? then [Forwarded(e.reply)] else []);
        }
        i := i + 1;
      }
      return i;
    }

    /** An event other than `close` of a stream whose forwarding cannot throw. */
    method PassEvent(e: Event)
      requires Valid() && source.Some? && !(e.Action? && e.action == "close")
      requires !source.value.forward || socket.state != SC.Connecting
      modifies this, source.value.loading, editor, socket
      ensures Valid() && source == old(source) && isStreaming == old(isStreaming) && loading == old(loading)
      ensures socket.state == old(socket.state)
      ensures boxes == old(boxes) + (if e.Message? then [AiBoxOf(e.reply)] else [])
      ensures socket.sent == old(socket.sent) + (if e.Message? && source.value.forward && socket.state == SC.Open then [Forwarded(e.reply)] else [])
      ensures source.value.loading.baseMessage == (if e.Action? && e.action == "set_loading_indicator" then e.message else old(source.value.loading.baseMessage))
    {
      if e.Action? {
        if e.action == "set_loading_indicator" {
          Relabel(e.message);
        }
      } else {
        ShowReply(e.reply);
      }
    }

    /** `onerror` of the open event source: closed but kept, the stream's indicator removed, an error box shown. */
    method OnStreamError(errorId: string)
      requires Valid() && source.Some? && source.value.open
      modifies this, source.value.loading
      ensures Valid()
      ensures source == Some(old(source).value.(open := false)) && !isStreaming
      ensures !source.value.loading.ticking && !source.value.loading.attached
      ensures !inputDisabled && sendShown && !cancelShown
      ensures boxes == old(boxes) + [ErrorBox(errorId)]
      ensures loading == old(loading) && cancelArmed == old(cancelArmed) && pendingCancels == old(pendingCancels)
    {
      var stream := source.value;
      source := Some(stream.(open := false));
      stream.loading.Remove();
      EnableInput();
      isStreaming := false;
      boxes := boxes + [ErrorBox(errorId)];
    }

    /** A click on the cancel button: `cancelStreaming` when it is armed, nothing otherwise. */
    method ClickCancel()
      requires Valid()
      modifies this, socket
      ensures Valid()
      ensures old(cancelArmed) ==>
        && !cancelArmed && !cancelShown && pendingCancels == old(pendingCancels) + 1
        && socket.sent == old(socket.sent) + (if old(socket.state) == SC.Open then [CancelFrame] else [])
      ensures !old(cancelArmed) ==> cancelShown == old(cancelShown) && pendingCancels == old(pendingCancels) && socket.sent == old(socket.sent)
      ensures isStreaming == old(isStreaming) && source == old(source) && boxes == old(boxes) && sendShown == old(sendShown)
      ensures socket.state == old(socket.state)
    {
      if cancelArmed {
        pendingCancels := pendingCancels + 1;
        cancelArmed := false;
        cancelShown := false;
        var threw := socket.Send(CancelFrame);
      }
    }

    /** The answer to a cancel request: `endStream` only when it is `ok`. */
    method CancelAnswered(ok: bool)
      requires Valid() && pendingCancels > 0
      modifies this, attachments, loading
      ensures Valid() && pendingCancels == old(pendingCancels) - 1
      ensures ok ==> !isStreaming && source == None && !inputDisabled && sendShown && !cancelShown
      ensures !ok ==> isStreaming == old(isStreaming) && source == old(source) && sendShown == old(sendShown) && cancelShown == old(cancelShown)
      ensures boxes == old(boxes) && cancelArmed == old(cancelArmed)
    {
      pendingCancels := pendingCancels - 1;
      if ok {
        EndStream();
      }
    }

    /** The answer to `DELETE /api/message/delete/<id>`: on success the first box with the id is removed. */
    method DeleteAnswered(id: string, success: bool)
      modifies this
      ensures boxes == (if success then RemoveFirst(old(boxes), id) else old(boxes))
      ensures isStreaming == old(isStreaming) && source == old(source) && loading == old(loading)
      ensures inputDisabled == old(inputDisabled) && sendShown == old(sendShown) && cancelShown == old(cancelShown)
      ensures cancelArmed == old(cancelArmed) && pendingCancels == old(pendingCancels)
    {
      if success {
        boxes := RemoveFirst(boxes, id);
      }
    }

    /** `onopen` of the companion socket: the timer is cleared and the boxes are replayed. */
    method OnSocketOpen(parse: string -> seq<Node>, html: Node -> string)
      requires Valid() && socket.state == SC.Connecting
      modifies socket, socket.timer
      ensures Valid() && socket.state == SC.Open
      ensures socket.sent == old(socket.sent) + SC.Replay(NodesOf(boxes, parse), html)
    {
      socket.OnOpen(NodesOf(boxes, parse), html);
    }

    /** `onmessage` of the companion socket: a `user_message` fills the box and the workspace and is sent. */
    method OnSocketMessage(parsed: Option<SC.Inbound>, id: string, attempt: nat -> FR.Attempt<()>) returns (started: bool)
      requires Valid()
      modifies this, input, editor
      ensures Valid()
      ensures SC.UserMessage(parsed).None? ==>
        && !started && boxes == old(boxes) && isStreaming == old(isStreaming)
        && source == old(source) && input.value == old(input.value) && editor.value == old(editor.value)
      ensures SC.UserMessage(parsed).Some? ==>
        var m := parsed.value;
        && input.value == m.message
        && editor.value == m.workspaceContent
        && editor.mode == WS.WorkspaceLanguage(m.workspaceLanguage, editor.options).1
        && (started <==> !FR.Retry(attempt, 0, StartRetries).Threw?)
        && boxes == old(boxes) + UserBoxes(m.message, id, m.workspaceContent, editor.mode)
        && (started ==> isStreaming && loading != null && source == Some(Stream(true, false, loading)))
    {
      started := false;
      if parsed.Some? && parsed.value.action == "user_message" {
        var m := parsed.value;
        input.value := m.message;
        editor.SetWorkspace(m.workspaceContent, m.workspaceLanguage);
        started := SendMessage(m.message, id, false, attempt);
      }
    }
  }

  /** The start request fails exactly when all three tries are rejected; it never settles to `undefined`. */
  lemma StartFails(attempt: nat -> FR.Attempt<()>)
    ensures FR.Retry(attempt, 0, StartRetries).Threw? <==> forall j :: 0 <= j < StartRetries ==> attempt(j).Rejected?
    ensures !FR.Retry(attempt, 0, StartRetries).Undefined?
  {
    FR.RetryMeaning(attempt, 0, StartRetries);
  }
}
