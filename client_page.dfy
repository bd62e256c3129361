/**
 * The oldest single-shot chat client (`static/client.js`). The start
 * button reveals the chat and sends an empty message; the send button
 * (enabled from three typed characters on, and clicked by Enter) sends the
 * box's text unless the conversation has finished. A turn shows the
 * message (when non-empty) and a typing line, disables the input and posts
 * once. A reply with an error, or a failed post, replaces the conversation
 * with an error line; any other reply appends the assistant's line, and a
 * reply that ends with `<FINISHED>` finishes the conversation for good and
 * hides the input.
 *
 * The network and `res.json()` are oracles: each turn's post settles to
 * what the caller passes, its body parsed or not; an error is the text
 * `String(e)` gives.
 */
module ClientPage {
  import opened Wrappers
  import opened Strings
  import FR = FetchRetry

  /** The marker that finishes the conversation. */
  const Finished: string := "<FINISHED>"

  /** What `res.json()` settles to: the reply, or a rejection. */
  datatype Body = Parsed(reply: Reply) | Unparsable(error: string)

  /** A reply of `/api`: `error` is `None` when absent. */
  datatype Reply = Reply(error: Option<string>, response: string)

  /** The form fields the page reads at send time. */
  datatype Form = Form(name: string, studentNr: string, course: string, chapter: string)

  /** The body of a post: the message, the session and the form. */
  datatype Request = Request(message: string, sessionId: string, form: Form)

  /** A child of the response area. */
  datatype Line = UserLine(text: string) | Typing(text: string) | AiText(text: string) | Notice(text: string)

  /** The typing line, its ellipsis as the character it is meant to be. */
  function TypingLabel(aiName: string): string
  {
    aiName + " is typing …"
  }

  /** The typing line as the source writes it: the ellipsis's UTF-8 bytes read as cp1252. */
  function TypingLabelAsWritten(aiName: string): string
  {
    aiName + " is typing â€¦"
  }

  /** For every assistant name the written label shows three stray characters where the ellipsis belongs. */
  lemma TypingMojibake(aiName: string)
    ensures TypingLabelAsWritten(aiName) != TypingLabel(aiName)
    ensures |TypingLabelAsWritten(aiName)| == |TypingLabel(aiName)| + 2
  {
    var k := |aiName| + 11;
    assert TypingLabel(aiName)[k] == '…';
    assert TypingLabelAsWritten(aiName)[k] == 'â';
  }

  /** The line for the user's message: none for an empty one. */
  function UserLines(message: string): seq<Line>
  {
    if message != "" then [UserLine("You: " + message)] else []
  }

  /** The reply a settled post delivers: none when the post failed or its body did not parse. */
  function ReplyOf(a: FR.Attempt<Body>): Option<Reply>
  {
    if a.Resolved? && a.response.Parsed? then Some(a.response.reply) else None
  }

  /** The error text of a failed post, or of a body that did not parse. */
  function FailureOf(a: FR.Attempt<Body>): string
  {
    "Error: " + (if a.Rejected? then a.error else if a.response.Unparsable? then a.response.error else "")
  }

  /** Whether a settled post finishes the conversation: a reply without an error whose response ends with the marker. */
  predicate Finishes(a: FR.Attempt<Body>)
  {
    ReplyOf(a).Some? && !Truthy(ReplyOf(a).value.error) && EndsWith(ReplyOf(a).value.response, Finished)
  }

  predicate Truthy(s: Option<string>)
  {
    s.Some? && s.value != ""
  }

  class Page {
    const aiName: string
    /** `sessionId`, drawn at load. */
    const sessionId: string
    /** The text of `#message`, and whether it is disabled and displayed. */
    var value: string
    var inputDisabled: bool
    var messageShown: bool
    /** `#send`: disabled, displayed. */
    var sendDisabled: bool
    var sendShown: bool
    /** The start button, its info, the message box and the response area: displayed. */
    var startShown: bool
    var startInfoShown: bool
    var messageBoxShown: bool
    var responseShown: bool
    var conversationFinished: bool
    var form: Form
    /** The children of `#response`. */
    var lines: seq<Line>
    /** Every body posted, in order. */
    var posts: seq<Request>

    /** A finished conversation has its input hidden. */
    predicate Valid()
      reads this
    {
      conversationFinished ==> !messageShown && !sendShown
    }

    /** `window.onload`: the message box and the response area hidden, the start button shown. */
    constructor (aiName: string, sessionId: string, form: Form, sendDisabled: bool)
      ensures Valid() && this.aiName == aiName && this.sessionId == sessionId && this.form == form
      ensures !conversationFinished && lines == [] && posts == [] && value == "" && this.sendDisabled == sendDisabled
      ensures startShown && startInfoShown && !messageBoxShown && !responseShown && messageShown && sendShown && !inputDisabled
    {
      this.aiName := aiName;
      this.sessionId := sessionId;
      this.form := form;
      value := "";
      inputDisabled := false;
      messageShown := true;
      this.sendDisabled := sendDisabled;
      sendShown := true;
      startShown := true;
      startInfoShown := true;
      messageBoxShown := false;
      responseShown := false;
      conversationFinished := false;
      lines := [];
      posts := [];
    }

    /** Typing into the enabled box: the send button is enabled from three characters on. */
    method Input(typed: string)
      requires !inputDisabled
      modifies this
      ensures value == typed && (sendDisabled <==> |typed| < 3)
      ensures conversationFinished == old(conversationFinished) && lines == old(lines) && posts == old(posts)
      ensures messageShown == old(messageShown) && sendShown == old(sendShown) && inputDisabled == old(inputDisabled)
    {
      value := typed;
      sendDisabled := |typed| < 3;
    }

    /** The part of `sendMessage` before the post. */
    method Begin(message: string)
      modifies this
      ensures lines == old(lines) + UserLines(message) + [Typing(TypingLabel(aiName))]
      ensures inputDisabled && sendDisabled && posts == old(posts) + [Request(message, sessionId, form)]
      ensures value == old(value) && form == old(form) && conversationFinished == old(conversationFinished)
      ensures messageShown == old(messageShown) && sendShown == old(sendShown)
      ensures startShown == old(startShown) && startInfoShown == old(startInfoShown)
      ensures messageBoxShown == old(messageBoxShown) && responseShown == old(responseShown)
    {
      lines := lines + UserLines(message) + [Typing(TypingLabel(aiName))];
      inputDisabled := true;
      sendDisabled := true;
      posts := posts + [Request(message, sessionId, form)];
    }

    /**
     * The part of `sendMessage` after the post, with what it settled to.
     * A reply takes the typing line out and enables the input again; its
     * error then replaces the conversation with the error line, and
     * otherwise the assistant's line is appended and a response ending with
     * the marker finishes the conversation. A failed post, or a body that
     * does not parse, replaces the conversation with the error and leaves
     * the input disabled.
     */
    method Settle(a: FR.Attempt<Body>)
      requires Valid() && |lines| > 0 && lines[|lines| - 1].Typing?
      modifies this
      ensures Valid()
      ensures conversationFinished == (old(conversationFinished) || Finishes(a))
      ensures sendDisabled == old(sendDisabled) && value == old(value) && posts == old(posts) && form == old(form)
      ensures startShown == old(startShown) && startInfoShown == old(startInfoShown)
      ensures messageBoxShown == old(messageBoxShown) && responseShown == old(responseShown)
      ensures ReplyOf(a).None? ==>
        && lines == [Notice(FailureOf(a))] && inputDisabled == old(inputDisabled)
        && messageShown == old(messageShown) && sendShown == old(sendShown)
      ensures ReplyOf(a).Some? && Truthy(ReplyOf(a).value.error) ==>
        && lines == [Notice("Error: " + ReplyOf(a).value.error.value)] && !inputDisabled
        && messageShown == old(messageShown) && sendShown == old(sendShown)
      ensures ReplyOf(a).Some? && !Truthy(ReplyOf(a).value.error) ==>
        && lines == old(lines)[..|old(lines)| - 1] + [AiText(aiName + ": " + ReplyOf(a).value.response)]
        && !inputDisabled
        && messageShown == (old(messageShown) && !Finishes(a))
        && sendShown == (old(sendShown) && !Finishes(a))
    {
      if ReplyOf(a).None? {
        lines := [Notice(FailureOf(a))];
        return;
      }
      var r := ReplyOf(a).value;
      lines := lines[..|lines| - 1];
      inputDisabled := false;
      if Truthy(r.error) {
        lines := [Notice("Error: " + r.error.value)];
        return;
      }
      lines := lines + [AiText(aiName + ": " + r.response)];
      if EndsWith(r.response, Finished) {
        conversationFinished := true;
        messageShown := false;
        sendShown := false;
      }
    }

    /** `sendMessage`: one post, then the reaction to what it settled to. */
    method SendMessage(message: string, a: FR.Attempt<Body>)
      requires Valid()
      modifies this
      ensures Valid()
      ensures posts == old(posts) + [Request(message, sessionId, form)]
      ensures conversationFinished == (old(conversationFinished) || Finishes(a))
      ensures sendDisabled && value == old(value) && form == old(form)
      ensures startShown == old(startShown) && startInfoShown == old(startInfoShown)
      ensures messageBoxShown == old(messageBoxShown) && responseShown == old(responseShown)
      ensures ReplyOf(a).None? ==> lines == [Notice(FailureOf(a))] && inputDisabled
      ensures ReplyOf(a).Some? && Truthy(ReplyOf(a).value.error) ==>
        lines == [Notice("Error: " + ReplyOf(a).value.error.value)] && !inputDisabled
      ensures ReplyOf(a).Some? && !Truthy(ReplyOf(a).value.error) ==>
        && lines == old(lines) + UserLines(message) + [AiText(aiName + ": " + ReplyOf(a).value.response)]
        && !inputDisabled
    {
      Begin(message);
      ghost var shown := lines;
      assert shown[..|shown| - 1] == old(lines) + UserLines(message);
      Settle(a);
    }

    /** The start button: the chat is revealed and an empty message opens the conversation. */
    method Start(a: FR.Attempt<Body>)
      requires Valid() && startShown
      modifies this
      ensures Valid() && !startShown && !startInfoShown && messageBoxShown && responseShown
      ensures posts == old(posts) + [Request("", sessionId, form)]
      ensures conversationFinished == (old(conversationFinished) || Finishes(a))
    {
      startShown := false;
      startInfoShown := false;
      messageBoxShown := true;
      responseShown := true;
      SendMessage("", a);
    }

    /**
     * A click on the send button: the box is emptied, and the message is
     * sent only while the conversation has not finished; after that a
     * click posts nothing and changes nothing else.
     */
    method ClickSend(a: FR.Attempt<Body>) returns (message: string)
      requires Valid() && !sendDisabled
      modifies this
      ensures Valid() && message == old(value) && value == ""
      ensures old(conversationFinished) ==>
        && posts == old(posts) && lines == old(lines) && conversationFinished
        && sendDisabled == old(sendDisabled) && inputDisabled == old(inputDisabled)
      ensures !old(conversationFinished) ==>
        && posts == old(posts) + [Request(message, sessionId, form)]
        && conversationFinished == Finishes(a)
    {
      message := value;
      value := "";
      if !conversationFinished {
        SendMessage(message, a);
      }
    }

    /** A `keydown`: Enter, with or without Shift, clicks the send button when it is enabled. */
    method KeyDown(key: string, a: FR.Attempt<Body>) returns (sent: Option<string>)
      requires Valid()
      modifies this
      ensures Valid()
      ensures key == "Enter" && !old(sendDisabled) ==> sent == Some(old(value)) && value == ""
      ensures !(key == "Enter" && !old(sendDisabled)) ==>
        && sent == None && value == old(value) && posts == old(posts) && lines == old(lines)
        && conversationFinished == old(conversationFinished)
      ensures old(conversationFinished) ==> posts == old(posts) && lines == old(lines)
    {
      sent := None;
      if key == "Enter" && !sendDisabled {
        var message := ClickSend(a);
        sent := Some(message);
      }
    }
  }
}
