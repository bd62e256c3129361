/**
 * The chat turn of heymans' legacy page (`heymans/templates/main.js`).
 * Sending hides the example queries (for a non-empty message) and the
 * greeting, blanks the counter, shows the message (when non-empty) and
 * the loading indicator, disables the input and posts the message with up
 * to three tries. A reply with an error, or a post that fails, replaces the
 * whole conversation with one error line; any other reply appends an AI
 * box with its timestamp, answer model and every non-empty source URL. A
 * reply that contains `<FINISHED>`, `<REPORTED>` or `<TOO_LONG>` hides the
 * message box and the counter, and the first two also mark the page body.
 *
 * The network and `res.json()` are oracles: `attempt(i)` is what the
 * `i`-th post settles to, its body parsed or not. Scrolling is left out.
 */
module HeymansPage {
  import opened Wrappers
  import opened Strings
  import FR = FetchRetry
  import CI = ChatInput
  import LI = LoadingIndicator
  import CP = ChatPage

  /** `fetchWithRetry`'s default number of tries. */
  const Retries: int := 3

  /** What the loading indicator says, after the assistant's name. */
  const SearchingSuffix: string := " is searching, thinking, and typing "

  /** The text that replaces the conversation when a turn fails. */
  const TurnError: string := "Heymans: An error occurred, sorry! Please restart the conversation and try again."

  /** What `res.json()` settles to: the reply, or a rejection. */
  datatype Body = Parsed(reply: Reply) | Unparsable(error: string)

  /** A reply of `/api/chat`: `error` is `None` when absent. */
  datatype Reply = Reply(error: Option<string>, response: string, timestamp: string, answerModel: string, sources: seq<CP.SourceRef>)

  /** The body `requestBody` builds. */
  datatype Request = Request(message: string, sessionId: string)

  /** A child of the response area: a user line, an AI box, or the text an `innerText` assignment leaves. */
  datatype Line =
    | UserLine(text: string)
    | AiLine(html: string, timestamp: string, answerModel: string, links: Option<seq<string>>)
    | Notice(text: string)

  /** Whether a reply ends the conversation on the page: the input is hidden. */
  predicate Closes(response: string)
  {
    Contains(response, "<FINISHED>") || Contains(response, "<REPORTED>") || Contains(response, "<TOO_LONG>")
  }

  /** The class added to the page body: `body-finished` before `body-reported`. */
  function BodyMark(response: string): (r: Option<string>)
    ensures r == Some("body-finished") <==> Contains(response, "<FINISHED>")
    ensures r == Some("body-reported") <==> !Contains(response, "<FINISHED>") && Contains(response, "<REPORTED>")
    ensures r.Some? ==> Closes(response)
  {
    if Contains(response, "<FINISHED>") then Some("body-finished")
    else if Contains(response, "<REPORTED>") then Some("body-reported")
    else None
  }

  /** The marks a reply adds to the page body. */
  function MarkSet(response: string): set<string>
  {
    if BodyMark(response).Some? then {BodyMark(response).value} else {}
  }

  /** The reply a settled post delivers: none when the post failed or its body did not parse. */
  function ReplyOf(out: FR.Outcome<Body>): Option<Reply>
  {
    if out.Response? && out.response.Parsed? then Some(out.response.reply) else None
  }

  /** The number of sources with a non-empty URL among the first `k`. */
  function TruthyCount(sources: seq<CP.SourceRef>, k: nat): nat
    requires k <= |sources|
  {
    if k == 0 then 0 else TruthyCount(sources, k - 1) + (if CP.Truthy(sources[k - 1].url) then 1 else 0)
  }

  /** The links of an AI box: every non-empty URL, repeats included, or no sources div at all. */
  function LinksOf(sources: seq<CP.SourceRef>): Option<seq<string>>
  {
    var urls := CP.TruthyUrls(sources, |sources|);
    if urls == [] then None else Some(urls)
  }

  /** There is one link per source with a non-empty URL, in order: nothing is de-duplicated. */
  lemma {:induction false} TruthyUrlsCount(sources: seq<CP.SourceRef>, k: nat)
    requires k <= |sources|
    ensures |CP.TruthyUrls(sources, k)| == TruthyCount(sources, k)
  {
    if k > 0 {
      TruthyUrlsCount(sources, k - 1);
    }
  }

  /**
   * The sources div is left out exactly when no source has a non-empty
   * URL; otherwise it lists one link for every such source, so a URL that
   * two sources share is listed twice.
   */
  lemma LinksMeaning(sources: seq<CP.SourceRef>)
    ensures LinksOf(sources).None? <==> TruthyCount(sources, |sources|) == 0
    ensures LinksOf(sources).Some? ==>
      && |LinksOf(sources).value| == TruthyCount(sources, |sources|)
      && forall u :: u in LinksOf(sources).value <==> exists j :: 0 <= j < |sources| && CP.Truthy(sources[j].url) && sources[j].url.value == u
  {
    TruthyUrlsCount(sources, |sources|);
  }

  /** The box appended for a reply without an error. */
  function AiLineOf(r: Reply): Line
  {
    AiLine(r.response, r.timestamp, r.answerModel, LinksOf(r.sources))
  }

  /** The line appended for the user's message: none for an empty message. */
  function UserLines(message: string): seq<Line>
  {
    if message != "" then [UserLine("You: " + message)] else []
  }

  class Page {
    const aiName: string
    /** `sessionId`, drawn at load. */
    const sessionId: string
    /** Whether the page has an `#example-queries` element. */
    const hasExamples: bool
    const input: CI.MessageInput
    /** The children of `#response`. */
    var lines: seq<Line>
    /** Whether the example queries and the `#user-message` greeting are displayed. */
    var examplesShown: bool
    var greetingShown: bool
    /** Whether `#message-box` and the counter are displayed. */
    var messageBoxShown: bool
    var counterShown: bool
    /** `messageInput.disabled`. */
    var inputDisabled: bool
    /** The classes added to the page body. */
    var bodyClasses: set<string>
    /** The indicator of the latest turn. */
    var loading: LI.Indicator?
    /** The bodies posted, one per turn (each tried up to three times). */
    var posts: seq<Request>

    /** The send button follows the input, examples exist only when the page has them, and no timer outlives its turn. */
    predicate Valid()
      reads this, input, loading
    {
      && input.gateSend
      && (examplesShown ==> hasExamples)
      && (loading != null ==> !loading.ticking && !loading.attached)
    }

    /** `globalElements` and `initMain`: the counter is updated once. */
    constructor (aiName: string, sessionId: string, hasExamples: bool, maxLength: int, text: string, sendDisabled: bool)
      ensures Valid() && fresh(input)
      ensures this.aiName == aiName && this.sessionId == sessionId && this.hasExamples == hasExamples
      ensures input.maxLength == maxLength && input.value == CI.Bounded(text, maxLength)
      ensures input.counterText == CI.CounterText(|text|, maxLength) && input.sendDisabled == sendDisabled
      ensures lines == [] && posts == [] && loading == null && bodyClasses == {}
      ensures examplesShown == hasExamples && greetingShown && messageBoxShown && counterShown && !inputDisabled
    {
      this.aiName := aiName;
      this.sessionId := sessionId;
      this.hasExamples := hasExamples;
      input := new CI.MessageInput(maxLength, true, text, sendDisabled);
      lines := [];
      examplesShown := hasExamples;
      greetingShown := true;
      messageBoxShown := true;
      counterShown := true;
      inputDisabled := false;
      bodyClasses := {};
      loading := null;
      posts := [];
    }

    /** Typing into the enabled box: the counter, then the send button (enabled from three characters on). */
    method Input(typed: string)
      requires Valid() && !inputDisabled
      modifies input
      ensures Valid()
      ensures input.value == CI.Bounded(typed, input.maxLength)
      ensures input.counterText == CI.CounterText(|typed|, input.maxLength)
      ensures input.sendDisabled <==> |input.value| < 3
    {
      input.Input(typed);
    }

    /** The part of `sendMessage` before the post: what the page shows while it waits. */
    method Begin(message: string) returns (indicator: LI.Indicator)
      requires Valid()
      modifies this, input
      ensures fresh(indicator) && indicator.baseMessage == aiName + SearchingSuffix
      ensures indicator.ticking && indicator.attached && loading == old(loading)
      ensures lines == old(lines) + UserLines(message)
      ensures examplesShown == (old(examplesShown) && message == "") && !greetingShown
      ensures input.counterText == "" && input.sendDisabled && inputDisabled
      ensures input.value == old(input.value)
      ensures posts == old(posts) + [Request(message, sessionId)]
      ensures messageBoxShown == old(messageBoxShown) && counterShown == old(counterShown) && bodyClasses == old(bodyClasses)
    {
      if message != "" && hasExamples {
        examplesShown := false;
      }
      greetingShown := false;
      input.counterText := "";
      lines := lines + UserLines(message);
      indicator := new LI.Indicator(aiName + SearchingSuffix);
      inputDisabled := true;
      input.sendDisabled := true;
      posts := posts + [Request(message, sessionId)];
    }

    /**
     * The part of `sendMessage` after the post, with what it settled to.
     * When it failed or its body did not parse, the conversation is
     * replaced by the error line and the function then throws reading
     * `data.error` of `undefined`; a reply with an error replaces it too;
     * any other reply appends its AI box, and the function then throws
     * calling the misspelt `window.scrollT`, after every change has been
     * made. On every path the indicator is gone, its timer cleared, and the
     * input enabled.
     */
    method Settle(out: FR.Outcome<Body>) returns (rejected: bool)
      requires loading != null
      modifies this, loading
      ensures loading == old(loading) && !loading.ticking && !loading.attached && !inputDisabled
      ensures loading.baseMessage == old(loading.baseMessage)
      ensures examplesShown == old(examplesShown) && greetingShown == old(greetingShown) && posts == old(posts)
      ensures ReplyOf(out).None? ==>
        && lines == [Notice(TurnError)] && rejected
        && messageBoxShown == old(messageBoxShown) && counterShown == old(counterShown) && bodyClasses == old(bodyClasses)
      ensures ReplyOf(out).Some? && CP.Truthy(ReplyOf(out).value.error) ==>
        && lines == [Notice(TurnError)] && !rejected
        && messageBoxShown == old(messageBoxShown) && counterShown == old(counterShown) && bodyClasses == old(bodyClasses)
      ensures ReplyOf(out).Some? && !CP.Truthy(ReplyOf(out).value.error) ==>
        var r := ReplyOf(out).value;
        && lines == old(lines) + [AiLineOf(r)] && rejected
        && messageBoxShown == (old(messageBoxShown) && !Closes(r.response))
        && counterShown == (old(counterShown) && !Closes(r.response))
        && bodyClasses == old(bodyClasses) + MarkSet(r.response)
    {
      if ReplyOf(out).None? {
        lines := [Notice(TurnError)];
        loading.Remove();
        inputDisabled := false;
        return true;
      }
      loading.Remove();
      inputDisabled := false;
      var r := ReplyOf(out).value;
      if CP.Truthy(r.error) {
        lines := [Notice(TurnError)];
        return false;
      }
      if Closes(r.response) {
        messageBoxShown := false;
        counterShown := false;
      }
      lines := lines + [AiLineOf(r)];
      var mark := BodyMark(r.response);
      if mark.Some? {
        bodyClasses := bodyClasses + {mark.value};
      }
      rejected := true;
    }

    /**
     * `sendMessage`: what the page shows while it waits, then the post
     * with up to three tries, then the reaction to what it settled to. The
     * send button stays disabled until the next input event.
     */
    method SendMessage(message: string, attempt: nat -> FR.Attempt<Body>) returns (rejected: bool)
      requires Valid()
      modifies this, input
      ensures Valid()
      ensures fresh(loading) && loading.baseMessage == aiName + SearchingSuffix
      ensures examplesShown == (old(examplesShown) && message == "") && !greetingShown
      ensures input.counterText == "" && input.sendDisabled && !inputDisabled && input.value == old(input.value)
      ensures posts == old(posts) + [Request(message, sessionId)]
      ensures var out := ReplyOf(FR.Retry(attempt, 0, Retries));
        && (out.None? ==>
          && lines == [Notice(TurnError)] && rejected
          && messageBoxShown == old(messageBoxShown) && counterShown == old(counterShown) && bodyClasses == old(bodyClasses))
        && (out.Some? && CP.Truthy(out.value.error) ==>
          && lines == [Notice(TurnError)] && !rejected
          && messageBoxShown == old(messageBoxShown) && counterShown == old(counterShown) && bodyClasses == old(bodyClasses))
        && (out.Some? && !CP.Truthy(out.value.error) ==>
          && lines == old(lines) + UserLines(message) + [AiLineOf(out.value)] && rejected
          && messageBoxShown == (old(messageBoxShown) && !Closes(out.value.response))
          && counterShown == (old(counterShown) && !Closes(out.value.response))
          && bodyClasses == old(bodyClasses) + MarkSet(out.value.response))
    {
      var indicator := Begin(message);
      loading := indicator;
      var out, calls := FR.FetchWithRetry(attempt, Retries);
      rejected := Settle(out);
    }

    /** A click on the send button: the box's text is taken out and sent. */
    method ClickSend(attempt: nat -> FR.Attempt<Body>) returns (message: string, rejected: bool)
      requires Valid() && !input.sendDisabled
      modifies this, input
      ensures Valid() && message == old(input.value) && input.value == ""
      ensures posts == old(posts) + [Request(message, sessionId)]
      ensures input.sendDisabled && !inputDisabled
    {
      message := input.Click();
      rejected := SendMessage(message, attempt);
    }

    /** A `keydown`: Enter without Shift clicks the send button when it is enabled; any other key sends nothing. */
    method KeyDown(key: string, shift: bool, attempt: nat -> FR.Attempt<Body>) returns (sent: Option<string>)
      requires Valid()
      modifies this, input
      ensures Valid()
      ensures CI.EnterClicks(key, shift, old(input.sendDisabled)) ==>
        && sent == Some(old(input.value)) && input.value == "" && posts == old(posts) + [Request(sent.value, sessionId)]
      ensures !CI.EnterClicks(key, shift, old(input.sendDisabled)) ==>
        && sent == None && input.value == old(input.value) && posts == old(posts) && lines == old(lines)
    {
      sent := input.KeyDown(key, shift);
      if sent.Some? {
        var rejected := SendMessage(sent.value, attempt);
      }
    }
  }
}
