/**
 * The conversation of sigmund: the full message history with its metadata,
 * the condensed history that the prompt is built from, the summary of the
 * condensed-away start of the conversation, and the conversation title.
 *
 * What the class reads from outside is given to its methods: the clock, the
 * documentation and the configured models (a `Context`), the ids `uuid4`
 * hands out, and the language model that writes the summary and the title.
 * The prompt templates and the configuration are constants of the object.
 */
module SigmundMessages {
  import opened Wrappers
  import opened Strings
  import MaskedElements
  import PyLists

  datatype Metadata = Metadata(
    messageId: Option<string>,
    workspaceContent: Option<string>,
    workspaceLanguage: Option<string>,
    timestamp: string,
    sources: string,
    condenseModel: string,
    answerModel: string)

  /** A `[role, message, metadata]` entry of the message history. */
  datatype Entry = Entry(role: string, message: string, metadata: Metadata)

  /** A `[role, content]` entry of the condensed history. */
  datatype Pair = Pair(role: string, content: string)

  /** What `metadata` reads: the current time, the documentation as JSON, and the condense and answer models. */
  datatype Context = Context(timestamp: string, sources: string, condenseModel: string, answerModel: string)

  datatype Config = Config(maxPromptLength: nat, condenseChunkLength: nat, defaultTitle: string, welcomeMessage: string)

  /** The prompt templates, each already bound to its template text. */
  datatype Templates = Templates(
    identity: string,
    condensed: string -> string,
    workspace: (string, Option<string>) -> string,
    condenseHistory: string -> string,
    titlePrompt: string)

  /** What the system prompt reads from the documentation: its length and its prompt. */
  datatype Docs = Docs(length: nat, prompt: string)

  datatype PromptMessage =
    | SystemMessage(content: string)
    | AIMessage(content: string)
    | HumanMessage(content: string)
    | FunctionMessage(content: string, name: string)

  /** A conversation as the database hands it back, or the decryption error. */
  datatype Stored =
    | InvalidToken
    | Conversation(title: string, history: seq<Entry>, condensedText: Option<string>, condensed: seq<Pair>)

  /** Python truthiness of an optional string. */
  predicate Truthy(s: Option<string>)
  {
    s.Some? && s.value != []
  }

  /** `metadata(...)`: the given message id, or a fresh one when none is given. */
  function MakeMetadata(ctx: Context, wc: Option<string>, wl: Option<string>, messageId: Option<string>, newId: string): (m: Metadata)
    ensures m.messageId.Some?
    ensures messageId.Some? ==> m.messageId == messageId
    ensures messageId.None? ==> m.messageId == Some(newId)
    ensures m.workspaceContent == wc && m.workspaceLanguage == wl
  {
    Metadata(Some(messageId.UnwrapOr(newId)), wc, wl, ctx.timestamp, ctx.sources, ctx.condenseModel, ctx.answerModel)
  }

  // ---------------------------------------------------------------------------
  // The system prompt

  /** The chunks that are not blank, in order. */
  function NonBlank(chunks: seq<string>): (r: seq<string>)
    ensures forall i :: 0 <= i < |r| ==> Strip(r[i]) != []
    ensures forall c :: c in r <==> c in chunks && Strip(c) != []
    decreases |chunks|
  {
    if chunks == [] then []
    else
      var rest := NonBlank(chunks[..|chunks| - 1]);
      var last := chunks[|chunks| - 1];
      assert forall c :: c in chunks <==> c in chunks[..|chunks| - 1] || c == last;
      if Strip(last) != [] then rest + [last] else rest
  }

  /** The identity, the documentation when there is any, and the summary when there is one. */
  function Chunks(t: Templates, docs: Docs, condensedText: Option<string>): seq<string>
  {
    [t.identity]
    + (if docs.length > 0 then [docs.prompt] else [])
    + (if Truthy(condensedText) then [t.condensed(condensedText.value)] else [])
  }

  /** `_system_prompt`: the non-blank chunks joined by blank lines. */
  function SystemPrompt(t: Templates, docs: Docs, condensedText: Option<string>): string
  {
    Join(NonBlank(Chunks(t, docs, condensedText)), "\n\n")
  }

  // ---------------------------------------------------------------------------
  // The prompt

  datatype Role = Assistant | User | Tool | Unknown

  /** The roles `prompt` knows. */
  function RoleOf(role: string): Role
  {
    if role == "assistant" then Assistant
    else if role == "user" then User
    else if role == "tool" then Tool
    else Unknown
  }

  predicate KnownRole(role: string)
  {
    RoleOf(role) != Unknown
  }

  /**
   * The message the entry at `i` of the (masked) condensed history becomes;
   * the last entry, when it is the user's, is prefixed with the workspace when
   * there is one. An unknown role gives none.
   */
  function PromptAt(ms: seq<Pair>, i: nat, t: Templates, wc: Option<string>, wl: Option<string>): (r: Option<PromptMessage>)
    requires i < |ms|
    ensures r.Some? <==> KnownRole(ms[i].role)
  {
    var content := ms[i].content;
    match RoleOf(ms[i].role)
    case Assistant => Some(AIMessage(content))
    case User => Some(HumanMessage(if Truthy(wc) && i == |ms| - 1 then t.workspace(wc.value, wl) + content else content))
    case Tool => Some(FunctionMessage(content, "tool_function"))
    case Unknown => None
  }

  /** The first of the first `n` entries whose role is unknown. */
  function FirstInvalid(cs: seq<Pair>, n: nat): (r: Option<nat>)
    requires n <= |cs|
    ensures r.None? ==> forall j :: 0 <= j < n ==> KnownRole(cs[j].role)
    ensures r.Some? ==> r.value < n && !KnownRole(cs[r.value].role) && forall j :: 0 <= j < r.value ==> KnownRole(cs[j].role)
  {
    if n == 0 then None
    else match FirstInvalid(cs, n - 1)
      case Some(k) => Some(k)
      case None => if KnownRole(cs[n - 1].role) then None else Some(n - 1)
  }

  /**
   * `prompt(system_prompt)` over the condensed history `cs` with its masked
   * elements removed: the system message, then one message per entry;
   * ValueError at the first unknown role.
   */
  function PromptSpec(cs: seq<Pair>, systemPrompt: string, t: Templates, wc: Option<string>, wl: Option<string>): Result<seq<PromptMessage>>
  {
    match FirstInvalid(cs, |cs|)
    case Some(k) => Err(ValueError("Invalid role: " + cs[k].role))
    case None => Ok([SystemMessage(systemPrompt)] + seq(|cs|, i requires 0 <= i < |cs| => PromptAt(cs, i, t, wc, wl).value))
  }

  // ---------------------------------------------------------------------------
  // Visible messages

  /** The entries `visible_messages` yields: no tool messages and no blank messages. */
  predicate Shown(e: Entry)
  {
    e.role != "tool" && Strip(e.message) != []
  }

  function Visible(h: seq<Entry>): seq<Entry>
    decreases |h|
  {
    if h == [] then []
    else Visible(h[..|h| - 1]) + (if Shown(h[|h| - 1]) then [h[|h| - 1]] else [])
  }

  // ---------------------------------------------------------------------------
  // Condensing the history

  function MaskedPair(p: Pair): Pair
  {
    Pair(p.role, MaskedElements.RemoveMaskedElements(p.content))
  }

  /**
   * The condensed history with the masked elements of every content removed,
   * as `prompt` and the condensing loop see it. The masking is a pure
   * function, so computing it for every entry at once changes nothing.
   */
  function MaskedPairs(cs: seq<Pair>): (ms: seq<Pair>)
    ensures |ms| == |cs|
  {
    seq(|cs|, i requires 0 <= i < |cs| => MaskedPair(cs[i]))
  }

  /** The total length of the contents. */
  function TotalLength(ms: seq<Pair>): nat
    decreases |ms|
  {
    if ms == [] then 0 else TotalLength(ms[..|ms| - 1]) + |ms[|ms| - 1].content|
  }

  /** Lengths add up over concatenation. */
  lemma {:induction false} TotalLengthAppend(a: seq<Pair>, b: seq<Pair>)
    ensures TotalLength(a + b) == TotalLength(a) + TotalLength(b)
    decreases |b|
  {
    if b == [] {
      assert a + b == a;
    } else {
      var b' := b[..|b| - 1];
      TotalLengthAppend(a, b');
      assert (a + b)[..|a + b| - 1] == a + b';
      assert (a + b)[|a + b| - 1] == b[|b| - 1];
    }
  }

  /**
   * How many entries the condensing loop pops from the front, having popped
   * `k` of them with `acc` characters: it goes on while it has fewer than
   * `chunk` characters and more than two entries are left.
   */
  function PopCount(ms: seq<Pair>, chunk: nat, k: nat, acc: nat): (p: nat)
    requires k <= |ms|
    ensures k <= p <= |ms|
    decreases |ms| - k
  {
    if acc < chunk && |ms| - k > 2 then PopCount(ms, chunk, k + 1, acc + |ms[k].content|)
    else k
  }

  function Popped(ms: seq<Pair>, chunk: nat): (p: nat)
    ensures p <= |ms|
  {
    PopCount(ms, chunk, 0, 0)
  }

  /** The first `k` entries, the latest first: the list `insert(0, ...)` builds. */
  function Collected(ms: seq<Pair>, k: nat): seq<Pair>
    requires k <= |ms|
  {
    seq(k, i requires 0 <= i < k => ms[k - 1 - i])
  }

  /** A line of the history to be summarised: the assistant's as 'You said', everyone else's as 'User said'. */
  function HistoryLine(p: Pair): string
  {
    if p.role == "assistant" then "You said: " + p.content else "User said: " + p.content
  }

  /** The same line as the source writes it, which tests for a 'system' role. */
  function HistoryLineAsWritten(p: Pair): string
  {
    if p.role == "system" then "You said: " + p.content else "User said: " + p.content
  }

  function HistoryText(ps: seq<Pair>): string
  {
    Concat(seq(|ps|, i requires 0 <= i < |ps| => HistoryLine(ps[i])))
  }

  /**
   * `_condense_message_history`: nothing when the masked history fits in
   * `max_prompt_length`; otherwise the popped entries are summarised by the
   * condense model and the summary replaces the condensed text.
   */
  function CondenseResult(config: Config, t: Templates, cs: seq<Pair>, text: Option<string>, summarise: string -> string): (seq<Pair>, Option<string>)
  {
    var ms := MaskedPairs(cs);
    if TotalLength(ms) <= config.maxPromptLength then (cs, text)
    else
      var p := Popped(ms, config.condenseChunkLength);
      (cs[p..], Some(summarise(t.condenseHistory(HistoryText(Collected(ms, p))))))
  }

  // ---------------------------------------------------------------------------
  // Title and loading

  /** The title the condense model's answer gives: quotes stripped, cut to 100 characters and an ellipsis. */
  function NewTitle(raw: string): string
  {
    var s := StripChars(raw, {'"', '\''});
    if |s| > 100 then s[..100] + "…" else s
  }

  /** An entry of a stored conversation, given the id `uuid4` makes for it when it has none. */
  function Repaired(e: Entry, newId: string): Entry
  {
    if e.metadata.messageId.None? then e.(metadata := e.metadata.(messageId := Some(newId))) else e
  }

  function RepairedAll(h: seq<Entry>, newIds: nat -> string): seq<Entry>
  {
    seq(|h|, i requires 0 <= i < |h| => Repaired(h[i], newIds(i)))
  }

  predicate AllHaveIds(h: seq<Entry>)
  {
    forall i :: 0 <= i < |h| ==> h[i].metadata.messageId.Some?
  }

  /** The index of the first entry with the message id. */
  function FindId(h: seq<Entry>, id: string): (r: Option<nat>)
    ensures r.Some? ==> r.value < |h| && h[r.value].metadata.messageId == Some(id)
    ensures r.Some? ==> forall j :: 0 <= j < r.value ==> h[j].metadata.messageId != Some(id)
    ensures r.None? ==> forall j :: 0 <= j < |h| ==> h[j].metadata.messageId != Some(id)
    decreases |h|
  {
    if h == [] then None
    else if h[0].metadata.messageId == Some(id) then Some(0)
    else match FindId(h[1..], id)
      case None => None
      case Some(k) => Some(k + 1)
  }

  /** The condensed history once `delete` has removed `[role, message]`, or left it when there is none. */
  function CondensedAfterDelete(cs: seq<Pair>, e: Entry): seq<Pair>
  {
    match PyLists.Remove(cs, Pair(e.role, e.message))
    case Ok(r) => r
    case Err(_) => cs
  }

  class Messages {
    const config: Config
    const templates: Templates
    var history: seq<Entry>
    var condensed: seq<Pair>
    var title: string
    var condensedText: Option<string>
    var workspaceContent: Option<string>
    var workspaceLanguage: Option<string>

    /** Every entry of the history has a message id, which `delete` looks up. */
    predicate Valid()
      reads this
    {
      AllHaveIds(history)
    }

    /** A conversation that is not persistent starts with the welcome message. */
    constructor (config: Config, templates: Templates, ctx: Context, newId: string)
      ensures Valid()
      ensures this.config == config && this.templates == templates
      ensures workspaceContent.None? && workspaceLanguage.None?
      ensures condensedText.None? && title == config.defaultTitle
      ensures |history| == 1 && history[0].role == "assistant" && history[0].message == config.welcomeMessage
      ensures condensed == [Pair("assistant", config.welcomeMessage)]
    {
      this.config := config;
      this.templates := templates;
      workspaceContent := None;
      workspaceLanguage := None;
      new;
      InitConversation(ctx, newId);
    }

    /** `init_conversation`: the welcome message from the 'welcome-bot', the default title and no summary. */
    method InitConversation(ctx: Context, newId: string)
      modifies this
      ensures Valid()
      ensures condensedText.None? && title == config.defaultTitle
      ensures history == [Entry("assistant", config.welcomeMessage, MakeMetadata(ctx, None, None, None, newId).(answerModel := "welcome-bot"))]
      ensures condensed == [Pair("assistant", config.welcomeMessage)]
      ensures workspaceContent == old(workspaceContent) && workspaceLanguage == old(workspaceLanguage)
    {
      condensedText := None;
      var metadata := MakeMetadata(ctx, None, None, None, newId);
      metadata := metadata.(answerModel := "welcome-bot");
      title := config.defaultTitle;
      history := [Entry("assistant", config.welcomeMessage, metadata)];
      condensed := [Pair("assistant", config.welcomeMessage)];
    }

    /** `append`: one entry on each history, then the condensed history is condensed when it is too long. */
    method Append(role: string, message: string, wc: Option<string>, wl: Option<string>, messageId: Option<string>,
                  ctx: Context, newId: string, summarise: string -> string) returns (metadata: Metadata)
      requires Valid()
      modifies this
      ensures Valid()
      ensures metadata == MakeMetadata(ctx, wc, wl, messageId, newId)
      ensures history == old(history) + [Entry(role, message, metadata)]
      ensures (condensed, condensedText) == CondenseResult(config, templates, old(condensed) + [Pair(role, message)], old(condensedText), summarise)
      ensures title == old(title) && workspaceContent == old(workspaceContent) && workspaceLanguage == old(workspaceLanguage)
    {
      metadata := MakeMetadata(ctx, wc, wl, messageId, newId);
      history := history + [Entry(role, message, metadata)];
      condensed := condensed + [Pair(role, message)];
      Condense(summarise);
    }

    /** `delete`: the first entry with the message id goes, and the first equal `[role, message]` of the condensed history. */
    method Delete(messageId: string)
      requires Valid()
      modifies this
      ensures Valid()
      ensures FindId(old(history), messageId).None? ==> history == old(history) && condensed == old(condensed)
      ensures FindId(old(history), messageId).Some? ==>
        var k := FindId(old(history), messageId).value;
        history == old(history)[..k] + old(history)[k + 1..]
        && condensed == CondensedAfterDelete(old(condensed), old(history)[k])
      ensures title == old(title) && condensedText == old(condensedText)
      ensures workspaceContent == old(workspaceContent) && workspaceLanguage == old(workspaceLanguage)
    {
      var found := FindEntry(history, messageId);
      if found.None? {
        return;
      }
      var i := found.value;
      var entry := history[i];
      RemoveEntry(history, messageId, i);
      history := PyLists.Remove(history, entry).value;
      var c := PyLists.Remove(condensed, Pair(entry.role, entry.message));
      if c.Ok? {
        condensed := c.value;
      }
    }

    /** `prompt(system_prompt)`, with the system prompt built when none is given. */
    method Prompt(systemPrompt: Option<string>, docs: Docs) returns (r: Result<seq<PromptMessage>>)
      ensures r == PromptSpec(MaskedPairs(condensed), systemPrompt.UnwrapOr(SystemPrompt(templates, docs, condensedText)), templates, workspaceContent, workspaceLanguage)
    {
      var sp := if systemPrompt.Some? then systemPrompt.value else SystemPrompt(templates, docs, condensedText);
      r := BuildPrompt(MaskedPairs(condensed), sp, templates, workspaceContent, workspaceLanguage);
    }

    /** `visible_messages`: the entries that are neither tool messages nor blank, in order. */
    method VisibleMessages() returns (vs: seq<Entry>)
      ensures vs == Visible(history)
    {
      vs := [];
      var i := 0;
      while i < |history|
        invariant 0 <= i <= |history|
        invariant vs == Visible(history[..i])
      {
        assert history[..i + 1][..i] == history[..i];
        if history[i].role == "tool" {
          i := i + 1;
          continue;
        }
        if Strip(history[i].message) == [] {
          i := i + 1;
          continue;
        }
        vs := vs + [history[i]];
        i := i + 1;
      }
      assert history[..|history|] == history;
    }

    /** `_condense_message_history`. */
    method Condense(summarise: string -> string)
      modifies this
      ensures (condensed, condensedText) == CondenseResult(config, templates, old(condensed), old(condensedText), summarise)
      ensures history == old(history) && title == old(title)
      ensures workspaceContent == old(workspaceContent) && workspaceLanguage == old(workspaceLanguage)
    {
      var ms := MaskedPairs(condensed);
      var promptLength := TotalLength(ms);
      if promptLength <= config.maxPromptLength {
        return;
      }
      var rest, condenseMessages := PopOldest(condensed, ms, config.condenseChunkLength);
      condensed := rest;
      condensedText := Some(summarise(templates.condenseHistory(HistoryText(condenseMessages))));
    }

    /** `_update_title`: once there are more than two entries, a default title is replaced by one the model writes. */
    method UpdateTitle(docs: Docs, predict: seq<PromptMessage> -> string) returns (r: Result<bool>)
      modifies this
      ensures history == old(history) && condensed == old(condensed) && condensedText == old(condensedText)
      ensures workspaceContent == old(workspaceContent) && workspaceLanguage == old(workspaceLanguage)
      ensures |history| <= 2 || old(title) != config.defaultTitle ==> r == Ok(false) && title == old(title)
      ensures |history| > 2 && old(title) == config.defaultTitle ==>
        var p := PromptSpec(MaskedPairs(condensed), SystemPrompt(templates, docs, condensedText), templates, workspaceContent, workspaceLanguage);
        (p.Err? ==> r == Err(p.error) && title == old(title))
        && (p.Ok? ==> r == Ok(true) && title == NewTitle(predict([SystemMessage(templates.titlePrompt)] + Drop(p.value, 2))))
    {
      if |history| <= 2 || title != config.defaultTitle {
        return Ok(false);
      }
      var p := Prompt(None, docs);
      if p.Err? {
        return Err(p.error);
      }
      var raw := predict([SystemMessage(templates.titlePrompt)] + Drop(p.value, 2));
      title := StripChars(raw, {'"', '\''});
      if |title| > 100 {
        title := title[..100] + "…";
      }
      r := Ok(true);
    }

    /**
     * `load`: after a decryption error, or for an empty history, a new
     * conversation; otherwise the stored one, where an entry without a message
     * id is given a fresh one. `modified` says whether any entry needed one.
     */
    method Load(stored: Stored, ctx: Context, newIds: nat -> string) returns (modified: bool)
      modifies this
      ensures Valid()
      ensures workspaceContent == old(workspaceContent) && workspaceLanguage == old(workspaceLanguage)
      ensures stored.InvalidToken? || stored.history == [] ==>
        !modified && title == config.defaultTitle && condensedText.None?
        && condensed == [Pair("assistant", config.welcomeMessage)]
        && history == [Entry("assistant", config.welcomeMessage, MakeMetadata(ctx, None, None, None, newIds(0)).(answerModel := "welcome-bot"))]
      ensures stored.Conversation? && stored.history != [] ==>
        history == RepairedAll(stored.history, newIds)
        && (modified <==> !AllHaveIds(stored.history))
        && title == stored.title && condensedText == stored.condensedText && condensed == stored.condensed
    {
      if stored.InvalidToken? || stored.history == [] {
        InitConversation(ctx, newIds(0));
        return false;
      }
      var h := stored.history;
      modified := false;
      var i := 0;
      while i < |h|
        invariant 0 <= i <= |h| && |h| == |stored.history|
        invariant forall j :: 0 <= j < i ==> h[j] == Repaired(stored.history[j], newIds(j))
        invariant forall j :: i <= j < |h| ==> h[j] == stored.history[j]
        invariant modified <==> exists j :: 0 <= j < i && stored.history[j].metadata.messageId.None?
      {
        if h[i].metadata.messageId.None? {
          h := h[i := h[i].(metadata := h[i].metadata.(messageId := Some(newIds(i))))];
          modified := true;
        }
        i := i + 1;
      }
      assert h == RepairedAll(stored.history, newIds);
      title := stored.title;
      history := h;
      condensedText := stored.condensedText;
      condensed := stored.condensed;
    }
  }

  /** The loop of `prompt` over the condensed history. */
  method BuildPrompt(cs: seq<Pair>, sp: string, t: Templates, wc: Option<string>, wl: Option<string>) returns (r: Result<seq<PromptMessage>>)
    ensures r == PromptSpec(cs, sp, t, wc, wl)
  {
    var out := [SystemMessage(sp)];
    var i := 0;
    while i < |cs|
      invariant 0 <= i <= |cs|
      invariant FirstInvalid(cs, i).None?
      invariant |out| == i + 1 && out[0] == SystemMessage(sp)
      invariant forall j :: 0 <= j < i ==> out[j + 1] == PromptAt(cs, j, t, wc, wl).value
    {
      var m := PromptAt(cs, i, t, wc, wl);
      if m.None? {
        assert FirstInvalid(cs, i + 1) == Some(i);
        FirstInvalidPrefix(cs, i + 1, |cs|);
        return Err(ValueError("Invalid role: " + cs[i].role));
      }
      out := out + [m.value];
      i := i + 1;
    }
    assert out == [SystemMessage(sp)] + seq(|cs|, j requires 0 <= j < |cs| => PromptAt(cs, j, t, wc, wl).value);
    r := Ok(out);
  }

  /**
   * The loop of `_condense_message_history`: it pops the oldest entries of
   * `cs` and collects them, masked (`ms`) and the latest first, until it has
   * `chunk` characters or only two entries are left.
   */
  method PopOldest(cs: seq<Pair>, ms: seq<Pair>, chunk: nat) returns (rest: seq<Pair>, collected: seq<Pair>)
    requires |ms| == |cs|
    ensures rest == cs[Popped(ms, chunk)..] && collected == Collected(ms, Popped(ms, chunk))
  {
    rest := cs;
    var k := 0;
    var condenseLength := 0;
    collected := [];
    while rest != [] && condenseLength < chunk
      invariant k <= |cs| && rest == cs[k..]
      invariant condenseLength == TotalLength(ms[..k])
      invariant collected == Collected(ms, k)
      invariant PopCount(ms, chunk, k, condenseLength) == Popped(ms, chunk)
      decreases |rest|
    {
      if |rest| <= 2 {
        break;
      }
      rest := rest[1..];
      var p := ms[k];
      assert ms[..k + 1][..k] == ms[..k];
      condenseLength := condenseLength + |p.content|;
      collected := [p] + collected;
      assert collected == Collected(ms, k + 1) by {
        assert forall j :: 0 < j < k + 1 ==> collected[j] == Collected(ms, k)[j - 1];
      }
      k := k + 1;
    }
  }

  /** The `for` loop of `delete`, which stops at the first entry with the message id. */
  method FindEntry(h: seq<Entry>, id: string) returns (r: Option<nat>)
    ensures r == FindId(h, id)
  {
    var i := 0;
    while i < |h|
      invariant 0 <= i <= |h|
      invariant forall j :: 0 <= j < i ==> h[j].metadata.messageId != Some(id)
    {
      if h[i].metadata.messageId == Some(id) {
        assert FindId(h, id) == Some(i);
        return Some(i);
      }
      i := i + 1;
    }
    return None;
  }

  /** `remove` finds the entry with the first occurrence of a message id where it stands, and the rest keep their ids. */
  lemma {:induction false} RemoveEntry(h: seq<Entry>, id: string, i: nat)
    requires FindId(h, id) == Some(i)
    ensures PyLists.Remove(h, h[i]) == Ok(h[..i] + h[i + 1..])
    ensures AllHaveIds(h) ==> AllHaveIds(h[..i] + h[i + 1..])
  {
    assert forall j :: 0 <= j < i ==> h[j] != h[i];
    PyLists.RemoveFirstEqual(h, h[i], i);
    var r := h[..i] + h[i + 1..];
    assert forall j :: 0 <= j < |r| ==> r[j] == (if j < i then h[j] else h[j + 1]);
  }

  lemma {:induction false} FirstInvalidPrefix(cs: seq<Pair>, n: nat, m: nat)
    requires n <= m <= |cs| && FirstInvalid(cs, n).Some?
    ensures FirstInvalid(cs, m) == FirstInvalid(cs, n)
    decreases m - n
  {
    if m > n {
      FirstInvalidPrefix(cs, n, m - 1);
    }
  }

  // ---------------------------------------------------------------------------
  // Properties

  /** The system prompt holds the identity, the documentation prompt when there is documentation, and the summary when there is one, each only when it is not blank. */
  lemma {:induction false} SystemPromptChunks(t: Templates, docs: Docs, text: Option<string>, c: string)
    ensures c in NonBlank(Chunks(t, docs, text)) <==>
      Strip(c) != [] && (c == t.identity || (docs.length > 0 && c == docs.prompt) || (Truthy(text) && c == t.condensed(text.value)))
  {
  }

  /** Without documentation and summary, the system prompt is the identity. */
  lemma {:induction false} SystemPromptIdentity(t: Templates, docs: Docs, text: Option<string>)
    requires docs.length == 0 && !Truthy(text) && Strip(t.identity) != []
    ensures SystemPrompt(t, docs, text) == t.identity
  {
    assert Chunks(t, docs, text) == [t.identity];
    assert NonBlank(Chunks(t, docs, text)) == NonBlank([]) + [t.identity];
  }

  /** The condensed history with masks removed keeps every role and masks every content. */
  lemma {:induction false} MaskedPairsAt(cs: seq<Pair>, i: nat)
    requires i < |cs|
    ensures MaskedPairs(cs)[i] == Pair(cs[i].role, MaskedElements.RemoveMaskedElements(cs[i].content))
  {
  }

  /**
   * A prompt that is built has the system message first and one message per
   * entry: the assistant's as an AI message, the user's as a human message
   * (with the workspace in front only for the last one), a tool's as a
   * function message.
   */
  lemma {:induction false} PromptShape(ms: seq<Pair>, sp: string, t: Templates, wc: Option<string>, wl: Option<string>, i: nat)
    requires PromptSpec(ms, sp, t, wc, wl).Ok? && i < |ms|
    ensures var r := PromptSpec(ms, sp, t, wc, wl).value;
      && |r| == |ms| + 1 && r[0] == SystemMessage(sp)
      && (RoleOf(ms[i].role) == Assistant ==> r[i + 1] == AIMessage(ms[i].content))
      && (RoleOf(ms[i].role) == Tool ==> r[i + 1] == FunctionMessage(ms[i].content, "tool_function"))
      && (RoleOf(ms[i].role) == User && i + 1 < |ms| ==> r[i + 1] == HumanMessage(ms[i].content))
      && (RoleOf(ms[i].role) == User && i + 1 == |ms| ==>
            r[i + 1] == HumanMessage(if Truthy(wc) then t.workspace(wc.value, wl) + ms[i].content else ms[i].content))
  {
  }

  /** The prompt fails exactly when some role is unknown, and then names the first one. */
  lemma {:induction false} PromptFails(ms: seq<Pair>, sp: string, t: Templates, wc: Option<string>, wl: Option<string>)
    ensures PromptSpec(ms, sp, t, wc, wl).Err? <==> exists i :: 0 <= i < |ms| && !KnownRole(ms[i].role)
    ensures PromptSpec(ms, sp, t, wc, wl).Err? ==>
      exists k :: 0 <= k < |ms| && !KnownRole(ms[k].role) && (forall j :: 0 <= j < k ==> KnownRole(ms[j].role))
        && PromptSpec(ms, sp, t, wc, wl) == Err(ValueError("Invalid role: " + ms[k].role))
  {
    match FirstInvalid(ms, |ms|)
    case None =>
    case Some(k) =>
  }

  /** The roles `prompt` knows are 'assistant', 'user' and 'tool'. */
  lemma {:induction false} KnownRoles()
    ensures RoleOf("assistant") == Assistant && RoleOf("user") == User && RoleOf("tool") == Tool
    ensures RoleOf("system") == Unknown
  {
    assert "assistant"[0] == 'a' && "user"[0] == 'u' && "tool"[0] == 't' && "system"[0] == 's';
  }

  /** `visible_messages` yields exactly the shown entries of the history. */
  lemma {:induction false} VisibleMembers(h: seq<Entry>, e: Entry)
    ensures e in Visible(h) <==> e in h && Shown(e)
    decreases |h|
  {
    if h != [] {
      VisibleMembers(h[..|h| - 1], e);
      assert h == h[..|h| - 1] + [h[|h| - 1]];
    }
  }

  /** The visible entries of two histories put together are those of each, in order. */
  lemma {:induction false} VisibleAppend(a: seq<Entry>, b: seq<Entry>)
    ensures Visible(a + b) == Visible(a) + Visible(b)
    decreases |b|
  {
    if b == [] {
      assert a + b == a;
    } else {
      var b' := b[..|b| - 1];
      VisibleAppend(a, b');
      assert (a + b)[..|a + b| - 1] == a + b';
      assert (a + b)[|a + b| - 1] == b[|b| - 1];
    }
  }

  /** While the history fits, condensing changes nothing. */
  lemma {:induction false} CondenseFits(config: Config, t: Templates, cs: seq<Pair>, text: Option<string>, summarise: string -> string)
    requires TotalLength(MaskedPairs(cs)) <= config.maxPromptLength
    ensures CondenseResult(config, t, cs, text, summarise) == (cs, text)
  {
  }

  /** The pop count started at `k` with the characters of the first `k` entries: below `chunk` before every pop, and at the end enough characters or two entries left. */
  lemma {:induction false} PopCountStops(ms: seq<Pair>, chunk: nat, k: nat)
    requires k <= |ms|
    requires forall j :: 0 <= j < k ==> TotalLength(ms[..j]) < chunk && |ms| - j > 2
    ensures var p := PopCount(ms, chunk, k, TotalLength(ms[..k]));
      && (forall j :: 0 <= j < p ==> TotalLength(ms[..j]) < chunk && |ms| - j > 2)
      && (TotalLength(ms[..p]) >= chunk || |ms| - p <= 2)
    decreases |ms| - k
  {
    var acc := TotalLength(ms[..k]);
    if acc < chunk && |ms| - k > 2 {
      assert ms[..k + 1][..k] == ms[..k];
      PopCountStops(ms, chunk, k + 1);
    }
  }

  /**
   * The entries popped are the fewest that give `chunk` characters, except
   * that at least two entries stay: before each pop there were fewer than
   * `chunk` characters and more than two entries, after the last there are
   * `chunk` characters or two entries.
   */
  lemma {:induction false} PoppedMinimal(ms: seq<Pair>, chunk: nat)
    ensures var p := Popped(ms, chunk);
      && (forall j :: 0 <= j < p ==> TotalLength(ms[..j]) < chunk && |ms| - j > 2)
      && (TotalLength(ms[..p]) >= chunk || |ms| - p <= 2)
      && (|ms| >= 2 ==> |ms| - p >= 2)
      && (|ms| <= 2 ==> p == 0)
  {
    assert ms[..0] == [];
    assert TotalLength(ms[..0]) == 0;
    PopCountStops(ms, chunk, 0);
    var p := Popped(ms, chunk);
    assert p == PopCount(ms, chunk, 0, TotalLength(ms[..0]));
    if p > 0 {
      assert TotalLength(ms[..p - 1]) < chunk && |ms| - (p - 1) > 2;
    }
  }

  /**
   * Condensing a history that does not fit keeps its latest entries, at least
   * two of them when there were two, and replaces the summary by the
   * condense model's summary of the popped entries, the latest first.
   */
  lemma {:induction false} CondenseKeepsLatest(config: Config, t: Templates, cs: seq<Pair>, text: Option<string>, summarise: string -> string)
    requires TotalLength(MaskedPairs(cs)) > config.maxPromptLength
    ensures var (rest, text') := CondenseResult(config, t, cs, text, summarise);
      var p := Popped(MaskedPairs(cs), config.condenseChunkLength);
      && rest == cs[|cs| - |rest|..]
      && (|cs| >= 2 ==> |rest| >= 2)
      && (|cs| <= 2 ==> rest == cs)
      && text' == Some(summarise(t.condenseHistory(HistoryText(Collected(MaskedPairs(cs), p)))))
  {
    var ms := MaskedPairs(cs);
    var p := Popped(ms, config.condenseChunkLength);
    PoppedMinimal(ms, config.condenseChunkLength);
    assert CondenseResult(config, t, cs, text, summarise).0 == cs[p..];
  }

  /** The popped entries are collected in reverse: the latest popped comes first. */
  lemma {:induction false} CollectedReversed(ms: seq<Pair>, k: nat, i: nat)
    requires i < k <= |ms|
    ensures Collected(ms, k)[i] == ms[k - 1 - i] && |Collected(ms, k)| == k
  {
  }

  /**
   * The line the source writes tests for a 'system' role, which no entry of
   * a history that `prompt` accepts has: it writes every entry, the
   * assistant's included, as 'User said'. The line the model uses writes the
   * assistant's as 'You said'.
   */
  lemma {:induction false} AssistantSaidByUser(c: string)
    ensures HistoryLineAsWritten(Pair("assistant", c)) == "User said: " + c
    ensures HistoryLine(Pair("assistant", c)) == "You said: " + c
    ensures forall p: Pair :: KnownRole(p.role) ==> HistoryLineAsWritten(p) == "User said: " + p.content
  {
    KnownRoles();
    assert "assistant" != "system";
  }

  /** The line the model uses: 'You said' exactly for the assistant's entries. */
  lemma {:induction false} HistoryLineByRole(p: Pair)
    ensures RoleOf(p.role) == Assistant ==> HistoryLine(p) == "You said: " + p.content
    ensures RoleOf(p.role) != Assistant ==> HistoryLine(p) == "User said: " + p.content
  {
    if p.role == "assistant" {
      KnownRoles();
    }
  }

  /** A new title has at most 100 characters and an ellipsis; a short one is the answer with its quotes stripped. */
  lemma {:induction false} NewTitleBounds(raw: string)
    ensures |NewTitle(raw)| <= 101
    ensures var s := StripChars(raw, {'"', '\''});
      (|s| <= 100 ==> NewTitle(raw) == s)
      && (|s| > 100 ==> NewTitle(raw) == s[..100] + "…" && |NewTitle(raw)| == 101)
  {
  }

  /** After loading, every entry has an id; an entry that had one keeps it. */
  lemma {:induction false} RepairKeepsIds(h: seq<Entry>, newIds: nat -> string, i: nat)
    requires i < |h|
    ensures AllHaveIds(RepairedAll(h, newIds))
    ensures |RepairedAll(h, newIds)| == |h|
    ensures h[i].metadata.messageId.Some? ==> RepairedAll(h, newIds)[i] == h[i]
    ensures h[i].metadata.messageId.None? ==> RepairedAll(h, newIds)[i].metadata.messageId == Some(newIds(i))
    ensures RepairedAll(h, newIds)[i].role == h[i].role && RepairedAll(h, newIds)[i].message == h[i].message
  {
    var r := RepairedAll(h, newIds);
    assert forall j :: 0 <= j < |h| ==> r[j] == Repaired(h[j], newIds(j));
    assert r[i] == Repaired(h[i], newIds(i));
  }

  /** Repairing a repaired history changes nothing. */
  lemma {:induction false} RepairIdempotent(h: seq<Entry>, f: nat -> string, g: nat -> string)
    ensures RepairedAll(RepairedAll(h, f), g) == RepairedAll(h, f)
  {
    var r := RepairedAll(h, f);
    assert forall i :: 0 <= i < |h| ==> r[i] == Repaired(h[i], f(i));
    assert forall i :: 0 <= i < |r| ==> r[i].metadata.messageId.Some?;
    assert forall i :: 0 <= i < |r| ==> RepairedAll(r, g)[i] == Repaired(r[i], g(i)) == r[i];
  }

  /** Deleting removes one `[role, message]` from the condensed history when it holds one, and nothing otherwise. */
  lemma {:induction false} CondensedDeleteCount(cs: seq<Pair>, e: Entry)
    ensures Pair(e.role, e.message) in cs ==>
      |CondensedAfterDelete(cs, e)| + 1 == |cs|
      && multiset(CondensedAfterDelete(cs, e)) + multiset{Pair(e.role, e.message)} == multiset(cs)
    ensures Pair(e.role, e.message) !in cs ==> CondensedAfterDelete(cs, e) == cs
  {
  }
}
