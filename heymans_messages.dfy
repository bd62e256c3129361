/**
 * The conversation of heymans: the message history and the condensed
 * history the prompt is built from, condensed once it passes 5000
 * characters by summarising about 2500 characters from its start.
 *
 * The documentation the system prompt reads and the condense model
 * (gpt-3.5-turbo) are given to the methods; the prompt templates are a
 * constant of the object.
 */
module HeymansMessages {
  import opened Wrappers
  import opened Strings
  import SM = SigmundMessages
  import PC = PythonCalls

  const MaxPromptLength: nat := 5000
  const CondenseChunkLength: nat := 2500

  /** The system prompts: without documentation, with it, and the summary section. */
  datatype Templates = Templates(noDoc: string, withDoc: string -> string, condensed: string -> string)

  /** What the system prompt reads from the documentation: its length and its text. */
  datatype Docs = Docs(length: nat, text: string)

  /** `_system_prompt`: the documentation template when there is documentation, then the summary when there is one. */
  function SystemPrompt(t: Templates, docs: Docs, condensedText: Option<string>): string
  {
    var prompt := if docs.length > 0 then t.withDoc(docs.text) else t.noDoc;
    if SM.Truthy(condensedText) then prompt + t.condensed(condensedText.value) else prompt
  }

  /**
   * How many entries the condensing loop pops, having popped `k` with `acc`
   * characters: it pops until it has `chunk` characters. (It stops at the
   * end of the list too, which the loop never reaches; see `EnoughLeft`.)
   */
  function PopCount(cs: seq<SM.Pair>, chunk: nat, k: nat, acc: nat): (p: nat)
    requires k <= |cs|
    ensures k <= p <= |cs|
    decreases |cs| - k
  {
    if acc < chunk && k < |cs| then PopCount(cs, chunk, k + 1, acc + |cs[k].content|) else k
  }

  function Popped(cs: seq<SM.Pair>): (p: nat)
    ensures p <= |cs|
  {
    PopCount(cs, CondenseChunkLength, 0, 0)
  }

  /** The popped entries, the latest first, one 'You said' or 'User said' line each, joined by blank lines. */
  function CondenseText(collected: seq<SM.Pair>): string
  {
    Join(seq(|collected|, i requires 0 <= i < |collected| => SM.HistoryLine(collected[i])), "\n\n")
  }

  /** The same text as the source writes it, with the line that tests for a 'system' role. */
  function CondenseTextAsWritten(collected: seq<SM.Pair>): string
  {
    Join(seq(|collected|, i requires 0 <= i < |collected| => SM.HistoryLineAsWritten(collected[i])), "\n\n")
  }

  /**
   * As written, no entry of a history with the roles `append` is given has
   * the role 'system', so every entry is written 'User said', the
   * assistant's included.
   */
  lemma {:induction false} CondenseAsWrittenAllUser(collected: seq<SM.Pair>)
    requires forall i :: 0 <= i < |collected| ==> SM.KnownRole(collected[i].role)
    ensures CondenseTextAsWritten(collected)
      == Join(seq(|collected|, i requires 0 <= i < |collected| => "User said: " + collected[i].content), "\n\n")
  {
    SM.AssistantSaidByUser([]);
    var written := seq(|collected|, i requires 0 <= i < |collected| => SM.HistoryLineAsWritten(collected[i]));
    var users := seq(|collected|, i requires 0 <= i < |collected| => "User said: " + collected[i].content);
    assert written == users;
  }

  /** The text the model condenses: 'You said' exactly for the assistant's entries, 'User said' for the others. */
  lemma {:induction false} CondenseTextByRole(collected: seq<SM.Pair>)
    ensures CondenseText(collected) == Join(seq(|collected|, i requires 0 <= i < |collected| =>
      (if SM.RoleOf(collected[i].role) == SM.Assistant then "You said: " else "User said: ") + collected[i].content), "\n\n")
  {
    var lines := seq(|collected|, i requires 0 <= i < |collected| => SM.HistoryLine(collected[i]));
    var byRole := seq(|collected|, i requires 0 <= i < |collected| =>
      (if SM.RoleOf(collected[i].role) == SM.Assistant then "You said: " else "User said: ") + collected[i].content);
    forall i | 0 <= i < |collected| ensures lines[i] == byRole[i] {
      SM.HistoryLineByRole(collected[i]);
    }
    assert lines == byRole;
  }

  /** `_condense_message_history`: nothing while the history has at most 5000 characters, otherwise the popped entries are summarised. */
  function CondenseResult(cs: seq<SM.Pair>, text: Option<string>, summarise: string -> string): (seq<SM.Pair>, Option<string>)
  {
    if SM.TotalLength(cs) <= MaxPromptLength then (cs, text)
    else
      var p := Popped(cs);
      (cs[p..], Some(summarise(CondenseText(SM.Collected(cs, p)))))
  }

  /** `Messages.__init__(self, heymans)`. */
  const InitParams: seq<PC.Param> := [PC.Param("self", false), PC.Param("heymans", false)]

  /** `Messages(self, persistent)`, as the heymans constructor calls it, passes three positional arguments to two parameters. */
  lemma {:induction false} PersistentArgumentTooMany()
    ensures PC.Call(InitParams, 3, []) == PC.Raises(PC.TooManyPositional(3))
  {
  }

  /** `Messages(self)` binds. */
  lemma {:induction false} HeymansArgumentBinds()
    ensures PC.Call(InitParams, 2, []) == PC.Binds
  {
    PC.CallBinds(InitParams, 2, []);
  }

  class Messages {
    const templates: Templates
    var history: seq<SM.Pair>
    var condensed: seq<SM.Pair>
    var condensedText: Option<string>

    constructor (templates: Templates)
      ensures this.templates == templates
      ensures history == [] && condensed == [] && condensedText.None?
    {
      this.templates := templates;
      history := [];
      condensed := [];
      condensedText := None;
    }

    /** `append`: the pair goes on both histories, then the condensed history is condensed when it is too long. */
    method Append(role: string, message: string, summarise: string -> string)
      modifies this
      ensures history == old(history) + [SM.Pair(role, message)]
      ensures (condensed, condensedText) == CondenseResult(old(condensed) + [SM.Pair(role, message)], old(condensedText), summarise)
    {
      history := history + [SM.Pair(role, message)];
      condensed := condensed + [SM.Pair(role, message)];
      Condense(summarise);
    }

    /** `_condense_message_history`. */
    method Condense(summarise: string -> string)
      modifies this
      ensures (condensed, condensedText) == CondenseResult(old(condensed), old(condensedText), summarise)
      ensures history == old(history)
    {
      var promptLength := SM.TotalLength(condensed);
      if promptLength <= MaxPromptLength {
        return;
      }
      var rest, condenseMessages := PopOldest(condensed);
      condensed := rest;
      condensedText := Some(summarise(CondenseText(condenseMessages)));
    }

    /** `prompt`: the system prompt, then the condensed history in order. */
    method Prompt(docs: Docs) returns (r: seq<SM.Pair>)
      ensures r == [SM.Pair("system", SystemPrompt(templates, docs, condensedText))] + condensed
    {
      r := [SM.Pair("system", SystemPrompt(templates, docs, condensedText))] + condensed;
    }
  }

  /**
   * The loop of `_condense_message_history`, for a history of more than 5000
   * characters: it pops from the front until it has popped 2500 characters,
   * collecting the popped entries the latest first. The list never runs
   * out, so `pop(0)` never raises.
   */
  method PopOldest(cs: seq<SM.Pair>) returns (rest: seq<SM.Pair>, collected: seq<SM.Pair>)
    requires SM.TotalLength(cs) > MaxPromptLength
    ensures rest == cs[Popped(cs)..] && collected == SM.Collected(cs, Popped(cs))
  {
    rest := cs;
    var k := 0;
    var condenseLength := 0;
    collected := [];
    while condenseLength < CondenseChunkLength
      invariant k <= |cs| && rest == cs[k..]
      invariant condenseLength == SM.TotalLength(cs[..k])
      invariant collected == SM.Collected(cs, k)
      invariant PopCount(cs, CondenseChunkLength, k, condenseLength) == Popped(cs)
      decreases |rest|
    {
      PopOne(cs, k, CondenseChunkLength);
      var p := rest[0];
      rest := rest[1..];
      condenseLength := condenseLength + |p.content|;
      collected := [p] + collected;
      k := k + 1;
    }
  }

  /** One pop of the loop: while fewer than `chunk` characters are popped an entry is left, and popping it extends the prefix and the collection by that entry. */
  lemma {:induction false} PopOne(cs: seq<SM.Pair>, k: nat, chunk: nat)
    requires k <= |cs| && SM.TotalLength(cs[..k]) < chunk < SM.TotalLength(cs)
    ensures k < |cs| && cs[k..][0] == cs[k] && cs[k..][1..] == cs[k + 1..]
    ensures SM.TotalLength(cs[..k + 1]) == SM.TotalLength(cs[..k]) + |cs[k].content|
    ensures [cs[k]] + SM.Collected(cs, k) == SM.Collected(cs, k + 1)
    ensures PopCount(cs, chunk, k, SM.TotalLength(cs[..k])) == PopCount(cs, chunk, k + 1, SM.TotalLength(cs[..k + 1]))
  {
    assert cs[..|cs|] == cs;
    assert k < |cs|;
    assert cs[..k + 1][..k] == cs[..k];
    var c := [cs[k]] + SM.Collected(cs, k);
    assert forall j :: 0 < j < k + 1 ==> c[j] == SM.Collected(cs, k)[j - 1];
  }

  // ---------------------------------------------------------------------------
  // Properties

  /** Up to 5000 characters, condensing changes nothing. */
  lemma {:induction false} CondenseFits(cs: seq<SM.Pair>, text: Option<string>, summarise: string -> string)
    requires SM.TotalLength(cs) <= MaxPromptLength
    ensures CondenseResult(cs, text, summarise) == (cs, text)
  {
  }

  lemma {:induction false} PopCountStops(cs: seq<SM.Pair>, k: nat)
    requires k <= |cs| && SM.TotalLength(cs) > MaxPromptLength
    requires forall j :: 0 <= j < k ==> SM.TotalLength(cs[..j]) < CondenseChunkLength
    ensures var p := PopCount(cs, CondenseChunkLength, k, SM.TotalLength(cs[..k]));
      && (forall j :: 0 <= j < p ==> SM.TotalLength(cs[..j]) < CondenseChunkLength)
      && SM.TotalLength(cs[..p]) >= CondenseChunkLength
    decreases |cs| - k
  {
    var acc := SM.TotalLength(cs[..k]);
    if acc < CondenseChunkLength {
      assert k < |cs|;
      var next := cs[..k + 1];
      assert next[..k] == cs[..k] && next[k] == cs[k];
      assert SM.TotalLength(next) == acc + |cs[k].content|;
      PopCountStops(cs, k + 1);
    }
  }

  /**
   * Over 5000 characters the loop pops the fewest entries that give 2500
   * characters. It has no guard against an empty list and needs none: the
   * list holds more than 2500 characters, so it never runs out first.
   */
  lemma {:induction false} PoppedMinimal(cs: seq<SM.Pair>)
    requires SM.TotalLength(cs) > MaxPromptLength
    ensures var p := Popped(cs);
      && SM.TotalLength(cs[..p]) >= CondenseChunkLength
      && (forall j :: 0 <= j < p ==> SM.TotalLength(cs[..j]) < CondenseChunkLength)
  {
    assert cs[..0] == [];
    PopCountStops(cs, 0);
  }

  /** Condensing keeps the latest entries and replaces the summary by the summary of the popped ones. */
  lemma {:induction false} CondenseKeepsLatest(cs: seq<SM.Pair>, text: Option<string>, summarise: string -> string)
    requires SM.TotalLength(cs) > MaxPromptLength
    ensures var (rest, text') := CondenseResult(cs, text, summarise);
      && rest == cs[|cs| - |rest|..]
      && text' == Some(summarise(CondenseText(SM.Collected(cs, Popped(cs)))))
  {
  }

  /**
   * Unlike sigmund's loop, this one keeps no entry back: when the last entry
   * alone brings the popped characters to 2500, everything is condensed, the
   * message just appended included.
   */
  lemma {:induction false} CondenseMayTakeAll(a: SM.Pair, b: SM.Pair, text: Option<string>, summarise: string -> string)
    requires |a.content| < CondenseChunkLength && |a.content| + |b.content| > MaxPromptLength
    ensures CondenseResult([a, b], text, summarise).0 == []
  {
    var cs := [a, b];
    assert cs[..1] == [a] && cs[..1][..0] == [] && cs[..2] == cs && cs[..2][..1] == [a];
    assert SM.TotalLength([a]) == |a.content|;
    assert SM.TotalLength(cs) == |a.content| + |b.content|;
    assert PopCount(cs, CondenseChunkLength, 2, |a.content| + |b.content|) == 2;
    assert PopCount(cs, CondenseChunkLength, 1, |a.content|) == 2;
  }

  /** The documentation template is used exactly when there is documentation, and the summary is appended exactly when there is one. */
  lemma {:induction false} SystemPromptParts(t: Templates, docs: Docs, text: Option<string>)
    ensures docs.length > 0 && !SM.Truthy(text) ==> SystemPrompt(t, docs, text) == t.withDoc(docs.text)
    ensures docs.length == 0 && !SM.Truthy(text) ==> SystemPrompt(t, docs, text) == t.noDoc
    ensures SM.Truthy(text) ==> SystemPrompt(t, docs, text) == SystemPrompt(t, docs, None) + t.condensed(text.value)
  {
  }
}
