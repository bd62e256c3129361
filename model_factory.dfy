/**
 * The `model` factories of sigmund and heymans: which provider class a model
 * name builds, with which model id. A built model is described by its class
 * and the arguments its constructor gets.
 */
module SigmundModelFactory {
  import opened Wrappers
  import opened Strings

  /** The class the factory builds, the model id it passes, and the `thinking` argument. */
  datatype Built =
    | OpenAIBuilt(id: string, thinking: bool)
    | AnthropicBuilt(id: string, thinking: bool)
    | MistralBuilt(id: string, thinking: bool)
    | DummyBuilt(thinking: bool)

  /** The value of `key` in a dictionary given by its items. */
  function Lookup(table: seq<(string, string)>, key: string): (r: Option<string>)
    ensures r.Some? <==> exists i :: 0 <= i < |table| && table[i].0 == key
    ensures r.Some? ==> exists i :: 0 <= i < |table| && table[i] == (key, r.value)
    decreases |table|
  {
    if table == [] then None
    else if table[0].0 == key then Some(table[0].1)
    else
      var r := Lookup(table[1..], key);
      assert forall i :: 0 <= i < |table[1..]| ==> table[1..][i] == table[i + 1];
      r
  }

  const OpenAIModels: seq<(string, string)> := [
    ("o1", "o1"),
    ("o3", "o3"),
    ("o3-mini", "o3-mini"),
    ("o4-mini", "o4-mini"),
    ("gpt-4.1", "gpt-4.1"),
    ("gpt-4.1-mini", "gpt-4.1-mini"),
    ("gpt-4", "gpt-4o"),
    ("gpt-4o", "gpt-4o"),
    ("gpt-4o-mini", "gpt-4o-mini"),
    ("gpt-3.5", "gpt-3.5-turbo")
  ]

  const AnthropicModels: seq<(string, string)> := [
    ("claude-2.1", "claude-2.1"),
    ("claude-3-opus", "claude-3-opus-20240229"),
    ("claude-3-sonnet", "claude-3-sonnet-20240229"),
    ("claude-3-haiku", "claude-3-haiku-20240307"),
    ("claude-3.5-sonnet", "claude-3-5-sonnet-latest"),
    ("claude-3.7-sonnet", "claude-3-7-sonnet-latest"),
    ("claude-3.7-sonnet-thinking", "claude-3-7-sonnet-latest"),
    ("claude-3.5-haiku", "claude-3-5-haiku-latest"),
    ("claude-4-sonnet", "claude-sonnet-4-20250514"),
    ("claude-4-sonnet-thinking", "claude-sonnet-4-20250514"),
    ("claude-4-opus", "claude-opus-4-20250514"),
    ("claude-4-opus-thinking", "claude-opus-4-20250514")
  ]

  /** A name the factory sends to the Mistral model. */
  predicate IsMistralName(name: string)
  {
    Contains(name, "mistral") || Contains(name, "ministral")
  }

  /**
   * `model(sigmund, name, thinking=thinking)`: the OpenAI table, then the
   * Anthropic table (where a '-thinking' name turns thinking on), then any
   * mistral name, then 'dummy'; any other name is unknown.
   */
  function Model(name: string, thinking: bool): (r: Result<Built>)
    ensures r.Err? <==> NotInTables(name) && !IsMistralName(name) && name != "dummy"
  {
    match Lookup(OpenAIModels, name)
    case Some(id) => Ok(OpenAIBuilt(id, thinking))
    case None =>
      match Lookup(AnthropicModels, name)
      case Some(id) => Ok(AnthropicBuilt(id, thinking || EndsWith(name, "-thinking")))
      case None =>
        if IsMistralName(name) then Ok(MistralBuilt(name, thinking))
        else if name == "dummy" then Ok(DummyBuilt(thinking))
        else Err(ValueError("Unknown model: " + name))
  }

  /** A name that is a key of neither table. */
  predicate NotInTables(name: string)
  {
    (forall i :: 0 <= i < |OpenAIModels| ==> OpenAIModels[i].0 != name)
    && (forall j :: 0 <= j < |AnthropicModels| ==> AnthropicModels[j].0 != name)
  }

  // ---------------------------------------------------------------------------
  // Properties

  /** A name of the OpenAI table builds the OpenAI model with its id. */
  lemma {:induction false} OpenAINames(name: string, thinking: bool, i: nat)
    requires i < |OpenAIModels| && OpenAIModels[i].0 == name
    ensures Model(name, thinking).Ok? && Model(name, thinking).value.OpenAIBuilt?
    ensures (name, Model(name, thinking).value.id) in OpenAIModels
  {
  }

  /** The OpenAI names start with 'o' or 'g', the Anthropic names with 'c'. */
  lemma {:induction false} Initials()
    ensures forall i :: 0 <= i < |OpenAIModels| ==> |OpenAIModels[i].0| > 0 && OpenAIModels[i].0[0] in {'o', 'g'}
    ensures forall j :: 0 <= j < |AnthropicModels| ==> |AnthropicModels[j].0| > 0 && AnthropicModels[j].0[0] == 'c'
  {
  }

  /** No name is in both tables, so the order of the two look-ups decides nothing between them. */
  lemma {:induction false} TablesDisjoint()
    ensures forall i, j :: 0 <= i < |OpenAIModels| && 0 <= j < |AnthropicModels| ==> OpenAIModels[i].0 != AnthropicModels[j].0
  {
    Initials();
  }

  /**
   * A name of the Anthropic table builds the Anthropic model with its id,
   * thinking when asked to or when the name ends with '-thinking'.
   */
  lemma {:induction false} AnthropicNames(name: string, thinking: bool, j: nat)
    requires j < |AnthropicModels| && AnthropicModels[j].0 == name
    ensures Model(name, thinking).Ok? && Model(name, thinking).value.AnthropicBuilt?
    ensures (name, Model(name, thinking).value.id) in AnthropicModels
    ensures Model(name, thinking).value.thinking <==> thinking || EndsWith(name, "-thinking")
  {
    TablesDisjoint();
    assert Lookup(OpenAIModels, name).None?;
  }

  /** A name in neither table that mentions mistral or ministral builds the Mistral model with the name unchanged. */
  lemma {:induction false} MistralNames(name: string, thinking: bool)
    requires NotInTables(name) && IsMistralName(name)
    ensures Model(name, thinking) == Ok(MistralBuilt(name, thinking))
  {
  }

  /** A text shorter than a pattern does not contain it. */
  lemma {:induction false} ShortNotContains(s: string, p: string)
    requires |s| < |p|
    ensures !Contains(s, p)
    decreases |s|
  {
    if |s| > 0 {
      ShortNotContains(s[1..], p);
    }
  }

  /** 'dummy' builds the dummy model. */
  lemma {:induction false} DummyName(thinking: bool)
    ensures Model("dummy", thinking) == Ok(DummyBuilt(thinking))
  {
    Initials();
    assert "dummy"[0] == 'd';
    assert Lookup(OpenAIModels, "dummy").None?;
    assert Lookup(AnthropicModels, "dummy").None?;
    ShortNotContains("dummy", "mistral");
    ShortNotContains("dummy", "ministral");
  }

  /** Every other name raises ValueError naming it. */
  lemma {:induction false} UnknownNames(name: string, thinking: bool)
    requires NotInTables(name) && !IsMistralName(name) && name != "dummy"
    ensures Model(name, thinking) == Err(ValueError("Unknown model: " + name))
  {
  }
}

module HeymansModelFactory {
  import opened Wrappers
  import opened Strings

  datatype Built =
    | OpenAIBuilt(id: string)
    | AnthropicBuilt(id: string)
    | MistralBuilt(id: string)
    | DummyBuilt

  const LatestSuffix := "-latest"

  /**
   * `model(heymans, name)`: five fixed names, then any 'mistral-' name with
   * '-latest' put after it unless it ends with it already, then 'dummy'.
   */
  function Model(name: string): (r: Result<Built>)
    ensures r.Ok? && r.value.MistralBuilt? ==> EndsWith(r.value.id, LatestSuffix)
  {
    if name == "gpt-4" then Ok(OpenAIBuilt("gpt-4-1106-preview"))
    else if name == "gpt-3.5" then Ok(OpenAIBuilt("gpt-3.5-turbo-1106"))
    else if name == "claude-2.1" then Ok(AnthropicBuilt("claude-2.1"))
    else if name == "claude-3-opus" then Ok(AnthropicBuilt("claude-3-opus-20240229"))
    else if name == "claude-3-sonnet" then Ok(AnthropicBuilt("claude-3-sonnet-20240229"))
    else if StartsWith(name, "mistral-") then
      Ok(MistralBuilt(if EndsWith(name, LatestSuffix) then name else name + LatestSuffix))
    else if name == "dummy" then Ok(DummyBuilt)
    else Err(ValueError("Unknown model: " + name))
  }

  // ---------------------------------------------------------------------------
  // Properties

  lemma {:induction false} EndsWithAppended(name: string, suffix: string)
    ensures EndsWith(name + suffix, suffix)
  {
    assert (name + suffix)[|name + suffix| - |suffix|..] == suffix;
  }

  lemma {:induction false} StartsWithAppended(name: string, prefix: string, suffix: string)
    requires StartsWith(name, prefix)
    ensures StartsWith(name + suffix, prefix)
  {
    assert (name + suffix)[..|prefix|] == name[..|prefix|];
  }

  /** A 'mistral-' name passes the fixed names by and reaches the Mistral branch. */
  lemma {:induction false} MistralBranch(name: string)
    requires StartsWith(name, "mistral-")
    ensures Model(name) == Ok(MistralBuilt(if EndsWith(name, LatestSuffix) then name else name + LatestSuffix))
  {
    assert name[0] == "mistral-"[0] == 'm';
  }

  /**
   * A 'mistral-' name builds the Mistral model with an id that ends with
   * '-latest' and keeps the name in front; building from that id again gives
   * the same id.
   */
  lemma {:induction false} MistralLatest(name: string)
    requires StartsWith(name, "mistral-")
    ensures Model(name).Ok? && Model(name).value.MistralBuilt?
    ensures var id := Model(name).value.id;
      && EndsWith(id, LatestSuffix) && StartsWith(id, name)
      && Model(id) == Model(name)
  {
    MistralBranch(name);
    var id := Model(name).value.id;
    if !EndsWith(name, LatestSuffix) {
      EndsWithAppended(name, LatestSuffix);
      StartsWithAppended(name, "mistral-", LatestSuffix);
      assert id[..|name|] == name;
    }
    MistralBranch(id);
  }

  /** The fixed names map to their ids, and 'dummy' builds the dummy model. */
  lemma {:induction false} FixedNames()
    ensures Model("gpt-4") == Ok(OpenAIBuilt("gpt-4-1106-preview"))
    ensures Model("gpt-3.5") == Ok(OpenAIBuilt("gpt-3.5-turbo-1106"))
    ensures Model("claude-2.1") == Ok(AnthropicBuilt("claude-2.1"))
    ensures Model("claude-3-opus") == Ok(AnthropicBuilt("claude-3-opus-20240229"))
    ensures Model("claude-3-sonnet") == Ok(AnthropicBuilt("claude-3-sonnet-20240229"))
    ensures Model("dummy") == Ok(DummyBuilt)
  {
    assert !StartsWith("dummy", "mistral-");
  }

  /** Any other name raises ValueError naming it. */
  lemma {:induction false} UnknownNames(name: string)
    requires name !in {"gpt-4", "gpt-3.5", "claude-2.1", "claude-3-opus", "claude-3-sonnet", "dummy"}
    requires !StartsWith(name, "mistral-")
    ensures Model(name) == Err(ValueError("Unknown model: " + name))
  {
  }
}
