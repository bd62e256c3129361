/**
 * sigmund's static prediction interface: one reply of a model to a prompt,
 * or, when JSON is asked for, the first of a bounded number of replies that
 * parses as JSON once any thinking block and Markdown code fences around it
 * are removed. The database is initialised on the first call in a process.
 *
 * The model and the JSON parser are oracles: `replies(i)` is the
 * model's reply to the prompt on the `i`-th call, and `decode` is `json.loads`, `None`
 * where it raises.
 */
module StaticPredict {
  import opened Wrappers
  import opened Strings
  import BT = HeymansBaseTool
  import ThinkingBlock

  type Json = BT.Json

  /** What `predict` returns: the reply as text, or the JSON value it parses to. */
  datatype Prediction = Text(text: string) | Parsed(value: Json)

  /** A leading "```json", then a leading "```", then a trailing "```" removed, each when present. */
  function Unfenced(reply: string): string
  {
    var a := if StartsWith(reply, "```json") then reply[7..] else reply;
    var b := if StartsWith(a, "```") then a[3..] else a;
    if EndsWith(b, "```") then b[..|b| - 3] else b
  }

  /** The text handed to the JSON parser for a reply: its thinking block removed, then its fences. */
  function Cleaned(reply: string): string
  {
    Unfenced(ThinkingBlock.Extract(reply).text)
  }

  /** What the parser makes of the reply on each call: `json.loads` of the cleaned reply. */
  function Parses(replies: nat -> string, decode: string -> Option<Json>): nat -> Option<Json>
  {
    (i: nat) => decode(Cleaned(replies(i)))
  }

  /** The first call from `i` up to `n` whose reply parses, with the value it parses to. */
  function FirstParsed(parse: nat -> Option<Json>, i: nat, n: nat): Option<(nat, Json)>
    decreases n - i
  {
    if i >= n then None
    else if parse(i).Some? then Some((i, parse(i).value))
    else FirstParsed(parse, i + 1, n)
  }

  /** `FirstParsed` finds the earliest parsing reply in the range, and nothing only when none in the range parses. */
  lemma {:induction false} FirstParsedEarliest(parse: nat -> Option<Json>, i: nat, n: nat)
    ensures var f := FirstParsed(parse, i, n);
      && (f.Some? ==>
        && i <= f.value.0 < n
        && parse(f.value.0) == Some(f.value.1)
        && forall j :: i <= j < f.value.0 ==> parse(j).None?)
      && (f.None? <==> forall j :: i <= j < n ==> parse(j).None?)
    decreases n - i
  {
    if i < n && parse(i).None? {
      FirstParsedEarliest(parse, i + 1, n);
    }
  }

  /** The number of attempts `range(max_json_retry)` makes: none for a negative bound. */
  function Attempts(maxJsonRetry: int): nat
  {
    if maxJsonRetry < 0 then 0 else maxJsonRetry
  }

  /** The result of `predict`, with `replies(i)` the model's reply on the `i`-th call. */
  function PredictSpec(replies: nat -> string, decode: string -> Option<Json>, json: bool, maxJsonRetry: int): Result<Prediction>
  {
    if !json then Ok(Text(replies(0)))
    else
      match FirstParsed(Parses(replies, decode), 0, Attempts(maxJsonRetry))
      case Some((_, v)) => Ok(Parsed(v))
      case None => Err(ValueError("Failed after " + IntToString(maxJsonRetry) + " attempts"))
  }

  /** How many times `predict` calls the model. */
  function CallsSpec(replies: nat -> string, decode: string -> Option<Json>, json: bool, maxJsonRetry: int): nat
  {
    if !json then 1
    else
      match FirstParsed(Parses(replies, decode), 0, Attempts(maxJsonRetry))
      case Some((i, _)) => i + 1
      case None => Attempts(maxJsonRetry)
  }

  /**
   * Without JSON there is one call and its reply comes back as it is. With
   * JSON the value is the first cleaned reply that parses, after no more
   * than `max_json_retry` calls, and a `ValueError` comes only when every
   * one of those calls' replies fails to parse.
   */
  lemma PredictMeaning(replies: nat -> string, decode: string -> Option<Json>, json: bool, maxJsonRetry: int)
    ensures var r := PredictSpec(replies, decode, json, maxJsonRetry);
      var calls := CallsSpec(replies, decode, json, maxJsonRetry);
      var parse := Parses(replies, decode);
      && (!json ==> r == Ok(Text(replies(0))) && calls == 1)
      && (json ==> calls <= Attempts(maxJsonRetry))
      && (json && r.Ok? ==>
        && r.value.Parsed?
        && calls >= 1
        && parse(calls - 1) == Some(r.value.value)
        && forall j :: 0 <= j < calls - 1 ==> parse(j).None?)
      && (json && r.Err? <==> json && forall j :: 0 <= j < Attempts(maxJsonRetry) ==> parse(j).None?)
      && (r.Err? ==> r.error == ValueError("Failed after " + IntToString(maxJsonRetry) + " attempts"))
  {
    if json {
      var parse := Parses(replies, decode);
      var n := Attempts(maxJsonRetry);
      FirstParsedEarliest(parse, 0, n);
      match FirstParsed(parse, 0, n)
      case Some((i, v)) =>
        assert CallsSpec(replies, decode, json, maxJsonRetry) == i + 1;
        assert PredictSpec(replies, decode, json, maxJsonRetry) == Ok(Parsed(v));
      case None =>
        assert CallsSpec(replies, decode, json, maxJsonRetry) == n;
        assert PredictSpec(replies, decode, json, maxJsonRetry).Err?;
    }
  }

  /** A reply fenced as a JSON code block is unwrapped to its body. */
  lemma UnfencedJsonBlock(body: string)
    requires body != [] && body[0] != '`'
    ensures Unfenced("```json" + body + "```") == body
  {
    var s := "```json" + body + "```";
    assert StartsWith(s, "```json") by { assert s[..7] == "```json"; }
    var a := s[7..];
    assert a == body + "```";
    assert a[0] == body[0];
    assert EndsWith(a, "```") by { assert a[|a| - 3..] == "```"; }
    assert a[..|a| - 3] == body;
  }

  /** A reply fenced as a plain code block is unwrapped to its body. */
  lemma UnfencedPlainBlock(body: string)
    requires !StartsWith("```" + body + "```", "```json") && body != [] && body[0] != '`'
    ensures Unfenced("```" + body + "```") == body
  {
    var s := "```" + body + "```";
    assert StartsWith(s, "```") by { assert s[..3] == "```"; }
    var a := s[3..];
    assert a == body + "```";
    assert EndsWith(a, "```") by { assert a[|a| - 3..] == "```"; }
    assert a[..|a| - 3] == body;
  }

  /** A reply with no fence at either end is handed to the parser as it is. */
  lemma UnfencedBare(reply: string)
    requires !StartsWith(reply, "```") && !EndsWith(reply, "```")
    ensures Unfenced(reply) == reply
  {
  }

  /** The three fence checks of `predict`, one after the other on the reply. */
  method Unfence(reply: string) returns (r: string)
    ensures r == Unfenced(reply)
  {
    r := reply;
    if StartsWith(r, "```json") {
      r := r[7..];
    }
    if StartsWith(r, "```") {
      r := r[3..];
    }
    if EndsWith(r, "```") {
      r := r[..|r| - 3];
    }
  }

  /** The retry loop of `predict` with JSON asked for. */
  method PredictJson(replies: nat -> string, decode: string -> Option<Json>, maxJsonRetry: int)
    returns (r: Result<Prediction>, calls: nat)
    ensures r == PredictSpec(replies, decode, true, maxJsonRetry)
    ensures calls == CallsSpec(replies, decode, true, maxJsonRetry)
  {
    calls := 0;
    var n := Attempts(maxJsonRetry);
    ghost var parse := Parses(replies, decode);
    for i := 0 to n
      invariant calls == i
      invariant FirstParsed(parse, 0, n) == FirstParsed(parse, i, n)
    {
      var reply := replies(i);
      calls := calls + 1;
      reply := ThinkingBlock.Extract(reply).text;
      reply := Unfence(reply);
      var parsed := decode(reply);
      assert parsed == parse(i) by {
        assert parse(i) == decode(Cleaned(replies(i)));
      }
      if parsed.Some? {
        return Ok(Parsed(parsed.value)), calls;
      }
    }
    r := Err(ValueError("Failed after " + IntToString(maxJsonRetry) + " attempts"));
  }

  /** The process-wide state of the module: whether the database was initialised, and how often `init_db` ran. */
  class Static {
    /** The module global `db_initialized`. */
    var dbInitialized: bool
    /** The number of `init_db` calls so far. */
    var initCalls: nat

    /** The database is initialised once, and only when the flag says so. */
    predicate Valid()
      reads this
    {
      initCalls == if dbInitialized then 1 else 0
    }

    constructor ()
      ensures Valid() && !dbInitialized
    {
      dbInitialized := false;
      initCalls := 0;
    }

    /**
     * `predict`: the database is initialised if it was not, then the model is
     * called once, or until a reply parses as JSON; `calls` is the number of
     * model calls.
     */
    method Predict(replies: nat -> string, decode: string -> Option<Json>, json: bool, maxJsonRetry: int)
      returns (r: Result<Prediction>, calls: nat)
      requires Valid()
      modifies this
      ensures Valid() && dbInitialized
      ensures initCalls == if old(dbInitialized) then old(initCalls) else old(initCalls) + 1
      ensures r == PredictSpec(replies, decode, json, maxJsonRetry)
      ensures calls == CallsSpec(replies, decode, json, maxJsonRetry)
    {
      if !dbInitialized {
        initCalls := initCalls + 1;
        dbInitialized := true;
      }
      if !json {
        return Ok(Text(replies(0))), 1;
      }
      r, calls := PredictJson(replies, decode, maxJsonRetry);
    }
  }
}
