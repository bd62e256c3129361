/**
 * The base tool of heymans: `run` hands every match of the tool's JSON
 * pattern to `use`, then strips each matched JSON block from the reply,
 * widening the match to the braces around it; `as_json_value` parses a
 * matched group as JSON, or as a JSON string when that fails.
 *
 * The regular expression engine and `json.loads` are oracles: `run` is given
 * the matches `finditer` yields, and `decode` stands for `json.loads`
 * (None for a JSONDecodeError). `use` is the tool's own method.
 */
module HeymansBaseTool {
  import opened Wrappers
  import opened Strings

  /** A JSON value. */
  datatype Json =
    | JNull
    | JBool(b: bool)
    | JNumber(n: real)
    | JString(s: string)
    | JArray(items: seq<Json>)
    | JObject(members: seq<(string, Json)>)

  /** A match of the JSON pattern: where it starts and ends and its named groups (None for a group that did not take part). */
  datatype Match = Match(start: nat, end: nat, groups: seq<(string, Option<string>)>)

  /** What `use` returns for a match: a result or None, and whether the model should reply to it. */
  datatype Use = Use(result: Option<string>, needsReply: bool)

  /** `(match.start(), match.end())`. */
  datatype Span = Span(start: nat, end: nat)

  /** What `run` returns: the updated reply, the results, and whether a reply is needed. */
  datatype RunResult = RunResult(message: string, results: seq<string>, needsReply: bool)

  /** How the scan after a span ends: at a closing brace, or at a character that stops the widening. */
  datatype Close = Closing(at: nat) | Blocked(at: nat)

  /** `f'"{s}"'`. */
  function Quoted(s: string): string
  {
    "\"" + s + "\""
  }

  /**
   * `as_json_value`: the group parsed as JSON, or else as a JSON string. A
   * group that did not take part raises TypeError, which is not caught.
   */
  function AsJsonValue(s: Option<string>, decode: string -> Option<Json>): Result<Json>
  {
    match s
    case None => Err(TypeError("the JSON object must be str, bytes or bytearray, not NoneType"))
    case Some(text) =>
      match decode(text)
      case Some(v) => Ok(v)
      case None =>
        match decode(Quoted(text))
        case Some(v) => Ok(v)
        case None => Err(JsonDecodeError)
  }

  /** The arguments of `use`: each group's name and value through `as_json_value`, the name first. */
  function ArgsOf(groups: seq<(string, Option<string>)>, decode: string -> Option<Json>): Result<seq<(Json, Json)>>
    decreases |groups|
  {
    if groups == [] then Ok([])
    else
      match ArgsOf(groups[..|groups| - 1], decode)
      case Err(e) => Err(e)
      case Ok(args) =>
        var (name, value) := groups[|groups| - 1];
        match AsJsonValue(Some(name), decode)
        case Err(e) => Err(e)
        case Ok(k) =>
          match AsJsonValue(value, decode)
          case Err(e) => Err(e)
          case Ok(v) => Ok(args + [(k, v)])
  }

  /** What `use` returns for each match, in order, unless preparing the arguments of one raises. */
  function UseAll(message: string, ms: seq<Match>, use: (string, seq<(Json, Json)>) -> Use, decode: string -> Option<Json>): Result<seq<Use>>
    decreases |ms|
  {
    if ms == [] then Ok([])
    else
      match UseAll(message, ms[..|ms| - 1], use, decode)
      case Err(e) => Err(e)
      case Ok(us) =>
        match ArgsOf(ms[|ms| - 1].groups, decode)
        case Err(e) => Err(e)
        case Ok(args) => Ok(us + [use(message, args)])
  }

  /** The results that are not None, in order. */
  function Results(us: seq<Use>): (r: seq<string>)
    ensures |r| <= |us|
    decreases |us|
  {
    if us == [] then []
    else
      var u := us[|us| - 1];
      Results(us[..|us| - 1]) + (if u.result.Some? then [u.result.value] else [])
  }

  /** `needs_reply`: one flag per match. */
  function NeedsOf(us: seq<Use>): (r: seq<bool>)
    ensures |r| == |us| && forall i :: 0 <= i < |us| ==> r[i] == us[i].needsReply
  {
    seq(|us|, i requires 0 <= i < |us| => us[i].needsReply)
  }

  /** `any`. */
  predicate AnyTrue(bs: seq<bool>)
  {
    exists i :: 0 <= i < |bs| && bs[i]
  }

  function SpansOf(ms: seq<Match>): (r: seq<Span>)
    ensures |r| == |ms| && forall i :: 0 <= i < |ms| ==> r[i] == Span(ms[i].start, ms[i].end)
  {
    seq(|ms|, i requires 0 <= i < |ms| => Span(ms[i].start, ms[i].end))
  }

  /** A character the widening passes over: whitespace or a double quote. */
  predicate Blank(c: char)
  {
    IsSpace(c) || c == '"'
  }

  /**
   * The largest integer CPython keeps one object for. The backward scan
   * tests `start is not span[0]`, an identity test: for a span that starts
   * at most here the two are the same object at the first step, which is
   * then not checked; beyond it they are distinct objects and it is.
   */
  const SmallIntMax: nat := 256

  /** Whether the backward scan checks the character at `k`. */
  predicate Checked(s0: nat, k: nat)
  {
    k != s0 || s0 > SmallIntMax
  }

  /**
   * The backward loop of `run` from `k` down: the opening brace it stops at,
   * None when a checked character is neither whitespace nor a quote, and 0
   * when it runs out (the loop variable keeps its last value).
   */
  function BackScan(m: string, s0: nat, k: nat): (r: Option<nat>)
    requires k <= s0 < |m|
    ensures r.Some? ==> r.value <= k
    decreases k
  {
    if m[k] == '{' then Some(k)
    else if Checked(s0, k) && !Blank(m[k]) then None
    else if k == 0 then Some(0)
    else BackScan(m, s0, k - 1)
  }

  /**
   * The forward loop of `run` from `k` up to `len(message)`: the closing
   * brace it stops at, or the first character that is neither whitespace
   * nor a quote; reading `message[len(message)]` raises IndexError.
   */
  function ForwardScan(m: string, k: nat): (r: Result<Close>)
    requires k <= |m|
    ensures r.Ok? ==> k <= r.value.at < |m|
    decreases |m| - k
  {
    if k == |m| then Err(IndexError)
    else if m[k] == '}' then Ok(Closing(k))
    else if !Blank(m[k]) then Ok(Blocked(k))
    else ForwardScan(m, k + 1)
  }

  /**
   * One step of the loop over the spans, `lastEnd` being the value `end`
   * has from the step before: the message with the widened span cut out
   * when both scans succeed, and the new value of `end`. When the span ends
   * past the current message the forward loop runs no step and `end` keeps
   * its value.
   */
  function StripSpan(m: string, sp: Span, lastEnd: Option<nat>): Result<(string, Option<nat>)>
  {
    if sp.start >= |m| then Err(IndexError)
    else
      var start := BackScan(m, sp.start, sp.start);
      if sp.end > |m| then
        if start.None? then Ok((m, lastEnd))
        else if lastEnd.None? then Err(NameError("end"))
        else Ok((m[..start.value] + Drop(m, lastEnd.value + 1), lastEnd))
      else
        match ForwardScan(m, sp.end)
        case Err(e) => Err(e)
        case Ok(Blocked(e)) => Ok((m, Some(e)))
        case Ok(Closing(e)) => Ok((if start.Some? then m[..start.value] + m[e + 1..] else m, Some(e)))
  }

  /** The loop over `spans[::-1]`: the last span first, each on the message the later ones left. */
  function StripFrom(m: string, spans: seq<Span>, lastEnd: Option<nat>): Result<string>
    decreases |spans|
  {
    if spans == [] then Ok(m)
    else
      match StripSpan(m, spans[|spans| - 1], lastEnd)
      case Err(e) => Err(e)
      case Ok((m', e')) => StripFrom(m', spans[..|spans| - 1], e')
  }

  /** Three backticks at `i`. */
  predicate TicksAt(m: string, i: nat)
  {
    i + 3 <= |m| && m[i] == '`' && m[i + 1] == '`' && m[i + 2] == '`'
  }

  /** "json" at `i`. */
  predicate JsonAt(m: string, i: nat)
  {
    i + 4 <= |m| && m[i] == 'j' && m[i + 1] == 's' && m[i + 2] == 'o' && m[i + 3] == 'n'
  }

  /**
   * A match of r'```json\s*```' at `i`, and where it ends: `\s*` takes the
   * whole run of whitespace, and giving any back cannot help since '`' is
   * not whitespace.
   */
  function FenceAt(m: string, i: nat): (r: Option<nat>)
    ensures r.Some? ==> i + 10 <= r.value <= |m|
  {
    if TicksAt(m, i) && JsonAt(m, i + 3) then
      var j := i + 7 + SpaceRun(m, i + 7);
      if TicksAt(m, j) then Some(j + 3) else None
    else None
  }

  /** `re.sub(r'```json\s*```', '', m)` from `i` on: each leftmost match dropped. */
  function RemoveFencesFrom(m: string, i: nat): string
    decreases |m| - i
  {
    if i >= |m| then ""
    else match FenceAt(m, i)
      case Some(e) => RemoveFencesFrom(m, e)
      case None => [m[i]] + RemoveFencesFrom(m, i + 1)
  }

  function RemoveEmptyFences(m: string): string
  {
    RemoveFencesFrom(m, 0)
  }

  /** The placeholder for a reply that was nothing but tool JSON, with the ellipsis the tests expect. */
  function Placeholder(className: string): string
  {
    "Running `" + className + "` … <TRANSIENT>"
  }

  /** The placeholder as the source writes it: the ellipsis's UTF-8 bytes read as cp1252. */
  function PlaceholderAsWritten(className: string): string
  {
    "Running `" + className + "` â€¦ <TRANSIENT>"
  }

  /** After the spans: empty JSON fences dropped, the rest stripped, and an empty rest replaced by the placeholder. */
  function Finish(m: string, className: string): string
  {
    var t := Strip(RemoveEmptyFences(m));
    if t == "" then Placeholder(className) else t
  }

  /** `run`: the reply unchanged when nothing matches; otherwise the reply with the JSON blocks stripped. */
  function RunSpec(message: string, ms: seq<Match>, use: (string, seq<(Json, Json)>) -> Use, decode: string -> Option<Json>, className: string): Result<RunResult>
  {
    match UseAll(message, ms, use, decode)
    case Err(e) => Err(e)
    case Ok(us) =>
      if ms == [] then Ok(RunResult(message, [], false))
      else
        match StripFrom(message, SpansOf(ms), None)
        case Err(e) => Err(e)
        case Ok(m) => Ok(RunResult(Finish(m, className), Results(us), AnyTrue(NeedsOf(us))))
  }

  /**
   * `BaseTool.run` on the matches `ms` of the tool's pattern in `message`,
   * for a tool class named `className`.
   */
  method Run(message: string, ms: seq<Match>, use: (string, seq<(Json, Json)>) -> Use, decode: string -> Option<Json>, className: string)
    returns (r: Result<RunResult>)
    ensures r == RunSpec(message, ms, use, decode, className)
  {
    var used := UseMatches(message, ms, use, decode);
    if used.Err? {
      return Err(used.error);
    }
    var (results, needsReply, spans) := used.value;
    var m := message;
    if spans != [] {
      var stripped := StripSpans(message, spans);
      if stripped.Err? {
        return Err(stripped.error);
      }
      m := Finish(stripped.value, className);
    }
    return Ok(RunResult(m, results, AnyTrue(needsReply)));
  }

  /** The loop of `run` over the matches: the results, the reply flags and the spans. */
  method UseMatches(message: string, ms: seq<Match>, use: (string, seq<(Json, Json)>) -> Use, decode: string -> Option<Json>)
    returns (r: Result<(seq<string>, seq<bool>, seq<Span>)>)
    ensures r.Err? <==> UseAll(message, ms, use, decode).Err?
    ensures r.Err? ==> r.error == UseAll(message, ms, use, decode).error
    ensures r.Ok? ==> var us := UseAll(message, ms, use, decode).value;
      r.value == (Results(us), NeedsOf(us), SpansOf(ms))
  {
    var spans: seq<Span> := [];
    var results: seq<string> := [];
    var needsReply: seq<bool> := [];
    ghost var us: seq<Use> := [];
    for i := 0 to |ms|
      invariant UseAll(message, ms[..i], use, decode) == Ok(us)
      invariant results == Results(us) && needsReply == NeedsOf(us) && spans == SpansOf(ms[..i])
    {
      var args := ArgsOf(ms[i].groups, decode);
      UseAllStep(message, ms, i, use, decode);
      if args.Err? {
        UseAllKeepsError(message, ms, i + 1, use, decode);
        return Err(args.error);
      }
      var u := use(message, args.value);
      ghost var us' := us + [u];
      CollectStep(us, u, ms, i);
      if u.result.Some? {
        results := results + [u.result.value];
      }
      needsReply := needsReply + [u.needsReply];
      spans := spans + [Span(ms[i].start, ms[i].end)];
      us := us';
    }
    assert ms[..|ms|] == ms;
    return Ok((results, needsReply, spans));
  }

  /** The loop over the spans from the last to the first. */
  method StripSpans(message: string, spans: seq<Span>) returns (r: Result<string>)
    ensures r == StripFrom(message, spans, None)
  {
    var m := message;
    var lastEnd: Option<nat> := None;
    var i := |spans|;
    assert spans[..i] == spans;
    while i > 0
      invariant 0 <= i <= |spans|
      invariant StripFrom(m, spans[..i], lastEnd) == StripFrom(message, spans, None)
      decreases i
    {
      assert spans[..i][..i - 1] == spans[..i - 1];
      var step := StripOne(m, spans[i - 1], lastEnd);
      if step.Err? {
        return Err(step.error);
      }
      m, lastEnd := step.value.0, step.value.1;
      i := i - 1;
    }
    assert spans[..0] == [];
    return Ok(m);
  }

  /** The body of the loop over the spans, `lastEnd` being the value `end` has from the step before. */
  method StripOne(m: string, sp: Span, lastEnd: Option<nat>) returns (r: Result<(string, Option<nat>)>)
    ensures r == StripSpan(m, sp, lastEnd)
  {
    if sp.start >= |m| {
      return Err(IndexError);
    }
    var start := FindOpen(m, sp.start);
    var end := lastEnd;
    if sp.end <= |m| {
      var c := FindClose(m, sp.end);
      if c.Err? {
        return Err(c.error);
      }
      end := Some(c.value.at);
      if c.value.Blocked? {
        start := None;
      }
    }
    var message := m;
    // `start is not None and end is not None`
    if start.Some? {
      if end.None? {
        return Err(NameError("end"));
      }
      message := m[..start.value] + Drop(m, end.value + 1);
    }
    return Ok((message, end));
  }

  /** The backward loop, `for start in range(span[0], -1, -1)`. */
  method FindOpen(m: string, s0: nat) returns (start: Option<nat>)
    requires s0 < |m|
    ensures start == BackScan(m, s0, s0)
  {
    var k: nat := s0;
    while true
      invariant k <= s0
      invariant BackScan(m, s0, k) == BackScan(m, s0, s0)
      decreases k
    {
      var ch := m[k];
      if ch == '{' {
        return Some(k);
      }
      // `start is not span[0]`
      if Checked(s0, k) && !IsSpace(ch) && ch != '"' {
        return None;
      }
      if k == 0 {
        return Some(0);
      }
      k := k - 1;
    }
  }

  /** The forward loop, `for end in range(span[1], len(message) + 1)`. */
  method FindClose(m: string, s1: nat) returns (r: Result<Close>)
    requires s1 <= |m|
    ensures r == ForwardScan(m, s1)
  {
    var k: nat := s1;
    while true
      invariant s1 <= k <= |m|
      invariant ForwardScan(m, k) == ForwardScan(m, s1)
      decreases |m| - k
    {
      if k == |m| {
        return Err(IndexError);
      }
      var ch := m[k];
      if ch == '}' {
        return Ok(Closing(k));
      }
      if !IsSpace(ch) && ch != '"' {
        return Ok(Blocked(k));
      }
      k := k + 1;
    }
  }

  /** What one more use adds to the results, the flags and the spans. */
  lemma {:induction false} CollectStep(us: seq<Use>, u: Use, ms: seq<Match>, i: nat)
    requires i < |ms|
    ensures Results(us + [u]) == Results(us) + (if u.result.Some? then [u.result.value] else [])
    ensures NeedsOf(us + [u]) == NeedsOf(us) + [u.needsReply]
    ensures SpansOf(ms[..i + 1]) == SpansOf(ms[..i]) + [Span(ms[i].start, ms[i].end)]
  {
    var us' := us + [u];
    assert us'[..|us|] == us && us'[|us|] == u;
  }

  /** One step of the loop over the matches. */
  lemma {:induction false} UseAllStep(message: string, ms: seq<Match>, i: nat, use: (string, seq<(Json, Json)>) -> Use, decode: string -> Option<Json>)
    requires i < |ms| && UseAll(message, ms[..i], use, decode).Ok?
    ensures var us := UseAll(message, ms[..i], use, decode).value;
      UseAll(message, ms[..i + 1], use, decode) == match ArgsOf(ms[i].groups, decode)
        case Err(e) => Err(e)
        case Ok(args) => Ok(us + [use(message, args)])
  {
    assert ms[..i + 1][..i] == ms[..i];
  }

  /** Once preparing the arguments of a match raises, so does the whole loop, with that error. */
  lemma {:induction false} UseAllKeepsError(message: string, ms: seq<Match>, i: nat, use: (string, seq<(Json, Json)>) -> Use, decode: string -> Option<Json>)
    requires i <= |ms| && UseAll(message, ms[..i], use, decode).Err?
    ensures UseAll(message, ms, use, decode) == UseAll(message, ms[..i], use, decode)
    decreases |ms| - i
  {
    if i < |ms| {
      assert ms[..i + 1][..i] == ms[..i];
      UseAllKeepsError(message, ms, i + 1, use, decode);
    } else {
      assert ms[..i] == ms;
    }
  }

  // ---------------------------------------------------------------------------
  // Properties

  /** A reply without matches comes back as it is, with no results and no reply needed. */
  lemma {:induction false} RunNoMatches(message: string, use: (string, seq<(Json, Json)>) -> Use, decode: string -> Option<Json>, className: string)
    ensures RunSpec(message, [], use, decode, className) == Ok(RunResult(message, [], false))
  {
    assert UseAll(message, [], use, decode) == Ok([]);
  }

  /** The arguments are the groups in order, each name and value through `as_json_value`; they fail exactly when one group does. */
  lemma {:induction false} ArgsInOrder(groups: seq<(string, Option<string>)>, decode: string -> Option<Json>)
    ensures ArgsOf(groups, decode).Ok? <==>
      forall i :: 0 <= i < |groups| ==> AsJsonValue(Some(groups[i].0), decode).Ok? && AsJsonValue(groups[i].1, decode).Ok?
    ensures ArgsOf(groups, decode).Ok? ==> var args := ArgsOf(groups, decode).value;
      |args| == |groups| &&
      forall i :: 0 <= i < |groups| ==> args[i] == (AsJsonValue(Some(groups[i].0), decode).value, AsJsonValue(groups[i].1, decode).value)
    decreases |groups|
  {
    if groups != [] {
      var init := groups[..|groups| - 1];
      ArgsInOrder(init, decode);
      assert forall i :: 0 <= i < |init| ==> init[i] == groups[i];
    }
  }

  /**
   * `use` is called on every match in order, and the loop raises exactly
   * when preparing the arguments of some match does, with the error of the
   * first such match.
   */
  lemma {:induction false} UseAllInOrder(message: string, ms: seq<Match>, use: (string, seq<(Json, Json)>) -> Use, decode: string -> Option<Json>)
    ensures UseAll(message, ms, use, decode).Ok? <==> forall i :: 0 <= i < |ms| ==> ArgsOf(ms[i].groups, decode).Ok?
    ensures UseAll(message, ms, use, decode).Ok? ==> var us := UseAll(message, ms, use, decode).value;
      |us| == |ms| && forall i :: 0 <= i < |ms| ==> us[i] == use(message, ArgsOf(ms[i].groups, decode).value)
    ensures UseAll(message, ms, use, decode).Err? ==>
      exists i :: 0 <= i < |ms| && ArgsOf(ms[i].groups, decode) == Err(UseAll(message, ms, use, decode).error) &&
        forall j :: 0 <= j < i ==> ArgsOf(ms[j].groups, decode).Ok?
    decreases |ms|
  {
    if ms != [] {
      var init := ms[..|ms| - 1];
      UseAllInOrder(message, init, use, decode);
      assert forall i :: 0 <= i < |init| ==> init[i] == ms[i];
    }
  }

  /** The results are exactly the results `use` gave that are not None. */
  lemma {:induction false} ResultsMembers(us: seq<Use>, x: string)
    ensures x in Results(us) <==> exists i :: 0 <= i < |us| && us[i].result == Some(x)
    decreases |us|
  {
    if us != [] {
      var init := us[..|us| - 1];
      ResultsMembers(init, x);
      assert forall i :: 0 <= i < |init| ==> init[i] == us[i];
      if x in Results(us) && x !in Results(init) {
        assert us[|us| - 1].result == Some(x);
      }
    }
  }

  /** A character the backward scan passes over at `i`: not an opening brace, and whitespace or a quote unless unchecked. */
  predicate Passable(m: string, s0: nat, i: nat)
    requires i < |m|
  {
    m[i] != '{' && (!Checked(s0, i) || Blank(m[i]))
  }

  /**
   * What the backward scan finds: an opening brace, or the start of the
   * message, with only passable characters after it; or, when it gives up,
   * a checked character that is neither whitespace nor a quote, with only
   * passable characters after it.
   */
  lemma {:induction false} BackScanSound(m: string, s0: nat, k: nat)
    requires k <= s0 < |m|
    ensures match BackScan(m, s0, k)
      case Some(j) =>
        && (m[j] == '{' || (j == 0 && Passable(m, s0, 0)))
        && forall i :: j < i <= k ==> Passable(m, s0, i)
      case None =>
        exists i :: 0 <= i <= k && Checked(s0, i) && !Blank(m[i]) && m[i] != '{' &&
          forall i' :: i < i' <= k ==> Passable(m, s0, i')
    decreases k
  {
    if m[k] == '{' {
    } else if Checked(s0, k) && !Blank(m[k]) {
    } else if k == 0 {
    } else {
      BackScanSound(m, s0, k - 1);
      assert Passable(m, s0, k);
    }
  }

  /** The backward scan stops at an opening brace or at the start. */
  lemma {:induction false} BackScanLands(m: string, s0: nat, k: nat)
    requires k <= s0 < |m|
    ensures BackScan(m, s0, k).Some? ==> var j := BackScan(m, s0, k).value; m[j] == '{' || j == 0
    decreases k
  {
    if m[k] != '{' && !(Checked(s0, k) && !Blank(m[k])) && k > 0 {
      BackScanLands(m, s0, k - 1);
    }
  }

  /** The forward scan raises nothing but IndexError. */
  lemma {:induction false} ForwardScanRaises(m: string, k: nat)
    requires k <= |m|
    ensures ForwardScan(m, k).Err? ==> ForwardScan(m, k).error == IndexError
    decreases |m| - k
  {
    if k < |m| && m[k] != '}' && Blank(m[k]) {
      ForwardScanRaises(m, k + 1);
    }
  }

  /** The backward scan stops at the nearest opening brace when only passable characters lie after it. */
  lemma {:induction false} BackScanFindsBrace(m: string, s0: nat, k: nat, j: nat)
    requires j <= k <= s0 < |m| && m[j] == '{'
    requires forall i :: j < i <= k ==> Passable(m, s0, i)
    ensures BackScan(m, s0, k) == Some(j)
    decreases k
  {
    if k > j {
      assert Passable(m, s0, k);
      BackScanFindsBrace(m, s0, k - 1, j);
    }
  }

  /**
   * What the forward scan finds: a closing brace, or a character that is
   * neither whitespace nor a quote, with only whitespace and quotes before
   * it; it raises IndexError exactly when there is only whitespace and
   * quotes up to the end.
   */
  lemma {:induction false} ForwardScanSound(m: string, k: nat)
    requires k <= |m|
    ensures match ForwardScan(m, k)
      case Ok(Closing(e)) => m[e] == '}' && forall i :: k <= i < e ==> Blank(m[i])
      case Ok(Blocked(e)) => m[e] != '}' && !Blank(m[e]) && forall i :: k <= i < e ==> Blank(m[i])
      case Err(err) => err == IndexError && forall i :: k <= i < |m| ==> Blank(m[i])
    decreases |m| - k
  {
    if k < |m| && m[k] != '}' && Blank(m[k]) {
      ForwardScanSound(m, k + 1);
    }
  }

  /** The forward scan stops at a closing brace when only whitespace and quotes come before it. */
  lemma {:induction false} ForwardScanFindsBrace(m: string, k: nat, e: nat)
    requires k <= e < |m| && m[e] == '}'
    requires forall i :: k <= i < e ==> Blank(m[i])
    ensures ForwardScan(m, k) == Ok(Closing(e))
    decreases e - k
  {
    if k < e {
      assert Blank(m[k]);
      ForwardScanFindsBrace(m, k + 1, e);
    }
  }

  /**
   * A step on a span that lies within the message raises only IndexError,
   * sets `end`, and either leaves the message as it is or cuts out a block
   * running from an opening brace (or the start) at or before the span to a
   * closing brace after it, with only whitespace and quotes between the
   * span's end and that brace.
   */
  lemma {:induction false} StripSpanCuts(m: string, sp: Span, lastEnd: Option<nat>)
    requires sp.end <= |m|
    ensures match StripSpan(m, sp, lastEnd)
      case Err(e) => e == IndexError
      case Ok((m', end')) =>
        && end'.Some?
        && (m' == m ||
            exists st: nat :: st <= sp.start < |m| && sp.end <= end'.value < |m| && m[end'.value] == '}' &&
              (m[st] == '{' || st == 0) &&
              (forall i :: sp.end <= i < end'.value ==> Blank(m[i])) &&
              m' == m[..st] + m[end'.value + 1..])
  {
    if sp.start < |m| {
      var start := BackScan(m, sp.start, sp.start);
      BackScanLands(m, sp.start, sp.start);
      ForwardScanSound(m, sp.end);
      match ForwardScan(m, sp.end)
      case Err(_) =>
      case Ok(Blocked(_)) =>
      case Ok(Closing(e)) =>
        if start.Some? {
          var st := start.value;
          assert st <= sp.start < |m| && (m[st] == '{' || st == 0);
        }
    }
  }

  /** With `end` set, a step raises only IndexError and leaves `end` set. */
  lemma {:induction false} StripSpanSetEnd(m: string, sp: Span, e: nat)
    ensures StripSpan(m, sp, Some(e)).Err? ==> StripSpan(m, sp, Some(e)).error.IndexError?
    ensures StripSpan(m, sp, Some(e)).Ok? ==> StripSpan(m, sp, Some(e)).value.1.Some?
  {
    if sp.end <= |m| {
      ForwardScanRaises(m, sp.end);
    }
  }

  /** Once `end` is set, no later step raises NameError. */
  lemma {:induction false} StripFromSetEnd(m: string, spans: seq<Span>, e: nat)
    ensures StripFrom(m, spans, Some(e)).Err? ==> StripFrom(m, spans, Some(e)).error.IndexError?
    decreases |spans|
  {
    if spans != [] {
      var step := StripSpan(m, spans[|spans| - 1], Some(e));
      StripSpanSetEnd(m, spans[|spans| - 1], e);
      if step.Ok? {
        StripFromSetEnd(step.value.0, spans[..|spans| - 1], step.value.1.value);
      }
    }
  }

  /**
   * The NameError the loop could raise when a span ends past the shortened
   * message never happens: the first span it handles lies within the reply,
   * so `end` is set from then on. What it can raise is IndexError.
   */
  lemma {:induction false} StripNoNameError(message: string, ms: seq<Match>)
    requires forall i :: 0 <= i < |ms| ==> ms[i].end <= |message|
    ensures StripFrom(message, SpansOf(ms), None).Err? ==> StripFrom(message, SpansOf(ms), None).error == IndexError
  {
    var spans := SpansOf(ms);
    if spans != [] {
      StripSpanCuts(message, spans[|spans| - 1], None);
      var step := StripSpan(message, spans[|spans| - 1], None);
      if step.Ok? {
        StripFromSetEnd(step.value.0, spans[..|spans| - 1], step.value.1.value);
      }
    }
  }

  /** A character other than a backtick cannot start an empty JSON fence. */
  lemma {:induction false} NoTicksUnchanged(m: string, i: nat)
    requires i <= |m|
    requires forall j :: i <= j < |m| ==> m[j] != '`'
    ensures RemoveFencesFrom(m, i) == m[i..]
    decreases |m| - i
  {
    if i < |m| {
      NoTicksUnchanged(m, i + 1);
      assert m[i..] == [m[i]] + m[i + 1..];
    }
  }

  lemma {:induction false} SpaceRunDrop(m: string, o: nat, k: nat)
    requires o + k <= |m|
    ensures SpaceRun(m, o + k) == SpaceRun(m[o..], k)
    decreases |m| - o - k
  {
    if o + k < |m| {
      assert m[o..][k] == m[o + k];
      if IsSpace(m[o + k]) {
        SpaceRunDrop(m, o, k + 1);
      }
    }
  }

  lemma {:induction false} FenceAtDrop(m: string, o: nat, k: nat)
    requires o + k <= |m|
    ensures FenceAt(m, o + k) == if FenceAt(m[o..], k).Some? then Some(o + FenceAt(m[o..], k).value) else None
  {
    var q := m[o..];
    assert forall j :: k <= j < |q| ==> q[j] == m[o + j];
    if TicksAt(q, k) && JsonAt(q, k + 3) {
      SpaceRunDrop(m, o, k + 7);
    }
  }

  /** Removing the fences from `o + k` on is removing them from `k` on in the suffix that starts at `o`. */
  lemma {:induction false} RemoveFencesDrop(m: string, o: nat, k: nat)
    requires o + k <= |m|
    ensures RemoveFencesFrom(m, o + k) == RemoveFencesFrom(m[o..], k)
    decreases |m| - o - k
  {
    var q := m[o..];
    if k < |q| {
      FenceAtDrop(m, o, k);
      match FenceAt(q, k)
      case Some(e) =>
        SkipFence(m, o + k, o + e);
        SkipFence(q, k, e);
        RemoveFencesDrop(m, o, e);
      case None =>
        KeepChar(m, o + k);
        KeepChar(q, k);
        assert q[k] == m[o + k];
        RemoveFencesDrop(m, o, k + 1);
    }
  }

  /** At a fence the removal goes on where the fence ends. */
  lemma SkipFence(m: string, i: nat, e: nat)
    requires i < |m| && FenceAt(m, i) == Some(e)
    ensures RemoveFencesFrom(m, i) == RemoveFencesFrom(m, e)
  {
  }

  /** Where no fence starts the removal keeps the character. */
  lemma KeepChar(m: string, i: nat)
    requires i < |m| && FenceAt(m, i).None?
    ensures RemoveFencesFrom(m, i) == [m[i]] + RemoveFencesFrom(m, i + 1)
  {
  }

  /** "```json", whitespace and "```". */
  function EmptyFence(ws: string): string
  {
    "```json" + ws + "```"
  }

  /**
   * An empty JSON fence after text without backticks is dropped, and the
   * rest is handled on its own: the fence the JSON sat in disappears with it.
   */
  lemma {:induction false} EmptyFenceDropped(p: string, ws: string, q: string)
    requires forall j :: 0 <= j < |p| ==> p[j] != '`'
    requires AllSpace(ws)
    ensures RemoveEmptyFences(p + EmptyFence(ws) + q) == p + RemoveEmptyFences(q)
  {
    var f := EmptyFence(ws);
    var m := p + f + q;
    var mq := p + f;
    assert m == mq + q;
    FenceFound(p, ws, q);
    SkipFence(m, |p|, |mq|);
    RemoveFencesDrop(m, |mq|, 0);
    assert m[|mq|..] == q;
    // Before the fence nothing changes.
    assert forall j :: 0 <= j < |p| ==> m[j] == p[j];
    PrefixKept(m, |p|, 0);
    assert m[0..|p|] == p;
  }

  /** The empty fence after `p` is found where `p` ends, and ends where `q` starts. */
  lemma {:induction false} FenceFound(p: string, ws: string, q: string)
    requires AllSpace(ws)
    ensures FenceAt(p + EmptyFence(ws) + q, |p|) == Some(|p| + |EmptyFence(ws)|)
  {
    var m := p + EmptyFence(ws) + q;
    var i := |p| + 7;
    assert forall j :: 0 <= j < |ws| ==> m[i + j] == ws[j];
    assert m[i + |ws|] == '`';
    SpaceRunExact(m, i, |ws|);
    assert TicksAt(m, |p|) && JsonAt(m, |p| + 3) && TicksAt(m, i + |ws|);
  }

  /** Up to `n`, a message without backticks is kept as it is. */
  lemma {:induction false} PrefixKept(m: string, n: nat, i: nat)
    requires i <= n <= |m|
    requires forall j :: i <= j < n ==> m[j] != '`'
    ensures RemoveFencesFrom(m, i) == m[i..n] + RemoveFencesFrom(m, n)
    decreases n - i
  {
    if i < n {
      assert m[i] != '`';
      assert FenceAt(m, i) == None;
      assert RemoveFencesFrom(m, i) == [m[i]] + RemoveFencesFrom(m, i + 1);
      PrefixKept(m, n, i + 1);
      assert m[i..n] == [m[i]] + m[i + 1..n];
    }
  }

  /** The updated reply is never empty: the stripped text when there is any, otherwise the placeholder. */
  lemma {:induction false} FinishParts(m: string, className: string)
    ensures AllSpace(RemoveEmptyFences(m)) ==> Finish(m, className) == Placeholder(className)
    ensures !AllSpace(RemoveEmptyFences(m)) ==> Finish(m, className) == Strip(RemoveEmptyFences(m))
    ensures Finish(m, className) != ""
  {
    StripEmptyIffAllSpace(RemoveEmptyFences(m));
  }

  /**
   * A reply whose one match sits in a brace block that runs to its end
   * comes back as the text before the block, stripped; for a reply that is
   * nothing but the block, that is the placeholder.
   */
  lemma {:induction false} TrailingBlockStripped(message: string, st: nat, mt: Match, use: (string, seq<(Json, Json)>) -> Use, decode: string -> Option<Json>, className: string)
    requires st <= mt.start < |message| && mt.end < |message|
    requires message[st] == '{' && forall i :: st < i <= mt.start ==> Passable(message, mt.start, i)
    requires message[|message| - 1] == '}' && forall i :: mt.end <= i < |message| - 1 ==> Blank(message[i])
    requires ArgsOf(mt.groups, decode).Ok?
    ensures RunSpec(message, [mt], use, decode, className).Ok?
    ensures RunSpec(message, [mt], use, decode, className).value.message == Finish(message[..st], className)
    ensures st == 0 ==> RunSpec(message, [mt], use, decode, className).value.message == Placeholder(className)
  {
    var ms := [mt];
    assert ms[..0] == [];
    BackScanFindsBrace(message, mt.start, mt.start, st);
    ForwardScanFindsBrace(message, mt.end, |message| - 1);
    var spans := SpansOf(ms);
    assert spans == [Span(mt.start, mt.end)] && spans[..0] == [];
    assert message[|message|..] == [];
    var e := |message| - 1;
    assert message[..st] + message[e + 1..] == message[..st];
    assert StripSpan(message, spans[0], None) == Ok((message[..st], Some(e)));
    assert StripFrom(message, spans, None) == Ok(message[..st]);
    assert UseAll(message, ms[..0], use, decode) == Ok([]);
    assert ms != [] && ms[|ms| - 1] == mt && ms[..|ms| - 1] == ms[..0];
    var args := ArgsOf(mt.groups, decode).value;
    assert ArgsOf(ms[|ms| - 1].groups, decode) == Ok(args);
    var us: seq<Use> := [];
    assert UseAll(message, ms, use, decode) == Ok(us + [use(message, args)]);
    assert RunSpec(message, ms, use, decode, className).value.message == Finish(message[..st], className);
    if st == 0 {
      assert message[..st] == "";
      assert RemoveEmptyFences("") == "";
      assert Finish("", className) == Placeholder(className);
    }
  }

  /**
   * The placeholder `run` writes differs from the one the tests expect: the
   * character after "` " is 'â', where '…' was meant.
   */
  lemma {:induction false} PlaceholderMojibake(className: string)
    ensures PlaceholderAsWritten(className) != Placeholder(className)
  {
    var k := |className| + 11;
    assert Placeholder(className)[k] == '…';
    assert PlaceholderAsWritten(className)[k] == 'â';
  }
}
