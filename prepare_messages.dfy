/**
 * `prepare_messages` of sigmund/utils.py: adapts a LangChain chat history to
 * what a provider accepts (no assistant message right after the system
 * message, no assistant message at the end, runs of same-type messages merged).
 *
 * The Python function mutates what it is given: it pops from the caller's
 * list, it appends to the caller's list when nothing was merged, and merging
 * grows the `content` of the first message object of every run.  The model
 * keeps that: messages are objects, the list is an object, and the method is
 * proved against the value-level function `Prepare`.
 */
module PrepareMessages {
  import opened Wrappers
  import opened Strings

  /** The `type` of a LangChain message class. */
  datatype MessageType = System | Human | Ai | Tool | Function | Chat

  /** A LangChain message: its `type` never changes, its `content` may. */
  class ChatMessage {
    const kind: MessageType
    var content: string

    constructor (kind: MessageType, content: string)
      ensures this.kind == kind && this.content == content
    {
      this.kind := kind;
      this.content := content;
    }
  }

  /** A Python list of messages. */
  class MessageList {
    var items: seq<ChatMessage>

    constructor (items: seq<ChatMessage>)
      ensures this.items == items
    {
      this.items := items;
    }
  }

  /** What the caller passes: a list, or any other object (returned as is). */
  datatype Input = NotAList(text: string) | AList(list: MessageList)

  /** The value of a message at one moment. */
  datatype Msg = Msg(kind: MessageType, content: string)

  const Continue := Msg(Human, "Please continue!")

  function ValueOf(m: ChatMessage): Msg
    reads m
  {
    Msg(m.kind, m.content)
  }

  /** The messages `ms` currently hold the values `vs`. */
  predicate Holds(ms: seq<ChatMessage>, vs: seq<Msg>)
    reads ms
  {
    |ms| == |vs| && forall i :: 0 <= i < |ms| ==> ValueOf(ms[i]) == vs[i]
  }

  predicate Distinct(ms: seq<ChatMessage>)
  {
    forall i, j :: 0 <= i < j < |ms| ==> ms[i] != ms[j]
  }

  function Kinds(ms: seq<Msg>): (r: seq<MessageType>)
    ensures |r| == |ms|
    ensures forall i :: 0 <= i < |ms| ==> r[i] == ms[i].kind
  {
    if ms == [] then [] else [ms[0].kind] + Kinds(ms[1..])
  }

  function Contents(ms: seq<Msg>): (r: seq<string>)
    ensures |r| == |ms|
  {
    if ms == [] then [] else [ms[0].content] + Contents(ms[1..])
  }

  /**
   * The merge loop: `cur` is the message being grown, `rest` the messages
   * after it.  Each output message is the head of a run of equal types.
   */
  function MergeFrom(cur: Msg, rest: seq<Msg>, sep: string): (r: seq<Msg>)
    ensures 1 <= |r| <= |rest| + 1
    decreases |rest|
  {
    if rest == [] then [cur]
    else if rest[0].kind == cur.kind then
      MergeFrom(Msg(cur.kind, cur.content + sep + rest[0].content), rest[1..], sep)
    else [cur] + MergeFrom(rest[0], rest[1..], sep)
  }

  function Merge(ms: seq<Msg>, sep: string): (r: seq<Msg>)
    ensures |r| <= |ms|
    ensures ms != [] ==> r != []
  {
    if ms == [] then [] else MergeFrom(ms[0], ms[1..], sep)
  }

  /**
   * The whole function on values: the IndexError of `messages[1]` on a
   * one-message list when AI-first messages are not allowed, the pop of index
   * 1, the merge of a list longer than one, and the appended continue message.
   */
  function Prepare(ms: seq<Msg>, allowAiFirst: bool, allowAiLast: bool,
                   mergeConsecutive: bool, sep: string): (r: Result<seq<Msg>>)
    ensures r.Err? <==> ms != [] && !allowAiFirst && |ms| < 2
    ensures r.Err? ==> r.error == IndexError
  {
    if ms == [] then Ok([])
    else if !allowAiFirst && |ms| < 2 then Err(IndexError)
    else Ok(ContinueIf(MergeIf(PopIf(ms, !allowAiFirst), mergeConsecutive, sep), !allowAiLast))
  }

  /** `messages.pop(1)` when asked to and the second message is an assistant message. */
  function PopIf(ms: seq<Msg>, pop: bool): (r: seq<Msg>)
    requires pop ==> |ms| >= 2
    ensures ms != [] ==> r != [] && r[0] == ms[0]
  {
    if pop && ms[1].kind == Ai then ms[..1] + ms[2..] else ms
  }

  /** The merge, applied to a list of more than one message when asked to. */
  function MergeIf(ms: seq<Msg>, merge: bool, sep: string): (r: seq<Msg>)
    ensures ms != [] ==> r != []
  {
    if |ms| > 1 && merge then Merge(ms, sep) else ms
  }

  /** The continue message after a trailing assistant message, when asked to. */
  function ContinueIf(ms: seq<Msg>, append: bool): (r: seq<Msg>)
    requires ms != []
  {
    if append && ms[|ms| - 1].kind == Ai then ms + [Continue] else ms
  }

  /** The first merged message has the first type, the last one the last type. */
  lemma {:induction false} MergeFromEnds(cur: Msg, rest: seq<Msg>, sep: string)
    ensures MergeFrom(cur, rest, sep)[0].kind == cur.kind
    ensures var r := MergeFrom(cur, rest, sep);
      r[|r| - 1].kind == (if rest == [] then cur else rest[|rest| - 1]).kind
    decreases |rest|
  {
    if rest != [] {
      var tail := rest[1..];
      assert tail != [] ==> tail[|tail| - 1] == rest[|rest| - 1];
      if rest[0].kind == cur.kind {
        MergeFromEnds(Msg(cur.kind, cur.content + sep + rest[0].content), tail, sep);
      } else {
        MergeFromEnds(rest[0], tail, sep);
      }
    }
  }

  lemma {:induction false} MergeEnds(ms: seq<Msg>, sep: string)
    requires ms != []
    ensures Merge(ms, sep)[0].kind == ms[0].kind
    ensures Merge(ms, sep)[|Merge(ms, sep)| - 1].kind == ms[|ms| - 1].kind
  {
    MergeFromEnds(ms[0], ms[1..], sep);
  }

  /**
   * What the caller is promised: [] for [], the first message kept, no
   * assistant message at the end when that is not allowed, and the input
   * itself when no option is set.
   */
  lemma {:induction false} PrepareSpec(ms: seq<Msg>, allowAiFirst: bool, allowAiLast: bool, mergeConsecutive: bool, sep: string)
    ensures ms == [] ==> Prepare(ms, allowAiFirst, allowAiLast, mergeConsecutive, sep) == Ok([])
    ensures var r := Prepare(ms, allowAiFirst, allowAiLast, mergeConsecutive, sep);
      r.Ok? && ms != [] ==> r.value != [] && r.value[0].kind == ms[0].kind
    ensures var r := Prepare(ms, allowAiFirst, allowAiLast, mergeConsecutive, sep);
      r.Ok? && ms != [] && !allowAiLast ==> r.value[|r.value| - 1].kind != Ai
    ensures allowAiFirst && allowAiLast && !mergeConsecutive ==>
      Prepare(ms, allowAiFirst, allowAiLast, mergeConsecutive, sep) == Ok(ms)
  {
    if ms != [] && (allowAiFirst || |ms| >= 2) {
      var popped := PopIf(ms, !allowAiFirst);
      if |popped| > 1 && mergeConsecutive {
        MergeEnds(popped, sep);
      }
      assert MergeIf(popped, mergeConsecutive, sep)[0].kind == ms[0].kind;
    }
  }

  /** Removes adjacent repetitions: the reference for the types after merging. */
  function Dedup(xs: seq<MessageType>): (r: seq<MessageType>)
  {
    if |xs| <= 1 then xs
    else if xs[0] == xs[1] then Dedup(xs[1..])
    else [xs[0]] + Dedup(xs[1..])
  }

  predicate Alternating(ms: seq<Msg>)
  {
    forall i :: 0 <= i < |ms| - 1 ==> ms[i].kind != ms[i + 1].kind
  }

  /** No two adjacent merged messages have the same type. */
  lemma {:induction false} MergeFromAlternates(cur: Msg, rest: seq<Msg>, sep: string)
    ensures Alternating(MergeFrom(cur, rest, sep))
    decreases |rest|
  {
    if rest == [] {
    } else if rest[0].kind == cur.kind {
      MergeFromAlternates(Msg(cur.kind, cur.content + sep + rest[0].content), rest[1..], sep);
    } else {
      MergeFromAlternates(rest[0], rest[1..], sep);
      MergeFromEnds(rest[0], rest[1..], sep);
      var tail := MergeFrom(rest[0], rest[1..], sep);
      assert MergeFrom(cur, rest, sep) == [cur] + tail;
    }
  }

  lemma {:induction false} MergeAlternates(ms: seq<Msg>, sep: string)
    ensures Alternating(Merge(ms, sep))
  {
    if ms != [] {
      MergeFromAlternates(ms[0], ms[1..], sep);
    }
  }

  /** The merged types are the input types with adjacent repetitions removed. */
  lemma {:induction false} MergeFromKinds(cur: Msg, rest: seq<Msg>, sep: string)
    ensures Kinds(MergeFrom(cur, rest, sep)) == Dedup([cur.kind] + Kinds(rest))
    decreases |rest|
  {
    var ks := [cur.kind] + Kinds(rest);
    if rest == [] {
    } else {
      assert ks[1..] == Kinds(rest) == [rest[0].kind] + Kinds(rest[1..]);
      if rest[0].kind == cur.kind {
        MergeFromKinds(Msg(cur.kind, cur.content + sep + rest[0].content), rest[1..], sep);
      } else {
        MergeFromKinds(rest[0], rest[1..], sep);
        assert MergeFrom(cur, rest, sep) == [cur] + MergeFrom(rest[0], rest[1..], sep);
      }
    }
  }

  lemma {:induction false} MergeKinds(ms: seq<Msg>, sep: string)
    ensures Kinds(Merge(ms, sep)) == Dedup(Kinds(ms))
  {
    if ms != [] {
      MergeFromKinds(ms[0], ms[1..], sep);
      assert Kinds(ms) == [ms[0].kind] + Kinds(ms[1..]);
    }
  }

  lemma {:induction false} JoinGrow(a: string, b: string, rest: seq<string>, sep: string)
    ensures Join([a + sep + b] + rest, sep) == Join([a, b] + rest, sep)
  {
    var l := [a + sep + b] + rest;
    var m := [a, b] + rest;
    assert m[1..] == [b] + rest;
    if rest != [] {
      assert l[1..] == rest;
      assert ([b] + rest)[1..] == rest;
    }
  }

  predicate AllOfKind(ms: seq<Msg>, k: MessageType)
  {
    forall i :: 0 <= i < |ms| ==> ms[i].kind == k
  }

  /** A run of one type merges into one message whose content is the contents joined by the separator. */
  lemma {:induction false} MergeFromRun(cur: Msg, rest: seq<Msg>, sep: string)
    requires AllOfKind(rest, cur.kind)
    ensures MergeFrom(cur, rest, sep) == [Msg(cur.kind, Join([cur.content] + Contents(rest), sep))]
    decreases |rest|
  {
    if rest != [] {
      var next := Msg(cur.kind, cur.content + sep + rest[0].content);
      var c' := Contents(rest[1..]);
      calc {
        MergeFrom(cur, rest, sep);
        MergeFrom(next, rest[1..], sep);
        { MergeFromRun(next, rest[1..], sep); }
        [Msg(cur.kind, Join([next.content] + c', sep))];
        { JoinGrow(cur.content, rest[0].content, c', sep); }
        [Msg(cur.kind, Join([cur.content, rest[0].content] + c', sep))];
        { assert [cur.content, rest[0].content] + c' == [cur.content] + Contents(rest); }
        [Msg(cur.kind, Join([cur.content] + Contents(rest), sep))];
      }
    }
  }

  lemma {:induction false} MergeRun(ms: seq<Msg>, k: MessageType, sep: string)
    requires ms != [] && AllOfKind(ms, k)
    ensures Merge(ms, sep) == [Msg(k, Join(Contents(ms), sep))]
  {
    MergeFromRun(ms[0], ms[1..], sep);
    assert Contents(ms) == [ms[0].content] + Contents(ms[1..]);
  }

  /** Merging never joins across a change of type, so it distributes over such a boundary. */
  lemma {:induction false} MergeFromAppend(cur: Msg, a: seq<Msg>, b: seq<Msg>, sep: string)
    requires b != [] && (if a == [] then cur else a[|a| - 1]).kind != b[0].kind
    ensures MergeFrom(cur, a + b, sep) == MergeFrom(cur, a, sep) + MergeFrom(b[0], b[1..], sep)
    decreases |a|
  {
    if a == [] {
      assert a + b == b;
    } else {
      assert (a + b)[0] == a[0];
      assert (a + b)[1..] == a[1..] + b;
      if a[0].kind == cur.kind {
        MergeFromAppend(Msg(cur.kind, cur.content + sep + a[0].content), a[1..], b, sep);
      } else {
        MergeFromAppend(a[0], a[1..], b, sep);
      }
    }
  }

  lemma {:induction false} MergeAppend(a: seq<Msg>, b: seq<Msg>, sep: string)
    requires a != [] && b != [] && a[|a| - 1].kind != b[0].kind
    ensures Merge(a + b, sep) == Merge(a, sep) + Merge(b, sep)
  {
    assert (a + b)[0] == a[0];
    assert (a + b)[1..] == a[1..] + b;
    MergeFromAppend(a[0], a[1..], b, sep);
  }

  /** An already alternating history is left as it is. */
  lemma {:induction false} MergeFromAlternating(cur: Msg, rest: seq<Msg>, sep: string)
    requires Alternating(rest) && (rest != [] ==> rest[0].kind != cur.kind)
    ensures MergeFrom(cur, rest, sep) == [cur] + rest
    decreases |rest|
  {
    if rest != [] {
      var tail := rest[1..];
      assert Alternating(tail);
      assert tail != [] ==> tail[0] == rest[1];
      MergeFromAlternating(rest[0], tail, sep);
      assert [rest[0]] + tail == rest;
    }
  }

  lemma {:induction false} MergeOfAlternating(ms: seq<Msg>, sep: string)
    requires Alternating(ms)
    ensures Merge(ms, sep) == ms
  {
    if ms != [] {
      var tail := ms[1..];
      assert tail != [] ==> tail[0] == ms[1];
      MergeFromAlternating(ms[0], tail, sep);
      assert [ms[0]] + tail == ms;
    }
  }

  /** The state of the merge loop: the finished run heads and the message being grown. */
  datatype Acc = Acc(done: seq<Msg>, cur: Msg)

  function MergeStep(a: Acc, next: Msg, sep: string): Acc
  {
    if next.kind == a.cur.kind then Acc(a.done, Msg(a.cur.kind, a.cur.content + sep + next.content))
    else Acc(a.done + [a.cur], next)
  }

  /** The loop state after the first `k` messages. */
  function MergeUpTo(vals: seq<Msg>, k: nat, sep: string): Acc
    requires 1 <= k <= |vals|
  {
    if k == 1 then Acc([], vals[0]) else MergeStep(MergeUpTo(vals, k - 1, sep), vals[k - 1], sep)
  }

  /** The loop state and the rest of the input together give the merge of the whole input. */
  lemma {:induction false} MergeUpToSpec(vals: seq<Msg>, k: nat, sep: string)
    requires 1 <= k <= |vals|
    ensures MergeUpTo(vals, k, sep).done + MergeFrom(MergeUpTo(vals, k, sep).cur, vals[k..], sep) == Merge(vals, sep)
    decreases k
  {
    if k > 1 {
      MergeUpToSpec(vals, k - 1, sep);
      MergeUpToStep(vals, k, sep);
    }
  }

  /** One more message moves from the rest of the input into the loop state. */
  lemma {:induction false} MergeUpToStep(vals: seq<Msg>, k: nat, sep: string)
    requires 1 < k <= |vals|
    ensures var a := MergeUpTo(vals, k - 1, sep);
      var b := MergeUpTo(vals, k, sep);
      a.done + MergeFrom(a.cur, vals[k - 1..], sep) == b.done + MergeFrom(b.cur, vals[k..], sep)
  {
    var a := MergeUpTo(vals, k - 1, sep);
    var rest := vals[k - 1..];
    assert rest[0] == vals[k - 1] && rest[1..] == vals[k..];
    if vals[k - 1].kind != a.cur.kind {
      assert MergeFrom(a.cur, rest, sep) == [a.cur] + MergeFrom(vals[k - 1], vals[k..], sep);
      assert a.done + ([a.cur] + MergeFrom(vals[k - 1], vals[k..], sep))
          == (a.done + [a.cur]) + MergeFrom(vals[k - 1], vals[k..], sep);
    }
  }

  /**
   * The merge loop (sigmund/utils.py:105-114): returns the first object of
   * every run, each grown by the contents of the rest of its run.
   */
  method MergeRuns(items: seq<ChatMessage>, ghost vals: seq<Msg>, sep: string) returns (merged: seq<ChatMessage>)
    requires items != [] && Distinct(items) && Holds(items, vals)
    modifies items
    ensures Holds(merged, Merge(vals, sep))
    ensures forall o :: o in merged ==> o in items
  {
    merged := [];
    var current := items[0];
    ghost var cv := vals[0];
    ghost var out: seq<Msg> := [];
    ghost var h := 0;
    ghost var heads: seq<nat> := [];
    var k := 1;
    while k < |items|
      invariant 1 <= k <= |items|
      invariant 0 <= h < k && current == items[h]
      invariant HeadsBelow(merged, heads, items, h)
      invariant Holds(merged, out)
      invariant forall j :: k <= j < |items| ==> ValueOf(items[j]) == vals[j]
      invariant ValueOf(current) == cv
      invariant Acc(out, cv) == MergeUpTo(vals, k, sep)
    {
      var next := items[k];
      if current.kind == next.kind {
        HeadsAvoid(merged, heads, items, h);
        current.content := current.content + sep + next.content;
        cv := ValueOf(current);
      } else {
        HoldsSnoc(merged, out, current, cv);
        HeadsSnoc(merged, heads, items, h, k);
        merged := merged + [current];
        heads := heads + [h];
        out := out + [cv];
        current := next;
        cv := vals[k];
        h := k;
      }
      k := k + 1;
    }
    MergeUpToSpec(vals, k, sep);
    assert vals[k..] == [];
    HoldsSnoc(merged, out, current, cv);
    HeadsSnoc(merged, heads, items, h, h + 1);
    merged := merged + [current];
    heads := heads + [h];
    out := out + [cv];
  }

  /** Every finished run head is one of the first `h` messages. */
  predicate HeadsBelow(merged: seq<ChatMessage>, heads: seq<nat>, items: seq<ChatMessage>, h: nat)
  {
    |heads| == |merged| && forall t :: 0 <= t < |merged| ==> heads[t] < h <= |items| && merged[t] == items[heads[t]]
  }

  lemma {:induction false} HeadsAvoid(merged: seq<ChatMessage>, heads: seq<nat>, items: seq<ChatMessage>, h: nat)
    requires HeadsBelow(merged, heads, items, h) && h < |items| && Distinct(items)
    ensures items[h] !in merged
  {
    forall t | 0 <= t < |merged|
      ensures merged[t] != items[h]
    {
      assert heads[t] < h;
    }
  }

  lemma {:induction false} HeadsSnoc(merged: seq<ChatMessage>, heads: seq<nat>, items: seq<ChatMessage>, h: nat, k: nat)
    requires HeadsBelow(merged, heads, items, h) && h < k <= |items|
    ensures HeadsBelow(merged + [items[h]], heads + [h], items, k)
    ensures forall o :: o in merged + [items[h]] ==> o in items
  {
  }

  lemma {:induction false} HoldsSnoc(ms: seq<ChatMessage>, vs: seq<Msg>, m: ChatMessage, v: Msg)
    requires Holds(ms, vs) && ValueOf(m) == v
    ensures Holds(ms + [m], vs + [v])
  {
  }

  /** `messages.pop(1)` when the message after the first is an assistant message. */
  method DropFirstAi(list: MessageList, ghost vals: seq<Msg>)
    requires |list.items| >= 2 && Distinct(list.items) && Holds(list.items, vals)
    modifies list
    ensures list.items == if old(list.items[1].kind) == Ai then old(list.items[..1] + list.items[2..]) else old(list.items)
    ensures Distinct(list.items)
    ensures forall m :: m in list.items ==> m in old(list.items)
    ensures Holds(list.items, PopIf(vals, true))
  {
    if list.items[1].kind == Ai {
      list.items := list.items[..1] + list.items[2..];
    }
  }

  /** `messages.append(HumanMessage(content='Please continue!'))`. */
  method AppendContinue(list: MessageList, ghost vals: seq<Msg>)
    requires Holds(list.items, vals)
    modifies list
    ensures |list.items| == |old(list.items)| + 1 && list.items[..|list.items| - 1] == old(list.items)
    ensures fresh(list.items[|list.items| - 1])
    ensures Holds(list.items, vals + [Continue])
  {
    var more := new ChatMessage(Human, "Please continue!");
    list.items := list.items + [more];
    assert list.items[..|list.items| - 1] == old(list.items);
  }

  /**
   * The Python function on a list whose messages hold `vals` (distinct
   * objects: the model does not follow one object listed twice).  A pop or
   * an append lands in the caller's list unless a merge built a new one.
   */
  method PrepareList(list: MessageList, ghost vals: seq<Msg>, allowAiFirst: bool, allowAiLast: bool,
                     mergeConsecutive: bool, sep: string) returns (r: Result<MessageList>)
    requires Distinct(list.items) && Holds(list.items, vals)
    modifies list, list.items
    ensures var res := Prepare(vals, allowAiFirst, allowAiLast, mergeConsecutive, sep);
      && (res.Err? ==> r == Err(res.error))
      && (res.Ok? ==> r.Ok? && Holds(r.value.items, res.value))
    ensures vals == [] ==> r.Ok? && fresh(r.value)
    ensures vals != [] && r.Ok? && !mergeConsecutive ==> r.value == list
  {
    if list.items == [] {
      var empty := new MessageList([]);
      return Ok(empty);
    }
    if !allowAiFirst {
      if |list.items| < 2 {
        return Err(IndexError);
      }
      DropFirstAi(list, vals);
    }
    ghost var popped := PopIf(vals, !allowAiFirst);
    var result := MergePhase(list, popped, mergeConsecutive, sep);
    ContinuePhase(result, MergeIf(popped, mergeConsecutive, sep), allowAiLast);
    r := Ok(result);
  }

  /** The merge step: a new list of the run heads, or the same list when nothing merges. */
  method MergePhase(list: MessageList, ghost vals: seq<Msg>, mergeConsecutive: bool, sep: string)
    returns (result: MessageList)
    requires vals != [] && Distinct(list.items) && Holds(list.items, vals)
    modifies list.items
    ensures Holds(result.items, MergeIf(vals, mergeConsecutive, sep))
    ensures !mergeConsecutive ==> result == list
    ensures result == list || fresh(result)
  {
    result := list;
    if |list.items| > 1 && mergeConsecutive {
      var heads := MergeRuns(list.items, vals, sep);
      result := new MessageList(heads);
    }
  }

  /** The closing step: a trailing assistant message gets a "Please continue!" after it. */
  method ContinuePhase(list: MessageList, ghost vals: seq<Msg>, allowAiLast: bool)
    requires vals != [] && Holds(list.items, vals)
    modifies list
    ensures Holds(list.items, ContinueIf(vals, !allowAiLast))
  {
    assert ValueOf(list.items[|list.items| - 1]) == vals[|vals| - 1];
    if !allowAiLast && list.items[|list.items| - 1].kind == Ai {
      AppendContinue(list, vals);
    }
  }

  /** Any non-list argument is returned as it is. */
  method PrepareMessages(messages: Input, ghost vals: seq<Msg>, allowAiFirst: bool, allowAiLast: bool,
                         mergeConsecutive: bool, sep: string) returns (r: Result<Input>)
    requires messages.AList? ==> Distinct(messages.list.items) && Holds(messages.list.items, vals)
    modifies if messages.AList? then {messages.list} else {}
    modifies if messages.AList? then messages.list.items else []
    ensures messages.NotAList? ==> r == Ok(messages)
    ensures messages.AList? ==>
      var res := Prepare(vals, allowAiFirst, allowAiLast, mergeConsecutive, sep);
      && (res.Err? ==> r == Err(res.error))
      && (res.Ok? ==> r.Ok? && r.value.AList? && Holds(r.value.list.items, res.value))
  {
    if messages.NotAList? {
      return Ok(messages);
    }
    var prepared := PrepareList(messages.list, vals, allowAiFirst, allowAiLast, mergeConsecutive, sep);
    match prepared
    case Err(e) => r := Err(e);
    case Ok(list) => r := Ok(AList(list));
  }
}
