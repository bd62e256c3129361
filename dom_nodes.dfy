/**
 * The part of the page's DOM the socket replay reads: elements with a tag,
 * a class list and children, and text nodes. `copyAndStripDiv` takes a
 * deep copy of a message box and removes from it every descendant that
 * carries one of five classes (the delete button, the workspace, the
 * sources, the timestamp and the answer model); since the copy is a value
 * here, the original box is untouched by construction.
 */
module DomNodes {
  datatype Node = Element(tag: string, classes: seq<string>, children: seq<Node>) | Text(text: string)

  /** `classesToRemove` of `copyAndStripDiv`, in the order it removes them. */
  const StrippedClasses: seq<string> := ["message-delete", "message-workspace", "message-sources", "message-timestamp", "message-answer-model"]

  predicate HasClass(n: Node, c: string)
  {
    n.Element? && c in n.classes
  }

  /** Whether some descendant of `n` (not `n` itself) carries class `c`: what `querySelectorAll('.' + c)` finds. */
  predicate Contains(n: Node, c: string)
    decreases n
  {
    match n
    case Text(_) => false
    case Element(_, _, kids) => ContainsIn(kids, c)
  }

  /** Whether some node of `kids`, or a descendant of one, carries class `c`. */
  predicate ContainsIn(kids: seq<Node>, c: string)
    decreases kids
  {
    kids != [] && (HasClass(kids[0], c) || Contains(kids[0], c) || ContainsIn(kids[1..], c))
  }

  /** `n` with every descendant that carries class `c` removed, with its subtree; `n` itself stays. */
  function Strip(n: Node, c: string): (r: Node)
    ensures r.Text? <==> n.Text?
    ensures n.Text? ==> r == n
    ensures n.Element? ==> r.tag == n.tag && r.classes == n.classes
    decreases n
  {
    match n
    case Text(_) => n
    case Element(tag, classes, kids) => Element(tag, classes, StripIn(kids, c))
  }

  /** The nodes of `kids` that do not carry class `c`, each stripped in turn. */
  function StripIn(kids: seq<Node>, c: string): seq<Node>
    decreases kids
  {
    if kids == [] then []
    else (if HasClass(kids[0], c) then [] else [Strip(kids[0], c)]) + StripIn(kids[1..], c)
  }

  /** `n` after the removals for the first `k` classes of `cs`. */
  function StripUpTo(n: Node, cs: seq<string>, k: nat): Node
    requires k <= |cs|
  {
    if k == 0 then n else Strip(StripUpTo(n, cs, k - 1), cs[k - 1])
  }

  /** What `copyAndStripDiv` returns. */
  function CopyAndStrip(n: Node): Node
  {
    StripUpTo(n, StrippedClasses, |StrippedClasses|)
  }

  /** `textContent`: the text of all text descendants, in document order. */
  function TextContent(n: Node): string
    decreases n
  {
    match n
    case Text(t) => t
    case Element(_, _, kids) => TextIn(kids)
  }

  function TextIn(kids: seq<Node>): string
    decreases kids
  {
    if kids == [] then "" else TextContent(kids[0]) + TextIn(kids[1..])
  }

  /** After stripping class `c`, no descendant carries it. */
  lemma {:induction false} StripRemoves(n: Node, c: string)
    ensures !Contains(Strip(n, c), c)
    decreases n
  {
    match n
    case Text(_) =>
    case Element(_, _, kids) => StripInRemoves(kids, c);
  }

  lemma {:induction false} StripInRemoves(kids: seq<Node>, c: string)
    ensures !ContainsIn(StripIn(kids, c), c)
    decreases kids
  {
    if kids != [] {
      StripInRemoves(kids[1..], c);
      StripRemoves(kids[0], c);
      var head := if HasClass(kids[0], c) then [] else [Strip(kids[0], c)];
      ConcatAbsent(head, StripIn(kids[1..], c), c);
    }
  }

  /** No node of `a` or `b`, nor any descendant, carries `c`: then none of `a + b` does. */
  lemma {:induction false} ConcatAbsent(a: seq<Node>, b: seq<Node>, c: string)
    requires |a| <= 1 && (a != [] ==> !HasClass(a[0], c) && !Contains(a[0], c))
    requires !ContainsIn(b, c)
    ensures !ContainsIn(a + b, c)
  {
    if a != [] {
      assert (a + b)[0] == a[0] && (a + b)[1..] == b;
    } else {
      assert a + b == b;
    }
  }

  /** Stripping one class never brings in another. */
  lemma {:induction false} StripKeepsAbsent(n: Node, c: string, d: string)
    requires !Contains(n, d)
    ensures !Contains(Strip(n, c), d)
    decreases n
  {
    match n
    case Text(_) =>
    case Element(_, _, kids) => StripInKeepsAbsent(kids, c, d);
  }

  lemma {:induction false} StripInKeepsAbsent(kids: seq<Node>, c: string, d: string)
    requires !ContainsIn(kids, d)
    ensures !ContainsIn(StripIn(kids, c), d)
    decreases kids
  {
    if kids != [] {
      StripInKeepsAbsent(kids[1..], c, d);
      StripKeepsAbsent(kids[0], c, d);
      var head := if HasClass(kids[0], c) then [] else [Strip(kids[0], c)];
      ConcatAbsent(head, StripIn(kids[1..], c), d);
    }
  }

  /** Stripping a class no descendant carries changes nothing. */
  lemma {:induction false} StripAbsent(n: Node, c: string)
    requires !Contains(n, c)
    ensures Strip(n, c) == n
    decreases n
  {
    match n
    case Text(_) =>
    case Element(_, _, kids) => StripInAbsent(kids, c);
  }

  lemma {:induction false} StripInAbsent(kids: seq<Node>, c: string)
    requires !ContainsIn(kids, c)
    ensures StripIn(kids, c) == kids
    decreases kids
  {
    if kids != [] {
      StripInAbsent(kids[1..], c);
      StripAbsent(kids[0], c);
      assert [kids[0]] + kids[1..] == kids;
    }
  }

  /** After the first `k` removals none of those classes is left below the root, and the root is kept. */
  lemma {:induction false} StripUpToRemoves(n: Node, cs: seq<string>, k: nat)
    requires k <= |cs|
    ensures forall j :: 0 <= j < k ==> !Contains(StripUpTo(n, cs, k), cs[j])
    ensures StripUpTo(n, cs, k).Text? <==> n.Text?
    ensures n.Element? ==> StripUpTo(n, cs, k).tag == n.tag && StripUpTo(n, cs, k).classes == n.classes
  {
    if k > 0 {
      StripUpToRemoves(n, cs, k - 1);
      var prev := StripUpTo(n, cs, k - 1);
      StripRemoves(prev, cs[k - 1]);
      forall j | 0 <= j < k - 1
        ensures !Contains(StripUpTo(n, cs, k), cs[j])
      {
        StripKeepsAbsent(prev, cs[k - 1], cs[j]);
      }
    }
  }

  /** When no descendant carries any of the classes, the removals change nothing. */
  lemma {:induction false} StripUpToAbsent(n: Node, cs: seq<string>, k: nat)
    requires k <= |cs|
    requires forall j :: 0 <= j < |cs| ==> !Contains(n, cs[j])
    ensures StripUpTo(n, cs, k) == n
  {
    if k > 0 {
      StripUpToAbsent(n, cs, k - 1);
      StripAbsent(n, cs[k - 1]);
    }
  }

  /**
   * The copy keeps the root element and has none of the five classes
   * below it; a box without any of them is copied unchanged.
   */
  lemma CopyAndStripMeaning(n: Node)
    ensures forall c :: c in StrippedClasses ==> !Contains(CopyAndStrip(n), c)
    ensures CopyAndStrip(n).Text? <==> n.Text?
    ensures n.Element? ==> CopyAndStrip(n).tag == n.tag && CopyAndStrip(n).classes == n.classes
    ensures (forall c :: c in StrippedClasses ==> !Contains(n, c)) ==> CopyAndStrip(n) == n
  {
    StripUpToRemoves(n, StrippedClasses, |StrippedClasses|);
    if forall c :: c in StrippedClasses ==> !Contains(n, c) {
      StripUpToAbsent(n, StrippedClasses, |StrippedClasses|);
    }
  }

  /** `copyAndStripDiv`: a copy, then one pass per class removing the elements `querySelectorAll` finds. */
  method CopyAndStripDiv(original: Node) returns (clone: Node)
    ensures clone == CopyAndStrip(original)
  {
    clone := original;
    for k := 0 to |StrippedClasses|
      invariant clone == StripUpTo(original, StrippedClasses, k)
    {
      clone := Strip(clone, StrippedClasses[k]);
    }
  }
}
