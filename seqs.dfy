/** Sequence identities the proofs use at a generic element type, where they are cheap to check. */
module Seqs {
  lemma {:induction false} Shift<T>(done: seq<T>, x: T, rest: seq<T>)
    ensures done + [x] + rest == done + ([x] + rest)
  {
  }

  lemma {:induction false} Assoc<T>(x: seq<T>, y: seq<T>, z: seq<T>)
    ensures x + (y + z) == x + y + z
  {
  }

  lemma {:induction false} SplitHead<T>(s: seq<T>, i: nat)
    requires i < |s|
    ensures s[i..] == [s[i]] + s[i + 1..]
  {
  }

  lemma {:induction false} SplitAt<T>(s: seq<T>, i: nat, k: nat)
    requires i <= k <= |s|
    ensures s[i..] == s[i..k] + s[k..]
  {
  }

  lemma {:induction false} AppendNil<T>(s: seq<T>)
    ensures s + [] == s
  {
  }

  // The pieces of a four-part concatenation `a + b + c + d`, read back by
  // indexing and slicing, one fact per lemma.

  lemma {:induction false} Heads4<T>(a: seq<T>, b: seq<T>, c: seq<T>, d: seq<T>)
    ensures b != [] ==> (a + b + c + d)[|a|] == b[0]
    ensures c != [] ==> (a + b + c + d)[|a| + |b|] == c[0]
  {
  }

  lemma {:induction false} Take4First<T>(a: seq<T>, b: seq<T>, c: seq<T>, d: seq<T>)
    ensures (a + b + c + d)[0..|a|] == a
  {
  }

  lemma {:induction false} Take4Two<T>(a: seq<T>, b: seq<T>, c: seq<T>, d: seq<T>)
    ensures (a + b + c + d)[0..|a| + |b|] == a + b
  {
  }

  lemma {:induction false} Mid4<T>(a: seq<T>, b: seq<T>, c: seq<T>, d: seq<T>)
    ensures (a + b + c + d)[|a|..|a| + |b| + |c|] == b + c
  {
  }

  lemma {:induction false} Drop4One<T>(a: seq<T>, b: seq<T>, c: seq<T>, d: seq<T>)
    ensures (a + b + c + d)[|a|..] == b + (c + d)
  {
  }

  lemma {:induction false} Drop4Two<T>(a: seq<T>, b: seq<T>, c: seq<T>, d: seq<T>)
    ensures (a + b + c + d)[|a| + |b|..] == c + d
  {
  }

  lemma {:induction false} Drop4Tail<T>(a: seq<T>, b: seq<T>, c: seq<T>, d: seq<T>)
    ensures (a + b + c + d)[|a| + |b| + |c|..] == d
  {
  }

  lemma {:induction false} Take3Two<T>(a: seq<T>, b: seq<T>, c: seq<T>)
    ensures (a + b + c)[0..|a| + |b|] == a + b
  {
  }

  lemma {:induction false} Drop3Two<T>(a: seq<T>, b: seq<T>, c: seq<T>)
    ensures (a + b + c)[|a| + |b|..] == c
  {
  }

  lemma {:induction false} Assoc4<T>(a: seq<T>, b: seq<T>, c: seq<T>, d: seq<T>)
    ensures a + (b + c + d) == a + b + c + d
  {
  }

  /** A prefix of a prefix is a prefix, and the longer prefix's elements stay where they were. */
  lemma {:induction false} PrefixTrans<T>(a: seq<T>, b: seq<T>, c: seq<T>)
    requires |a| <= |b| <= |c| && b[..|a|] == a && c[..|b|] == b
    ensures c[..|a|] == a
    ensures forall i :: 0 <= i < |b| ==> c[i] == b[i]
  {
    assert forall i :: 0 <= i < |b| ==> c[..|b|][i] == c[i];
  }

  /** `<=` on sequences (being a prefix) is transitive. */
  lemma {:induction false} PrefixChain<T>(a: seq<T>, b: seq<T>, c: seq<T>)
    requires a <= b && b <= c
    ensures a <= c
  {
    PrefixTrans(a, b, c);
  }

  /** A sequence is a prefix of itself extended. */
  lemma {:induction false} PrefixExtend<T>(a: seq<T>, x: seq<T>, c: seq<T>)
    requires a + x <= c
    ensures a <= c
  {
    assert (a + x)[..|a|] == a;
    PrefixTrans(a, a + x, c);
  }
}
