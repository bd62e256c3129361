/** Python's `list.index` and `list.remove`, which find an element by value. */
module PyLists {
  import opened Wrappers

  /** The index of the first element equal to `x`, if there is one. */
  function FirstIndex<T(==)>(s: seq<T>, x: T): (r: Option<nat>)
    ensures r.Some? ==> r.value < |s| && s[r.value] == x && forall j :: 0 <= j < r.value ==> s[j] != x
    ensures r.None? ==> forall j :: 0 <= j < |s| ==> s[j] != x
    decreases |s|
  {
    if s == [] then None
    else if s[0] == x then Some(0)
    else match FirstIndex(s[1..], x)
      case None => None
      case Some(k) => Some(k + 1)
  }

  /** `s.remove(x)`: the first element equal to `x` goes; without one, ValueError. */
  function Remove<T(==)>(s: seq<T>, x: T): (r: Result<seq<T>>)
    ensures r.Err? <==> x !in s
    ensures r.Ok? ==> |r.value| + 1 == |s| && multiset(r.value) + multiset{x} == multiset(s)
  {
    match FirstIndex(s, x)
    case None => Err(ValueError("list.remove(x): x not in list"))
    case Some(k) =>
      assert s == s[..k] + [s[k]] + s[k + 1..];
      Ok(s[..k] + s[k + 1..])
  }

  /** Removing takes out exactly the first equal element and keeps the order of the rest. */
  lemma {:induction false} RemoveFirstEqual<T>(s: seq<T>, x: T, k: nat)
    requires k < |s| && s[k] == x && forall j :: 0 <= j < k ==> s[j] != x
    ensures Remove(s, x) == Ok(s[..k] + s[k + 1..])
  {
  }

  /** `[x for x in s if p(x)]`. */
  function Filter<T>(s: seq<T>, p: T -> bool): (r: seq<T>)
    ensures |r| <= |s|
    ensures forall i :: 0 <= i < |r| ==> p(r[i])
    decreases |s|
  {
    if s == [] then [] else Filter(s[..|s| - 1], p) + (if p(s[|s| - 1]) then [s[|s| - 1]] else [])
  }

  /** The elements of the lists one after another. */
  function Flatten<T>(ss: seq<seq<T>>): seq<T>
    decreases |ss|
  {
    if ss == [] then [] else Flatten(ss[..|ss| - 1]) + ss[|ss| - 1]
  }

  /** An element is kept exactly when it is in the list and satisfies the condition. */
  lemma {:induction false} FilterMembers<T>(s: seq<T>, p: T -> bool, x: T)
    ensures x in Filter(s, p) <==> x in s && p(x)
    decreases |s|
  {
    if s != [] {
      FilterMembers(s[..|s| - 1], p, x);
      assert s == s[..|s| - 1] + [s[|s| - 1]];
    }
  }

  /** Filtering distributes over concatenation. */
  lemma {:induction false} FilterAppend<T>(a: seq<T>, b: seq<T>, p: T -> bool)
    ensures Filter(a + b, p) == Filter(a, p) + Filter(b, p)
    decreases |b|
  {
    if b == [] {
      assert a + b == a;
    } else {
      var b' := b[..|b| - 1];
      FilterAppend(a, b', p);
      assert (a + b)[..|a + b| - 1] == a + b';
      assert (a + b)[|a + b| - 1] == b[|b| - 1];
    }
  }

  /** A list splits into the elements that satisfy a condition and those that do not. */
  lemma {:induction false} FilterSplit<T>(s: seq<T>, p: T -> bool, q: T -> bool)
    requires forall x :: q(x) == !p(x)
    ensures multiset(Filter(s, p)) + multiset(Filter(s, q)) == multiset(s)
    decreases |s|
  {
    if s != [] {
      FilterSplit(s[..|s| - 1], p, q);
      assert s == s[..|s| - 1] + [s[|s| - 1]];
    }
  }

  /** Filtering keeps a list whose every element satisfies the condition. */
  lemma {:induction false} FilterAll<T>(s: seq<T>, p: T -> bool)
    requires forall i :: 0 <= i < |s| ==> p(s[i])
    ensures Filter(s, p) == s
    decreases |s|
  {
    if s != [] {
      FilterAll(s[..|s| - 1], p);
    }
  }

  /** Filtering drops a list no element of which satisfies the condition. */
  lemma {:induction false} FilterNone<T>(s: seq<T>, p: T -> bool)
    requires forall i :: 0 <= i < |s| ==> !p(s[i])
    ensures Filter(s, p) == []
    decreases |s|
  {
    if s != [] {
      FilterNone(s[..|s| - 1], p);
    }
  }

  /** No element is there twice. */
  predicate NoDuplicates<T(==)>(s: seq<T>)
  {
    forall i, j :: 0 <= i < j < |s| ==> s[i] != s[j]
  }

  /** Each candidate appended unless an equal element is there already. */
  function AddNew<T(==)>(s: seq<T>, cs: seq<T>): seq<T>
    decreases |cs|
  {
    if cs == [] then s
    else
      var r := AddNew(s, cs[..|cs| - 1]);
      if cs[|cs| - 1] in r then r else r + [cs[|cs| - 1]]
  }

  /** The elements there before stay, in order. */
  lemma {:induction false} AddNewPrefix<T>(s: seq<T>, cs: seq<T>)
    ensures |AddNew(s, cs)| >= |s| && AddNew(s, cs)[..|s|] == s
    decreases |cs|
  {
    if cs != [] {
      AddNewPrefix(s, cs[..|cs| - 1]);
    }
  }

  /** An element is there afterwards exactly when it was there before or is a candidate. */
  lemma {:induction false} AddNewMembers<T>(s: seq<T>, cs: seq<T>, x: T)
    ensures x in AddNew(s, cs) <==> x in s || x in cs
    decreases |cs|
  {
    if cs != [] {
      var init := cs[..|cs| - 1];
      AddNewMembers(s, init, x);
      assert cs == init + [cs[|cs| - 1]];
    }
  }

  /** No element is added twice. */
  lemma {:induction false} AddNewNoDuplicates<T>(s: seq<T>, cs: seq<T>)
    requires NoDuplicates(s)
    ensures NoDuplicates(AddNew(s, cs))
    decreases |cs|
  {
    if cs != [] {
      AddNewNoDuplicates(s, cs[..|cs| - 1]);
    }
  }

  /** Candidates that are all there already add nothing. */
  lemma {:induction false} AddNewKnown<T>(s: seq<T>, cs: seq<T>)
    requires forall i :: 0 <= i < |cs| ==> cs[i] in s
    ensures AddNew(s, cs) == s
    decreases |cs|
  {
    if cs != [] {
      AddNewKnown(s, cs[..|cs| - 1]);
    }
  }

  /** Appending the same candidates again changes nothing. */
  lemma {:induction false} AddNewIdempotent<T>(s: seq<T>, cs: seq<T>)
    ensures AddNew(AddNew(s, cs), cs) == AddNew(s, cs)
  {
    forall i | 0 <= i < |cs|
      ensures cs[i] in AddNew(s, cs)
    {
      AddNewMembers(s, cs, cs[i]);
    }
    AddNewKnown(AddNew(s, cs), cs);
  }


  /** Appending two lists of candidates one after the other is appending them together. */
  lemma {:induction false} AddNewConcat<T>(s: seq<T>, a: seq<T>, b: seq<T>)
    ensures AddNew(AddNew(s, a), b) == AddNew(s, a + b)
    decreases |b|
  {
    if b == [] {
      assert a + b == a;
    } else {
      var init := b[..|b| - 1];
      AddNewConcat(s, a, init);
      assert (a + b)[..|a + b| - 1] == a + init;
    }
  }

}
