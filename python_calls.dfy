/**
 * How a Python call binds its arguments to the parameters of a function
 * whose parameters are all positional-or-keyword, some with a default, and
 * which has no `*args` and no `**kwargs`. A call is described by how many
 * positional arguments it passes (`self` included for a bound method) and
 * the names of its keyword arguments, in order.
 *
 * The checks follow the interpreter's order: each keyword must name a
 * parameter not already filled, then the positional arguments must fit,
 * then every parameter without a default must have been given.
 */
module PythonCalls {
  import opened Wrappers

  datatype Param = Param(name: string, hasDefault: bool)

  /** Why a call raises `TypeError`. */
  datatype Reason =
    | UnexpectedKeyword(name: string)
    | MultipleValues(name: string)
    | TooManyPositional(given: nat)
    | MissingArgument(name: string)

  /** A call binds, or raises `TypeError` for a reason. */
  datatype Outcome = Binds | Raises(reason: Reason)

  /** Python refuses a definition with two parameters of the same name. */
  predicate DistinctNames(params: seq<Param>)
  {
    forall i, j :: 0 <= i < j < |params| ==> params[i].name != params[j].name
  }

  /** The position of the parameter called `name`. */
  function IndexOf(params: seq<Param>, name: string): (r: Option<nat>)
    ensures r.Some? ==> r.value < |params| && params[r.value].name == name
    ensures r.None? ==> forall j :: 0 <= j < |params| ==> params[j].name != name
  {
    if |params| == 0 then None
    else if params[0].name == name then Some(0)
    else match IndexOf(params[1..], name)
      case None => None
      case Some(j) => Some(j + 1)
  }

  /** The first keyword the call cannot bind: an unknown name, or a parameter already filled. */
  function KeywordError(params: seq<Param>, npos: nat, kws: seq<string>): (r: Option<Reason>)
  {
    if |kws| == 0 then None
    else match IndexOf(params, kws[0])
      case None => Some(UnexpectedKeyword(kws[0]))
      case Some(j) =>
        if j < npos || kws[0] in kws[1..] then Some(MultipleValues(kws[0]))
        else KeywordError(params, npos, kws[1..])
  }

  /** The first parameter from position `i` on that has no default and is given neither positionally nor by keyword. */
  function FirstMissing(params: seq<Param>, npos: nat, kws: seq<string>, i: nat): (r: Option<string>)
    decreases |params| - i
  {
    if i >= |params| then None
    else if i >= npos && !params[i].hasDefault && params[i].name !in kws then Some(params[i].name)
    else FirstMissing(params, npos, kws, i + 1)
  }

  /** What calling a function with parameters `params` this way does. */
  function Call(params: seq<Param>, npos: nat, kws: seq<string>): (o: Outcome)
    ensures npos > |params| ==> o.Raises?
  {
    match KeywordError(params, npos, kws)
    case Some(r) => Raises(r)
    case None =>
      if npos > |params| then Raises(TooManyPositional(npos))
      else match FirstMissing(params, npos, kws, 0)
        case Some(n) => Raises(MissingArgument(n))
        case None => Binds
  }

  /** `name` is the name of a parameter past the first `npos`. */
  predicate NamedAfter(params: seq<Param>, npos: nat, name: string)
  {
    exists j :: npos <= j < |params| && params[j].name == name
  }

  /** Every keyword names a parameter past the positional ones, and no keyword is repeated. */
  predicate KeywordsFit(params: seq<Param>, npos: nat, kws: seq<string>)
  {
    (forall k :: 0 <= k < |kws| ==> NamedAfter(params, npos, kws[k]))
    && (forall k, l :: 0 <= k < l < |kws| ==> kws[k] != kws[l])
  }

  /** Every parameter past the positional ones either has a default or is given by keyword. */
  predicate AllGiven(params: seq<Param>, npos: nat, kws: seq<string>)
  {
    forall j :: npos <= j < |params| ==> params[j].hasDefault || params[j].name in kws
  }

  lemma {:induction false} KeywordErrorNone(params: seq<Param>, npos: nat, kws: seq<string>)
    requires DistinctNames(params)
    ensures KeywordError(params, npos, kws).None? <==> KeywordsFit(params, npos, kws)
    decreases |kws|
  {
    if |kws| > 0 {
      KeywordErrorNone(params, npos, kws[1..]);
      match IndexOf(params, kws[0])
      case None =>
      case Some(j) =>
        if KeywordsFit(params, npos, kws) {
          var i :| npos <= i < |params| && params[i].name == kws[0];
          assert i == j;
          assert kws[0] !in kws[1..] by {
            forall l | 0 <= l < |kws[1..]| ensures kws[1..][l] != kws[0] {
              assert kws[1..][l] == kws[l + 1];
            }
          }
          forall k | 0 <= k < |kws[1..]| ensures NamedAfter(params, npos, kws[1..][k]) {
            assert kws[1..][k] == kws[k + 1];
          }
        }
        if KeywordError(params, npos, kws).None? {
          assert j >= npos && kws[0] !in kws[1..];
          forall k | 0 <= k < |kws| ensures NamedAfter(params, npos, kws[k]) {
            if k > 0 { assert kws[k] == kws[1..][k - 1]; }
          }
          forall k, l | 0 <= k < l < |kws| ensures kws[k] != kws[l] {
            if k == 0 { assert kws[l] == kws[1..][l - 1]; }
            else { assert kws[k] == kws[1..][k - 1] && kws[l] == kws[1..][l - 1]; }
          }
        }
    }
  }

  lemma {:induction false} FirstMissingNone(params: seq<Param>, npos: nat, kws: seq<string>, i: nat)
    requires npos <= |params|
    ensures FirstMissing(params, npos, kws, i).None? <==>
      forall j :: i <= j < |params| && npos <= j ==> params[j].hasDefault || params[j].name in kws
    decreases |params| - i
  {
    if i < |params| {
      FirstMissingNone(params, npos, kws, i + 1);
    }
  }

  /**
   * A call binds exactly when its positional arguments fit, its keywords
   * name distinct parameters past them, and every parameter left without
   * a default is given by keyword.
   */
  lemma {:induction false} CallBinds(params: seq<Param>, npos: nat, kws: seq<string>)
    requires DistinctNames(params)
    ensures Call(params, npos, kws) == Binds <==>
      npos <= |params| && KeywordsFit(params, npos, kws) && AllGiven(params, npos, kws)
  {
    KeywordErrorNone(params, npos, kws);
    if npos <= |params| {
      FirstMissingNone(params, npos, kws, 0);
    }
  }
}
