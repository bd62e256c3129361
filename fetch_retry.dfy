/**
 * `fetchWithRetry` of the chat pages: a request tried up to `retries` times,
 * the first response that arrives returned whatever its HTTP status, and
 * the error of the last attempt thrown when every attempt fails.
 *
 * The network is an oracle: `attempt(i)` is what the `i`-th `fetch` settles
 * to.
 */
module FetchRetry {
  /** What one `fetch` settles to: a response, or a rejection with its error. */
  datatype Attempt<R> = Resolved(response: R) | Rejected(error: string)

  /**
   * What `fetchWithRetry` settles to: a response, the thrown error, or
   * `undefined` when the loop does not run at all.
   */
  datatype Outcome<R> = Response(response: R) | Threw(error: string) | Undefined

  /** The attempts from the `i`-th on, with `n` the number of retries. */
  function Retry<R>(attempt: nat -> Attempt<R>, i: nat, n: int): Outcome<R>
    decreases n - i
  {
    if i >= n then Undefined
    else match attempt(i)
      case Resolved(r) => Response(r)
      case Rejected(e) => if i == n - 1 then Threw(e) else Retry(attempt, i + 1, n)
  }

  /** The number of `fetch` calls made from the `i`-th attempt on. */
  function Calls<R>(attempt: nat -> Attempt<R>, i: nat, n: int): nat
    decreases n - i
  {
    if i >= n then 0
    else if attempt(i).Resolved? || i == n - 1 then 1
    else 1 + Calls(attempt, i + 1, n)
  }

  /**
   * With at least one retry, the outcome is the first response, after as
   * many calls as it took, or the last attempt's error after `retries` calls
   * when none resolved; with none, nothing is fetched and the outcome is
   * `undefined`.
   */
  lemma {:induction false} RetryMeaning<R>(attempt: nat -> Attempt<R>, i: nat, n: int)
    requires i <= n
    ensures var r := Retry(attempt, i, n);
      var c := Calls(attempt, i, n);
      && (i == n ==> r == Undefined && c == 0)
      && (i < n ==>
        && i + c <= n
        && (r.Response? ==>
          && c >= 1
          && attempt(i + c - 1) == Resolved(r.response)
          && forall j :: i <= j < i + c - 1 ==> attempt(j).Rejected?)
        && (r.Threw? <==> forall j :: i <= j < n ==> attempt(j).Rejected?)
        && (r.Threw? ==> c == n - i && r.error == attempt(n - 1).error)
        && !r.Undefined?)
    decreases n - i
  {
    if i < n && attempt(i).Rejected? && i != n - 1 {
      RetryMeaning(attempt, i + 1, n);
    }
  }

  /** The loop of `fetchWithRetry`, returning from inside the `try` and throwing from the `catch`. */
  method FetchWithRetry<R>(attempt: nat -> Attempt<R>, retries: int) returns (r: Outcome<R>, calls: nat)
    ensures r == Retry(attempt, 0, retries)
    ensures calls == Calls(attempt, 0, retries)
  {
    calls := 0;
    var i := 0;
    while i < retries
      invariant 0 <= i && (retries >= 0 ==> i <= retries)
      invariant calls == i
      invariant Retry(attempt, 0, retries) == Retry(attempt, i, retries)
      invariant Calls(attempt, 0, retries) == i + Calls(attempt, i, retries)
      decreases retries - i
    {
      var a := attempt(i);
      calls := calls + 1;
      if a.Resolved? {
        return Response(a.response), calls;
      }
      if i == retries - 1 {
        return Threw(a.error), calls;
      }
      i := i + 1;
    }
    r := Undefined;
  }

  /** Without retries `fetchWithRetry` fetches nothing and settles to `undefined`. */
  lemma NoRetries<R>(attempt: nat -> Attempt<R>, retries: int)
    requires retries <= 0
    ensures Retry(attempt, 0, retries) == Undefined && Calls(attempt, 0, retries) == 0
  {
  }
}
