/**
 * The reconnect timer shared by the two socket scripts
 * (`websocket_client.js` and `listener.js`): `retryInterval` holds the
 * handle of the interval that retries the connection every three seconds,
 * `startReconnect` arms one only when none is held, and a successful
 * `onopen` clears it. Handles are modelled as the positive numbers
 * `setInterval` hands out, so a held handle is always truthy.
 */
module Reconnect {
  import opened Wrappers

  /** `retryDelay`, in milliseconds. */
  const RetryDelay: nat := 3000

  /** The handles a handle slot refers to: none, or the one it holds. */
  function Handles(slot: Option<nat>): set<nat>
  {
    if slot.Some? then {slot.value} else {}
  }

  class Retry {
    /** `retryInterval`: `None` for `undefined` or `null`. */
    var interval: Option<nat>
    /** The intervals that are armed and not yet cleared. */
    var armed: set<nat>
    /** The next handle `setInterval` returns. */
    var nextHandle: nat

    /** Exactly the held interval is armed: none is ever leaked. */
    predicate Valid()
      reads this
    {
      && armed == Handles(interval)
      && 0 < nextHandle
      && (interval.Some? ==> 0 < interval.value < nextHandle)
    }

    /** The script's globals before any disconnect: no interval. */
    constructor ()
      ensures Valid() && interval == None && armed == {}
    {
      interval := None;
      armed := {};
      nextHandle := 1;
    }

    /** `startReconnect`: a new interval only when none is held. */
    method StartReconnect()
      requires Valid()
      modifies this
      ensures Valid()
      ensures old(interval).Some? ==> interval == old(interval) && armed == old(armed)
      ensures old(interval).None? ==> interval == Some(old(nextHandle)) && armed == {old(nextHandle)}
    {
      if interval.None? {
        interval := Some(nextHandle);
        armed := {nextHandle};
        nextHandle := nextHandle + 1;
      }
    }

    /** The start of `onopen`: a held interval is cleared and the slot set to `null`. */
    method ClearOnOpen()
      requires Valid()
      modifies this
      ensures Valid() && interval == None && armed == {}
      ensures nextHandle == old(nextHandle)
    {
      if interval.Some? {
        armed := armed - {interval.value};
        interval := None;
      }
    }
  }

  /** At most one retry interval is ever outstanding. */
  lemma AtMostOne(r: Retry)
    requires r.Valid()
    ensures |r.armed| <= 1
    ensures r.armed == {} <==> r.interval.None?
  {
  }
}
