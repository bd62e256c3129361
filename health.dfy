/**
 * `health.js`: a check of `/api/health` every minute, skipped while an
 * answer streams. The first failed check (a response that is not `ok`, or a
 * request that throws) shows the connection-lost modal and stops the
 * checks; a successful check changes nothing. The modal is created the
 * first time it is needed and only re-displayed after that.
 */
module Health {
  import opened Wrappers
  import Reconnect

  /** `setInterval(checkHealth, 60000)`: the period, in milliseconds. */
  const HealthPeriod: nat := 60000

  /** How a health request settles. */
  datatype Outcome = Ok | NotOk(status: int) | Threw

  /** A check that found the server unreachable or unhealthy. */
  predicate Failed(o: Outcome)
  {
    !o.Ok?
  }

  class Monitor {
    /** `healthCheckInterval`: `None` once it is `null`. */
    var interval: Option<nat>
    /** The intervals that are armed and not yet cleared. */
    var armed: set<nat>
    /** Whether `#connection-lost-modal` is in the document. */
    var modalExists: bool
    /** Whether it is displayed (`display: flex`). */
    var modalShown: bool
    /** How many modal elements have been created. */
    var modalCreations: nat
    /** The health requests made. */
    var requests: nat

    /** The armed interval is the one held, and there is at most one modal. */
    predicate Valid()
      reads this
    {
      && armed == Reconnect.Handles(interval)
      && modalCreations == (if modalExists then 1 else 0)
      && (modalShown ==> modalExists)
    }

    /** The script at load: the interval is armed (the first `checkHealth()` follows as a call to `CheckHealth`). */
    constructor ()
      ensures Valid()
      ensures interval == Some(1) && armed == {1}
      ensures !modalExists && !modalShown && modalCreations == 0 && requests == 0
    {
      interval := Some(1);
      armed := {1};
      modalExists := false;
      modalShown := false;
      modalCreations := 0;
      requests := 0;
    }

    /** `showConnectionLostModal`: create the modal once, then display it. */
    method ShowConnectionLostModal()
      requires Valid()
      modifies this
      ensures Valid() && modalExists && modalShown && modalCreations == 1
      ensures old(modalExists) ==> modalCreations == old(modalCreations)
      ensures interval == old(interval) && armed == old(armed) && requests == old(requests)
    {
      if !modalExists {
        modalExists := true;
        modalCreations := modalCreations + 1;
      }
      modalShown := true;
    }

    /** `stopHealthCheck`: clear and null the interval, only if one is held. */
    method StopHealthCheck()
      requires Valid()
      modifies this
      ensures Valid() && interval == None && armed == {}
      ensures old(interval).None? ==> armed == old(armed)
      ensures modalExists == old(modalExists) && modalShown == old(modalShown)
      ensures modalCreations == old(modalCreations) && requests == old(requests)
    {
      if interval.Some? {
        armed := armed - {interval.value};
        interval := None;
      }
    }

    /**
     * `checkHealth` with `isStreaming` and the request's outcome: while
     * streaming nothing happens and no request is made; a success changes
     * nothing else; a failure shows the modal and stops the checks.
     */
    method CheckHealth(isStreaming: bool, outcome: Outcome)
      requires Valid()
      modifies this
      ensures Valid()
      ensures requests == old(requests) + (if isStreaming then 0 else 1)
      ensures isStreaming || !Failed(outcome) ==>
        && interval == old(interval) && armed == old(armed)
        && modalExists == old(modalExists) && modalShown == old(modalShown)
        && modalCreations == old(modalCreations)
      ensures !isStreaming && Failed(outcome) ==>
        && interval == None && armed == {}
        && modalExists && modalShown && modalCreations == 1
    {
      if isStreaming {
        return;
      }
      requests := requests + 1;
      if Failed(outcome) {
        ShowConnectionLostModal();
        StopHealthCheck();
      }
    }
  }
}
