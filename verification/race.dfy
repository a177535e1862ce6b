/** One asynchronous operation raced against the abort signal. */
module RacingAbort {
  import opened Messages

  /** What may happen to a race, in any order and any number of times. */
  datatype Callback<+T> = AbortFired | Fulfilled(value: T) | Broke(error: string)

  /** The first callback decides; all later ones are ignored. */
  function Verdict<T>(history: seq<Callback<T>>): (v: Option<Callback<T>>) {
    if history == [] then None else Some(history[0])
  }

  class Race<T> {
    var settled: bool
    /** The abort listener is registered. */
    var listening: bool
    var outcome: Option<Callback<T>>
    /** How often the caller's own abort handler has run. */
    var abortHandled: nat
    ghost var history: seq<Callback<T>>

    /** The race has settled once, by its first callback, and then let go of the signal. */
    ghost predicate Valid()
      reads this
    {
      && outcome == Verdict(history)
      && (settled <==> history != [])
      && (listening <==> !settled)
      && abortHandled == (if Verdict(history) == Some(AbortFired) then 1 else 0)
    }

    constructor (aborted: bool)
      ensures Valid() && history == if aborted then [AbortFired] else []
    {
      settled, listening := aborted, !aborted;
      outcome := if aborted then Some(AbortFired) else None;
      abortHandled := if aborted then 1 else 0;
      history := if aborted then [AbortFired] else [];
    }

    method Abort()
      requires Valid()
      modifies this
      ensures Valid() && history == old(history) + [AbortFired]
    {
      history := history + [AbortFired];
      if settled {
        return;
      }
      settled, listening := true, false;
      abortHandled := abortHandled + 1;
      outcome := Some(AbortFired);
    }

    method Fulfil(value: T)
      requires Valid()
      modifies this
      ensures Valid() && history == old(history) + [Fulfilled(value)]
    {
      history := history + [Fulfilled(value)];
      if settled {
        return;
      }
      settled, listening, outcome := true, false, Some(Fulfilled(value));
    }

    method Fail(error: string)
      requires Valid()
      modifies this
      ensures Valid() && history == old(history) + [Broke(error)]
    {
      history := history + [Broke(error)];
      if settled {
        return;
      }
      settled, listening, outcome := true, false, Some(Broke(error));
    }
  }
}
