/**
 * The window's timer table behind `setTimeout`/`setInterval` and
 * `clearTimeout`/`clearInterval`.  Time is not modelled: a pending timer
 * fires when its owner's `Fire` method is called.
 */
module Timers {

  /** What a pending timer runs when it fires. */
  datatype Task = SavedCallback | ScanFrame | StopSession

  /** A pending timer: a one-shot timeout or a repeating interval, with its delay in milliseconds. */
  datatype Timer = Timer(repeat: bool, delay: int, task: Task)

  class TimerTable {
    var pending: map<nat, Timer>
    var nextId: nat

    /** Ids start at 1 (so a ref holding 0 names no timer) and are never reused. */
    ghost predicate Valid()
      reads this
    {
      nextId >= 1 && forall id :: id in pending ==> 1 <= id < nextId
    }

    constructor ()
      ensures Valid() && pending == map[] && nextId == 1
    {
      pending, nextId := map[], 1;
    }

    /** `setTimeout`/`setInterval`: arms a timer under a fresh id. */
    method Set(t: Timer) returns (id: nat)
      requires Valid()
      modifies this
      ensures Valid()
      ensures id == old(nextId) && id >= 1 && id !in old(pending)
      ensures pending == old(pending)[id := t] && nextId == id + 1
    {
      id := nextId;
      pending := pending[id := t];
      nextId := nextId + 1;
    }

    /** `clearTimeout`/`clearInterval`: cancels a pending timer; an unknown id is ignored. */
    method Clear(id: nat)
      requires Valid()
      modifies this
      ensures Valid()
      ensures pending == old(pending) - {id} && nextId == old(nextId)
    {
      pending := pending - {id};
    }
  }
}
