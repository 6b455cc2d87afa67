/**
 * src/hooks/useInterval.ts: a one-slot interval handle.  It differs from
 * the timeout handle only in that a firing interval stays armed.
 */
module UseInterval {
  import opened Wrappers
  import opened Timers

  const AlreadyStarted := "Interval already started"

  class Interval {
    const window: TimerTable
    const delay: int
    /** `intervalRef.current` */
    var slot: Option<nat>
    /** `savedCallback.current`: which callback the hook holds (0 is the initial no-op). */
    var callback: nat
    /** The callbacks run so far, in order. */
    var runs: seq<nat>

    /** An armed slot names a pending repeating timer that runs the saved callback. */
    ghost predicate Valid()
      reads this, window
    {
      window.Valid() && (slot.Some? ==> slot.value in window.pending && window.pending[slot.value] == Timer(true, delay, SavedCallback))
    }

    constructor (window: TimerTable, delay: int)
      requires window.Valid()
      ensures Valid() && this.window == window && this.delay == delay
      ensures slot == None && callback == 0 && runs == []
    {
      this.window, this.delay := window, delay;
      slot, callback, runs := None, 0, [];
    }

    /** `start` */
    method Start() returns (r: Outcome<string>)
      requires Valid()
      modifies this, window
      ensures Valid() && callback == old(callback) && runs == old(runs)
      ensures old(slot).None? ==>
        && r == Pass && slot == Some(old(window.nextId))
        && window.pending == old(window.pending)[slot.value := Timer(true, delay, SavedCallback)]
      ensures old(slot).Some? ==>
        && r == Fail(AlreadyStarted) && slot == old(slot)
        && window.pending == old(window.pending) && window.nextId == old(window.nextId)
    {
      if slot.None? {
        var id := window.Set(Timer(true, delay, SavedCallback));
        slot := Some(id);
        r := Pass;
      } else {
        r := Fail(AlreadyStarted);
      }
    }

    /** `clear`: cancels the armed interval; an empty slot is left alone. */
    method Clear()
      requires Valid()
      modifies this, window
      ensures Valid() && slot == None && callback == old(callback) && runs == old(runs)
      ensures window.nextId == old(window.nextId)
      ensures old(slot).Some? ==> window.pending == old(window.pending) - {old(slot).value}
      ensures old(slot).None? ==> window.pending == old(window.pending)
    {
      if slot.Some? {
        window.Clear(slot.value);
        slot := None;
      }
    }

    /** `reset`: never throws, and ends armed with a fresh interval while the old one is cancelled. */
    method Reset() returns (r: Outcome<string>)
      requires Valid()
      modifies this, window
      ensures Valid() && r == Pass && callback == old(callback) && runs == old(runs)
      ensures slot == Some(old(window.nextId)) && old(window.nextId) !in old(window.pending)
      ensures old(slot).Some? ==> old(slot).value !in window.pending
      ensures window.pending ==
        (if old(slot).Some? then old(window.pending) - {old(slot).value} else old(window.pending))[slot.value := Timer(true, delay, SavedCallback)]
    {
      Clear();
      r := Start();
    }

    /** The effect that keeps `savedCallback.current` on the latest callback. */
    method SetCallback(cb: nat)
      requires Valid()
      modifies this
      ensures Valid() && callback == cb && slot == old(slot) && runs == old(runs)
    {
      callback := cb;
    }

    /** The armed interval fires: the latest saved callback runs and the interval stays armed. */
    method Fire()
      requires Valid() && slot.Some?
      modifies this
      ensures Valid() && slot == old(slot) && callback == old(callback)
      ensures runs == old(runs) + [old(callback)]
    {
      runs := runs + [callback];
    }

    /** Mounting saves the callback and then starts, which succeeds on the empty slot of a new hook. */
    method Mount(cb: nat) returns (r: Outcome<string>)
      requires Valid() && slot == None
      modifies this, window
      ensures Valid() && r == Pass && callback == cb && slot == Some(old(window.nextId)) && runs == old(runs)
      ensures window.pending == old(window.pending)[slot.value := Timer(true, delay, SavedCallback)]
    {
      SetCallback(cb);
      r := Start();
    }

    /** Unmounting runs the `clear` cleanup. */
    method Unmount()
      requires Valid()
      modifies this, window
      ensures Valid() && slot == None && runs == old(runs)
      ensures old(slot).Some? ==> window.pending == old(window.pending) - {old(slot).value}
      ensures old(slot).None? ==> window.pending == old(window.pending)
    {
      Clear();
    }
  }

}
