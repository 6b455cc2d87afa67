/**
 * src/hooks/useTimeout.ts: a one-slot timeout handle.  `start` arms the
 * slot or throws when it is already armed, `clear` cancels and empties it,
 * `reset` is `clear` then `start`, and a firing timeout runs the latest
 * saved callback and only then empties the slot, so a callback that throws
 * leaves the slot naming a timer that has already fired.
 */
module UseTimeout {
  import opened Wrappers
  import opened Timers

  const AlreadyStarted := "Timeout already started"

  /** The error a saved callback throws out of the timer task. */
  const CallbackError := "CallbackError"

  class Timeout {
    const window: TimerTable
    const delay: int
    /** `timeoutRef.current` */
    var slot: Option<nat>
    /** `savedCallback.current`: which callback the hook holds (0 is the initial no-op). */
    var callback: nat
    /** The callbacks run so far, in order. */
    var runs: seq<nat>

    /**
     * An armed slot names a timer the table issued; while that timer is
     * pending it is a one-shot timer that runs the saved callback.  (After a
     * callback throws, the slot keeps naming the spent timer.)
     */
    ghost predicate Valid()
      reads this, window
    {
      && window.Valid()
      && (slot.Some? ==> slot.value < window.nextId)
      && (slot.Some? && slot.value in window.pending ==> window.pending[slot.value] == Timer(false, delay, SavedCallback))
    }

    constructor (window: TimerTable, delay: int)
      requires window.Valid()
      ensures Valid() && this.window == window && this.delay == delay
      ensures slot == None && callback == 0 && runs == []
    {
      this.window, this.delay := window, delay;
      slot, callback, runs := None, 0, [];
    }

    /** `start` */
    method Start() returns (r: Outcome<string>)
      requires Valid()
      modifies this, window
      ensures Valid() && callback == old(callback) && runs == old(runs)
      ensures old(slot).None? ==>
        && r == Pass && slot == Some(old(window.nextId))
        && window.pending == old(window.pending)[slot.value := Timer(false, delay, SavedCallback)]
      ensures old(slot).Some? ==>
        && r == Fail(AlreadyStarted) && slot == old(slot)
        && window.pending == old(window.pending) && window.nextId == old(window.nextId)
    {
      if slot.None? {
        var id := window.Set(Timer(false, delay, SavedCallback));
        slot := Some(id);
        r := Pass;
      } else {
        r := Fail(AlreadyStarted);
      }
    }

    /** `clear`: cancels the armed timer (a spent one is no longer in the table); an empty slot is left alone. */
    method Clear()
      requires Valid()
      modifies this, window
      ensures Valid() && slot == None && callback == old(callback) && runs == old(runs)
      ensures window.nextId == old(window.nextId)
      ensures old(slot).Some? ==> window.pending == old(window.pending) - {old(slot).value}
      ensures old(slot).None? ==> window.pending == old(window.pending)
    {
      if slot.Some? {
        window.Clear(slot.value);
        slot := None;
      }
    }

    /** `reset`: never throws, and ends armed with a fresh timer while the old one is cancelled. */
    method Reset() returns (r: Outcome<string>)
      requires Valid()
      modifies this, window
      ensures Valid() && r == Pass && callback == old(callback) && runs == old(runs)
      ensures slot == Some(old(window.nextId)) && old(window.nextId) !in old(window.pending)
      ensures old(slot).Some? ==> old(slot).value !in window.pending
      ensures window.pending ==
        (if old(slot).Some? then old(window.pending) - {old(slot).value} else old(window.pending))[slot.value := Timer(false, delay, SavedCallback)]
    {
      Clear();
      r := Start();
    }

    /** The effect that keeps `savedCallback.current` on the latest callback. */
    method SetCallback(cb: nat)
      requires Valid()
      modifies this
      ensures Valid() && callback == cb && slot == old(slot) && runs == old(runs)
    {
      callback := cb;
    }

    /**
     * The armed timeout fires: the timer leaves the table, the latest saved
     * callback runs, and only when it returns is the slot emptied.  `throws`
     * is whether the callback throws; then the error reaches the event loop
     * and the slot still names the spent timer, so every later `start`
     * fails until `clear` runs.
     */
    method Fire(throws: bool) returns (r: Outcome<string>)
      requires Valid() && slot.Some? && slot.value in window.pending
      modifies this, window
      ensures Valid() && callback == old(callback)
      ensures runs == old(runs) + [old(callback)]
      ensures window.pending == old(window.pending) - {old(slot).value} && window.nextId == old(window.nextId)
      ensures !throws ==> r == Pass && slot == None
      ensures throws ==> r == Fail(CallbackError) && slot == old(slot) && slot.value !in window.pending
    {
      window.Clear(slot.value);
      runs := runs + [callback];
      if throws {
        return Fail(CallbackError);
      }
      slot := None;
      r := Pass;
    }

    /**
     * A callback that throws leaves the hook stuck: the next `start` fails
     * with "Timeout already started" although no timer of the hook is
     * pending, and only `clear` (or `reset`) re-arms it.
     */
    method ThrowingCallbackBlocksStart() returns (started: Outcome<string>)
      requires Valid() && slot.Some? && slot.value in window.pending
      modifies this, window
      ensures Valid() && started == Fail(AlreadyStarted)
      ensures slot.Some? && slot.value !in window.pending
      ensures runs == old(runs) + [old(callback)]
    {
      var _ := Fire(true);
      started := Start();
    }

    /** Mounting saves the callback and then starts, which succeeds on the empty slot of a new hook. */
    method Mount(cb: nat) returns (r: Outcome<string>)
      requires Valid() && slot == None
      modifies this, window
      ensures Valid() && r == Pass && callback == cb && slot == Some(old(window.nextId)) && runs == old(runs)
      ensures window.pending == old(window.pending)[slot.value := Timer(false, delay, SavedCallback)]
    {
      SetCallback(cb);
      r := Start();
    }

    /** Unmounting runs the `clear` cleanup. */
    method Unmount()
      requires Valid()
      modifies this, window
      ensures Valid() && slot == None && runs == old(runs)
      ensures old(slot).Some? ==> window.pending == old(window.pending) - {old(slot).value}
      ensures old(slot).None? ==> window.pending == old(window.pending)
    {
      Clear();
    }
  }
}
