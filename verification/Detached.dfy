/** The detached blocking lock and its completion callback (src/owner.rs:518-547 and src/owner.rs:676-696, with
src/tracker.rs:168-204). */
module Detached {
  import opened TrackerCore

  datatype Error = FromPre(code: int) | FromLock(code: int) | ThreadPanicked

  datatype Completion = Locked(params: int) | Failed(error: Error)

  /** How the pre-callback and the lock end; each may panic. */
  datatype Ending<R> = Panics | Ends(value: R)

  /** The callback, while it has not been called, and the calls made so far. */
  class Invoker {
    var armed: bool
    var calls: seq<Completion>

    ghost predicate Valid()
      reads this
    {
      |calls| == if armed then 0 else 1
    }

    constructor ()
      ensures Valid() && armed
    {
      armed, calls := true, [];
    }

    /** `invoke`: takes the callback out and runs it. Whether the callback itself panics makes no difference
        here: it has been taken out before it runs. */
    method Invoke(r: Completion)
      requires Valid()
      modifies this
      ensures Valid() && !armed
      ensures calls == if old(armed) then [r] else old(calls)
    {
      if armed {
        armed := false;
        calls := calls + [r];
      }
    }

    /** `drop`. */
    method Dropped()
      requires Valid()
      modifies this
      ensures Valid() && !armed
      ensures calls == if old(armed) then [Failed(ThreadPanicked)] else old(calls)
    {
      Invoke(Failed(ThreadPanicked));
    }
  }

  /** What the completion must be. */
  function Expected(created: bool, accepted: bool, pre: Ending<int>, lock: Ending<Completion>): Completion {
    if !created || !accepted || pre.Panics? then Failed(ThreadPanicked)
    else if pre.value != 0 then Failed(FromPre(pre.value))
    else if lock.Panics? then Failed(ThreadPanicked)
    else lock.value
  }

  /** `set_lock_blocking_detached` on a tracker in any state. `created` says whether the OS gave a thread, with
      pthread `p`; `pre` ends with an error code, 0 for success. In every case, also when the tracker is
      shutting down, the callback runs exactly once, with the right completion; and the tracker is left as
      it was found except for the new-thread flag. */
  method SetLockBlockingDetached(tracker: RawInterruptibleTracker, created: bool, p: Pthread, pre: Ending<int>, lock: Ending<Completion>)
    returns (spawned: bool, calls: seq<Completion>)
    requires p !in tracker.threads
    modifies tracker
    ensures calls == [Expected(created, old(tracker.canSpawn), pre, lock)]
    ensures |calls| == 1
    ensures !created || !old(tracker.canSpawn) || pre.Panics? ==> calls[0] == Failed(ThreadPanicked)
    ensures created && old(tracker.canSpawn) && pre.Ends? && pre.value != 0 ==> calls[0] == Failed(FromPre(pre.value))
    ensures created && old(tracker.canSpawn) && pre == Ends(0) ==>
              match lock case Panics => calls[0] == Failed(ThreadPanicked) case Ends(v) => calls[0] == v
    ensures spawned == (created && old(tracker.canSpawn))
    ensures tracker.canSpawn == old(tracker.canSpawn) && tracker.threads == old(tracker.threads)
  {
    var invoker := new Invoker();
    if !created {
      invoker.Dropped();
      return false, invoker.calls;
    }
    var accepted := tracker.TrackThread(p);
    if !accepted {
      invoker.Dropped();
      return false, invoker.calls;
    }
    if pre.Ends? {
      if pre.value != 0 {
        invoker.Invoke(Failed(FromPre(pre.value)));
      } else if lock.Ends? {
        invoker.Invoke(lock.value);
      }
    }
    // the closure is dropped, by returning or by unwinding, and then its guard
    invoker.Dropped();
    tracker.UntrackThread(p);
    return true, invoker.calls;
  }
}
