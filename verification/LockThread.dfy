/** The straight-line code of both blocking-lock functions with its signal masks and replies
(src/helpers.rs:15-60, src/owner.rs:341-454 and src/owner.rs:588-647).

Every system call outcome is a parameter. A thread carries its signal mask and a trace of what it did under
which mask; the RAII guards of the code are explicit restores on each way out.
*/
module LockThread {
  import opened IdAllocation
  import opened Types

  type Signal = nat

  const SIGUSR1: Signal := 10

  const ALL_SIGNALS: set<Signal> := set s: nat | 1 <= s <= 64

  datatype Op = FSetLk | FSetLkw | AddHandle | SendReply | SendLock | ReadReply | SendInterrupt | SendRemove

  /** Something a thread did, and the signals that were blocked meanwhile. */
  datatype Act = Act(op: Op, mask: set<Signal>)

  function Count(trace: seq<Act>, op: Op): nat {
    if trace == [] then 0 else (if trace[0].op == op then 1 else 0) + Count(trace[1..], op)
  }

  lemma {:induction false} CountAppend(a: seq<Act>, b: seq<Act>, op: Op)
    ensures Count(a + b, op) == Count(a, op) + Count(b, op)
  {
    if a == [] {
      assert a + b == b;
    } else {
      assert (a + b)[1..] == a[1..] + b;
      CountAppend(a[1..], b, op);
    }
  }

  /** No signal can be taken. */
  ghost predicate Shut(mask: set<Signal>) {
    ALL_SIGNALS <= mask
  }

  /** SIGUSR1 can be taken, and nothing else. */
  ghost predicate OpenForUsr1(mask: set<Signal>) {
    SIGUSR1 !in mask && ALL_SIGNALS - {SIGUSR1} <= mask
  }

  /** On the server, SIGUSR1 is open in F_SETLKW; everything else is shut. */
  ghost predicate ServerMasks(trace: seq<Act>) {
    forall i | 0 <= i < |trace| :: if trace[i].op == FSetLkw then OpenForUsr1(trace[i].mask) else Shut(trace[i].mask)
  }

  /** On the client, a read in the loop before any Interrupt: neither the first read, nor one after an Interrupt. */
  predicate WindowRead(before: seq<Act>, op: Op) {
    op == ReadReply && Count(before, ReadReply) > 0 && Count(before, SendInterrupt) == 0
  }

  ghost predicate ClientMask(before: seq<Act>, a: Act) {
    if WindowRead(before, a.op) then OpenForUsr1(a.mask) else Shut(a.mask)
  }

  /** On the client, SIGUSR1 is open exactly in such reads; everything else is shut. */
  ghost predicate ClientMasks(trace: seq<Act>) {
    forall i | 0 <= i < |trace| :: ClientMask(trace[..i], trace[i])
  }

  lemma ClientMasksAppend(trace: seq<Act>, a: Act)
    requires ClientMasks(trace) && ClientMask(trace, a)
    ensures ClientMasks(trace + [a])
  {
    forall i | 0 <= i < |trace + [a]| ensures ClientMask((trace + [a])[..i], (trace + [a])[i]) {
      assert (trace + [a])[..i] == trace[..i];
      assert trace[..|trace|] == trace;
    }
  }

  class Thread {
    var mask: set<Signal>
    var trace: seq<Act>

    constructor (entry: set<Signal>)
      ensures mask == entry && trace == []
    {
      mask, trace := entry, [];
    }

    /** `block_all_signals`; the result is the mask to restore. */
    method BlockAll(fails: bool) returns (restore: Option<set<Signal>>)
      modifies this`mask
      ensures fails ==> restore == None && mask == old(mask)
      ensures !fails ==> restore == Some(old(mask)) && mask == old(mask) + ALL_SIGNALS
    {
      if fails {
        return None;
      }
      restore := Some(mask);
      mask := mask + ALL_SIGNALS;
    }

    /** `unblock_signal(SIGUSR1)`. */
    method UnblockUsr1(fails: bool) returns (restore: Option<set<Signal>>)
      modifies this`mask
      ensures fails ==> restore == None && mask == old(mask)
      ensures !fails ==> restore == Some(old(mask)) && mask == old(mask) - {SIGUSR1}
    {
      if fails {
        return None;
      }
      restore := Some(mask);
      mask := mask - {SIGUSR1};
    }

    /** `SigSetGuard::drop`. */
    method Restore(old_: set<Signal>)
      modifies this`mask
      ensures mask == old_
    {
      mask := old_;
    }

    method Do(op: Op)
      modifies this`trace
      ensures trace == old(trace) + [Act(op, mask)]
      ensures forall o :: Count(trace, o) == Count(old(trace), o) + if o == op then 1 else 0
      ensures ClientMasks(old(trace)) && ClientMask(old(trace), Act(op, mask)) ==> ClientMasks(trace)
    {
      if ClientMasks(trace) && ClientMask(trace, Act(op, mask)) {
        ClientMasksAppend(trace, Act(op, mask));
      }
      forall o ensures Count(trace + [Act(op, mask)], o) == Count(trace, o) + if o == op then 1 else 0 {
        CountAppend(trace, [Act(op, mask)], o);
      }
      trace := trace + [Act(op, mask)];
    }
  }

  // ----- the server

  /** How an fcntl call ends. */
  datatype Outcome = Granted | Errno(errno: I32)

  function AsReply(o: Outcome, params: LockParams): Reply {
    match o case Granted => Done(params) case Errno(n) => Err(n)
  }

  /** What a lock thread sends in all. */
  function ServerReplies(params: LockParams, blockErr: Option<I32>, probe: Outcome, id: U64, unblockErr: Option<I32>, wait: Outcome): seq<Reply> {
    if blockErr.Some? then [Err(blockErr.value)]
    else
      [if probe == Errno(EAGAIN) then Pending(id) else AsReply(probe, params),
       if unblockErr.Some? then Err(unblockErr.value) else AsReply(wait, params)]
  }

  /** The server's `set_lock_blocking`: it does not return after an immediate Done or a first error, but goes
      on to F_SETLKW. `probe` is the outcome of F_SETLK, `wait` that of F_SETLKW, `id` the interrupt id that
      `handle_interrupt_add` allots. */
  method ServeBlocking(t: Thread, params: LockParams, blockErr: Option<I32>, probe: Outcome, id: U64, unblockErr: Option<I32>, wait: Outcome)
    returns (replies: seq<Reply>)
    requires t.trace == []
    modifies t
    ensures t.mask == old(t.mask)
    ensures replies == ServerReplies(params, blockErr, probe, id, unblockErr, wait)
    ensures blockErr.Some? ==> replies == [Err(blockErr.value)]
    ensures blockErr.None? ==>
              && |replies| == 2
              && (match probe case Granted => replies[0] == Done(params) case Errno(n) => replies[0] == if n == EAGAIN then Pending(id) else Err(n))
              && (if unblockErr.Some? then replies[1] == Err(unblockErr.value)
                  else match wait case Granted => replies[1] == Done(params) case Errno(n) => replies[1] == Err(n))
    ensures Count(t.trace, SendReply) == |replies|
    ensures Count(t.trace, FSetLkw) == if blockErr.None? && unblockErr.None? then 1 else 0
    ensures Count(t.trace, AddHandle) == if blockErr.None? && probe == Errno(EAGAIN) then 1 else 0
    ensures blockErr.None? ==> ServerMasks(t.trace)
  {
    var restore := t.BlockAll(blockErr.Some?);
    if restore.None? {
      t.Do(SendReply);
      return [Err(blockErr.value)];
    }
    var first := TryAtOnce(t, params, probe, id);
    var second := WaitForLock(t, params, unblockErr, wait);
    t.Restore(restore.value);
    return [first, second];
  }

  /** The F_SETLK try and its reply. */
  method TryAtOnce(t: Thread, params: LockParams, probe: Outcome, id: U64) returns (reply: Reply)
    requires t.trace == [] && ALL_SIGNALS <= t.mask
    modifies t`trace
    ensures reply == if probe == Errno(EAGAIN) then Pending(id) else AsReply(probe, params)
    ensures Count(t.trace, SendReply) == 1 && Count(t.trace, FSetLkw) == 0
    ensures Count(t.trace, AddHandle) == if probe == Errno(EAGAIN) then 1 else 0
    ensures ServerMasks(t.trace)
  {
    t.Do(FSetLk);
    match probe {
      case Granted => reply := Done(params);
      case Errno(n) =>
        if n == EAGAIN {
          t.Do(AddHandle);
          reply := Pending(id);
        } else {
          reply := Err(n);
        }
    }
    t.Do(SendReply);
  }

  /** The window in which SIGUSR1 is unblocked, F_SETLKW inside it, and the last reply. */
  method WaitForLock(t: Thread, params: LockParams, unblockErr: Option<I32>, wait: Outcome) returns (reply: Reply)
    requires ALL_SIGNALS <= t.mask && ServerMasks(t.trace)
    modifies t
    ensures t.mask == old(t.mask) && ServerMasks(t.trace)
    ensures reply == if unblockErr.Some? then Err(unblockErr.value) else AsReply(wait, params)
    ensures Count(t.trace, SendReply) == old(Count(t.trace, SendReply)) + 1
    ensures Count(t.trace, FSetLkw) == old(Count(t.trace, FSetLkw)) + if unblockErr.None? then 1 else 0
    ensures Count(t.trace, AddHandle) == old(Count(t.trace, AddHandle))
  {
    var inner := t.UnblockUsr1(unblockErr.Some?);
    if inner.None? {
      t.Do(SendReply);
      return Err(unblockErr.value);
    }
    t.Do(FSetLkw);
    t.Restore(inner.value);
    t.Do(SendReply);
    return AsReply(wait, params);
  }

  /** How a blocking command gets its thread: the OS refuses it, the tracker is closed, or it runs. */
  datatype Spawned = NotSpawned | Runs(blockErr: Option<I32>, probe: Outcome, id: U64, unblockErr: Option<I32>, wait: Outcome)

  /** The reply to F_GETLK: what the kernel filled in, which must be a lock that the types know. */
  function StatusReply(o: Outcome, filled: Option<LockParams>): Reply {
    match o
    case Errno(n) => Err(n)
    case Granted => if filled.Some? then Done(filled.value) else Err(EINVAL)
  }

  /** `handle_lock_command`, for a registration that is or is not in the map; `direct` is the outcome of the one fcntl call
      of a get or non-blocking command. These yield exactly one Done or error, a set with the parameters asked for and
      a get with what the kernel filled in; a blocking command yields nothing, one error, or two replies, with
      Pending possible only as the first, exactly when F_SETLK said EAGAIN. */
  method HandleLockCommand(found: bool, action: LockAction, params: LockParams, direct: Outcome, filled: Option<LockParams>, lock: Spawned)
    returns (replies: seq<Reply>)
    ensures !found ==> replies == [Err(ENOENT)]
    ensures found && action == GetLockStatus ==>
              match direct
              case Granted => replies == (if filled.Some? then [Done(filled.value)] else [Err(EINVAL)])
              case Errno(n) => replies == [Err(n)]
    ensures found && action == SetLockNonBlocking ==>
              match direct case Granted => replies == [Done(params)] case Errno(n) => replies == [Err(n)]
    ensures found && action == SetLockBlocking && lock.NotSpawned? ==> replies == []
    ensures found && action == SetLockBlocking && lock.Runs? && lock.blockErr.Some? ==> replies == [Err(lock.blockErr.value)]
    ensures found && action == SetLockBlocking && lock.Runs? && lock.blockErr.None? ==>
              && |replies| == 2
              && (replies[0].Done? <==> lock.probe == Granted)
              && (replies[1].Done? <==> lock.wait == Granted && lock.unblockErr.None?)
              && (forall i | 0 <= i < 2 && replies[i].Done? :: replies[i].params == params)
              && (forall n: I32 :: replies[0] == Err(n) <==> lock.probe == Errno(n) && n != EAGAIN)
              && (forall n: I32 :: replies[1] == Err(n) <==> if lock.unblockErr.Some? then lock.unblockErr == Some(n) else lock.wait == Errno(n))
              && (replies[0].Pending? <==> lock.probe == Errno(EAGAIN))
    ensures forall i | 0 <= i < |replies| && replies[i].Pending? ::
              i == 0 && |replies| == 2 && found && action == SetLockBlocking && lock.probe == Errno(EAGAIN) && replies[0] == Pending(lock.id)
  {
    if !found {
      return [Err(ENOENT)];
    }
    match action {
      case GetLockStatus => return [StatusReply(direct, filled)];
      case SetLockNonBlocking => return [AsReply(direct, params)];
      case SetLockBlocking =>
        if lock.NotSpawned? {
          return [];
        }
        var t := new Thread({});
        replies := ServeBlocking(t, params, lock.blockErr, lock.probe, lock.id, lock.unblockErr, lock.wait);
    }
  }

  // ----- the client

  /** What the stream gives; an error is one other than EINTR. */
  datatype Item = Got(reply: Reply) | EndOfStream | ReadError(errno: int)

  /** What a read of the reply stream would give, and whether SIGUSR1 comes first. */
  datatype Read = Read(signalled: bool, item: Item)

  datatype Result = Value(reply: Reply) | Closed | UnexpectedPending | LocalError

  /** A read under the given mask: the signal is taken only if it is deliverable. */
  function Taken(r: Read, mask: set<Signal>): Option<Item> {
    if r.signalled && SIGUSR1 !in mask then None else Some(r.item)
  }

  /** What the client does with an item that ends its loop. */
  function Conclude(i: Item): Result {
    match i
    case Got(r) => if Terminal(r) then Value(r) else UnexpectedPending
    case EndOfStream => Closed
    case ReadError(_) => LocalError
  }

  /** `get_lock` and `set_lock_nonblocking`, which differ in the action they send only: one request, one read, all signals
      blocked. */
  method LockDirect(t: Thread, blockFails: bool, sendFails: bool, item: Item) returns (result: Result)
    requires t.trace == []
    modifies t
    ensures t.mask == old(t.mask) && forall i | 0 <= i < |t.trace| :: Shut(t.trace[i].mask)
    ensures result == LocalError <==> blockFails || sendFails || item.ReadError?
    ensures result != LocalError ==>
              match item
              case Got(r) => result == (if r.Pending? then UnexpectedPending else Value(r))
              case EndOfStream => result == Closed
              case ReadError(_) => false
    ensures Count(t.trace, SendLock) <= 1 && Count(t.trace, ReadReply) == if blockFails || sendFails then 0 else 1
  {
    var restore := t.BlockAll(blockFails);
    if restore.None? {
      return LocalError;
    }
    t.Do(SendLock);
    if sendFails {
      t.Restore(restore.value);
      return LocalError;
    }
    t.Do(ReadReply);
    t.Restore(restore.value);
    return Conclude(item);
  }

  /** A get or non-blocking command from the client to the server and back, over every outcome on both sides; `sent` says whether
      the server's reply got onto the stream, which ends after it either way. The branch for an unexpected Pending is
      never taken: unless a local call fails, the client returns the server's one reply, or finds the stream
      closed if that was lost. */
  method DirectCommand(t: Thread, found: bool, action: LockAction, params: LockParams, direct: Outcome, filled: Option<LockParams>, lock: Spawned,
                       blockFails: bool, sendFails: bool, sent: bool, readErr: Option<int>)
    returns (result: Result)
    requires t.trace == [] && action != SetLockBlocking
    modifies t
    ensures t.mask == old(t.mask)
    ensures result != UnexpectedPending
    ensures result == LocalError <==> blockFails || sendFails || readErr.Some?
    ensures result == Closed <==> !blockFails && !sendFails && readErr.None? && !sent
    ensures result.Value? && !found ==> result.reply == Err(ENOENT)
    ensures result.Value? && found && action == SetLockNonBlocking ==>
              match direct case Granted => result.reply == Done(params) case Errno(n) => result.reply == Err(n)
    ensures result.Value? && found && action == GetLockStatus ==>
              match direct
              case Granted => result.reply == (if filled.Some? then Done(filled.value) else Err(EINVAL))
              case Errno(n) => result.reply == Err(n)
  {
    var replies := HandleLockCommand(found, action, params, direct, filled, lock);
    var item := if readErr.Some? then ReadError(readErr.value) else if sent then Got(replies[0]) else EndOfStream;
    result := LockDirect(t, blockFails, sendFails, item);
  }

  predicate PendingFirst(stream: nat -> Read) {
    stream(0).item.Got? && stream(0).item.reply.Pending?
  }

  /** The client's `set_lock_blocking`, over every outcome of its system calls; `stream` gives the successive reads of the reply
      stream. On every way out the entry mask is back; SIGUSR1 is deliverable exactly during the read in the loop that no
      Interrupt came before, and no other signal ever. An Interrupt is sent exactly if that read takes the signal;
      RemoveInterrupt exactly if a Pending was read. The call ends with a local error if and only if a local call failed,
      and otherwise with what the last read gave. */
  method LockBlocking(t: Thread, blockFails: bool, sendFails: bool, unblockFails: bool, interruptOk: bool, stream: nat -> Read)
    returns (result: Result, used: nat)
    requires t.trace == []
    modifies t
    ensures t.mask == old(t.mask)
    ensures ClientMasks(t.trace)
    ensures used == Count(t.trace, ReadReply)
    ensures used == if blockFails || sendFails then 0
                    else if !PendingFirst(stream) || unblockFails then 1
                    else if !stream(1).signalled || !interruptOk then 2
                    else 3
    ensures Count(t.trace, SendInterrupt) == if used >= 2 && stream(1).signalled then 1 else 0
    ensures Count(t.trace, SendRemove) == if used > 0 && PendingFirst(stream) then 1 else 0
    ensures result == LocalError <==>
              || blockFails || sendFails || (PendingFirst(stream) && unblockFails)
              || (Count(t.trace, SendInterrupt) == 1 && !interruptOk)
              || stream(used - 1).item.ReadError?
    ensures result != LocalError ==>
              && used > 0
              && match stream(used - 1).item
                 case Got(r) => result == (if r.Pending? then UnexpectedPending else Value(r))
                 case EndOfStream => result == Closed
                 case ReadError(_) => false
  {
    used := 0;
    var restore := t.BlockAll(blockFails);
    if restore.None? {
      return LocalError, 0;
    }
    t.Do(SendLock);
    if sendFails {
      t.Restore(restore.value);
      return LocalError, 0;
    }
    t.Do(ReadReply);
    used := 1;
    var first := Taken(stream(0), t.mask).value;
    if !first.Got? || Terminal(first.reply) {
      t.Restore(restore.value);
      return Conclude(first), used;
    }
    result, used := AwaitOutcome(t, unblockFails, interruptOk, stream);
    // Interruptable is dropped before the outer mask is restored
    t.Do(SendRemove);
    t.Restore(restore.value);
  }

  /** The loop of the client's `set_lock_blocking`, entered with all signals blocked after one reply. */
  method AwaitOutcome(t: Thread, unblockFails: bool, interruptOk: bool, stream: nat -> Read) returns (result: Result, used: nat)
    requires ALL_SIGNALS <= t.mask
    requires ClientMasks(t.trace)
    requires Count(t.trace, SendInterrupt) == 0 && Count(t.trace, SendRemove) == 0 && Count(t.trace, ReadReply) == 1
    modifies t
    ensures t.mask == old(t.mask)
    ensures ClientMasks(t.trace)
    ensures Count(t.trace, SendRemove) == 0 && used == Count(t.trace, ReadReply)
    ensures used == if unblockFails then 1 else if !stream(1).signalled || !interruptOk then 2 else 3
    ensures Count(t.trace, SendInterrupt) == if used >= 2 && stream(1).signalled then 1 else 0
    ensures result == (if unblockFails || (stream(1).signalled && !interruptOk) then LocalError else Conclude(stream(used - 1).item))
  {
    used := 1;
    var interrupted := false;
    while true
      invariant t.mask == old(t.mask)
      invariant ClientMasks(t.trace)
      invariant Count(t.trace, SendRemove) == 0 && Count(t.trace, SendInterrupt) == if interrupted then 1 else 0
      invariant used == Count(t.trace, ReadReply) == if interrupted then 2 else 1
      invariant interrupted ==> stream(1).signalled && interruptOk && !unblockFails
      decreases !interrupted
    {
      var inner := Some(t.mask);
      if !interrupted {
        inner := t.UnblockUsr1(unblockFails);
        if inner.None? {
          return LocalError, used;
        }
      }
      t.Do(ReadReply);
      var item := Taken(stream(used), t.mask);
      used := used + 1;
      t.Restore(inner.value);
      if item.Some? {
        return Conclude(item.value), used;
      }
      interrupted := true;
      t.Do(SendInterrupt);
      if !interruptOk {
        return LocalError, used;
      }
    }
  }
}
