# ulockmgr, modelled and proved in Dafny

ulockmgr gives every lock owner a process of its own and drives POSIX record locks there over a Unix socket. This
project models the part of it in which threads, signals, reference counts, replies and descriptors have to fit
together, and proves what every run keeps.

How it is built:

- **Critical sections as functions, interleaved by step machines.** What runs under one mutex acquisition, one system
  call or one message is one event; a run is any sequence of enabled events, so every interleaving is a run. Theorems
  quantify over all runs (`Run(s0, es)` from an initial state) and, where they speak of the future, over all
  continuations. `TrackerMachine`, `StopProgress`, `Daemon`, `BlockingProtocol`, `LockService` and `OwnerCache` are such machines.
- **Imperative code as classes and methods.** `TrackerCore.RawInterruptibleTracker`,
  `TrackerCore.RawInterruptibleExitTracker`, `IdAllocation.IdMap`, `DaemonHandlers.DaemonOwnerInner`,
  `OwnerCache.LockManager`, `Wire.Socket`, `LockThread.Thread` and `Detached.Invoker` have the fields the code has.
  The methods of the tracker, the daemon, the id map, the cache and the socket are proved equal to the functions that the
  machines interleave, or to runs of the machines; what the server's lock method sends is shown to be what a run of its
  machine delivers (`ServerRefinement`); the client's methods and the detached lock are specified on their own, over every
  outcome of their system calls. What other threads do while a lock is free is a parameter of the method, over which the
  contract quantifies.

| file | what it models |
|---|---|
| `TrackerCore.dfy` | critical sections of the interruptible tracker, both `stop` loops |
| `TrackerMachine.dfy` | a tracker shared by many threads, `pthread_t` reuse, guards, concurrent `stop` calls |
| `StopDeadlock.dfy` | threads that call `stop` on each other: exactly which calls can return |
| `StopProgress.dfy` | lost signals: why stopping lock threads always gets through |
| `IdAllocation.dfy` | ids from a wrapping 64-bit counter |
| `Daemon.dfy` | registrations: descriptor map, `Arc` counts, exit lock, unregister |
| `DaemonProgress.dfy` | every Unregister completes in every fair run, lost signals included |
| `DaemonHandlers.dfy` | the register and exit handlers as code, refining the machine |
| `BlockingProtocol.dfy` | client and server of the blocking lock, interrupt map, reply streams |
| `ProtocolProgress.dfy` | an interrupted client call gets to its return |
| `LockThread.dfy` | signal masks and replies of the lock commands, both sides |
| `ServerRefinement.dfy` | the server's lock method and the machine's lock thread send the same |
| `LockTable.dfy` | the POSIX lock table and the second F_SETLKW |
| `LockService.dfy` | receiving loop, lock threads and other processes on one lock table |
| `Wire.dfy` | framing of requests and replies |
| `Payload.dfy` | requests and replies as bytes, in bincode 1's default layout |
| `OwnerCache.dfy` | the client's cache of owner processes |
| `Detached.dfy` | the completion callback |
| `IoErrors.dfy` | errors across the wire and the retry of `register` |
| `Types.dfy` | shared types and error numbers |

Assumed of the environment: mutexes, the RwLock and DashMap entry locks exclude as usual; the kernel's lock table follows
the `fcntl()` page of POSIX.1-2017 (System Interfaces); a signal interrupts F_SETLKW only while the thread is inside it
and is lost just before it; a stream socket keeps byte order and pins descriptors to their frame; payloads are
written in bincode 1's default layout (that decoding undoes encoding is then proved); a backoff is completed after finitely
many snoozes (the parameter `limit`); a failed ping means a dead owner and a dead owner stays dead; guards are not leaked; restoring a signal mask succeeds.

What the proofs found to be false of the code as one would first state it, kept as the code has it, with the exact condition:

- `threads` is a set: dropping one of two guards of a thread untracks the thread. Over every run, the set is exact at all times
  if and only if no guard is dropped while its thread has another (`TrackedExactlyIff`, `SecondGuardEscapesStop`).
- `InterruptibleTracker::stop` has no self test, and handles of different threads can wait for each other. Some continuation
  returns a pending `stop` if and only if no tracked thread is inside the tracker's `stop`, or waits through handle stops
  for a thread that is, or in a circle (`StopReturnsIff`, `HandleStopEndsIff`, `SelfStopHappens`, `MutualHandleStops`).
- The server goes on to F_SETLKW after an immediate grant. That is harmless if and only if no command of the owner
  process itself has left a byte of it otherwise in between (`SecondCallHarmlessInRunsIff`); otherwise an acknowledged unlock is undone
  (`AcknowledgedUnlockUndone`) or the second call waits (`SecondCallCanWait`).
- Owners are evicted by id. An eviction hits a live owner if and only if, after the evicting call got its own, another call
  inserted one for the id that has since neither died nor been evicted (`EvictRemovesLiveIff`,
  `OverlappingCallsEvictLiveOwner`, `StaleLookupEvictsLiveOwner`); without overlapping calls for one id that never happens
  (`OneLiveOwnerPerId`).
- "Owner already exited" is raised as a broken pipe, crosses the wire as EIO and is not retried (`RetryIff`,
  `KindSurvivesIff`), although a comment at the place that raises it asks for it to be treated as a broken pipe.
- A truncated header at the end of a stream is only peeked at: the receiving loop meets it for ever
  (`NoProgressIffTruncatedHeader`, `TruncatedHeaderLoops`), although the branch is called recoverable.
- A receive leaves the stream at a frame boundary if and only if its second system call is not cut short by a signal
  (`BoundaryKeptIff`).

## Model

| member | source | states |
|---|---|---|
| TrackerCore.RawInterruptibleTracker.constructor | src/tracker.rs:151-163 | a new tracker is open, empty and has no new thread |
| TrackerCore.RawInterruptibleTracker.TrackThread | src/tracker.rs:34-45 | refused exactly when closed; otherwise the thread is in the set and flagged as new |
| TrackerCore.RawInterruptibleTracker.UntrackThread | src/tracker.rs:47-51 | the thread is out of the set, nothing else changes |
| TrackerCore.RawInterruptibleTracker.Stop | src/tracker.rs:207-252 | the whole loop equals its specification over every behaviour of other threads; returns only closed and empty; signals everything it finds first |
| TrackerCore.RawInterruptibleTracker.RunRound | src/tracker.rs:213-234 | one pass under the lock: reset, signals, snooze or wait |
| TrackerCore.Reacquire | src/tracker.rs:235-249 | snoozes left after the snooze and any number of failed attempts to relock |
| TrackerCore.ClosedOps | src/tracker.rs:34-51 | once closed, no critical section of anybody grows the set or raises the new-thread flag |
| TrackerCore.StopRunSafe | src/tracker.rs:207-252 | a stop call signals only threads tracked when it began, all of them before it first releases the lock, and returns only with the set empty |
| TrackerCore.RawInterruptibleExitTracker.StopHandle | src/tracker.rs:104-138 | the handle's stop equals its specification; panics exactly when called by the thread itself before exit; has signalled when it waits |
| TrackerCore.RawInterruptibleExitTracker.Mark | src/tracker.rs:85-94 | the second half of a guard's drop sets the exit flag |
| TrackerCore.HandleRunEnds | src/tracker.rs:104-138 | the handle's stop returns if and only if the flag was or gets set |
| TrackerMachine.RunKeepsInv | src/tracker.rs:34-270 | the invariant of every interleaving: guards not yet exited have a living thread, tracked pthreads a live guard, waiting stops have closed the tracker and signalled all it tracks |
| TrackerMachine.KillsHitGuardedThreads | src/tracker.rs:104-121 | with pthread values reused freely, every pthread_kill hits a thread with an unfinished guard, and a handle hits only the thread it was made for |
| TrackerMachine.HandlePanicsIffReentrant | src/tracker.rs:108-111 | the pthread comparison is true for the guarded thread itself and for no other |
| TrackerMachine.TrackedExactlyIff | src/tracker.rs:71-94 | over every run, the tracked set is at all times the set of guarded threads if and only if no guard is dropped while its thread has another |
| TrackerMachine.TrackedExactly | src/tracker.rs:165-204 | in particular it is with at most one live guard per thread |
| TrackerMachine.DropKeepsExactIff | src/tracker.rs:85-94 | dropping a guard keeps the set exact if and only if its thread has no other live guard |
| TrackerMachine.SecondGuardEscapesStop | src/tracker.rs:255-270 | the run in which a second guard lets stop return while a closure still runs |
| TrackerMachine.StoppedForGood | src/tracker.rs:168-252 | after a stop has returned, in every later state nothing is tracked, no guard is made and no closure runs |
| TrackerMachine.SpawnRunsIffOpen | src/tracker.rs:168-204 | a spawned closure runs under a live guard if the tracker is open when its thread makes the guard; otherwise nothing is tracked and it runs in no continuation |
| TrackerMachine.BackoffResetAtMostOnce | src/tracker.rs:213-219 | over all stop calls the backoff is reset at most once in a tracker's life, and every waiting stop has signalled every tracked thread |
| StopDeadlock.StopReturnsIff | src/tracker.rs:207-252 | in every reachable state, some continuation returns a pending tracker stop if and only if no tracked thread is in a tracker stop, or waits through handle stops for one that is, or in a circle |
| StopDeadlock.HandleStopEndsIff | src/tracker.rs:104-138 | in every reachable state, some continuation ends a pending handle stop if and only if the chain of waits from its caller ends, where a tracker stop ends it only if that can return |
| StopDeadlock.StuckForever | src/tracker.rs:85-94 | threads that wait for each other, or for a tracked set with a member among them, are never freed |
| StopDeadlock.SelfStopNeverReturns | src/tracker.rs:207-212 | a stop called from a tracked thread returns in no continuation, nor does any other pending stop of the tracker |
| StopDeadlock.SelfStopHappens | src/tracker.rs:255-270 | the run that reaches such a state, with a second stop from a thread that is not tracked |
| StopDeadlock.MutualHandleStops | src/tracker.rs:108-111 | the run in which two closures stop each other's handle and neither call ever ends or panics |
| StopProgress.RunKeepsInv | src/tracker.rs:168-252 | in every run the tracked set is the set of lock threads between guard and untrack, and stop calls have sound locals |
| StopProgress.MeasureNeverGrows | src/owner.rs:408-454 | no event of any thread, lost signals included, moves a waiting stop further from its return |
| StopProgress.FairStretchProgress | src/tracker.rs:207-252 | a stretch in which the stop gets the lock twice and movable threads move ends with the stop returned or strictly closer |
| StopProgress.StopReturnsInEveryFairRun | src/tracker.rs:207-252 | in every fair run, after at most as many stretches as the ranking says, tracker stop and handle stop have returned |
| StopProgress.StopNeverStuck | src/tracker.rs:104-138 | from every reachable state in which a stop waits, a continuation bounded by the ranking returns it |
| StopProgress.SignalCanBeLost | src/owner.rs:436-445 | the run in which a signal is lost between unblocking SIGUSR1 and F_SETLKW, and the thread parks in that |
| StopProgress.PendingSignalIsLost | src/helpers.rs:39-49 | the run in which a signal that came while SIGUSR1 was blocked is lost when that is unblocked |
| IdAllocation.IdMap.Insert | src/owner.rs:311-322 | the id was free, is the first free one in cyclic order, no entry is overwritten, and there are at most live entries plus one tries |
| IdAllocation.AheadInjective | src/owner.rs:276-289 | ids tried within one lap differ, also across the wrap |
| Daemon.StrongCountCountsReferences | src/owner.rs:326-406 | in every run the strong count is the number of references in the map, the loop and the threads, and the descriptor is released exactly at zero |
| Daemon.UnregisterOkMeansGone | src/owner.rs:326-339 | an Unregister for an id answered Ok: the registration that had this id is out of the map, was released before the reply, no reference exists or is ever made again; an id without a registration is never answered Ok |
| Daemon.UnregisterTakesRequested | src/owner.rs:327-330 | in every run an Unregister takes out exactly the entry that its id has when it gets there, and nothing if there is none |
| Daemon.LockCommandActsOnRequested | src/owner.rs:341-406 | in every run a lock command works on exactly the registration of its id, runs exactly once, and its lock thread works on no other; without a registration nothing happens |
| Daemon.CountOneIsStable | src/owner.rs:333-337 | once the strong count of a claimed registration is 1 it stays 1 until the unregister drops it |
| Daemon.LocksOnlyOpenDescriptors | src/owner.rs:341-406 | whoever may be inside an fcntl has an open descriptor |
| Daemon.StepKeepsHomes | src/owner.rs:304-331 | every registration has exactly one home: about to be inserted, under one id, or claimed by one unregister |
| Daemon.StepKeepsReaders | src/owner.rs:55-78 | the exit lock's read guards are exactly the unreleased registrations and a register in progress |
| Daemon.ExitIsFinal | src/owner.rs:68-77 | a true exit flag means no live registration, now and in every continuation, and no later Register succeeds |
| Daemon.OwnerCanLeaveIff | src/owner.rs:68-77 | in every run the owner can leave if and only if every registration is released and no Register is between guard and data |
| Daemon.RegisterOkIff | src/owner.rs:304-324 | in every run a Register is answered Ok if and only if its data went into the map, and never when it begins after the exit |
| Daemon.RegisteredOwnerStays | src/owner.rs:125-166 | in every run, from before a Register's Ok reply until an Unregister drops its data, the owner has not left and cannot leave through the TTL, also while the Unregister waits |
| DaemonProgress.UnregisterCompletesInEveryFairRun | src/owner.rs:326-339 | in every fair run, after at most as many stretches as the ranking says, an Unregister is answered Ok and its registration gone, with lock threads parked in F_SETLKW and signals lost |
| DaemonProgress.MeasureNeverGrows | src/owner.rs:341-454 | no event of any thread moves an Unregister further from its reply |
| DaemonProgress.FairStretchProgress | src/tracker.rs:207-252 | a stretch in which everybody who can act does ends with the Unregister answered or strictly closer |
| DaemonProgress.SomebodyCanAct | src/owner.rs:333-337 | some lock thread, the loop or the Unregister itself always has a step; the Unregister once all lock threads are parked and the loop is elsewhere, also while it waits for the strong count |
| DaemonProgress.UnregisterCanComplete | src/owner.rs:326-406 | from every reachable state an Unregister can be driven to its reply in a bounded number of steps |
| DaemonHandlers.DaemonOwnerInner.TryToExit | src/owner.rs:68-77 | succeeds exactly when no read guard exists, and is the machine's exit step |
| DaemonHandlers.DaemonOwnerInner.AcquireExitLock | src/owner.rs:56-66 | a read guard, or an error and no guard once the owner has exited |
| DaemonHandlers.DaemonOwnerInner.HandleFdRegister | src/owner.rs:304-324 | a run of the machine's register steps; on failure nothing changes, on success one reference, one guard, one fresh id |
| BlockingProtocol.InterruptFindsItsThread | src/owner.rs:261-274 | at most one Interrupt per call, and while the client waits it finds the handle of its own lock thread |
| BlockingProtocol.NextReadDoesNotWait | src/owner.rs:608-645 | after an acknowledged Interrupt the lock thread has exited and the next read is ready |
| BlockingProtocol.ClientReturnsFirstTerminalReply | src/owner.rs:588-647 | Pending only first, every Done with the parameters asked for, the unexpected-pending branch is unreachable, and the result is the first terminal reply or end of stream |
| BlockingProtocol.ClientResultIff | src/owner.rs:595-645 | in every run the client returns a local failure if and only if a local call of its own failed; otherwise the first terminal reply if the stream has one, and connection closed if it has none |
| BlockingProtocol.SignalBecomesInterrupt | src/owner.rs:632-641 | in every run each signal taken in the wait is turned into exactly one Interrupt, unless a local call fails |
| BlockingProtocol.OnlySentReplies | src/messages.rs:48-69 | a reply is on the stream only if its send went through |
| BlockingProtocol.InterruptAnsweredByMap | src/owner.rs:261-274 | an Interrupt goes to the thread entered under its id and is refused if there is none |
| BlockingProtocol.RemoveAnsweredByMap | src/owner.rs:291-302 | a RemoveInterrupt is answered Ok exactly if there is an entry, which is then gone, and touches no other |
| BlockingProtocol.AckDecides | src/owner.rs:634-641 | an acknowledged client reads on with signals blocked, a refused one gives up |
| BlockingProtocol.InterruptMapConserved | src/owner.rs:276-302 | the interrupt map holds exactly the ids added and not yet removed, each under its own call |
| BlockingProtocol.RemovedExactlyOnce | src/owner.rs:493-516 | one RemoveInterrupt on every way out after a Pending, none otherwise, and it removes this call's entry |
| ProtocolProgress.InterruptedCallReturns | src/owner.rs:618-645 | in every run, a call whose client has taken its signal makes at most seventeen more steps, and until it has returned one of them is possible |
| ProtocolProgress.InterruptedCallCanReturn | src/owner.rs:588-647 | from every reachable state in which a client has taken its signal, at most seventeen steps of its own call return it, whatever other calls are doing |
| ProtocolProgress.HelpfulStep | src/owner.rs:261-302 | until it has returned, some enabled step of its own call brings such a client strictly closer |
| LockThread.Thread.BlockAll | src/helpers.rs:51-60 | all signals are added to the mask and the old mask is returned |
| LockThread.Thread.UnblockUsr1 | src/helpers.rs:39-49 | SIGUSR1 is taken from the mask and the old mask is returned |
| LockThread.Thread.Restore | src/helpers.rs:29-37 | the saved mask is back |
| LockThread.ServeBlocking | src/owner.rs:408-454 | entry mask back on every path, SIGUSR1 and no other signal deliverable in the one F_SETLKW and nothing anywhere else; the first reply says what F_SETLK did, with Pending for EAGAIN, the second what F_SETLKW did |
| ServerRefinement.ServeBlockingIsARun | src/owner.rs:408-454 | for every outcome and however many interrupt ids are in use, these replies are what a run of the machine's lock thread delivers before it exits |
| ServerRefinement.NoThreadIsARun | src/owner.rs:346-358 | without a registration the machine delivers ENOENT, without a thread nothing, and the stream is closed |
| ServerRefinement.AddLoop | src/owner.rs:276-289 | run without interference, the machine's two steps per try enter the handle under the first free id in cyclic order |
| LockThread.HandleLockCommand | src/owner.rs:341-406 | a non-blocking command is answered Done exactly if F_SETLK was granted and its error otherwise, a get what the kernel filled in; a blocking one nothing, one error or two replies, Done exactly for what was granted, Pending only first and exactly for EAGAIN |
| LockThread.LockDirect | src/owner.rs:550-586 | get_lock and set_lock_nonblocking: entry mask back on every path, one request and one read, no signal deliverable |
| LockThread.DirectCommand | src/owner.rs:550-586 | against this server their branch for an unexpected Pending is never taken; they return what the fcntl call did, a local error exactly if a local call failed, or find the stream closed exactly if the reply was lost |
| LockThread.LockBlocking | src/owner.rs:588-647 | entry mask back on every path, SIGUSR1 and no other signal deliverable exactly in the loop's read before any Interrupt; the exact number of reads, an Interrupt exactly for a signal taken there, one RemoveInterrupt exactly after a Pending, a local error exactly if a local call failed, and otherwise what the last read gave |
| LockTable.SecondCallHarmlessIff | src/owner.rs:422-453 | F_SETLKW after a granted F_SETLK neither waits nor changes the table if and only if no command of the owner in between left a byte of it otherwise |
| LockTable.SecondCallHarmlessAmongOthers | src/owner.rs:422-453 | other processes can make the second call neither wait nor matter |
| LockTable.OwnLockIsLastOwn | src/owner.rs:422-453 | a process's lock on a byte is what its own last effective command made it |
| LockTable.CoversExtent | src/types.rs:118-125 | which bytes a request names: length 1 is one byte, lengths add up, negative ones end where they start, 0 goes on for ever |
| LockService.SecondCallHarmlessInRunsIff | src/owner.rs:422-453 | in every run of loop, lock threads and other processes, the second call neither waits nor changes the table if and only if the owner's own last effective command on each byte since the grant left it as asked |
| LockService.SecondCallHarmlessUndisturbed | src/owner.rs:422-453 | in particular if no other command of the owner process touched the file in between |
| LockService.AcknowledgedUnlockUndone | src/owner.rs:423-426 | the run in which lock and unlock are both answered Done, nobody holds the file, and the lock thread then takes it again |
| LockService.SecondCallCanWait | src/owner.rs:436-445 | the run in which the second call is left waiting for a lock the client was already given |
| LockService.DirectAnswer | src/owner.rs:371-386 | in every run a non-blocking command is told Done exactly if the table granted it, and then has the bytes it asked for; an error leaves the table alone |
| LockService.FirstAnswer | src/owner.rs:423-435 | in every run the first reply of a lock thread is what its F_SETLK did, a refusal told as Pending |
| LockService.LastAnswer | src/owner.rs:446-453 | in every run the last reply is Done exactly if F_SETLKW was granted, and then it has the bytes it asked for |
| Wire.ReceiveTakesOneFrame | src/messages.rs:581-680 | a receive takes exactly 16 bytes and the payload, whatever follows and whatever is wrong with the frame |
| Wire.FramesAreIndependent | src/messages.rs:788-810 | good and bad frames in any order are read as each would be alone, up to the boundary behind the last |
| Wire.RequestsRoundTrip | src/messages.rs:762-810 | any sequence of requests arrives as sent, each with its reply descriptor, Register with its own descriptor |
| Wire.RepliesRoundTrip | src/messages.rs:564-577 | any sequence of replies is read as sent, results with their descriptors and error numbers as errors, whatever follows; then the reader waits on an open channel and finds the end of a closed one |
| Wire.RequestReadAfterErrors | src/owner.rs:175-197 | a request behind any number of faulty frames is read correctly |
| Wire.NoProgressIffTruncatedHeader | src/messages.rs:589-615 | at the end of a stream a recoverable error consumes nothing if and only if a truncated header is left |
| Wire.TruncatedHeaderLoops | src/owner.rs:184-192 | the receiving loop then meets the same bytes any number of times |
| Wire.BrokenOffStream | src/messages.rs:595-657 | what every cut of the last frame leads to |
| Wire.PartialFrameIsAwaited | src/messages.rs:623-628 | on an open stream a frame that has arrived in part is waited for and none of it is taken |
| Wire.FailuresPassedOn | src/messages.rs:589-596 | a failed system call takes nothing; EINTR and nothing else is an interruption, a broken pipe means EPIPE or an empty closed stream |
| Payload.RawRoundTrip | src/messages.rs:72-92 | decoding the bytes of any raw message gives it back, in at most 44 bytes |
| Payload.ParamsRoundTrip | src/types.rs:118-125 | any lock parameters, negative offsets included, survive the wire |
| Payload.RawLayout | src/messages.rs:74-92 | variants by their position in the declaration, and the length of each message |
| Payload.ParamsLayout | src/types.rs:119-125 | the fields of lock parameters in the order of their declaration |
| Payload.AnswerLayout | src/messages.rs:56-68 | the result's variant, then the data's, then the fields |
| Payload.ReplyBytesRoundTrip | src/messages.rs:489-493 | replies to lock commands round trip down to the bytes, on open and closed channels; unit and id replies have lawful encodings too |
| Payload.BytesRoundTrip | src/messages.rs:762-810 | requests round trip down to the bytes, with no assumption on the encoding |
| Wire.BoundaryKeptIff | src/messages.rs:623-657 | at a frame, a failing system call takes nothing, and the boundary is kept if and only if the second call is not cut short |
| Wire.Socket.SendRawMessage | src/messages.rs:683-708 | succeeds exactly if header, payload and descriptors are out as one frame; an error puts nothing out, a short send a frame that breaks off |
| Wire.Socket.ReceiveRawMessage | src/messages.rs:581-680 | equals the receive function for every outcome of both system calls; interrupted exactly for EINTR, and then nothing is taken |
| Wire.Socket.ReceiveRequest | src/messages.rs:788-810 | the reply descriptor off the front, then decoding; each error with its kind, a Register without exactly one descriptor of its own refused |
| Wire.Socket.ReadReply | src/messages.rs:564-577 | the iterator ends exactly at EPIPE or at the end of a closed stream, a signal in the peek is an interruption that takes nothing, an error number is the server's error, a bad payload is invalid data |
| Wire.Socket.ReadRequests | src/owner.rs:175-197 | the loop reads the stream request by request, goes on after exactly the three recoverable kinds, ends at the end of the connection, and dies of any other error, of an interruption exactly for EINTR |
| OwnerCache.OneLiveOwnerPerId | src/lib.rs:84-161 | without overlapping calls for an id, only dead owners leave the cache and an id has at most one live owner, the cached one |
| OwnerCache.PingReturnsIff | src/lib.rs:115-120 | in every run a call returns the owner it pings if and only if that is alive at the ping, or the TTL is zero and the call has spawned an owner; otherwise it goes on to evict |
| OwnerCache.ZeroTtlKeepsNewOwner | src/lib.rs:114-120 | a call with a zero TTL returns the very owner it spawned, dead or not |
| OwnerCache.CleanRemovesIffDead | src/lib.rs:159-160 | the cleanup thread takes out an entry if and only if its owner is dead, and no other |
| OwnerCache.EvictRemovesLiveIff | src/lib.rs:116-118 | in every run, an eviction takes out a live owner if and only if some call inserted one for the id after the evicting call got its own, and that neither died nor was evicted since |
| OwnerCache.LiveEntryIff | src/lib.rs:96-119 | after any run the cached owner of an id is alive exactly if an insertion of the run, or the entry before it, survived it |
| OwnerCache.OverlappingCallsEvictLiveOwner | src/lib.rs:84-122 | the run in which overlapping calls leave two live owners of one id |
| OwnerCache.StaleLookupEvictsLiveOwner | src/lib.rs:91-96 | the run in which the replacement comes between lookup and ping, and is evicted |
| OwnerCache.LockManager.GetOrCreateOwner | src/lib.rs:84-122 | the loop, with any other calls in its gaps, is a run of the machine; a returned owner answered its ping or is kept for a zero TTL; nothing is returned only if spawning failed or every pass evicted |
| OwnerCache.LockManager.Entry | src/lib.rs:96-113 | lookup under the entry lock, else spawn and insert, as one step |
| OwnerCache.LockManager.PingOrEvict | src/lib.rs:115-119 | the owner is kept if and only if it is exempt or alive at the ping; otherwise the id is removed |
| OwnerCache.LockManager.Interfere | src/lib.rs:149-161 | what other calls, the cleanup thread and dying owners do in a gap is a run that leaves this call where it stands |
| Detached.Invoker.Invoke | src/owner.rs:533-537 | the callback runs at most once and keeps its first completion |
| Detached.Invoker.Dropped | src/owner.rs:540-547 | dropping runs the callback if it has not run |
| Detached.SetLockBlockingDetached | src/owner.rs:676-696 | the callback runs exactly once, with the lock's result, the pre-callback's error, or the panic error when there is no thread, no tracker or a panic |
| IoErrors.KindSurvivesIff | src/owner.rs:237-259 | which error kinds survive the wire, exactly |
| IoErrors.ErrorAsSeen | src/owner.rs:238-257 | an error of the operating system arrives as it was, one that was made up under the number of its kind, or as EIO |
| IoErrors.RetryIff | src/lib.rs:132-134 | registration is retried exactly for a broken pipe on the client's side or an EPIPE from the server, with a dead owner, succeeds exactly if the file is registered, and is given up with the error otherwise; an exiting owner's refusal is given up as EIO |
| IoErrors.Register | src/lib.rs:125-137 | the loop ends with the first pass that is not retried, which one without an owner never is, in success exactly if that registered the file and else with its error |

## Left out

- Process spawning, close-on-exec handling, the command line and the coordinator process: spawning is a step that yields a fresh live owner.
- Conversions between lock types and their numbers: small finite tables; requests carry the datatypes, and the lock table takes whence as Start.
- Real time: TTLs, sleeps and timeouts are steps that may happen at any moment.
- The handlers for Unregister, Interrupt, RemoveInterrupt and lock commands are steps of the machines on values, not methods on a shared object: update in place is captured only as replacement of the state at each step.
- StopDeadlock.StopReturnsIff: says that a returning run exists; closures are user code and may go on for ever, so no fair run is promised for them. For the server's lock threads it is, in `StopProgress` and `DaemonProgress`.
- Stopping client threads in a detached lock: `StopProgress` models the server's lock threads; a client thread's return also depends on the server answering its Interrupt.
- `BlockingProtocol` lets F_SETLKW end at any moment; that re-sent signals do make it end is in `StopProgress` and `DaemonProgress`.
- Progress of the receiving loop and of reply sends: sends never block here, because socket buffer limits are not modelled.
- Ancillary messages other than descriptors, 32-bit length conversion and allocation failure in a receive.
- IdAllocation.IdMap.Insert: with all 2^64 ids taken the code would loop for ever; the contract asks for a free id.
- The order of bytes in a header is little-endian here and the machine's own in the code; both ends agree either way.
