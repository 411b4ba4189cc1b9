/** The owner daemon's registrations (src/owner.rs:39-166 and src/owner.rs:304-406), as a step machine.

The receiving loop, any number of unregister threads and lock threads and the TTL thread interleave
freely. `FdData` is shared through an `Arc`; its strong count is a number that clones and drops change,
and the descriptor and the read guard of the exit lock go away with the last reference. The exit lock is
the number of read guards in existence, which is all that `try_write` looks at.
*/
module Daemon {
  import opened TrackerCore
  import opened IdAllocation
  import SP = StopProgress

  type Obj = nat
  type Pid = nat

  datatype FdData = FdData(count: nat, tracker: Data, released: bool)

  /** The receiving loop: idle, inside `handle_fd_register`, or inside `handle_lock_command`. */
  datatype Loop =
    | Idle
    | RegAcquired                   // read guard taken, flag not looked at
    | RegGuarded                    // flag seen false
    | RegBuilt(o: Obj)              // Arc made, not in the map yet
    | RegDone(ok: bool)             // reply to send
    | CmdHolding(o: Obj)            // clone of the Arc taken from the map
    | CmdSpawning(o: Obj, t: Pid)   // lock thread created, waiting for its answer
    | CmdFinishing(o: Obj)          // about to drop the clone

  /** A thread of the daemon: one Unregister request, or one blocking lock. */
  datatype Proc =
    | UnregStart(id: U64)
    | UnregMissing
    | UnregStopping(o: Obj, first: bool, local: Local)  // out of the map, in tracker.stop()
    | UnregDrained(o: Obj)                              // stop() has returned
    | UnregAlone(o: Obj)                                // strong_count was 1
    | UnregDropped(o: Obj)                              // own reference dropped
    | UnregAnswered(o: Obj)                             // Ok sent
    | LockStarting(o: Obj)                              // closure holds a clone
    | LockRunning(o: Obj)                               // tracked, closure running
    | LockClosed(o: Obj)                                // closure gone, still tracked
    | LockRefused(o: Obj)                               // tracker closed, closure not dropped yet
    | LockGone

  datatype State = State(
    limit: nat,
    exited: bool,
    readers: nat,
    objects: map<Obj, FdData>,
    descriptors: map<U64, Obj>,
    nextId: U64,
    loop: Loop,
    procs: map<Pid, Proc>,
    workers: map<Pid, SP.Worker>)   // where each lock thread is in its closure, and whether SIGUSR1 is pending on it

  datatype Event =
    | TryExit
    | RecvRegister | RegCheck | RegBuild(o: Obj, ok: bool) | RegTry | RegReply
    | RecvUnregister(u: Pid, id: U64) | UnregRemove(u: Pid) | UnregRound(u: Pid, snoozes: nat)
    | UnregCount(u: Pid) | UnregDrop(u: Pid) | UnregReply(u: Pid)
    | RecvLock(id: U64) | CmdDirect | CmdSpawn(t: Pid, ok: bool) | CmdAnswered | CmdDone
    | LockTrack(t: Pid) | LockStep(t: Pid, ok: bool) | LockGranted(t: Pid) | LockEnd(t: Pid) | LockUntrack(t: Pid) | LockRefusedDrop(t: Pid)

  predicate Init(s: State) {
    && !s.exited && s.readers == 0 && s.objects == map[] && s.descriptors == map[]
    && s.loop == Idle && s.procs == map[] && s.workers == map[]
  }

  // ----- who holds a reference

  predicate LoopHolds(l: Loop, o: Obj) {
    (l.RegBuilt? || l.CmdHolding? || l.CmdSpawning? || l.CmdFinishing?) && l.o == o
  }

  predicate ProcHolds(p: Proc, o: Obj) {
    (p.UnregStopping? || p.UnregDrained? || p.UnregAlone? || p.LockStarting? || p.LockRunning? || p.LockRefused?) && p.o == o
  }

  function ProcHolders(procs: map<Pid, Proc>, o: Obj): set<Pid> {
    set p | p in procs && ProcHolds(procs[p], o)
  }

  function KeyHolders(ds: map<U64, Obj>, o: Obj): set<U64> {
    set i | i in ds && ds[i] == o
  }

  function One(b: bool): nat {
    if b then 1 else 0
  }

  /** How many references to `o` there are. */
  function References(s: State, o: Obj): nat {
    |KeyHolders(s.descriptors, o)| + One(LoopHolds(s.loop, o)) + |ProcHolders(s.procs, o)|
  }

  // ----- steps

  function Cloned(objects: map<Obj, FdData>, o: Obj): map<Obj, FdData>
    requires o in objects
  {
    objects[o := objects[o].(count := objects[o].count + 1)]
  }

  /** One reference fewer; with the last one the descriptor is closed and the exit guard released. */
  function Dropped(objects: map<Obj, FdData>, o: Obj): map<Obj, FdData>
    requires o in objects
  {
    objects[o := objects[o].(count := Less(objects[o].count), released := objects[o].released || objects[o].count <= 1)]
  }

  function Retracked(objects: map<Obj, FdData>, o: Obj, d: Data): map<Obj, FdData>
    requires o in objects
  {
    objects[o := objects[o].(tracker := d)]
  }

  function Less(n: nat): nat {
    if n == 0 then 0 else n - 1
  }

  predicate OnObject(s: State, p: Pid) {
    && p in s.procs && !OnNoObject(s.procs[p]) && s.procs[p].o in s.objects
  }

  predicate LoopOnObject(s: State) {
    (s.loop.RegBuilt? || s.loop.CmdHolding? || s.loop.CmdSpawning? || s.loop.CmdFinishing?) && s.loop.o in s.objects
  }

  /** The lock thread has a step of its own to make in its closure: it is not inside F_SETLKW and not at the end. */
  predicate InClosure(pc: SP.Pc) {
    pc == SP.Tracked || pc == SP.Masked || pc == SP.Probed || pc == SP.Window || pc == SP.Back
  }

  predicate Enabled(s: State, e: Event) {
    match e
    case TryExit => s.readers == 0
    case RecvRegister => s.loop == Idle
    case RegCheck => s.loop == RegAcquired
    case RegBuild(o, _) => s.loop == RegGuarded && o !in s.objects
    case RegTry => s.loop.RegBuilt?
    case RegReply => s.loop.RegDone?
    case RecvUnregister(u, _) => s.loop == Idle && u !in s.procs
    case UnregRemove(u) => u in s.procs && s.procs[u].UnregStart?
    case UnregRound(u, snoozes) =>
      // a call that dropped the lock in order to snooze does so
      OnObject(s, u) && s.procs[u].UnregStopping? && (!s.procs[u].first && s.procs[u].local.left > 0 ==> snoozes > 0)
    case UnregCount(u) => OnObject(s, u) && s.procs[u].UnregDrained? && s.objects[s.procs[u].o].count == 1
    case UnregDrop(u) => OnObject(s, u) && s.procs[u].UnregAlone?
    case UnregReply(u) => OnObject(s, u) && s.procs[u].UnregDropped?
    case RecvLock(id) => s.loop == Idle && (id in s.descriptors ==> s.descriptors[id] in s.objects)
    case CmdDirect => LoopOnObject(s) && s.loop.CmdHolding?
    case CmdSpawn(t, _) => LoopOnObject(s) && s.loop.CmdHolding? && t !in s.procs
    case CmdAnswered => LoopOnObject(s) && s.loop.CmdSpawning? && s.loop.t in s.procs && !s.procs[s.loop.t].LockStarting?
    case CmdDone => LoopOnObject(s) && s.loop.CmdFinishing?
    case LockTrack(t) => OnObject(s, t) && s.procs[t].LockStarting?
    case LockStep(t, _) => OnObject(s, t) && s.procs[t].LockRunning? && t in s.workers && InClosure(s.workers[t].pc)
    case LockGranted(t) => OnObject(s, t) && s.procs[t].LockRunning? && t in s.workers && s.workers[t].pc == SP.Waiting
    case LockEnd(t) => OnObject(s, t) && s.procs[t].LockRunning? && t in s.workers && s.workers[t].pc == SP.Closed
    case LockUntrack(t) => OnObject(s, t) && s.procs[t].LockClosed?
    case LockRefusedDrop(t) => OnObject(s, t) && s.procs[t].LockRefused?
  }

  /** The critical section of stop() that unregister thread `u` runs next. */
  function RoundFor(s: State, u: Pid, snoozes: nat): Round
    requires OnObject(s, u) && s.procs[u].UnregStopping?
  {
    var p := s.procs[u];
    var d := s.objects[p.o].tracker;
    StopRound(if p.first then Close(d) else d, SnoozedTimes(p.local, snoozes), s.limit)
  }

  function NextObjects(s: State, e: Event): map<Obj, FdData>
    requires Enabled(s, e)
  {
    match e
    case RegBuild(o, ok) => if ok then s.objects[o := FdData(1, Data(true, false, {}), false)] else s.objects
    case UnregRound(u, n) => Retracked(s.objects, s.procs[u].o, RoundFor(s, u, n).data)
    case UnregDrop(u) => Dropped(s.objects, s.procs[u].o)
    case RecvLock(id) => if id in s.descriptors then Cloned(s.objects, s.descriptors[id]) else s.objects
    case CmdSpawn(_, ok) => if ok then Cloned(s.objects, s.loop.o) else s.objects
    case CmdDone => Dropped(s.objects, s.loop.o)
    case LockTrack(t) => Retracked(s.objects, s.procs[t].o, Track(s.objects[s.procs[t].o].tracker, t))
    case LockEnd(t) => Dropped(s.objects, s.procs[t].o)
    case LockUntrack(t) => Retracked(s.objects, s.procs[t].o, Untrack(s.objects[s.procs[t].o].tracker, t))
    case LockRefusedDrop(t) => Dropped(s.objects, s.procs[t].o)
    case _ => s.objects
  }

  /** The object of which the event drops a reference. */
  function DroppedBy(s: State, e: Event): set<Obj>
    requires Enabled(s, e)
  {
    match e
    case UnregDrop(u) => {s.procs[u].o}
    case CmdDone => {s.loop.o}
    case LockEnd(t) => {s.procs[t].o}
    case LockRefusedDrop(t) => {s.procs[t].o}
    case _ => {}
  }

  /** Read guards of the exit lock: one goes with the last reference to a registration. */
  function NextReaders(s: State, e: Event): nat
    requires Enabled(s, e)
  {
    if e.RecvRegister? then s.readers + 1
    else if (e.RegCheck? && s.exited) || (e.RegBuild? && !e.ok) then Less(s.readers)
    else if exists o | o in DroppedBy(s, e) && o in s.objects :: s.objects[o].count <= 1 && !s.objects[o].released then Less(s.readers)
    else s.readers
  }

  function NextDescriptors(s: State, e: Event): map<U64, Obj>
    requires Enabled(s, e)
  {
    match e
    case RegTry => if s.nextId in s.descriptors then s.descriptors else s.descriptors[s.nextId := s.loop.o]
    case UnregRemove(u) => if s.procs[u].id in s.descriptors then s.descriptors - {s.procs[u].id} else s.descriptors
    case _ => s.descriptors
  }

  function NextLoop(s: State, e: Event): Loop
    requires Enabled(s, e)
  {
    match e
    case RecvRegister => RegAcquired
    case RegCheck => if s.exited then RegDone(false) else RegGuarded
    case RegBuild(o, ok) => if ok then RegBuilt(o) else RegDone(false)
    case RegTry => if s.nextId in s.descriptors then s.loop else RegDone(true)
    case RegReply => Idle
    case RecvLock(id) => if id in s.descriptors then CmdHolding(s.descriptors[id]) else Idle
    case CmdDirect => CmdFinishing(s.loop.o)
    case CmdSpawn(t, ok) => if ok then CmdSpawning(s.loop.o, t) else CmdFinishing(s.loop.o)
    case CmdAnswered => CmdFinishing(s.loop.o)
    case CmdDone => Idle
    case _ => s.loop
  }

  function NextProcs(s: State, e: Event): map<Pid, Proc>
    requires Enabled(s, e)
  {
    match e
    case RecvUnregister(u, id) => s.procs[u := UnregStart(id)]
    case UnregRemove(u) =>
      var id := s.procs[u].id;
      s.procs[u := if id in s.descriptors then UnregStopping(s.descriptors[id], true, Local(s.limit, false)) else UnregMissing]
    case UnregRound(u, n) =>
      var r, o := RoundFor(s, u, n), s.procs[u].o;
      s.procs[u := if r.outcome == Return then UnregDrained(o) else UnregStopping(o, false, r.local)]
    case UnregCount(u) => s.procs[u := UnregAlone(s.procs[u].o)]
    case UnregDrop(u) => s.procs[u := UnregDropped(s.procs[u].o)]
    case UnregReply(u) => s.procs[u := UnregAnswered(s.procs[u].o)]
    case CmdSpawn(t, ok) => if ok then s.procs[t := LockStarting(s.loop.o)] else s.procs
    case LockTrack(t) =>
      var o := s.procs[t].o;
      s.procs[t := if s.objects[o].tracker.canSpawn then LockRunning(o) else LockRefused(o)]
    case LockEnd(t) => s.procs[t := LockClosed(s.procs[t].o)]
    case LockUntrack(t) => s.procs[t := LockGone]
    case LockRefusedDrop(t) => s.procs[t := LockGone]
    case _ => s.procs
  }

  /** Lock threads in their closures, with the signals that an unregister's stop() sends. */
  function NextWorkers(s: State, e: Event): map<Pid, SP.Worker>
    requires Enabled(s, e)
  {
    match e
    case UnregRound(u, n) =>
      var kills := RoundFor(s, u, n).kills;
      map t | t in s.workers :: if t in kills then SP.Hit(s.workers[t]) else s.workers[t]
    case LockTrack(t) => s.workers[t := SP.Worker(SP.Tracked, false)]
    case LockStep(t, ok) => s.workers[t := SP.Stepped(s.workers[t], true, ok)]
    case LockGranted(t) => s.workers[t := s.workers[t].(pc := SP.Back)]
    case _ => s.workers
  }

  function Next(s: State, e: Event): State
    requires Enabled(s, e)
  {
    State(s.limit, s.exited || e.TryExit?, NextReaders(s, e), NextObjects(s, e), NextDescriptors(s, e),
          if e.RegTry? then Bump(s.nextId) else s.nextId, NextLoop(s, e), NextProcs(s, e), NextWorkers(s, e))
  }

  predicate Run(s: State, es: seq<Event>)
    decreases |es|
  {
    es == [] || (Enabled(s, es[0]) && Run(Next(s, es[0]), es[1..]))
  }

  function Final(s: State, es: seq<Event>): State
    requires Run(s, es)
    decreases |es|
  {
    if es == [] then s else Final(Next(s, es[0]), es[1..])
  }

  // ----- invariant: the strong count counts the references

  ghost predicate CountsExact(s: State) {
    forall o | o in s.objects :: s.objects[o].count == References(s, o)
  }

  ghost predicate ReleasedIffUnreferenced(s: State) {
    forall o | o in s.objects :: s.objects[o].released <==> s.objects[o].count == 0
  }

  predicate OnNoObject(p: Proc) {
    p.UnregStart? || p.UnregMissing? || p.LockGone?
  }

  /** References point to objects. */
  ghost predicate ReferencesKnown(s: State) {
    && (forall i | i in s.descriptors :: s.descriptors[i] in s.objects)
    && (forall o | LoopHolds(s.loop, o) :: o in s.objects)
    && (forall p | p in s.procs && !OnNoObject(s.procs[p]) :: s.procs[p].o in s.objects)
  }

  lemma OneMemberChanged<T>(a: set<T>, b: set<T>, x: T)
    requires a - {x} == b - {x}
    ensures |b| == |a| - One(x in a) + One(x in b)
  {
    assert a == (a - {x}) + if x in a then {x} else {};
    assert b == (b - {x}) + if x in b then {x} else {};
  }

  lemma ProcHoldersUpdate(procs: map<Pid, Proc>, p: Pid, q: Proc, o: Obj)
    ensures |ProcHolders(procs[p := q], o)|
            == |ProcHolders(procs, o)| - One(p in procs && ProcHolds(procs[p], o)) + One(ProcHolds(q, o))
  {
    var a, b := ProcHolders(procs, o), ProcHolders(procs[p := q], o);
    forall x | x != p ensures x in a <==> x in b {
    }
    OneMemberChanged(a, b, p);
  }

  lemma KeyHoldersInsert(ds: map<U64, Obj>, i: U64, x: Obj, o: Obj)
    requires i !in ds
    ensures |KeyHolders(ds[i := x], o)| == |KeyHolders(ds, o)| + One(x == o)
  {
    assert KeyHolders(ds[i := x], o) == KeyHolders(ds, o) + if x == o then {i} else {};
  }

  lemma KeyHoldersRemove(ds: map<U64, Obj>, i: U64, o: Obj)
    requires i in ds
    ensures |KeyHolders(ds - {i}, o)| == |KeyHolders(ds, o)| - One(ds[i] == o)
  {
    assert KeyHolders(ds, o) == KeyHolders(ds - {i}, o) + if ds[i] == o then {i} else {};
  }

  /** No thread comes, goes or changes its references. */
  predicate LoopEvent(e: Event) {
    e.TryExit? || e.RecvRegister? || e.RegCheck? || e.RegBuild? || e.RegReply? || e.RecvLock? || e.CmdDirect?
    || e.CmdAnswered? || e.CmdDone? || e.LockStep? || e.LockGranted?
  }

  predicate UnregEvent(e: Event) {
    e.RecvUnregister? || e.UnregRound? || e.UnregCount? || e.UnregDrop? || e.UnregReply?
  }

  predicate LockEvent(e: Event) {
    e.LockTrack? || e.LockEnd? || e.LockUntrack? || e.LockRefusedDrop?
  }

  ghost predicate CountExact(s: State, o: Obj) {
    o in s.objects && s.objects[o].count == References(s, o)
  }

  lemma CountAfterLoopEvent(s: State, e: Event, o: Obj)
    requires CountExact(s, o) && Enabled(s, e) && LoopEvent(e)
    ensures CountExact(Next(s, e), o)
  {
  }

  lemma CountOfNewObject(s: State, e: Event)
    requires ReferencesKnown(s) && Enabled(s, e) && e.RegBuild? && e.ok
    ensures CountExact(Next(s, e), e.o)
  {
    assert KeyHolders(s.descriptors, e.o) == {};
    assert ProcHolders(s.procs, e.o) == {};
  }

  lemma CountAfterMapEvent(s: State, e: Event, o: Obj)
    requires CountExact(s, o) && Enabled(s, e) && (e.RegTry? || e.UnregRemove?)
    ensures CountExact(Next(s, e), o)
  {
    var s' := Next(s, e);
    if e.RegTry? {
      if s.nextId !in s.descriptors {
        KeyHoldersInsert(s.descriptors, s.nextId, s.loop.o, o);
      }
    } else {
      if s.procs[e.u].id in s.descriptors {
        KeyHoldersRemove(s.descriptors, s.procs[e.u].id, o);
      }
      ProcHoldersUpdate(s.procs, e.u, s'.procs[e.u], o);
    }
  }

  lemma CountAfterUnregEvent(s: State, e: Event, o: Obj)
    requires CountExact(s, o) && Enabled(s, e) && UnregEvent(e)
    ensures CountExact(Next(s, e), o)
  {
    ProcHoldersUpdate(s.procs, e.u, Next(s, e).procs[e.u], o);
  }

  lemma CountAfterLockEvent(s: State, e: Event, o: Obj)
    requires CountExact(s, o) && Enabled(s, e) && LockEvent(e)
    ensures CountExact(Next(s, e), o)
  {
    ProcHoldersUpdate(s.procs, e.t, Next(s, e).procs[e.t], o);
  }

  lemma CountAfterSpawn(s: State, e: Event, o: Obj)
    requires CountExact(s, o) && Enabled(s, e) && e.CmdSpawn?
    ensures CountExact(Next(s, e), o)
  {
    if e.ok {
      ProcHoldersUpdate(s.procs, e.t, LockStarting(s.loop.o), o);
    }
  }

  lemma StepKeepsCounts(s: State, e: Event)
    requires CountsExact(s) && ReferencesKnown(s) && Enabled(s, e)
    ensures CountsExact(Next(s, e))
  {
    forall o | o in Next(s, e).objects ensures CountExact(Next(s, e), o) {
      if o !in s.objects {
        NewObject(s, e, o);
        CountOfNewObject(s, e);
      } else {
        assert CountExact(s, o);
        if LoopEvent(e) {
          CountAfterLoopEvent(s, e, o);
        } else if e.RegTry? || e.UnregRemove? {
          CountAfterMapEvent(s, e, o);
        } else if UnregEvent(e) {
          CountAfterUnregEvent(s, e, o);
        } else if e.CmdSpawn? {
          CountAfterSpawn(s, e, o);
        } else {
          CountAfterLockEvent(s, e, o);
        }
      }
    }
  }

  lemma NewObject(s: State, e: Event, o: Obj)
    requires Enabled(s, e) && o !in s.objects && o in Next(s, e).objects
    ensures e.RegBuild? && e.ok && e.o == o
  {
  }

  lemma ProcKnownAfter(s: State, e: Event, p: Pid)
    requires ReferencesKnown(s) && Enabled(s, e) && p in Next(s, e).procs && !OnNoObject(Next(s, e).procs[p])
    ensures Next(s, e).procs[p].o in s.objects
  {
  }

  lemma StepKeepsKnown(s: State, e: Event)
    requires ReferencesKnown(s) && Enabled(s, e)
    ensures ReferencesKnown(Next(s, e))
  {
    var s' := Next(s, e);
    ObjectsAfter(s, e);
    forall p | p in s'.procs && !OnNoObject(s'.procs[p]) ensures s'.procs[p].o in s'.objects {
      ProcKnownAfter(s, e, p);
    }
  }

  /** The one object whose record an event replaces. */
  function Written(s: State, e: Event): (r: set<Obj>)
    requires Enabled(s, e)
  {
    match e
    case RegBuild(o, ok) => if ok then {o} else {}
    case UnregRound(u, _) => {s.procs[u].o}
    case LockTrack(t) => {s.procs[t].o}
    case LockUntrack(t) => {s.procs[t].o}
    case _ => Touched(s, e)
  }

  /** The object whose count an event changes. */
  function Touched(s: State, e: Event): (r: set<Obj>)
    requires Enabled(s, e)
  {
    match e
    case UnregDrop(u) => {s.procs[u].o}
    case RecvLock(id) => if id in s.descriptors then {s.descriptors[id]} else {}
    case CmdSpawn(t, ok) => if ok then {s.loop.o} else {}
    case CmdDone => {s.loop.o}
    case LockEnd(t) => {s.procs[t].o}
    case LockRefusedDrop(t) => {s.procs[t].o}
    case _ => {}
  }

  lemma ObjectsAfter(s: State, e: Event)
    requires Enabled(s, e)
    ensures s.objects.Keys <= Next(s, e).objects.Keys
    ensures Written(s, e) == {} ==> Next(s, e).objects == s.objects
    ensures forall o | o in Written(s, e) :: o in Next(s, e).objects && Next(s, e).objects == s.objects[o := Next(s, e).objects[o]]
  {
  }

  /** Whoever holds a reference keeps the object. */
  lemma HolderKeepsObject(s: State, o: Obj)
    requires CountExact(s, o)
    requires LoopHolds(s.loop, o) || (exists p :: p in s.procs && ProcHolds(s.procs[p], o)) || (exists i :: i in s.descriptors && s.descriptors[i] == o)
    ensures s.objects[o].count >= 1
  {
    if p :| p in s.procs && ProcHolds(s.procs[p], o) {
      assert p in ProcHolders(s.procs, o);
    }
    if i :| i in s.descriptors && s.descriptors[i] == o {
      assert i in KeyHolders(s.descriptors, o);
    }
  }

  lemma TouchedIsHeld(s: State, e: Event, o: Obj)
    requires CountsExact(s) && ReferencesKnown(s) && Enabled(s, e) && o in Touched(s, e)
    ensures o in s.objects && s.objects[o].count >= 1
  {
    assert CountExact(s, o);
    HolderKeepsObject(s, o);
  }

  ghost predicate ReleasedExact(s: State, o: Obj) {
    o in s.objects && (s.objects[o].released <==> s.objects[o].count == 0)
  }

  lemma ReleasedAfter(s: State, e: Event, o: Obj)
    requires Enabled(s, e) && ReleasedExact(s, o) && (o in Touched(s, e) ==> s.objects[o].count >= 1)
    ensures ReleasedExact(Next(s, e), o)
  {
  }

  lemma StepKeepsReleased(s: State, e: Event)
    requires CountsExact(s) && ReleasedIffUnreferenced(s) && ReferencesKnown(s) && Enabled(s, e)
    ensures ReleasedIffUnreferenced(Next(s, e))
  {
    forall o | o in Next(s, e).objects ensures ReleasedExact(Next(s, e), o) {
      if o !in s.objects {
        NewObject(s, e, o);
      } else {
        if o in Touched(s, e) {
          TouchedIsHeld(s, e, o);
        }
        ReleasedAfter(s, e, o);
      }
    }
  }

  // ----- invariant: the exit lock counts the live registrations

  function Unreleased(objects: map<Obj, FdData>): set<Obj> {
    set o | o in objects && !objects[o].released
  }

  ghost predicate ReadersExact(s: State) {
    s.readers == |Unreleased(s.objects)| + One(s.loop == RegAcquired || s.loop == RegGuarded)
  }

  ghost predicate ExitMeansEmpty(s: State) {
    s.exited ==> Unreleased(s.objects) == {} && s.loop != RegGuarded
  }

  lemma UnreleasedUpdate(objects: map<Obj, FdData>, o: Obj, f: FdData)
    ensures |Unreleased(objects[o := f])| == |Unreleased(objects)| - One(o in objects && !objects[o].released) + One(!f.released)
  {
    OneMemberChanged(Unreleased(objects), Unreleased(objects[o := f]), o);
  }

  lemma ReadersAfterDrop(s: State, e: Event, o: Obj)
    requires ReadersExact(s) && Enabled(s, e) && o in DroppedBy(s, e) && o in Next(s, e).objects
    requires o in s.objects && s.objects[o].count >= 1 && !s.objects[o].released
    requires |Unreleased(Next(s, e).objects)| == |Unreleased(s.objects)| - 1 + One(!Next(s, e).objects[o].released)
    ensures ReadersExact(Next(s, e))
  {
  }

  lemma ReadersAfterWrite(s: State, e: Event, o: Obj)
    requires ReadersExact(s) && Enabled(s, e) && o in Written(s, e) && o !in DroppedBy(s, e) && o in Next(s, e).objects
    requires |Unreleased(Next(s, e).objects)| == |Unreleased(s.objects)| - One(o in s.objects && !s.objects[o].released) + One(!Next(s, e).objects[o].released)
    ensures ReadersExact(Next(s, e))
  {
    assert DroppedBy(s, e) == {} && !e.RecvRegister? && !e.RegCheck?;
    assert Next(s, e).readers == s.readers;
  }

  lemma StepKeepsReaders(s: State, e: Event)
    requires CountsExact(s) && ReleasedIffUnreferenced(s) && ReferencesKnown(s) && ReadersExact(s) && Enabled(s, e)
    ensures ReadersExact(Next(s, e))
  {
    ObjectsAfter(s, e);
    if o :| o in Written(s, e) {
      UnreleasedUpdate(s.objects, o, Next(s, e).objects[o]);
      if o in Touched(s, e) {
        TouchedIsHeld(s, e, o);
      }
      if o in DroppedBy(s, e) {
        ReadersAfterDrop(s, e, o);
      } else {
        ReadersAfterWrite(s, e, o);
      }
    }
  }

  lemma StepKeepsExit(s: State, e: Event)
    requires CountsExact(s) && ReleasedIffUnreferenced(s) && ReferencesKnown(s) && ReadersExact(s) && ExitMeansEmpty(s) && Enabled(s, e)
    ensures ExitMeansEmpty(Next(s, e))
  {
    ObjectsAfter(s, e);
    var s' := Next(s, e);
    if s'.exited && s.exited {
      if o :| o in Touched(s, e) {
        TouchedIsHeld(s, e, o);
        assert o in Unreleased(s.objects);
      } else {
        forall o | o in s'.objects ensures o in s.objects && s'.objects[o].released == s.objects[o].released {
          if o !in s.objects {
            NewObject(s, e, o);
          }
        }
        assert Unreleased(s'.objects) == Unreleased(s.objects);
      }
    }
  }

  // ----- invariant: every object has exactly one home

  /** An unregister thread that took `o` out of the map. */
  predicate Claims(p: Proc, o: Obj) {
    (p.UnregStopping? || p.UnregDrained? || p.UnregAlone? || p.UnregDropped? || p.UnregAnswered?) && p.o == o
  }

  function Claimers(procs: map<Pid, Proc>, o: Obj): set<Pid> {
    set p | p in procs && Claims(procs[p], o)
  }

  /** Where `o` is: about to enter the map, in the map under one id, or taken out by one thread. */
  ghost predicate OneHome(s: State, o: Obj) {
    |KeyHolders(s.descriptors, o)| + One(s.loop == RegBuilt(o)) + |Claimers(s.procs, o)| == 1
  }

  ghost predicate HomesExact(s: State) {
    forall o | o in s.objects :: OneHome(s, o)
  }

  lemma ClaimersUpdate(procs: map<Pid, Proc>, p: Pid, q: Proc, o: Obj)
    ensures |Claimers(procs[p := q], o)| == |Claimers(procs, o)| - One(p in procs && Claims(procs[p], o)) + One(Claims(q, o))
  {
    var a, b := Claimers(procs, o), Claimers(procs[p := q], o);
    forall x | x != p ensures x in a <==> x in b {
    }
    OneMemberChanged(a, b, p);
  }

  lemma HomeAfterMapEvent(s: State, e: Event, o: Obj)
    requires OneHome(s, o) && Enabled(s, e) && (e.RegTry? || e.UnregRemove?)
    ensures OneHome(Next(s, e), o)
  {
    if e.RegTry? {
      if s.nextId !in s.descriptors {
        KeyHoldersInsert(s.descriptors, s.nextId, s.loop.o, o);
      }
    } else {
      if s.procs[e.u].id in s.descriptors {
        KeyHoldersRemove(s.descriptors, s.procs[e.u].id, o);
      }
      ClaimersUpdate(s.procs, e.u, Next(s, e).procs[e.u], o);
    }
  }

  lemma HomeAfterProcEvent(s: State, e: Event, o: Obj)
    requires OneHome(s, o) && Enabled(s, e) && (UnregEvent(e) || LockEvent(e) || e.CmdSpawn?)
    ensures OneHome(Next(s, e), o)
  {
    if UnregEvent(e) {
      ClaimersUpdate(s.procs, e.u, Next(s, e).procs[e.u], o);
    } else if LockEvent(e) || e.ok {
      ClaimersUpdate(s.procs, e.t, Next(s, e).procs[e.t], o);
    }
  }

  lemma HomeAfterLoopEvent(s: State, e: Event, o: Obj)
    requires OneHome(s, o) && Enabled(s, e) && LoopEvent(e) && o in s.objects
    ensures OneHome(Next(s, e), o)
  {
  }

  lemma StepKeepsHomes(s: State, e: Event)
    requires HomesExact(s) && ReferencesKnown(s) && Enabled(s, e)
    ensures HomesExact(Next(s, e))
  {
    forall o | o in Next(s, e).objects ensures OneHome(Next(s, e), o) {
      if o !in s.objects {
        NewObject(s, e, o);
        assert KeyHolders(s.descriptors, o) == {};
        assert Claimers(s.procs, o) == {};
      } else if LoopEvent(e) {
        HomeAfterLoopEvent(s, e, o);
      } else if e.RegTry? || e.UnregRemove? {
        HomeAfterMapEvent(s, e, o);
      } else {
        HomeAfterProcEvent(s, e, o);
      }
    }
  }

  /** A claimed object is in the map under no id. */
  lemma ClaimedIsUnmapped(s: State, u: Pid, o: Obj)
    requires OneHome(s, o) && u in s.procs && Claims(s.procs[u], o)
    ensures KeyHolders(s.descriptors, o) == {} && s.loop != RegBuilt(o) && forall v | v in s.procs && Claims(s.procs[v], o) :: v == u
  {
    assert u in Claimers(s.procs, o);
    assert |Claimers(s.procs, o)| == |Claimers(s.procs, o) - {u}| + 1;
    forall v | v in s.procs && Claims(s.procs[v], o) ensures v == u {
      assert v !in Claimers(s.procs, o) - {u};
    }
  }

  // ----- invariant: trackers track the threads inside their closures

  predicate Tracked(p: Proc, o: Obj) {
    p == LockRunning(o) || p == LockClosed(o)
  }

  ghost predicate TrackerExact(s: State, o: Obj, t: Pid) {
    o in s.objects && (t in s.objects[o].tracker.threads <==> t in s.procs && Tracked(s.procs[t], o))
  }

  ghost predicate TrackersExact(s: State) {
    forall o, t | o in s.objects :: TrackerExact(s, o, t)
  }

  lemma TrackerAfter(s: State, e: Event, o: Obj, t: Pid)
    requires TrackerExact(s, o, t) && Enabled(s, e)
    ensures TrackerExact(Next(s, e), o, t)
  {
  }

  lemma StepKeepsTrackers(s: State, e: Event)
    requires TrackersExact(s) && ReferencesKnown(s) && Enabled(s, e)
    ensures TrackersExact(Next(s, e))
  {
    forall o, t | o in Next(s, e).objects ensures TrackerExact(Next(s, e), o, t) {
      if o !in s.objects {
        NewObject(s, e, o);
      } else {
        TrackerAfter(s, e, o, t);
      }
    }
  }

  // ----- invariant: what each stage of an unregister has achieved

  /** Past the first critical section of stop(): closed. Past stop(): drained. Past the count test: one
      reference left. Past the drop: released. */
  ghost predicate StageSound(s: State, u: Pid) {
    u in s.procs ==>
      match s.procs[u]
      case UnregStopping(o, first, _) => o in s.objects && (!first ==> !s.objects[o].tracker.canSpawn)
      case UnregDrained(o) => o in s.objects && Drained(s.objects[o])
      case UnregAlone(o) => o in s.objects && Drained(s.objects[o]) && s.objects[o].count == 1
      case UnregDropped(o) => o in s.objects && Drained(s.objects[o]) && s.objects[o].released
      case UnregAnswered(o) => o in s.objects && Drained(s.objects[o]) && s.objects[o].released
      case _ => true
  }

  predicate Drained(f: FdData) {
    !f.tracker.canSpawn && f.tracker.threads == {}
  }

  ghost predicate StagesSound(s: State) {
    forall u | u in s.procs :: StageSound(s, u)
  }

  lemma DrainedStays(s: State, e: Event, o: Obj)
    requires Enabled(s, e) && o in s.objects
    ensures o in Next(s, e).objects
    ensures !s.objects[o].tracker.canSpawn ==> !Next(s, e).objects[o].tracker.canSpawn
    ensures Drained(s.objects[o]) ==> Drained(Next(s, e).objects[o])
  {
  }

  /** With count 1 and the object claimed by `u`, no other reference exists: nobody else can touch it. */
  lemma SoleHolder(s: State, u: Pid, o: Obj, e: Event)
    requires CountExact(s, o) && OneHome(s, o) && s.objects[o].count == 1
    requires u in s.procs && Claims(s.procs[u], o) && ProcHolds(s.procs[u], o)
    requires Enabled(s, e) && e != UnregDrop(u)
    ensures o !in Touched(s, e)
  {
    ClaimedIsUnmapped(s, u, o);
    assert u in ProcHolders(s.procs, o);
    assert |ProcHolders(s.procs, o)| == |ProcHolders(s.procs, o) - {u}| + 1;
    forall v | v in ProcHolders(s.procs, o) ensures v == u {
      assert v !in ProcHolders(s.procs, o) - {u};
    }
    NotTouched(s, u, o, e);
  }

  lemma NotTouched(s: State, u: Pid, o: Obj, e: Event)
    requires Enabled(s, e) && e != UnregDrop(u)
    requires KeyHolders(s.descriptors, o) == {} && !LoopHolds(s.loop, o)
    requires forall v | v in ProcHolders(s.procs, o) :: v == u
    requires u in s.procs && Claims(s.procs[u], o)
    ensures o !in Touched(s, e)
  {
    match e
    case RecvLock(id) => assert id !in KeyHolders(s.descriptors, o);
    case UnregDrop(v) => assert v !in ProcHolders(s.procs, o);
    case LockEnd(t) => assert t !in ProcHolders(s.procs, o);
    case LockRefusedDrop(t) => assert t !in ProcHolders(s.procs, o);
    case _ =>
  }

  lemma UntouchedKeepsCount(s: State, e: Event, o: Obj)
    requires Enabled(s, e) && o in s.objects && o !in Touched(s, e)
    ensures o in Next(s, e).objects && Next(s, e).objects[o].count == s.objects[o].count
    ensures Next(s, e).objects[o].released == s.objects[o].released
  {
  }

  predicate ActsAs(e: Event, u: Pid) {
    (UnregEvent(e) || e.UnregRemove?) && e.u == u
  }

  lemma ProcUnchanged(s: State, e: Event, u: Pid)
    requires Enabled(s, e) && !ActsAs(e, u) && u in s.procs && (exists o :: Claims(s.procs[u], o))
    ensures u in Next(s, e).procs && Next(s, e).procs[u] == s.procs[u]
  {
  }

  ghost predicate Inv(s: State) {
    && CountsExact(s) && ReferencesKnown(s) && ReleasedIffUnreferenced(s) && HomesExact(s)
    && ReadersExact(s) && ExitMeansEmpty(s) && TrackersExact(s) && StagesSound(s)
  }

  lemma StageAfterOwnStep(s: State, e: Event, u: Pid)
    requires ReferencesKnown(s) && StageSound(s, u) && Enabled(s, e) && ActsAs(e, u)
    ensures StageSound(Next(s, e), u)
  {
  }

  /** A released object has no holder, so no event changes its count or brings it back. */
  lemma ReleasedStays(s: State, e: Event, o: Obj)
    requires CountsExact(s) && ReferencesKnown(s) && ReleasedIffUnreferenced(s) && Enabled(s, e)
    requires o in s.objects && s.objects[o].released
    ensures o in Next(s, e).objects && Next(s, e).objects[o].released
  {
    if o in Touched(s, e) {
      TouchedIsHeld(s, e, o);
    } else {
      UntouchedKeepsCount(s, e, o);
    }
  }

  lemma StageAfterOthersStep(s: State, e: Event, u: Pid)
    requires Inv(s) && Enabled(s, e) && !ActsAs(e, u) && u in s.procs && StageSound(s, u)
    requires exists o :: Claims(s.procs[u], o)
    ensures StageSound(Next(s, e), u)
  {
    var o := s.procs[u].o;
    ProcUnchanged(s, e, u);
    DrainedStays(s, e, o);
    if s.procs[u].UnregAlone? {
      SoleHolder(s, u, o, e);
      UntouchedKeepsCount(s, e, o);
    } else if s.procs[u].UnregDropped? || s.procs[u].UnregAnswered? {
      ReleasedStays(s, e, o);
    }
  }

  lemma UnclaimedStage(s: State, e: Event, u: Pid)
    requires Enabled(s, e) && !ActsAs(e, u) && u in Next(s, e).procs
    requires !(u in s.procs && exists o :: Claims(s.procs[u], o))
    ensures StageSound(Next(s, e), u)
  {
    if u in s.procs && (s.procs[u].UnregStopping? || s.procs[u].UnregDrained? || s.procs[u].UnregAlone? || s.procs[u].UnregDropped? || s.procs[u].UnregAnswered?) {
      assert Claims(s.procs[u], s.procs[u].o);
    }
  }

  lemma StepKeepsStages(s: State, e: Event)
    requires Inv(s) && Enabled(s, e)
    ensures StagesSound(Next(s, e))
  {
    forall u | u in Next(s, e).procs ensures StageSound(Next(s, e), u) {
      if ActsAs(e, u) {
        assert StageSound(s, u);
        StageAfterOwnStep(s, e, u);
      } else if u in s.procs && exists o :: Claims(s.procs[u], o) {
        StageAfterOthersStep(s, e, u);
      } else {
        UnclaimedStage(s, e, u);
      }
    }
  }

  lemma StepKeepsInv(s: State, e: Event)
    requires Inv(s) && Enabled(s, e)
    ensures Inv(Next(s, e))
  {
    StepKeepsCounts(s, e);
    StepKeepsKnown(s, e);
    StepKeepsReleased(s, e);
    StepKeepsHomes(s, e);
    StepKeepsReaders(s, e);
    StepKeepsExit(s, e);
    StepKeepsTrackers(s, e);
    StepKeepsStages(s, e);
  }

  lemma {:induction false} RunKeepsInv(s: State, es: seq<Event>)
    requires Inv(s) && Run(s, es)
    ensures Inv(Final(s, es))
    decreases |es|
  {
    if es != [] {
      StepKeepsInv(s, es[0]);
      RunKeepsInv(Next(s, es[0]), es[1..]);
    }
  }

  lemma InitInv(s: State)
    requires Init(s)
    ensures Inv(s)
  {
  }

  /** In every run the strong count of every registration is exactly the number of references to it:
      map entries, the receiving loop's clone, and one per thread that holds one. */
  lemma StrongCountCountsReferences(s0: State, es: seq<Event>, o: Obj)
    requires Init(s0) && Run(s0, es) && o in Final(s0, es).objects
    ensures var s := Final(s0, es);
            s.objects[o].count == References(s, o) && (s.objects[o].released <==> References(s, o) == 0)
  {
    InitInv(s0);
    RunKeepsInv(s0, es);
    assert CountExact(Final(s0, es), o);
  }

  // ----- Unregister

  /** The object is closed for good: no reference, no map entry, no thread in its closures. */
  ghost predicate Gone(s: State, o: Obj) {
    && o in s.objects && s.objects[o].released && References(s, o) == 0
    && (forall i | i in s.descriptors :: s.descriptors[i] != o)
    && (forall t | t in s.procs :: !ProcHolds(s.procs[t], o) && !Tracked(s.procs[t], o))
    && !LoopHolds(s.loop, o)
  }

  lemma AnsweredIsGone(s: State, u: Pid)
    requires Inv(s) && u in s.procs && (s.procs[u].UnregDropped? || s.procs[u].UnregAnswered?)
    ensures Gone(s, s.procs[u].o)
  {
    var o := s.procs[u].o;
    assert StageSound(s, u);
    assert CountExact(s, o);
    forall i | i in s.descriptors ensures s.descriptors[i] != o {
      assert i !in KeyHolders(s.descriptors, o);
    }
    forall t | t in s.procs ensures !ProcHolds(s.procs[t], o) && !Tracked(s.procs[t], o) {
      assert t !in ProcHolders(s.procs, o);
      assert TrackerExact(s, o, t);
    }
  }

  lemma {:induction false} AnsweredForGood(s: State, u: Pid, es: seq<Event>)
    requires u in s.procs && s.procs[u].UnregAnswered? && Run(s, es)
    ensures u in Final(s, es).procs && Final(s, es).procs[u] == s.procs[u]
    decreases |es|
  {
    if es != [] {
      assert Claims(s.procs[u], s.procs[u].o);
      ProcUnchanged(s, es[0], u);
      AnsweredForGood(Next(s, es[0]), u, es[1..]);
    }
  }

  lemma AnsweredMeansGone(s: State, u: Pid, later: seq<Event>)
    requires Inv(s) && Run(s, later) && u in s.procs
    ensures Enabled(s, UnregReply(u)) ==> Gone(s, s.procs[u].o)
    ensures var p := s.procs[u]; p.UnregAnswered? ==> Gone(s, p.o) && Gone(Final(s, later), p.o)
  {
    if s.procs[u].UnregDropped? {
      AnsweredIsGone(s, u);
    } else if s.procs[u].UnregAnswered? {
      AnsweredIsGone(s, u);
      AnsweredForGood(s, u, later);
      RunKeepsInv(s, later);
      AnsweredIsGone(Final(s, later), u);
    }
  }

  /** An unregister thread keeps what it was asked for until it looks it up ... */
  lemma {:induction false} KeepsRequest(s: State, u: Pid, id: U64, es: seq<Event>)
    requires u in s.procs && s.procs[u] == UnregStart(id) && Run(s, es) && UnregRemove(u) !in es
    ensures u in Final(s, es).procs && Final(s, es).procs[u] == UnregStart(id)
    decreases |es|
  {
    if es != [] {
      KeepsRequest(Next(s, es[0]), u, id, es[1..]);
    }
  }

  lemma ClaimStep(s: State, e: Event, u: Pid, o: Obj)
    requires Enabled(s, e) && u in s.procs && Claims(s.procs[u], o)
    ensures u in Next(s, e).procs && Claims(Next(s, e).procs[u], o)
  {
  }

  /** ... and what it found from then on. */
  lemma {:induction false} KeepsClaim(s: State, u: Pid, o: Obj, es: seq<Event>)
    requires u in s.procs && Claims(s.procs[u], o) && Run(s, es)
    ensures u in Final(s, es).procs && Claims(Final(s, es).procs[u], o)
    decreases |es|
  {
    if es != [] {
      ClaimStep(s, es[0], u, o);
      KeepsClaim(Next(s, es[0]), u, o, es[1..]);
    }
  }

  lemma {:induction false} StaysMissing(s: State, u: Pid, es: seq<Event>)
    requires u in s.procs && s.procs[u] == UnregMissing && Run(s, es)
    ensures u in Final(s, es).procs && Final(s, es).procs[u] == UnregMissing
    decreases |es|
  {
    if es != [] {
      StaysMissing(Next(s, es[0]), u, es[1..]);
    }
  }

  /** An Unregister for `id`, in any run: it takes out of the map exactly the entry that `id` has when it gets there, and nothing at
      all if there is none. */
  lemma UnregisterTakesRequested(s0: State, es: seq<Event>, u: Pid, id: U64, mid: seq<Event>)
    requires Init(s0) && Run(s0, es) && Enabled(Final(s0, es), RecvUnregister(u, id))
    requires Run(Next(Final(s0, es), RecvUnregister(u, id)), mid) && UnregRemove(u) !in mid
    ensures var s := Final(Next(Final(s0, es), RecvUnregister(u, id)), mid);
            && Enabled(s, UnregRemove(u))
            && var s' := Next(s, UnregRemove(u));
               if id in s.descriptors
               then u in s'.procs && Claims(s'.procs[u], s.descriptors[id]) && s'.descriptors == s.descriptors - {id}
               else u in s'.procs && s'.procs[u] == UnregMissing && s'.descriptors == s.descriptors
  {
    KeepsRequest(Next(Final(s0, es), RecvUnregister(u, id)), u, id, mid);
  }

  /** When an Unregister for `id` is answered Ok, then the registration that had this id, when the Unregister looked it up, is out of
      the map, its descriptor and exit guard are released, no other reference exists and none is ever made again,
      whatever registers, locks and unregisters follow. The release comes before the reply. An id without a
      registration is never answered Ok. */
  lemma UnregisterOkMeansGone(s0: State, es: seq<Event>, u: Pid, id: U64, mid: seq<Event>, work: seq<Event>, later: seq<Event>)
    requires Init(s0) && Run(s0, es) && Enabled(Final(s0, es), RecvUnregister(u, id))
    requires Run(Next(Final(s0, es), RecvUnregister(u, id)), mid) && UnregRemove(u) !in mid
    requires var s := Final(Next(Final(s0, es), RecvUnregister(u, id)), mid);
             Enabled(s, UnregRemove(u)) && Run(Next(s, UnregRemove(u)), work) && Run(Final(Next(s, UnregRemove(u)), work), later)
    ensures var s := Final(Next(Final(s0, es), RecvUnregister(u, id)), mid);
            var t := Final(Next(s, UnregRemove(u)), work);
            && u in t.procs
            && (Enabled(t, UnregReply(u)) ==> id in s.descriptors && Gone(t, s.descriptors[id]))
            && (t.procs[u].UnregAnswered? ==> id in s.descriptors && Gone(t, s.descriptors[id]) && Gone(Final(t, later), s.descriptors[id]))
  {
    InitInv(s0);
    RunKeepsInv(s0, es);
    StepKeepsInv(Final(s0, es), RecvUnregister(u, id));
    RunKeepsInv(Next(Final(s0, es), RecvUnregister(u, id)), mid);
    UnregisterTakesRequested(s0, es, u, id, mid);
    var s := Final(Next(Final(s0, es), RecvUnregister(u, id)), mid);
    StepKeepsInv(s, UnregRemove(u));
    OkForClaim(s.descriptors, id, Next(s, UnregRemove(u)), u, work, later);
  }

  /** Once thread `u` has claimed `o`, its Ok is about `o`. */
  lemma OkFromClaim(s: State, u: Pid, o: Obj, work: seq<Event>, later: seq<Event>)
    requires Inv(s) && u in s.procs && Claims(s.procs[u], o) && Run(s, work) && Run(Final(s, work), later)
    ensures var t := Final(s, work);
            && u in t.procs
            && (Enabled(t, UnregReply(u)) ==> Gone(t, o))
            && (t.procs[u].UnregAnswered? ==> Gone(t, o) && Gone(Final(t, later), o))
  {
    RunKeepsInv(s, work);
    KeepsClaim(s, u, o, work);
    AnsweredMeansGone(Final(s, work), u, later);
  }

  /** From the lookup on; `ds` is the map before it and `s` the state after it. */
  lemma OkForClaim(ds: map<U64, Obj>, id: U64, s: State, u: Pid, work: seq<Event>, later: seq<Event>)
    requires Inv(s) && u in s.procs && (if id in ds then Claims(s.procs[u], ds[id]) else s.procs[u] == UnregMissing)
    requires Run(s, work) && Run(Final(s, work), later)
    ensures var t := Final(s, work);
            && u in t.procs
            && (Enabled(t, UnregReply(u)) ==> id in ds && Gone(t, ds[id]))
            && (t.procs[u].UnregAnswered? ==> id in ds && Gone(t, ds[id]) && Gone(Final(t, later), ds[id]))
  {
    if id in ds {
      OkFromClaim(s, u, ds[id], work, later);
    } else {
      StaysMissing(s, u, work);
    }
  }

  // ----- lock commands

  /** Thread `t` is a lock thread of `o`, or was one. */
  predicate LockThreadOf(p: Proc, o: Obj) {
    p == LockStarting(o) || p == LockRunning(o) || p == LockClosed(o) || p == LockRefused(o) || p == LockGone
  }

  lemma {:induction false} LockThreadKeepsObject(s: State, t: Pid, o: Obj, es: seq<Event>)
    requires t in s.procs && LockThreadOf(s.procs[t], o) && Run(s, es)
    ensures t in Final(s, es).procs && LockThreadOf(Final(s, es).procs[t], o)
    decreases |es|
  {
    if es != [] {
      LockThreadStep(s, es[0], t, o);
      LockThreadKeepsObject(Next(s, es[0]), t, o, es[1..]);
    }
  }

  lemma LockThreadStep(s: State, e: Event, t: Pid, o: Obj)
    requires Enabled(s, e) && t in s.procs && LockThreadOf(s.procs[t], o)
    ensures t in Next(s, e).procs && LockThreadOf(Next(s, e).procs[t], o)
  {
  }

  /** The loop runs the command: one fcntl of its own, or one attempt at a lock thread. */
  predicate Executes(e: Event) {
    e.CmdDirect? || e.CmdSpawn?
  }

  function Executions(es: seq<Event>): nat {
    if es == [] then 0 else One(Executes(es[0])) + Executions(es[1..])
  }

  lemma CommandStep(s: State, e: Event, o: Obj)
    requires Enabled(s, e) && e != CmdDone && LoopHolds(s.loop, o) && !s.loop.RegBuilt?
    ensures LoopHolds(Next(s, e).loop, o) && !Next(s, e).loop.RegBuilt?
    ensures One(Executes(e)) + One(!s.loop.CmdHolding?) == One(!Next(s, e).loop.CmdHolding?)
    ensures e.CmdSpawn? && e.ok ==> e.t in Next(s, e).procs && Next(s, e).procs[e.t] == LockStarting(o)
  {
  }

  /** Until the loop is done with the command, it is about this object, and so is every lock thread it makes. */
  lemma {:induction false} CommandKeepsObject(s: State, o: Obj, es: seq<Event>)
    requires Run(s, es) && CmdDone !in es && LoopHolds(s.loop, o) && !s.loop.RegBuilt?
    ensures LoopHolds(Final(s, es).loop, o)
    ensures Executions(es) + One(!s.loop.CmdHolding?) == One(!Final(s, es).loop.CmdHolding?)
    ensures forall t | CmdSpawn(t, true) in es :: t in Final(s, es).procs && LockThreadOf(Final(s, es).procs[t], o)
    decreases |es|
  {
    if es != [] {
      var s' := Next(s, es[0]);
      CommandStep(s, es[0], o);
      CommandKeepsObject(s', o, es[1..]);
      forall t | CmdSpawn(t, true) in es ensures t in Final(s, es).procs && LockThreadOf(Final(s, es).procs[t], o) {
        if es[0] == CmdSpawn(t, true) {
          LockThreadKeepsObject(s', t, o, es[1..]);
        }
      }
    }
  }

  /** What has come of a command on object `o` by the end of a stretch of a run. */
  ghost predicate CommandOn(t: State, o: Obj, mid: seq<Event>) {
    && LoopHolds(t.loop, o) && o in t.objects && !t.objects[o].released
    && Executions(mid) <= 1 && (t.loop.CmdFinishing? ==> Executions(mid) == 1)
    && forall p | CmdSpawn(p, true) in mid :: p in t.procs && LockThreadOf(t.procs[p], o)
  }

  lemma CommandRuns(s: State, o: Obj, mid: seq<Event>)
    requires Inv(s) && s.loop == CmdHolding(o) && Run(s, mid) && CmdDone !in mid
    ensures CommandOn(Final(s, mid), o, mid)
  {
    RunKeepsInv(s, mid);
    CommandKeepsObject(s, o, mid);
    var t := Final(s, mid);
    assert CountExact(t, o);
    HolderKeepsObject(t, o);
  }

  /** A lock command for `id`, in any run: the loop works on exactly the registration that `id` has at that moment until it is done
      with the command, runs the command exactly once, and a lock thread that it makes works on no other registration,
      for as long as it lives; the descriptor is open all the while. Without a registration nothing happens. */
  lemma LockCommandActsOnRequested(s0: State, es: seq<Event>, id: U64, mid: seq<Event>)
    requires Init(s0) && Run(s0, es) && Enabled(Final(s0, es), RecvLock(id))
    requires Run(Next(Final(s0, es), RecvLock(id)), mid) && CmdDone !in mid
    ensures var s := Final(s0, es);
            if id in s.descriptors then CommandOn(Final(Next(s, RecvLock(id)), mid), s.descriptors[id], mid) else Next(s, RecvLock(id)) == s
  {
    InitInv(s0);
    RunKeepsInv(s0, es);
    var s := Final(s0, es);
    if id in s.descriptors {
      StepKeepsInv(s, RecvLock(id));
      CommandRuns(Next(s, RecvLock(id)), s.descriptors[id], mid);
    }
  }

  /** Thread `u` has the only reference to the registration it took out of the map. */
  ghost predicate Sole(s: State, u: Pid, o: Obj) {
    u in s.procs && Claims(s.procs[u], o) && ProcHolds(s.procs[u], o) && o in s.objects && s.objects[o].count == 1
  }

  lemma SoleAfter(s: State, u: Pid, o: Obj, e: Event)
    requires Inv(s) && Sole(s, u, o) && Enabled(s, e) && e != UnregDrop(u)
    ensures Sole(Next(s, e), u, o)
  {
    assert CountExact(s, o);
    SoleHolder(s, u, o, e);
    UntouchedKeepsCount(s, e, o);
    if !ActsAs(e, u) {
      ProcUnchanged(s, e, u);
    }
  }

  lemma {:induction false} SoleInRun(s: State, u: Pid, o: Obj, es: seq<Event>)
    requires Inv(s) && Sole(s, u, o) && Run(s, es) && UnregDrop(u) !in es
    ensures Sole(Final(s, es), u, o)
    decreases |es|
  {
    if es != [] {
      SoleAfter(s, u, o, es[0]);
      StepKeepsInv(s, es[0]);
      SoleInRun(Next(s, es[0]), u, o, es[1..]);
    }
  }

  /** The test `Arc::strong_count(&fd_data) == 1` is stable: once true in any run, it stays true until the
      unregister thread itself drops its reference. */
  lemma CountOneIsStable(s0: State, es: seq<Event>, u: Pid, o: Obj, later: seq<Event>)
    requires Init(s0) && Run(s0, es) && Sole(Final(s0, es), u, o)
    requires Run(Final(s0, es), later) && UnregDrop(u) !in later
    ensures Sole(Final(Final(s0, es), later), u, o)
  {
    InitInv(s0);
    RunKeepsInv(s0, es);
    SoleInRun(Final(s0, es), u, o, later);
  }

  /** Every `fcntl` the daemon issues is on an open descriptor: whoever may be inside one holds a reference. */
  lemma LocksOnlyOpenDescriptors(s0: State, es: seq<Event>, o: Obj)
    requires Init(s0) && Run(s0, es)
    requires LoopHolds(Final(s0, es).loop, o) || exists t :: t in Final(s0, es).procs && Final(s0, es).procs[t] == LockRunning(o)
    ensures o in Final(s0, es).objects && !Final(s0, es).objects[o].released
  {
    InitInv(s0);
    RunKeepsInv(s0, es);
    var s := Final(s0, es);
    assert CountExact(s, o) by {
      if !LoopHolds(s.loop, o) {
        var t :| t in s.procs && s.procs[t] == LockRunning(o);
        assert s.procs[t].o in s.objects;
      }
    }
    if !LoopHolds(s.loop, o) {
      var t :| t in s.procs && s.procs[t] == LockRunning(o);
      assert ProcHolds(s.procs[t], o);
    }
    HolderKeepsObject(s, o);
  }

  // ----- leaving through the TTL

  lemma {:induction false} ExitStays(s: State, es: seq<Event>)
    requires Inv(s) && s.exited && Run(s, es)
    ensures Final(s, es).exited && Final(s, es).objects.Keys == s.objects.Keys
    decreases |es|
  {
    if es != [] {
      StepKeepsInv(s, es[0]);
      ObjectsAfter(s, es[0]);
      forall o | o in Next(s, es[0]).objects ensures o in s.objects {
        if o !in s.objects {
          NewObject(s, es[0], o);
        }
      }
      ExitStays(Next(s, es[0]), es[1..]);
    }
  }

  /** Once the exit flag is set no registration is alive, and none is ever made again. */
  lemma ExitIsFinal(s0: State, es: seq<Event>, later: seq<Event>)
    requires Init(s0) && Run(s0, es) && Final(s0, es).exited && Run(Final(s0, es), later)
    ensures var s, s' := Final(s0, es), Final(Final(s0, es), later);
            && s'.exited && s'.objects.Keys == s.objects.Keys && s'.descriptors == map[]
            && forall o | o in s'.objects :: s'.objects[o].released
  {
    InitInv(s0);
    RunKeepsInv(s0, es);
    ExitStays(Final(s0, es), later);
    RunKeepsInv(Final(s0, es), later);
    var s' := Final(Final(s0, es), later);
    forall o | o in s'.objects ensures s'.objects[o].released {
      assert o !in Unreleased(s'.objects);
    }
    forall i | i in s'.descriptors ensures false {
      var o := s'.descriptors[i];
      assert CountExact(s', o);
      HolderKeepsObject(s', o);
    }
  }

  /** In the map, or taken out by an unregister thread that has not dropped it yet. */
  ghost predicate Registered(s: State, o: Obj) {
    (exists i :: i in s.descriptors && s.descriptors[i] == o) || (exists u :: u in s.procs && ProcHolds(s.procs[u], o) && Claims(s.procs[u], o))
  }

  lemma RegisteredStep(s: State, e: Event, o: Obj)
    requires Enabled(s, e) && Registered(s, o) && !(e.UnregDrop? && s.procs[e.u].o == o)
    ensures Registered(Next(s, e), o)
  {
    var s' := Next(s, e);
    if i :| i in s.descriptors && s.descriptors[i] == o {
      if i !in s'.descriptors {
        assert e.UnregRemove? && ProcHolds(s'.procs[e.u], o) && Claims(s'.procs[e.u], o);
      } else {
        assert s'.descriptors[i] == o;
      }
    } else {
      var u :| u in s.procs && ProcHolds(s.procs[u], o) && Claims(s.procs[u], o);
      assert ProcHolds(s'.procs[u], o) && Claims(s'.procs[u], o);
    }
  }

  /** No unregister drops `o` in the run. */
  ghost predicate NotDropped(s: State, es: seq<Event>, o: Obj)
    requires Run(s, es)
    decreases |es|
  {
    es == [] || (!(es[0].UnregDrop? && s.procs[es[0].u].o == o) && NotDropped(Next(s, es[0]), es[1..], o))
  }

  lemma {:induction false} StaysRegistered(s: State, es: seq<Event>, o: Obj)
    requires Inv(s) && Registered(s, o) && Run(s, es) && NotDropped(s, es, o)
    ensures Inv(Final(s, es)) && Registered(Final(s, es), o)
    decreases |es|
  {
    if es != [] {
      StepKeepsInv(s, es[0]);
      RegisteredStep(s, es[0], o);
      StaysRegistered(Next(s, es[0]), es[1..], o);
    }
  }

  lemma RegisteredKeepsOwner(s: State, o: Obj)
    requires Inv(s) && Registered(s, o)
    ensures !s.exited && !Enabled(s, TryExit)
  {
    assert o in s.objects;
    assert CountExact(s, o);
    HolderKeepsObject(s, o);
    assert o in Unreleased(s.objects);
  }

  /** In every run, from the moment a Register has put its data into the map, which is before its Ok reply, until its Unregister
      has dropped them, whatever happens in between and also while that Unregister still waits, the owner has not
      left and cannot leave through the TTL path. */
  lemma RegisteredOwnerStays(s0: State, es: seq<Event>, mid: seq<Event>)
    requires Init(s0) && Run(s0, es) && Enabled(Final(s0, es), RegTry) && Final(s0, es).nextId !in Final(s0, es).descriptors
    requires var s := Next(Final(s0, es), RegTry); Run(s, mid) && NotDropped(s, mid, Final(s0, es).loop.o)
    ensures var s := Next(Final(s0, es), RegTry);
            s.loop == RegDone(true) && !Final(s, mid).exited && !Enabled(Final(s, mid), TryExit)
  {
    InitInv(s0);
    RunKeepsInv(s0, es);
    var s, o := Next(Final(s0, es), RegTry), Final(s0, es).loop.o;
    StepKeepsInv(Final(s0, es), RegTry);
    assert s.descriptors[Final(s0, es).nextId] == o;
    StaysRegistered(s, mid, o);
    RegisteredKeepsOwner(Final(s, mid), o);
  }

  /** In every run the owner can leave through the TTL if and only if every registration is released and no Register is between its
      read guard and its data; and then it has left. */
  lemma OwnerCanLeaveIff(s0: State, es: seq<Event>)
    requires Init(s0) && Run(s0, es)
    ensures var s := Final(s0, es);
            Enabled(s, TryExit) <==> (forall o | o in s.objects :: s.objects[o].released) && s.loop != RegAcquired && s.loop != RegGuarded
    ensures Enabled(Final(s0, es), TryExit) ==> Next(Final(s0, es), TryExit).exited
  {
    InitInv(s0);
    RunKeepsInv(s0, es);
    var s := Final(s0, es);
    if o :| o in s.objects && !s.objects[o].released {
      assert o in Unreleased(s.objects);
    } else {
      assert Unreleased(s.objects) == {};
    }
  }

  // ----- what a Register is answered

  /** Somewhere in the run the loop puts an object into the map. */
  predicate Inserted(s: State, es: seq<Event>)
    requires Run(s, es)
    decreases |es|
  {
    es != [] && ((es[0] == RegTry && s.nextId !in s.descriptors) || Inserted(Next(s, es[0]), es[1..]))
  }

  predicate Registering(l: Loop) {
    l == RegAcquired || l == RegGuarded || l.RegBuilt? || l.RegDone?
  }

  lemma RegisterStep(s: State, e: Event)
    requires Enabled(s, e) && e != RegReply && Registering(s.loop)
    ensures Registering(Next(s, e).loop)
    ensures Next(s, e).loop == RegDone(true) <==> s.loop == RegDone(true) || (e == RegTry && s.nextId !in s.descriptors)
    ensures s.exited && (s.loop == RegAcquired || s.loop == RegDone(false)) ==>
              Next(s, e).exited && (Next(s, e).loop == RegAcquired || Next(s, e).loop == RegDone(false))
  {
  }

  lemma {:induction false} RegisterAnsweredIff(s: State, es: seq<Event>)
    requires Run(s, es) && RegReply !in es && Registering(s.loop)
    ensures Registering(Final(s, es).loop)
    ensures Final(s, es).loop == RegDone(true) <==> s.loop == RegDone(true) || Inserted(s, es)
    ensures s.exited && (s.loop == RegAcquired || s.loop == RegDone(false)) ==> Final(s, es).loop != RegDone(true) && !Inserted(s, es)
    decreases |es|
  {
    if es != [] {
      RegisterStep(s, es[0]);
      RegisterAnsweredIff(Next(s, es[0]), es[1..]);
    }
  }

  /** A Register, in any run: when it comes to be answered, it is answered Ok if and only if its data went into the map; and one that
      begins after the owner has exited is never answered Ok and puts nothing into the map. */
  lemma RegisterOkIff(s0: State, es: seq<Event>, mid: seq<Event>)
    requires Init(s0) && Run(s0, es) && Enabled(Final(s0, es), RecvRegister)
    requires Run(Next(Final(s0, es), RecvRegister), mid) && RegReply !in mid
    ensures var s := Next(Final(s0, es), RecvRegister);
            && (Enabled(Final(s, mid), RegReply) ==> (Final(s, mid).loop == RegDone(true) <==> Inserted(s, mid)))
            && (Final(s0, es).exited ==> Final(s, mid).loop != RegDone(true) && !Inserted(s, mid))
  {
    RegisterAnsweredIff(Next(Final(s0, es), RecvRegister), mid);
  }
}
