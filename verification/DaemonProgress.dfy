/** Every Unregister is completed (src/owner.rs:326-406 with src/tracker.rs:207-252): whatever the receiving loop and the lock threads
are in the middle of, also with lock threads parked in F_SETLKW and signals lost before it, an Unregister that has
taken its registration out of the map gets to its Ok reply in every fair run, within a bounded number of stretches. */
module DaemonProgress {
  import opened TrackerCore
  import opened Daemon
  import SP = StopProgress

  // ----- the ranking

  const HEAVIEST: nat := 12

  /** Steps that thread `p` has left until it is gone, if it is a lock thread of object `o`. */
  function Weight(s: State, o: Obj, p: Pid): nat {
    if p !in s.procs then 0
    else
      match s.procs[p]
      case LockStarting(x) => if x == o then HEAVIEST else 0
      case LockRunning(x) => if x == o then 2 + (if p in s.workers then SP.Rank(s.workers[p].pc) else 0) else 0
      case LockClosed(x) => if x == o then 1 else 0
      case LockRefused(x) => if x == o then 1 else 0
      case _ => 0
  }

  /** One token for each step that each lock thread of `o` has left. */
  function Tokens(s: State, o: Obj): set<(Pid, nat)> {
    set p, k: nat | p in s.procs && k < Weight(s, o, p) :: (p, k)
  }

  function Load(s: State, o: Obj): nat {
    |Tokens(s, o)|
  }

  function LoopLoad(l: Loop, o: Obj): nat {
    if l == CmdHolding(o) then HEAVIEST + 3
    else if l.CmdSpawning? && l.o == o then 2
    else if l == CmdFinishing(o) then 1
    else 0
  }

  function Stage(p: Proc): nat {
    match p
    case UnregStopping(_, first, _) => if first then 6 else 5
    case UnregDrained(_) => 4
    case UnregAlone(_) => 3
    case UnregDropped(_) => 2
    case _ => 0
  }

  /** Snoozes left to stop(), with the one reset of the backoff that may come. */
  function Budget(s: State, p: Proc, o: Obj): nat {
    if p.UnregStopping? then p.local.left + (if p.first || (o in s.objects && s.objects[o].tracker.newThread) then s.limit + 1 else 0) else 0
  }

  function Measure(s: State, u: Pid, o: Obj): nat
    requires u in s.procs
  {
    Stage(s.procs[u]) + Budget(s, s.procs[u], o) + Load(s, o) + LoopLoad(s.loop, o)
  }

  /** Some thread has become lighter. */
  ghost predicate Lighter(s: State, t: State, o: Obj) {
    exists p :: p in s.procs && p in t.procs && Weight(t, o, p) < Weight(s, o, p)
  }

  ghost predicate NoHeavier(s: State, t: State, o: Obj) {
    forall p | p in t.procs :: Weight(t, o, p) <= Weight(s, o, p)
  }

  lemma SubsetSize<T>(a: set<T>, b: set<T>)
    requires a <= b
    ensures |a| <= |b|
  {
    assert b == a + (b - a);
  }

  lemma LoadMonotone(s: State, t: State, o: Obj)
    requires NoHeavier(s, t, o)
    ensures Load(t, o) <= Load(s, o)
    ensures Lighter(s, t, o) ==> Load(t, o) < Load(s, o)
  {
    forall p, k | (p, k) in Tokens(t, o) ensures (p, k) in Tokens(s, o) {
      assert Weight(t, o, p) <= Weight(s, o, p);
    }
    SubsetSize(Tokens(t, o), Tokens(s, o));
    if Lighter(s, t, o) {
      var p :| p in s.procs && p in t.procs && Weight(t, o, p) < Weight(s, o, p);
      var x := (p, Weight(t, o, p));
      assert x in Tokens(s, o) && x !in Tokens(t, o);
      SubsetSize(Tokens(t, o), Tokens(s, o) - {x});
    }
  }

  function Row(q: Pid, n: nat): (r: set<(Pid, nat)>)
    ensures |r| == n && forall k: nat :: (q, k) in r <==> k < n
  {
    if n == 0 then {}
    else
      var r' := Row(q, n - 1);
      assert (q, n - 1) !in r';
      r' + {(q, n - 1)}
  }

  /** One thread more, of any weight. */
  lemma LoadWithOneMore(s: State, t: State, o: Obj, q: Pid)
    requires forall p | p in t.procs && p != q :: Weight(t, o, p) <= Weight(s, o, p)
    ensures Load(t, o) <= Load(s, o) + HEAVIEST
  {
    forall p, k | (p, k) in Tokens(t, o) ensures (p, k) in Tokens(s, o) + Row(q, HEAVIEST) {
      if p != q {
        assert Weight(t, o, p) <= Weight(s, o, p);
      }
    }
    SubsetSize(Tokens(t, o), Tokens(s, o) + Row(q, HEAVIEST));
  }

  // ----- invariants

  /** The thread the loop waits for exists and is about the same object. */
  ghost predicate SpawnKnown(s: State) {
    s.loop.CmdSpawning? ==> s.loop.t in s.procs && (s.procs[s.loop.t].LockStarting? ==> s.procs[s.loop.t].o == s.loop.o)
  }

  /** A lock thread in its closure is somewhere between guard and untrack. */
  ghost predicate WorkerKnown(s: State, t: Pid) {
    t in s.procs && s.procs[t].LockRunning? ==> t in s.workers && SP.Guarded(s.workers[t].pc)
  }

  ghost predicate Sound(s: State) {
    Inv(s) && SpawnKnown(s) && forall t | t in s.procs :: WorkerKnown(s, t)
  }

  lemma SpawnKnownAfter(s: State, e: Event)
    requires SpawnKnown(s) && Enabled(s, e)
    ensures SpawnKnown(Next(s, e))
  {
  }

  lemma WorkerKnownAfter(s: State, e: Event, t: Pid)
    requires WorkerKnown(s, t) && Enabled(s, e)
    ensures WorkerKnown(Next(s, e), t)
  {
  }

  lemma StepKeepsSound(s: State, e: Event)
    requires Sound(s) && Enabled(s, e)
    ensures Sound(Next(s, e))
  {
    StepKeepsInv(s, e);
    SpawnKnownAfter(s, e);
    forall t | t in Next(s, e).procs ensures WorkerKnown(Next(s, e), t) {
      WorkerKnownAfter(s, e, t);
    }
  }

  lemma {:induction false} RunKeepsSound(s: State, es: seq<Event>)
    requires Sound(s) && Run(s, es)
    ensures Sound(Final(s, es))
    decreases |es|
  {
    if es != [] {
      StepKeepsSound(s, es[0]);
      RunKeepsSound(Next(s, es[0]), es[1..]);
    }
  }

  // ----- no event adds to what an Unregister waits for

  ghost predicate Unregistering(s: State, u: Pid, o: Obj) {
    u in s.procs && Claims(s.procs[u], o)
  }

  lemma WeightAfterRound(s: State, e: Event, o: Obj, p: Pid)
    requires Enabled(s, e) && e.UnregRound?
    ensures Weight(Next(s, e), o, p) <= Weight(s, o, p)
  {
  }

  /** A lock thread's own step. */
  predicate MoveOf(e: Event, t: Pid) {
    (e.LockTrack? || e.LockStep? || e.LockGranted? || e.LockEnd? || e.LockUntrack? || e.LockRefusedDrop?) && e.t == t
  }

  lemma MoveShrinksWeight(s: State, e: Event, o: Obj, t: Pid)
    requires Enabled(s, e) && WorkerKnown(s, t) && MoveOf(e, t) && s.procs[t].o == o
    ensures Weight(Next(s, e), o, t) < Weight(s, o, t)
  {
  }

  lemma WeightAfterOther(s: State, e: Event, o: Obj, p: Pid)
    requires Enabled(s, e) && !e.UnregRound? && !MoveOf(e, p) && (e.CmdSpawn? ==> p != e.t)
    ensures Weight(Next(s, e), o, p) <= Weight(s, o, p)
  {
  }

  /** No event makes a lock thread heavier. */
  lemma WeightAfter(s: State, e: Event, o: Obj, p: Pid)
    requires Enabled(s, e) && WorkerKnown(s, p) && (e.CmdSpawn? ==> p != e.t)
    ensures Weight(Next(s, e), o, p) <= Weight(s, o, p)
  {
    if e.UnregRound? {
      WeightAfterRound(s, e, o, p);
    } else if !MoveOf(e, p) {
      WeightAfterOther(s, e, o, p);
    } else if s.procs[p].o == o {
      MoveShrinksWeight(s, e, o, p);
    }
  }

  lemma LoadAfterSpawn(s: State, e: Event, o: Obj)
    requires Enabled(s, e) && e.CmdSpawn?
    ensures !Lighter(s, Next(s, e), o)
    ensures Load(Next(s, e), o) <= Load(s, o) + if s.loop.o == o && e.ok then HEAVIEST else 0
  {
    var s' := Next(s, e);
    assert forall p | p in s.procs :: Weight(s', o, p) == Weight(s, o, p);
    if s.loop.o == o && e.ok {
      LoadWithOneMore(s, s', o, e.t);
    } else {
      LoadMonotone(s, s', o);
    }
  }

  lemma LoadAfterOther(s: State, e: Event, o: Obj)
    requires (forall p | p in s.procs :: WorkerKnown(s, p)) && Enabled(s, e) && !e.CmdSpawn?
    ensures Load(Next(s, e), o) <= Load(s, o)
    ensures Lighter(s, Next(s, e), o) ==> Load(Next(s, e), o) < Load(s, o)
  {
    var s' := Next(s, e);
    forall p | p in s'.procs ensures Weight(s', o, p) <= Weight(s, o, p) {
      WeightAfter(s, e, o, p);
    }
    LoadMonotone(s, s', o);
  }

  /** The loop cannot come to hold an object that is out of the map. */
  lemma LoopLoadAfter(s: State, e: Event, o: Obj)
    requires Enabled(s, e) && KeyHolders(s.descriptors, o) == {} && s.loop != RegBuilt(o)
    ensures LoopLoad(Next(s, e).loop, o) <= LoopLoad(s.loop, o)
    ensures (e.CmdDirect? || e.CmdAnswered? || e.CmdDone?) && LoopHolds(s.loop, o) ==> LoopLoad(Next(s, e).loop, o) < LoopLoad(s.loop, o)
    ensures e.CmdSpawn? && s.loop.o == o ==> LoopLoad(Next(s, e).loop, o) + HEAVIEST < LoopLoad(s.loop, o)
  {
    if e.RecvLock? && e.id in s.descriptors {
      assert e.id !in KeyHolders(s.descriptors, o);
    }
  }

  function Own(s: State, u: Pid, o: Obj): nat
    requires u in s.procs
  {
    Stage(s.procs[u]) + Budget(s, s.procs[u], o)
  }

  /** What the Unregister waits for besides others: nobody else adds to it. */
  lemma OwnAfterOthers(s: State, e: Event, u: Pid, o: Obj)
    requires Sound(s) && Enabled(s, e) && Unregistering(s, u, o) && !ActsAs(e, u)
    ensures Unregistering(Next(s, e), u, o) && Next(s, e).procs[u] == s.procs[u] && Own(Next(s, e), u, o) <= Own(s, u, o)
  {
    ProcUnchanged(s, e, u);
    assert StageSound(s, u) && OneHome(s, o);
    ClaimedIsUnmapped(s, u, o);
    FlagStays(s, e, u, o);
  }

  lemma FlagStays(s: State, e: Event, u: Pid, o: Obj)
    requires Enabled(s, e) && !ActsAs(e, u) && o in s.objects
    requires forall v | v in s.procs && Claims(s.procs[v], o) :: v == u
    ensures o in Next(s, e).objects
    ensures !s.objects[o].tracker.canSpawn && Next(s, e).objects[o].tracker.newThread ==> s.objects[o].tracker.newThread
  {
    if e.UnregRound? {
      assert Claims(s.procs[e.u], s.procs[e.u].o);
    }
  }

  /** The next round of stop() has no snooze left, meets no new thread and finds somebody tracked: it signals everybody. */
  predicate SignalsAll(s: State, u: Pid, o: Obj)
    requires u in s.procs && o in s.objects
  {
    && s.procs[u].UnregStopping? && s.procs[u].o == o && !s.procs[u].first && s.procs[u].local.left == 0
    && !s.objects[o].tracker.newThread && s.objects[o].tracker.threads != {}
  }

  lemma RoundOwn(s: State, e: Event, u: Pid, o: Obj)
    requires Enabled(s, e) && Unregistering(s, u, o) && o in s.objects && e.UnregRound? && e.u == u
    ensures Unregistering(Next(s, e), u, o)
    ensures if SignalsAll(s, u, o) then Own(Next(s, e), u, o) == Own(s, u, o) && RoundFor(s, u, e.snoozes).kills == s.objects[o].tracker.threads
            else Own(Next(s, e), u, o) < Own(s, u, o)
  {
    SnoozedLeft(s.procs[u].local, e.snoozes);
  }

  lemma OwnAfterOwn(s: State, e: Event, u: Pid, o: Obj)
    requires Enabled(s, e) && Unregistering(s, u, o) && o in s.objects && ActsAs(e, u) && !e.UnregRound?
    ensures Unregistering(Next(s, e), u, o) && Own(Next(s, e), u, o) < Own(s, u, o)
  {
  }

  lemma OwnAfter(s: State, e: Event, u: Pid, o: Obj)
    requires Sound(s) && Enabled(s, e) && Unregistering(s, u, o)
    ensures Unregistering(Next(s, e), u, o) && o in s.objects && Own(Next(s, e), u, o) <= Own(s, u, o)
    ensures ActsAs(e, u) && !(e.UnregRound? && SignalsAll(s, u, o)) ==> Own(Next(s, e), u, o) < Own(s, u, o)
  {
    assert o in s.objects;
    if !ActsAs(e, u) {
      OwnAfterOthers(s, e, u, o);
    } else if e.UnregRound? {
      RoundOwn(s, e, u, o);
    } else {
      OwnAfterOwn(s, e, u, o);
    }
  }

  predicate LoopMove(e: Event) {
    e.CmdDirect? || e.CmdSpawn? || e.CmdAnswered? || e.CmdDone?
  }

  /** No event of anybody, lost signals included, moves an Unregister further from its reply. A step of its own moves it closer, unless
      that is a round of stop() that can only signal; so does a step of the loop that holds the object, and anything
      that makes a lock thread lighter. */
  lemma MeasureNeverGrows(s: State, e: Event, u: Pid, o: Obj)
    requires Sound(s) && Enabled(s, e) && Unregistering(s, u, o)
    ensures Unregistering(Next(s, e), u, o) && o in s.objects && Measure(Next(s, e), u, o) <= Measure(s, u, o)
    ensures ActsAs(e, u) && !(e.UnregRound? && SignalsAll(s, u, o)) ==> Measure(Next(s, e), u, o) < Measure(s, u, o)
    ensures LoopMove(e) && LoopHolds(s.loop, o) ==> Measure(Next(s, e), u, o) < Measure(s, u, o)
    ensures Lighter(s, Next(s, e), o) ==> Measure(Next(s, e), u, o) < Measure(s, u, o)
  {
    OwnAfter(s, e, u, o);
    assert OneHome(s, o);
    ClaimedIsUnmapped(s, u, o);
    LoopLoadAfter(s, e, o);
    if e.CmdSpawn? {
      LoadAfterSpawn(s, e, o);
    } else {
      LoadAfterOther(s, e, o);
    }
  }

  lemma {:induction false} MeasureNeverGrowsInRun(s: State, es: seq<Event>, u: Pid, o: Obj)
    requires Sound(s) && Run(s, es) && Unregistering(s, u, o)
    ensures Sound(Final(s, es)) && Unregistering(Final(s, es), u, o) && Measure(Final(s, es), u, o) <= Measure(s, u, o)
    decreases |es|
  {
    if es != [] {
      StepKeepsSound(s, es[0]);
      MeasureNeverGrows(s, es[0], u, o);
      MeasureNeverGrowsInRun(Next(s, es[0]), es[1..], u, o);
    }
  }

  // ----- who can move

  /** The weight of a lock thread inside F_SETLKW, and of no other. */
  const PARKED: nat := 6

  /** If `t` is a lock thread of `o`, it is inside F_SETLKW. */
  predicate ParkedAt(s: State, o: Obj, t: Pid) {
    Weight(s, o, t) == 0 || Weight(s, o, t) == PARKED
  }

  ghost predicate AllParked(s: State, o: Obj) {
    forall t :: ParkedAt(s, o, t)
  }

  datatype Actor = Unregister | LockThread(t: Pid) | ReceivingLoop

  /** The actor has a step to make about object `o`: a lock thread that is not inside F_SETLKW, the loop unless it waits for a thread to
      start, the Unregister unless it waits for the strong count. */
  ghost predicate CanAct(s: State, u: Pid, o: Obj, a: Actor)
    requires u in s.procs
  {
    match a
    case Unregister => o in s.objects && (s.procs[u] == UnregDrained(o) ==> s.objects[o].count == 1)
    case LockThread(t) => !ParkedAt(s, o, t)
    case ReceivingLoop => LoopHolds(s.loop, o) && !(s.loop.CmdSpawning? && s.loop.t in s.procs && s.procs[s.loop.t].LockStarting?)
  }

  predicate ActionOf(e: Event, u: Pid, a: Actor) {
    match a case Unregister => ActsAs(e, u) case LockThread(t) => MoveOf(e, t) case ReceivingLoop => LoopMove(e)
  }

  /** Somebody can always move: with every lock thread parked and the loop elsewhere, it is the Unregister itself. */
  lemma SomebodyCanAct(s: State, u: Pid, o: Obj) returns (a: Actor)
    requires Sound(s) && Unregistering(s, u, o)
    ensures CanAct(s, u, o, a)
    ensures a.Unregister? ==> AllParked(s, o)
  {
    if LoopHolds(s.loop, o) {
      a := if s.loop.CmdSpawning? && s.procs[s.loop.t].LockStarting? then LockThread(s.loop.t) else ReceivingLoop;
    } else if t :| !ParkedAt(s, o, t) {
      a := LockThread(t);
    } else {
      a := Unregister;
      assert o in s.objects;
      if s.procs[u] == UnregDrained(o) {
        DrainedIsAlone(s, u, o);
      }
    }
  }

  lemma DrainedIsAlone(s: State, u: Pid, o: Obj)
    requires Sound(s) && Unregistering(s, u, o) && s.procs[u] == UnregDrained(o) && AllParked(s, o) && !LoopHolds(s.loop, o)
    ensures s.objects[o].count == 1
  {
    assert StageSound(s, u) && CountExact(s, o) && OneHome(s, o);
    ClaimedIsUnmapped(s, u, o);
    forall t | t in ProcHolders(s.procs, o) ensures t == u {
      assert TrackerExact(s, o, t);
      assert ParkedAt(s, o, t);
    }
    assert ProcHolders(s.procs, o) == {u};
  }

  // ----- every step of an actor that can act is progress

  lemma MoveIsProgress(s: State, e: Event, u: Pid, o: Obj, t: Pid)
    requires Sound(s) && Enabled(s, e) && Unregistering(s, u, o) && MoveOf(e, t) && Weight(s, o, t) > 0
    ensures Measure(Next(s, e), u, o) < Measure(s, u, o)
  {
    assert WorkerKnown(s, t);
    MoveShrinksWeight(s, e, o, t);
    assert Lighter(s, Next(s, e), o);
    MeasureNeverGrows(s, e, u, o);
  }

  /** A round that can only signal finds its targets inside F_SETLKW and gets them out. */
  lemma OwnStepIsProgress(s: State, e: Event, u: Pid, o: Obj)
    requires Sound(s) && Enabled(s, e) && Unregistering(s, u, o) && ActsAs(e, u) && AllParked(s, o)
    ensures Measure(Next(s, e), u, o) < Measure(s, u, o)
  {
    MeasureNeverGrows(s, e, u, o);
    if e.UnregRound? && SignalsAll(s, u, o) {
      RoundOwn(s, e, u, o);
      var t :| t in s.objects[o].tracker.threads;
      assert TrackerExact(s, o, t) && WorkerKnown(s, t) && ParkedAt(s, o, t);
      SignalFrees(s, e, o, t);
      assert Lighter(s, Next(s, e), o);
    }
  }

  lemma SignalFrees(s: State, e: Event, o: Obj, t: Pid)
    requires Enabled(s, e) && e.UnregRound? && WorkerKnown(s, t) && t in s.procs && Daemon.Tracked(s.procs[t], o)
    requires t in RoundFor(s, e.u, e.snoozes).kills && t != e.u && ParkedAt(s, o, t)
    ensures t in Next(s, e).procs && Weight(Next(s, e), o, t) < Weight(s, o, t)
  {
  }

  lemma ParkedKept(s: State, e: Event, u: Pid, o: Obj)
    requires Sound(s) && Enabled(s, e) && Unregistering(s, u, o) && AllParked(s, o)
    ensures Unregistering(Next(s, e), u, o) && (Measure(Next(s, e), u, o) < Measure(s, u, o) || AllParked(Next(s, e), o))
  {
    MeasureNeverGrows(s, e, u, o);
    var s' := Next(s, e);
    if !(e.CmdSpawn? && s.loop.o == o) && !Lighter(s, s', o) {
      forall t ensures ParkedAt(s', o, t) {
        assert ParkedAt(s, o, t) && WorkerKnown(s, t);
        if !(e.CmdSpawn? && t == e.t) {
          WeightAfter(s, e, o, t);
        }
      }
    }
  }

  // ----- fair runs

  /** The actor acts somewhere in the stretch. */
  predicate Acts(es: seq<Event>, u: Pid, a: Actor) {
    es != [] && (ActionOf(es[0], u, a) || Acts(es[1..], u, a))
  }

  ghost predicate Answered(s: State, u: Pid) {
    u in s.procs && s.procs[u].UnregAnswered?
  }

  /** A stretch of a run is fair to the Unregister if, unless that is answered by its end, everybody who could act at its start did. */
  ghost predicate FairStretch(s: State, es: seq<Event>, u: Pid, o: Obj)
    requires u in s.procs
  {
    Run(s, es) && (!Answered(Final(s, es), u) ==> forall a | CanAct(s, u, o, a) :: Acts(es, u, a))
  }

  lemma WeightKept(s: State, e: Event, o: Obj, t: Pid)
    requires Enabled(s, e) && WorkerKnown(s, t) && Weight(s, o, t) > 0 && !MoveOf(e, t)
    ensures Weight(Next(s, e), o, t) > 0
  {
  }

  lemma {:induction false} MoveSomewhere(s: State, es: seq<Event>, u: Pid, o: Obj, t: Pid)
    requires Sound(s) && Run(s, es) && Unregistering(s, u, o) && Weight(s, o, t) > 0 && Acts(es, u, LockThread(t))
    ensures Unregistering(Final(s, es), u, o) && Measure(Final(s, es), u, o) < Measure(s, u, o)
    decreases |es|
  {
    var e, s' := es[0], Next(s, es[0]);
    StepKeepsSound(s, e);
    MeasureNeverGrows(s, e, u, o);
    if MoveOf(e, t) {
      MoveIsProgress(s, e, u, o, t);
      MeasureNeverGrowsInRun(s', es[1..], u, o);
    } else {
      assert WorkerKnown(s, t);
      WeightKept(s, e, o, t);
      MoveSomewhere(s', es[1..], u, o, t);
    }
  }

  lemma LoopKept(s: State, e: Event, o: Obj)
    requires Enabled(s, e) && LoopHolds(s.loop, o) && s.loop != RegBuilt(o) && !LoopMove(e)
    ensures Next(s, e).loop == s.loop
  {
  }

  lemma {:induction false} LoopSomewhere(s: State, es: seq<Event>, u: Pid, o: Obj)
    requires Sound(s) && Run(s, es) && Unregistering(s, u, o) && LoopHolds(s.loop, o) && Acts(es, u, ReceivingLoop)
    ensures Unregistering(Final(s, es), u, o) && Measure(Final(s, es), u, o) < Measure(s, u, o)
    decreases |es|
  {
    var e, s' := es[0], Next(s, es[0]);
    StepKeepsSound(s, e);
    MeasureNeverGrows(s, e, u, o);
    if LoopMove(e) {
      MeasureNeverGrowsInRun(s', es[1..], u, o);
    } else {
      assert OneHome(s, o);
      ClaimedIsUnmapped(s, u, o);
      LoopKept(s, e, o);
      LoopSomewhere(s', es[1..], u, o);
    }
  }

  lemma ParkedStep(s: State, e: Event, u: Pid, o: Obj) returns (s': State)
    requires Sound(s) && Enabled(s, e) && Unregistering(s, u, o) && AllParked(s, o)
    ensures s' == Next(s, e) && Sound(s') && Unregistering(s', u, o) && Measure(s', u, o) <= Measure(s, u, o)
    ensures Measure(s', u, o) < Measure(s, u, o) || (!ActsAs(e, u) && AllParked(s', o))
  {
    s' := Next(s, e);
    StepKeepsSound(s, e);
    MeasureNeverGrows(s, e, u, o);
    if ActsAs(e, u) {
      OwnStepIsProgress(s, e, u, o);
    } else {
      ParkedKept(s, e, u, o);
    }
  }

  lemma {:induction false} OwnStepSomewhere(s: State, es: seq<Event>, u: Pid, o: Obj)
    requires Sound(s) && Run(s, es) && Unregistering(s, u, o) && AllParked(s, o) && Acts(es, u, Unregister)
    ensures Unregistering(Final(s, es), u, o) && Measure(Final(s, es), u, o) < Measure(s, u, o)
    decreases |es|
  {
    var s' := ParkedStep(s, es[0], u, o);
    if Measure(s', u, o) < Measure(s, u, o) {
      MeasureNeverGrowsInRun(s', es[1..], u, o);
    } else {
      OwnStepSomewhere(s', es[1..], u, o);
    }
  }

  /** A fair stretch ends with the Unregister answered or strictly closer to it. */
  lemma FairStretchProgress(s: State, es: seq<Event>, u: Pid, o: Obj)
    requires Sound(s) && Unregistering(s, u, o) && FairStretch(s, es, u, o)
    ensures Sound(Final(s, es)) && Unregistering(Final(s, es), u, o)
    ensures Answered(Final(s, es), u) || Measure(Final(s, es), u, o) < Measure(s, u, o)
  {
    MeasureNeverGrowsInRun(s, es, u, o);
    if !Answered(Final(s, es), u) {
      var a := SomebodyCanAct(s, u, o);
      assert Acts(es, u, a);
      match a
      case Unregister => OwnStepSomewhere(s, es, u, o);
      case LockThread(t) => MoveSomewhere(s, es, u, o, t);
      case ReceivingLoop => LoopSomewhere(s, es, u, o);
    }
  }

  ghost predicate FairStretches(s: State, ess: seq<seq<Event>>, u: Pid, o: Obj)
    decreases |ess|
  {
    ess == [] || (u in s.procs && FairStretch(s, ess[0], u, o) && FairStretches(Final(s, ess[0]), ess[1..], u, o))
  }

  ghost function FinalOf(s: State, ess: seq<seq<Event>>, u: Pid, o: Obj): State
    requires FairStretches(s, ess, u, o)
    decreases |ess|
  {
    if ess == [] then s else FinalOf(Final(s, ess[0]), ess[1..], u, o)
  }

  lemma {:induction false} FairRunsComplete(s: State, ess: seq<seq<Event>>, u: Pid, o: Obj)
    requires Sound(s) && Unregistering(s, u, o) && FairStretches(s, ess, u, o)
    requires |ess| > Measure(s, u, o) || Answered(s, u)
    ensures Sound(FinalOf(s, ess, u, o)) && Unregistering(FinalOf(s, ess, u, o), u, o) && Answered(FinalOf(s, ess, u, o), u)
    decreases |ess|
  {
    if ess != [] {
      FairStretchProgress(s, ess[0], u, o);
      if Answered(s, u) {
        AnsweredForGood(s, u, ess[0]);
      }
      FairRunsComplete(Final(s, ess[0]), ess[1..], u, o);
    }
  }

  /** Every Unregister completes. In any run whatsoever that reaches a state where an Unregister has taken its registration out of the
      map and then goes on fairly for more stretches than the ranking allows, with any other requests, lock threads,
      grants, failures and lost signals interleaved, it has been answered Ok and the registration is gone. */
  lemma UnregisterCompletesInEveryFairRun(s0: State, es: seq<Event>, u: Pid, o: Obj, ess: seq<seq<Event>>)
    requires Init(s0) && Run(s0, es) && Unregistering(Final(s0, es), u, o)
    requires FairStretches(Final(s0, es), ess, u, o) && |ess| > Measure(Final(s0, es), u, o)
    ensures var s := FinalOf(Final(s0, es), ess, u, o); u in s.procs && s.procs[u] == UnregAnswered(o) && Gone(s, o)
  {
    InitInv(s0);
    RunKeepsSound(s0, es);
    FairRunsComplete(Final(s0, es), ess, u, o);
    AnsweredIsGone(FinalOf(Final(s0, es), ess, u, o), u);
  }

  // ----- and such runs exist from everywhere

  /** An actor that can act has an event to act with. */
  lemma EventFor(s: State, u: Pid, o: Obj, a: Actor) returns (e: Event)
    requires Sound(s) && Unregistering(s, u, o) && CanAct(s, u, o, a) && !Answered(s, u)
    ensures Enabled(s, e) && ActionOf(e, u, a)
  {
    match a {
      case Unregister =>
        match s.procs[u] {
          case UnregStopping(_, _, l) => e := UnregRound(u, l.left);
          case UnregDrained(_) => e := UnregCount(u);
          case UnregAlone(_) => e := UnregDrop(u);
          case UnregDropped(_) => e := UnregReply(u);
        }
      case LockThread(t) =>
        e := LockEventFor(s, o, t);
      case ReceivingLoop =>
        assert OneHome(s, o);
        ClaimedIsUnmapped(s, u, o);
        e := if s.loop.CmdHolding? then CmdDirect else if s.loop.CmdSpawning? then CmdAnswered else CmdDone;
    }
  }

  lemma LockEventFor(s: State, o: Obj, t: Pid) returns (e: Event)
    requires ReferencesKnown(s) && WorkerKnown(s, t) && !ParkedAt(s, o, t)
    ensures Enabled(s, e) && MoveOf(e, t)
  {
    match s.procs[t]
    case LockStarting(_) => e := LockTrack(t);
    case LockRunning(_) => e := if s.workers[t].pc == SP.Closed then LockEnd(t) else LockStep(t, true);
    case LockClosed(_) => e := LockUntrack(t);
    case LockRefused(_) => e := LockRefusedDrop(t);
  }

  lemma HelpfulStep(s: State, u: Pid, o: Obj) returns (e: Event)
    requires Sound(s) && Unregistering(s, u, o) && !Answered(s, u)
    ensures Enabled(s, e) && Unregistering(Next(s, e), u, o) && Measure(Next(s, e), u, o) < Measure(s, u, o)
  {
    var a := SomebodyCanAct(s, u, o);
    e := EventFor(s, u, o, a);
    MeasureNeverGrows(s, e, u, o);
    match a
    case Unregister => OwnStepIsProgress(s, e, u, o);
    case LockThread(t) => MoveIsProgress(s, e, u, o, t);
    case ReceivingLoop =>
  }

  ghost predicate Completes(s: State, u: Pid, es: seq<Event>) {
    Run(s, es) && Answered(Final(s, es), u)
  }

  lemma PrependStep(s: State, e: Event, u: Pid, rest: seq<Event>)
    requires Enabled(s, e) && Completes(Next(s, e), u, rest)
    ensures Completes(s, u, [e] + rest)
  {
    assert ([e] + rest)[1..] == rest;
  }

  lemma {:induction false} CanComplete(s: State, u: Pid, o: Obj) returns (es: seq<Event>)
    requires Sound(s) && Unregistering(s, u, o)
    ensures Completes(s, u, es) && |es| <= Measure(s, u, o)
    decreases Measure(s, u, o)
  {
    if Answered(s, u) {
      return [];
    }
    var e := HelpfulStep(s, u, o);
    StepKeepsSound(s, e);
    var rest := CanComplete(Next(s, e), u, o);
    es := [e] + rest;
    PrependStep(s, e, u, rest);
  }

  /** In every reachable state, every Unregister that took its registration out of the map can be driven to its Ok reply within the
      number of steps that the ranking says. */
  lemma UnregisterCanComplete(s0: State, es: seq<Event>, u: Pid, o: Obj) returns (more: seq<Event>)
    requires Init(s0) && Run(s0, es) && Unregistering(Final(s0, es), u, o)
    ensures Completes(Final(s0, es), u, more) && |more| <= Measure(Final(s0, es), u, o)
  {
    InitInv(s0);
    RunKeepsSound(s0, es);
    more := CanComplete(Final(s0, es), u, o);
  }
}
