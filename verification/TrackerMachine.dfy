/** One tracker shared by any number of threads (src/tracker.rs), as a step machine.

Every critical section is one event and events interleave freely. Threads are told apart by an
identity that is never reused, while their `pthread_t` value is free for reuse as soon as the
thread is gone. A guard dies in two steps, as its `drop` does: untrack, then set the exit flag.
*/
module TrackerMachine {
  import opened TrackerCore

  type Uid = nat
  type GuardId = nat
  type CallId = nat

  /** Live: tracked. Untracked: first half of `drop` done. Exited: exit flag set. */
  datatype Phase = Live | Untracked | Exited

  datatype Guard = Guard(thread: Uid, pthread: Pthread, phase: Phase)

  /** The closure handed to `spawn`, for a thread that `spawn` created. */
  datatype Job = NoJob | Starting | Running(guard: GuardId) | Ended | Refused

  /** The `stop` call a thread is inside of, if any. */
  datatype Busy = Free | InStop(call: CallId) | InHandleStop(call: CallId)

  datatype Thread = Thread(pthread: Pthread, job: Job, busy: Busy)

  /** Entering: before the first lock. Asleep: lock dropped, must snooze. Trying: may take the lock. */
  datatype Pc = Entering | Asleep | Trying | OnCondvar | Returned | Panicked

  /** A call of `InterruptibleTracker::stop`, with every pthread it has signalled so far. */
  datatype StopCall = StopCall(caller: Uid, pc: Pc, local: Local, signalled: set<Pthread>)

  /** A call of `InterruptibleHandle::stop` on the handle made together with `guard`. */
  datatype HandleCall = HandleCall(caller: Uid, guard: GuardId, pc: Pc, local: Local)

  datatype State = State(
    limit: nat,
    data: Data,
    born: set<Uid>,
    threads: map<Uid, Thread>,
    guards: map<GuardId, Guard>,
    stops: map<CallId, StopCall>,
    handleStops: map<CallId, HandleCall>)

  datatype Event =
    | Create(u: Uid, p: Pthread, job: bool)
    | MakeGuard(u: Uid, g: GuardId)
    | EndClosure(u: Uid)
    | DropUntrack(g: GuardId)
    | DropMark(g: GuardId)
    | Terminate(u: Uid)
    | BeginStop(c: CallId, u: Uid)
    | RoundOf(c: CallId)
    | SnoozeOf(c: CallId)
    | BeginHandleStop(c: CallId, u: Uid, g: GuardId)
    | HandleRoundOf(c: CallId)
    | HandleSnoozeOf(c: CallId)

  ghost predicate Init(s: State) {
    && s.data == Data(true, false, {})
    && s.born == {} && s.threads == map[] && s.guards == map[] && s.stops == map[] && s.handleStops == map[]
  }

  predicate AtLock(pc: Pc) {
    pc == Entering || pc == Trying || pc == OnCondvar
  }

  predicate Pending(pc: Pc) {
    pc != Returned && pc != Panicked
  }

  /** The thread runs user code: the closure, or anything else that is not the tracker's own. */
  predicate RunsUserCode(s: State, u: Uid) {
    u in s.threads && s.threads[u].busy == Free && (s.threads[u].job == NoJob || s.threads[u].job.Running?)
  }

  ghost predicate Enabled(s: State, e: Event) {
    match e
    case Create(u, p, _) =>
      u !in s.born && forall v | v in s.threads :: s.threads[v].pthread != p
    case MakeGuard(u, g) =>
      g !in s.guards && (RunsUserCode(s, u) || (u in s.threads && s.threads[u].job == Starting))
    case EndClosure(u) =>
      u in s.threads && s.threads[u].busy == Free && s.threads[u].job.Running?
    case DropUntrack(g) =>
      && g in s.guards && s.guards[g].phase == Live
      && var u := s.guards[g].thread;
         u in s.threads && s.threads[u].busy == Free && s.threads[u].job != Running(g)
    case DropMark(g) =>
      g in s.guards && s.guards[g].phase == Untracked
    case Terminate(u) =>
      && u in s.threads && s.threads[u].busy == Free
      && s.threads[u].job != Starting && !s.threads[u].job.Running?
      && forall g | g in s.guards && s.guards[g].thread == u :: s.guards[g].phase == Exited
    case BeginStop(c, u) =>
      c !in s.stops && RunsUserCode(s, u)
    case RoundOf(c) =>
      c in s.stops && AtLock(s.stops[c].pc)
    case SnoozeOf(c) =>
      c in s.stops && (s.stops[c].pc == Asleep || (s.stops[c].pc == Trying && s.stops[c].local.left > 0))
    case BeginHandleStop(c, u, g) =>
      c !in s.handleStops && g in s.guards && RunsUserCode(s, u)
    case HandleRoundOf(c) =>
      c in s.handleStops && AtLock(s.handleStops[c].pc) && s.handleStops[c].guard in s.guards
    case HandleSnoozeOf(c) =>
      c in s.handleStops && (s.handleStops[c].pc == Asleep || (s.handleStops[c].pc == Trying && s.handleStops[c].local.left > 0))
  }

  function SetBusy(s: State, u: Uid, b: Busy): map<Uid, Thread> {
    if u in s.threads then s.threads[u := s.threads[u].(busy := b)] else s.threads
  }

  function AfterStopRound(o: Outcome): Pc {
    match o case Return => Returned case CondWait => OnCondvar case Snooze => Asleep
  }

  function AfterHandleRound(o: HandleOutcome): Pc {
    match o case HReturn => Returned case HPanic => Panicked case HCondWait => OnCondvar case HSnooze => Asleep
  }

  /** The critical section that call `c` of `InterruptibleTracker::stop` runs next. */
  function RoundFor(s: State, c: CallId): Round
    requires c in s.stops
  {
    var k := s.stops[c];
    StopRound(if k.pc == Entering then Close(s.data) else s.data, k.local, s.limit)
  }

  /** The critical section that call `c` of `InterruptibleHandle::stop` runs next. The self test
      compares `pthread_t` values, as the code does. */
  function HandleRoundFor(s: State, c: CallId): HandleRound
    requires c in s.handleStops && s.handleStops[c].guard in s.guards
  {
    var k := s.handleStops[c];
    var g := s.guards[k.guard];
    HandleStopRound(g.phase == Exited, k.caller in s.threads && s.threads[k.caller].pthread == g.pthread, k.local)
  }

  ghost function Next(s: State, e: Event): State
    requires Enabled(s, e)
  {
    match e
    case Create(u, p, job) =>
      s.(born := s.born + {u}, threads := s.threads[u := Thread(p, if job then Starting else NoJob, Free)])
    case MakeGuard(u, g) =>
      var t := s.threads[u];
      if s.data.canSpawn then
        s.(data := Track(s.data, t.pthread),
           guards := s.guards[g := Guard(u, t.pthread, Live)],
           threads := if t.job == Starting then s.threads[u := t.(job := Running(g))] else s.threads)
      else
        s.(threads := if t.job == Starting then s.threads[u := t.(job := Refused)] else s.threads)
    case EndClosure(u) =>
      s.(threads := s.threads[u := s.threads[u].(job := Ended)])
    case DropUntrack(g) =>
      s.(data := Untrack(s.data, s.threads[s.guards[g].thread].pthread),
         guards := s.guards[g := s.guards[g].(phase := Untracked)])
    case DropMark(g) =>
      s.(guards := s.guards[g := s.guards[g].(phase := Exited)])
    case Terminate(u) =>
      s.(threads := s.threads - {u})
    case BeginStop(c, u) =>
      s.(stops := s.stops[c := StopCall(u, Entering, Local(s.limit, false), {})], threads := SetBusy(s, u, InStop(c)))
    case RoundOf(c) =>
      var k := s.stops[c];
      var r := RoundFor(s, c);
      s.(data := r.data,
         stops := s.stops[c := k.(pc := AfterStopRound(r.outcome), local := r.local, signalled := k.signalled + r.kills)],
         threads := if r.outcome == Return then SetBusy(s, k.caller, Free) else s.threads)
    case SnoozeOf(c) =>
      s.(stops := s.stops[c := s.stops[c].(pc := Trying, local := Snoozed(s.stops[c].local))])
    case BeginHandleStop(c, u, g) =>
      s.(handleStops := s.handleStops[c := HandleCall(u, g, Entering, Local(s.limit, false))],
         threads := SetBusy(s, u, InHandleStop(c)))
    case HandleRoundOf(c) =>
      var k := s.handleStops[c];
      var r := HandleRoundFor(s, c);
      s.(handleStops := s.handleStops[c := k.(pc := AfterHandleRound(r.outcome), local := r.local)],
         threads := if r.outcome.HReturn? || r.outcome.HPanic? then SetBusy(s, k.caller, Free) else s.threads)
    case HandleSnoozeOf(c) =>
      s.(handleStops := s.handleStops[c := s.handleStops[c].(pc := Trying, local := Snoozed(s.handleStops[c].local))])
  }

  /** The `pthread_kill` targets of an event. */
  ghost function Kills(s: State, e: Event): set<Pthread>
    requires Enabled(s, e)
  {
    match e
    case RoundOf(c) => RoundFor(s, c).kills
    case HandleRoundOf(c) =>
      if HandleRoundFor(s, c).kill then {s.guards[s.handleStops[c].guard].pthread} else {}
    case _ => {}
  }

  ghost predicate Run(s: State, es: seq<Event>)
    decreases |es|
  {
    es == [] || (Enabled(s, es[0]) && Run(Next(s, es[0]), es[1..]))
  }

  ghost function Final(s: State, es: seq<Event>): State
    requires Run(s, es)
    decreases |es|
  {
    if es == [] then s else Final(Next(s, es[0]), es[1..])
  }

  // ----- the invariant of every run

  ghost predicate PthreadsDistinct(s: State) {
    && (forall u | u in s.threads :: u in s.born)
    && forall u, v | u in s.threads && v in s.threads && s.threads[u].pthread == s.threads[v].pthread :: u == v
  }

  /** Until its exit flag is set, a guard's thread exists and has the pthread the guard recorded. */
  ghost predicate GuardsAlive(s: State) {
    && (forall g | g in s.guards :: s.guards[g].thread in s.born)
    && forall g | g in s.guards && s.guards[g].phase != Exited ::
         s.guards[g].thread in s.threads && s.threads[s.guards[g].thread].pthread == s.guards[g].pthread
  }

  ghost predicate HasLiveGuard(s: State, p: Pthread) {
    exists g :: g in s.guards && s.guards[g].phase == Live && s.guards[g].pthread == p
  }

  ghost predicate TrackedAreLive(s: State) {
    forall p | p in s.data.threads :: HasLiveGuard(s, p)
  }

  ghost predicate JobsGuarded(s: State) {
    forall u | u in s.threads && s.threads[u].job.Running? ::
      var g := s.threads[u].job.guard;
      g in s.guards && s.guards[g].phase == Live && s.guards[g].thread == u
  }

  /** A call under way keeps its thread alive and inside the call. */
  ghost predicate StopCallsHeld(s: State) {
    forall c | c in s.stops && Pending(s.stops[c].pc) ::
      s.stops[c].caller in s.threads && s.threads[s.stops[c].caller].busy == InStop(c)
  }

  ghost predicate EnteringFresh(s: State) {
    forall c | c in s.stops && s.stops[c].pc == Entering :: s.stops[c].local == Local(s.limit, false)
  }

  ghost predicate HandleCallsHeld(s: State) {
    && (forall c | c in s.handleStops && Pending(s.handleStops[c].pc) ::
          s.handleStops[c].caller in s.threads && s.threads[s.handleStops[c].caller].busy == InHandleStop(c))
    && (forall c | c in s.handleStops :: s.handleStops[c].guard in s.guards)
  }

  /** A call past its first critical section has closed the tracker; while it waits it has
      signalled everything still tracked, and once it has returned the set is empty. */
  ghost predicate ClosedBySomeone(s: State) {
    && (forall c | c in s.stops && s.stops[c].pc != Entering :: !s.data.canSpawn)
    && (forall c | c in s.stops && s.stops[c].pc != Entering :: s.data.threads <= s.stops[c].signalled || s.data.threads == {})
    && (forall c | c in s.stops && s.stops[c].pc == Returned :: s.data.threads == {})
  }

  ghost predicate Inv(s: State) {
    && PthreadsDistinct(s) && GuardsAlive(s) && TrackedAreLive(s)
    && JobsGuarded(s) && EnteringFresh(s) && StopCallsHeld(s) && HandleCallsHeld(s) && ClosedBySomeone(s)
  }

  lemma StepKeepsPthreads(s: State, e: Event)
    requires PthreadsDistinct(s) && Enabled(s, e)
    ensures PthreadsDistinct(Next(s, e))
  {
  }

  lemma StepKeepsGuards(s: State, e: Event)
    requires PthreadsDistinct(s) && GuardsAlive(s) && Enabled(s, e)
    ensures GuardsAlive(Next(s, e))
  {
  }

  lemma StepKeepsJobs(s: State, e: Event)
    requires PthreadsDistinct(s) && JobsGuarded(s) && Enabled(s, e)
    ensures JobsGuarded(Next(s, e))
  {
  }

  lemma StepKeepsTracked(s: State, e: Event)
    requires Inv(s) && Enabled(s, e)
    ensures TrackedAreLive(Next(s, e))
  {
    var s' := Next(s, e);
    forall p | p in s'.data.threads ensures HasLiveGuard(s', p) {
      if e.MakeGuard? && s.data.canSpawn && p == s.threads[e.u].pthread {
        assert s'.guards[e.g].phase == Live;
      } else {
        var g :| g in s.guards && s.guards[g].phase == Live && s.guards[g].pthread == p;
        assert g in s'.guards && s'.guards[g].phase == Live && s'.guards[g].pthread == p;
      }
    }
  }

  lemma StepKeepsStopCalls(s: State, e: Event)
    requires StopCallsHeld(s) && HandleCallsHeld(s) && PthreadsDistinct(s) && Enabled(s, e)
    ensures StopCallsHeld(Next(s, e))
  {
  }

  lemma StepKeepsHandleCalls(s: State, e: Event)
    requires StopCallsHeld(s) && HandleCallsHeld(s) && PthreadsDistinct(s) && Enabled(s, e)
    ensures HandleCallsHeld(Next(s, e))
  {
  }

  lemma StepKeepsFresh(s: State, e: Event)
    requires EnteringFresh(s) && Enabled(s, e)
    ensures EnteringFresh(Next(s, e))
  {
  }

  lemma StepKeepsClosed(s: State, e: Event)
    requires EnteringFresh(s) && ClosedBySomeone(s) && Enabled(s, e)
    ensures ClosedBySomeone(Next(s, e))
  {
  }

  lemma StepKeepsInv(s: State, e: Event)
    requires Inv(s) && Enabled(s, e)
    ensures Inv(Next(s, e))
  {
    StepKeepsPthreads(s, e);
    StepKeepsGuards(s, e);
    StepKeepsJobs(s, e);
    StepKeepsTracked(s, e);
    StepKeepsStopCalls(s, e);
    StepKeepsHandleCalls(s, e);
    StepKeepsFresh(s, e);
    StepKeepsClosed(s, e);
  }

  lemma {:induction false} RunKeepsInv(s: State, es: seq<Event>)
    requires Inv(s) && Run(s, es)
    ensures Inv(Final(s, es))
    decreases |es|
  {
    if es != [] {
      StepKeepsInv(s, es[0]);
      RunKeepsInv(Next(s, es[0]), es[1..]);
    }
  }

  // ----- whom the signals reach

  /** Every `pthread_kill` of every run hits a thread that exists and whose guard has not finished
      dropping, however pthread values were reused; a handle hits exactly the thread it was made for. */
  lemma KillsHitGuardedThreads(s0: State, es: seq<Event>, e: Event, p: Pthread)
    requires Init(s0) && Run(s0, es) && Enabled(Final(s0, es), e)
    requires p in Kills(Final(s0, es), e)
    ensures var s := Final(s0, es);
            && (exists u, g :: u in s.threads && s.threads[u].pthread == p
                               && g in s.guards && s.guards[g].thread == u && s.guards[g].phase != Exited)
            && (e.HandleRoundOf? ==>
                  forall u | u in s.threads && s.threads[u].pthread == p :: u == s.guards[s.handleStops[e.c].guard].thread)
  {
    RunKeepsInv(s0, es);
    var s := Final(s0, es);
    if e.RoundOf? {
      assert HasLiveGuard(s, p);
    } else {
      var g := s.handleStops[e.c].guard;
      assert s.guards[g].phase != Exited && s.guards[g].thread in s.threads;
    }
  }

  /** `InterruptibleHandle::stop` compares pthread values, which are reused; in every reachable state
      that test is nevertheless true, with the flag unset, exactly for the guarded thread itself. */
  lemma HandlePanicsIffReentrant(s0: State, es: seq<Event>, c: CallId)
    requires Init(s0) && Run(s0, es) && Enabled(Final(s0, es), HandleRoundOf(c))
    ensures var s := Final(s0, es);
            var k := s.handleStops[c];
            HandleRoundFor(s, c).outcome == HPanic <==> (s.guards[k.guard].phase != Exited && k.caller == s.guards[k.guard].thread)
  {
    RunKeepsInv(s0, es);
  }

  // ----- the tracked set is the set of guarded threads

  ghost predicate Exact(s: State) {
    forall p :: p in s.data.threads <==> HasLiveGuard(s, p)
  }

  ghost predicate OneGuardEach(s: State) {
    forall g, h | g in s.guards && h in s.guards && s.guards[g].phase == Live && s.guards[h].phase == Live
                  && s.guards[g].thread == s.guards[h].thread :: g == h
  }

  /** No second guard is made on a thread that still has one. */
  ghost predicate Clean(s: State, e: Event) {
    e.MakeGuard? ==> forall g | g in s.guards && s.guards[g].phase == Live :: s.guards[g].thread != e.u
  }

  ghost predicate CleanRun(s: State, es: seq<Event>)
    decreases |es|
  {
    es == [] || (Enabled(s, es[0]) && Clean(s, es[0]) && CleanRun(Next(s, es[0]), es[1..]))
  }

  lemma StepKeepsOneGuard(s: State, e: Event)
    requires Enabled(s, e) && Clean(s, e) && OneGuardEach(s)
    ensures OneGuardEach(Next(s, e))
  {
  }

  /** A guard is dropped while its thread has no other live guard. */
  ghost predicate Careful(s: State, e: Event)
    requires Enabled(s, e)
  {
    e.DropUntrack? ==> forall h | h in s.guards && s.guards[h].phase == Live && h != e.g :: s.guards[h].thread != s.guards[e.g].thread
  }

  ghost predicate CarefulRun(s: State, es: seq<Event>)
    decreases |es|
  {
    es == [] || (Enabled(s, es[0]) && Careful(s, es[0]) && CarefulRun(Next(s, es[0]), es[1..]))
  }

  /** The set is exact in every state of the run. */
  ghost predicate AlwaysExact(s: State, es: seq<Event>)
    requires Run(s, es)
    decreases |es|
  {
    Exact(s) && (es == [] || AlwaysExact(Next(s, es[0]), es[1..]))
  }

  /** Dropping a guard keeps the set exact if and only if its thread has no other live guard. */
  lemma DropKeepsExactIff(s: State, g: GuardId)
    requires Inv(s) && Exact(s) && Enabled(s, DropUntrack(g))
    ensures Exact(Next(s, DropUntrack(g))) <==> Careful(s, DropUntrack(g))
  {
    var s' := Next(s, DropUntrack(g));
    var p := s.guards[g].pthread;
    if h :| h in s.guards && s.guards[h].phase == Live && h != g && s.guards[h].thread == s.guards[g].thread {
      assert s'.guards[h].phase == Live && s'.guards[h].pthread == p;
      assert HasLiveGuard(s', p) && p !in s'.data.threads;
    } else {
      forall h | h in s'.guards && s'.guards[h].phase == Live ensures s'.guards[h].pthread != p {
        assert s.guards[h].thread != s.guards[g].thread;
      }
      forall q | q != p ensures HasLiveGuard(s', q) <==> HasLiveGuard(s, q) {
        if HasLiveGuard(s, q) {
          var h :| h in s.guards && s.guards[h].phase == Live && s.guards[h].pthread == q;
          assert s'.guards[h] == s.guards[h];
        }
      }
    }
  }

  /** No other event disturbs it. */
  lemma OtherStepsKeepExact(s: State, e: Event)
    requires Inv(s) && Exact(s) && Enabled(s, e) && !e.DropUntrack?
    ensures Exact(Next(s, e))
  {
    var s' := Next(s, e);
    StepKeepsTracked(s, e);
    forall p | HasLiveGuard(s', p) ensures p in s'.data.threads {
      var g :| g in s'.guards && s'.guards[g].phase == Live && s'.guards[g].pthread == p;
      if g in s.guards {
        assert s.guards[g].phase == Live && s.guards[g].pthread == p;
        assert HasLiveGuard(s, p);
      }
    }
  }

  lemma {:induction false} ExactIffCareful(s: State, es: seq<Event>)
    requires Inv(s) && Exact(s) && Run(s, es)
    ensures AlwaysExact(s, es) <==> CarefulRun(s, es)
    ensures CarefulRun(s, es) ==> Exact(Final(s, es))
    decreases |es|
  {
    if es != [] {
      StepKeepsInv(s, es[0]);
      if es[0].DropUntrack? {
        DropKeepsExactIff(s, es[0].g);
      } else {
        OtherStepsKeepExact(s, es[0]);
      }
      if Exact(Next(s, es[0])) {
        ExactIffCareful(Next(s, es[0]), es[1..]);
      }
    }
  }

  /** Over every run: the tracked set is at every moment exactly the set of threads with a live guard if and only if no guard
      is ever dropped while its thread has another one. */
  lemma TrackedExactlyIff(s0: State, es: seq<Event>)
    requires Init(s0) && Run(s0, es)
    ensures AlwaysExact(s0, es) <==> CarefulRun(s0, es)
  {
    ExactIffCareful(s0, es);
  }

  lemma {:induction false} CleanIsCareful(s: State, es: seq<Event>)
    requires OneGuardEach(s) && CleanRun(s, es)
    ensures CarefulRun(s, es) && Run(s, es)
    decreases |es|
  {
    if es != [] {
      StepKeepsOneGuard(s, es[0]);
      CleanIsCareful(Next(s, es[0]), es[1..]);
    }
  }

  /** In particular, with at most one live guard per thread it is always exact. */
  lemma TrackedExactly(s0: State, es: seq<Event>)
    requires Init(s0) && CleanRun(s0, es)
    ensures Run(s0, es) && AlwaysExact(s0, es)
  {
    CleanIsCareful(s0, es);
    TrackedExactlyIff(s0, es);
  }

  /** The run that shows it: a closure makes and drops a second guard on its own thread, and a later
      `stop` returns while the closure is still running. */
  lemma SecondGuardEscapesStop(s0: State) returns (es: seq<Event>)
    requires Init(s0)
    ensures Run(s0, es)
    ensures var s := Final(s0, es); 0 in s.stops && s.stops[0].pc == Returned && 0 in s.threads && s.threads[0].job == Running(0)
  {
    es := [];
    var s := s0;
    es, s := Extend(s0, es, s, Create(0, 7, true));
    es, s := Extend(s0, es, s, MakeGuard(0, 0));
    es, s := Extend(s0, es, s, MakeGuard(0, 1));
    es, s := Extend(s0, es, s, DropUntrack(1));
    assert s.data.threads == {} && s.threads[0].job == Running(0);
    es, s := Extend(s0, es, s, Create(1, 8, false));
    es, s := Extend(s0, es, s, BeginStop(0, 1));
    es, s := Extend(s0, es, s, RoundOf(0));
  }

  lemma Extend(s0: State, es: seq<Event>, s: State, e: Event) returns (es': seq<Event>, s': State)
    requires Run(s0, es) && Final(s0, es) == s && Enabled(s, e)
    ensures s' == Next(s, e) && es' == es + [e] && Run(s0, es') && Final(s0, es') == s'
  {
    es', s' := es + [e], Next(s, e);
    RunSnoc(s0, es, e);
  }

  lemma {:induction false} RunSnoc(s0: State, es: seq<Event>, e: Event)
    requires Run(s0, es) && Enabled(Final(s0, es), e)
    ensures Run(s0, es + [e]) && Final(s0, es + [e]) == Next(Final(s0, es), e)
    decreases |es|
  {
    if es == [] {
      assert [e][1..] == [];
    } else {
      assert (es + [e])[1..] == es[1..] + [e];
      RunSnoc(Next(s0, es[0]), es[1..], e);
    }
  }

  // ----- after a stop has returned

  /** Nothing is tracked, nothing can be, and no closure runs. */
  ghost predicate Quiet(s: State) {
    && !s.data.canSpawn && s.data.threads == {}
    && (forall g | g in s.guards :: s.guards[g].phase != Live)
    && (forall u | u in s.threads :: !s.threads[u].job.Running?)
  }

  lemma QuietStep(s: State, e: Event)
    requires Quiet(s) && Enabled(s, e)
    ensures Quiet(Next(s, e)) && Next(s, e).guards.Keys == s.guards.Keys
  {
  }

  lemma {:induction false} QuietForever(s: State, es: seq<Event>)
    requires Quiet(s) && Run(s, es)
    ensures Quiet(Final(s, es)) && Final(s, es).guards.Keys == s.guards.Keys
    decreases |es|
  {
    if es != [] {
      QuietStep(s, es[0]);
      QuietForever(Next(s, es[0]), es[1..]);
    }
  }

  lemma NoneTrackedNoneLive(s: State)
    requires Exact(s) && s.data.threads == {}
    ensures forall g | g in s.guards :: s.guards[g].phase != Live
  {
    if g :| g in s.guards && s.guards[g].phase == Live {
      assert HasLiveGuard(s, s.guards[g].pthread);
      assert false;
    }
  }

  /** Once some `stop` has returned, in every later state of every continuation the set is empty,
      no guard is ever made again and no closure spawned on the tracker runs. */
  lemma StoppedForGood(s0: State, es: seq<Event>, c: CallId, later: seq<Event>)
    requires Init(s0) && CarefulRun(s0, es) && Run(s0, es)
    requires c in Final(s0, es).stops && Final(s0, es).stops[c].pc == Returned
    requires Run(Final(s0, es), later)
    ensures Quiet(Final(s0, es)) && Quiet(Final(Final(s0, es), later))
    ensures Final(Final(s0, es), later).guards.Keys == Final(s0, es).guards.Keys
  {
    ExactIffCareful(s0, es);
    RunKeepsInv(s0, es);
    var s := Final(s0, es);
    NoneTrackedNoneLive(s);
    QuietForever(Final(s0, es), later);
  }

  // ----- a closure runs or is refused

  lemma RefusedStep(s: State, e: Event, u: Uid)
    requires Enabled(s, e) && u in s.born && (u in s.threads ==> s.threads[u].job == Refused)
    ensures u in Next(s, e).born && (u in Next(s, e).threads ==> Next(s, e).threads[u].job == Refused)
  {
  }

  lemma {:induction false} RefusedForGood(s: State, u: Uid, es: seq<Event>)
    requires Run(s, es) && u in s.born && (u in s.threads ==> s.threads[u].job == Refused)
    ensures u in Final(s, es).threads ==> Final(s, es).threads[u].job == Refused
    decreases |es|
  {
    if es != [] {
      RefusedStep(s, es[0], u);
      RefusedForGood(Next(s, es[0]), u, es[1..]);
    }
  }

  /** A spawned thread, in any run: if the tracker is open when it makes its guard, its closure runs under that guard; if not, it makes
      no guard, changes nothing in the tracker, and its closure runs in no continuation. */
  lemma SpawnRunsIffOpen(s0: State, es: seq<Event>, u: Uid, g: GuardId, later: seq<Event>)
    requires Init(s0) && Run(s0, es) && Enabled(Final(s0, es), MakeGuard(u, g)) && Final(s0, es).threads[u].job == Starting
    requires Run(Next(Final(s0, es), MakeGuard(u, g)), later)
    ensures var s := Final(s0, es);
            var s' := Next(s, MakeGuard(u, g));
            if s.data.canSpawn then
              && s'.threads[u].job == Running(g) && g in s'.guards && s'.guards[g] == Guard(u, s.threads[u].pthread, Live)
              && s.threads[u].pthread in s'.data.threads && s'.data.newThread
            else
              && s'.data == s.data && s'.guards == s.guards
              && (u in Final(s', later).threads ==> Final(s', later).threads[u].job == Refused)
  {
    RunKeepsInv(s0, es);
    if !Final(s0, es).data.canSpawn {
      RefusedForGood(Next(Final(s0, es), MakeGuard(u, g)), u, later);
    }
  }

  // ----- the backoff is reset at most once

  ghost predicate ResetsBackoff(s: State, e: Event)
    requires Enabled(s, e)
  {
    e.RoundOf? && s.data.threads != {} && s.data.newThread
  }

  ghost function Resets(s: State, es: seq<Event>): nat
    requires Run(s, es)
    decreases |es|
  {
    if es == [] then 0
    else (if ResetsBackoff(s, es[0]) then 1 else 0) + Resets(Next(s, es[0]), es[1..])
  }

  ghost function ResetsLeft(s: State): nat {
    if s.data.canSpawn || s.data.newThread then 1 else 0
  }

  lemma ResetStep(s: State, e: Event)
    requires ClosedBySomeone(s) && Enabled(s, e)
    ensures (if ResetsBackoff(s, e) then 1 else 0) + ResetsLeft(Next(s, e)) <= ResetsLeft(s)
  {
  }

  lemma {:induction false} ResetsBounded(s: State, es: seq<Event>)
    requires Inv(s) && Run(s, es)
    ensures Resets(s, es) <= ResetsLeft(s)
    decreases |es|
  {
    if es != [] {
      StepKeepsInv(s, es[0]);
      ResetStep(s, es[0]);
      ResetsBounded(Next(s, es[0]), es[1..]);
    }
  }

  /** Over the whole life of a tracker and all concurrent `stop` calls, the branch that resets the
      backoff runs at most once; and every waiting `stop` has signalled every thread still tracked. */
  lemma BackoffResetAtMostOnce(s0: State, es: seq<Event>, c: CallId)
    requires Init(s0) && Run(s0, es) && c in Final(s0, es).stops
    ensures Resets(s0, es) <= 1
    ensures Final(s0, es).stops[c].pc != Entering ==> Final(s0, es).data.threads <= Final(s0, es).stops[c].signalled
  {
    ResetsBounded(s0, es);
    RunKeepsInv(s0, es);
  }
}
