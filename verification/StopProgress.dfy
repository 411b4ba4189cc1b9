/** Stopping blocking-lock threads (src/tracker.rs:104-252 with src/owner.rs:408-454).

A lock thread can be interrupted only while it is inside `F_SETLKW`: SIGUSR1 is blocked before and
after, and a signal taken in the short window between unblocking it and entering the call is lost.
This module shows that `InterruptibleTracker::stop` and `InterruptibleHandle::stop` nevertheless
always get through: in every fair run the call returns, after a bounded number of rounds.
*/
module StopProgress {
  import opened TrackerCore

  type CallId = nat

  /** Where a server lock thread is.
      Starting: OS thread created, guard not made. Tracked: guard made. Masked: all signals blocked.
      Probed: F_SETLK tried, first reply out. Window: SIGUSR1 unblocked, F_SETLKW not entered.
      Waiting: inside F_SETLKW. Back: call over, mask restored. Closed: closure gone.
      Untracked, Exited: the two halves of the guard's drop. Refused: the tracker was closed. */
  datatype Pc = Starting | Tracked | Masked | Probed | Window | Waiting | Back | Closed | Untracked | Exited | Refused

  /** A lock thread and whether SIGUSR1 is pending on it. */
  datatype Worker = Worker(pc: Pc, pending: bool)

  /** `All` is a call of the tracker's `stop`, `One(w)` a call of the `stop` of w's handle. */
  datatype Target = All | One(w: nat)

  datatype CallPc = Entering | Asleep | Trying | OnCondvar | Returned

  datatype Call = Call(target: Target, pc: CallPc, local: Local)

  datatype State = State(limit: nat, data: Data, workers: seq<Worker>, calls: map<CallId, Call>)

  datatype Event =
    | Spawn
    | Advance(w: nat, ok: bool)  // the thread's own next step; `ok` is the outcome of its system call
    | Granted(w: nat)            // F_SETLKW returns by itself
    | Begin(c: CallId, target: Target)
    | RoundOf(c: CallId)
    | SnoozeOf(c: CallId)

  predicate Guarded(pc: Pc) {
    !(pc == Starting || pc == Untracked || pc == Exited || pc == Refused)
  }

  predicate GuardMade(pc: Pc) {
    pc != Starting && pc != Refused
  }

  predicate AtLock(pc: CallPc) {
    pc == Entering || pc == Trying || pc == OnCondvar
  }

  predicate Init(s: State) {
    s.data == Data(true, false, {}) && s.workers == [] && s.calls == map[]
  }

  predicate Enabled(s: State, e: Event) {
    match e
    case Spawn => true
    case Advance(w, _) =>
      w < |s.workers| && s.workers[w].pc != Waiting && s.workers[w].pc != Exited && s.workers[w].pc != Refused
    case Granted(w) => w < |s.workers| && s.workers[w].pc == Waiting
    case Begin(c, t) => c !in s.calls && (t.One? ==> t.w < |s.workers| && GuardMade(s.workers[t.w].pc))
    case RoundOf(c) => c in s.calls && AtLock(s.calls[c].pc) && (s.calls[c].target.One? ==> s.calls[c].target.w < |s.workers|)
    case SnoozeOf(c) => c in s.calls && (s.calls[c].pc == Asleep || (s.calls[c].pc == Trying && s.calls[c].local.left > 0))
  }

  /** Next place of a lock thread that makes a step of its own; a failed `block_all_signals` or
      `unblock_signal` ends the closure early. A pending signal is delivered, and lost, when
      SIGUSR1 is unblocked. */
  function Stepped(k: Worker, open: bool, ok: bool): Worker
    requires k.pc != Waiting && k.pc != Exited && k.pc != Refused
  {
    match k.pc
    case Starting => k.(pc := if open then Tracked else Refused)
    case Tracked => k.(pc := if ok then Masked else Closed)
    case Masked => k.(pc := Probed)
    case Probed => if ok then Worker(Window, false) else k.(pc := Closed)
    case Window => k.(pc := Waiting)
    case Back => k.(pc := Closed)
    case Closed => k.(pc := Untracked)
    case Untracked => k.(pc := Exited)
  }

  /** What SIGUSR1 does to a lock thread: interrupts F_SETLKW, is lost in the window, is pending elsewhere. */
  function Hit(k: Worker): Worker {
    if k.pc == Waiting then Worker(Back, k.pending)
    else if k.pc == Window then k
    else k.(pending := true)
  }

  function Signal(ws: seq<Worker>, kills: set<nat>): (r: seq<Worker>)
    ensures |r| == |ws| && forall i | 0 <= i < |ws| :: r[i] == if i in kills then Hit(ws[i]) else ws[i]
  {
    seq(|ws|, i requires 0 <= i < |ws| => if i in kills then Hit(ws[i]) else ws[i])
  }

  function RoundFor(s: State, k: Call): Round {
    StopRound(if k.pc == Entering then Close(s.data) else s.data, k.local, s.limit)
  }

  function HandleRoundFor(s: State, k: Call): HandleRound
    requires k.target.One? && k.target.w < |s.workers|
  {
    HandleStopRound(s.workers[k.target.w].pc == Exited, false, k.local)
  }

  function After(o: Outcome): CallPc {
    match o case Return => Returned case CondWait => OnCondvar case Snooze => Asleep
  }

  function AfterHandle(o: HandleOutcome): CallPc {
    match o case HReturn => Returned case HPanic => Returned case HCondWait => OnCondvar case HSnooze => Asleep
  }

  function Next(s: State, e: Event): State
    requires Enabled(s, e)
  {
    match e
    case Spawn => s.(workers := s.workers + [Worker(Starting, false)])
    case Advance(w, ok) =>
      var k := s.workers[w];
      s.(workers := s.workers[w := Stepped(k, s.data.canSpawn, ok)],
         data := if k.pc == Starting then Track(s.data, w) else if k.pc == Closed then Untrack(s.data, w) else s.data)
    case Granted(w) => s.(workers := s.workers[w := s.workers[w].(pc := Back)])
    case Begin(c, t) => s.(calls := s.calls[c := Call(t, Entering, Local(s.limit, false))])
    case RoundOf(c) =>
      var k := s.calls[c];
      (match k.target
       case All =>
         var r := RoundFor(s, k);
         s.(data := r.data, workers := Signal(s.workers, r.kills), calls := s.calls[c := Call(All, After(r.outcome), r.local)])
       case One(w) =>
         var r := HandleRoundFor(s, k);
         s.(workers := Signal(s.workers, if r.kill then {w} else {}),
            calls := s.calls[c := Call(One(w), AfterHandle(r.outcome), r.local)]))
    case SnoozeOf(c) => s.(calls := s.calls[c := s.calls[c].(pc := Trying, local := Snoozed(s.calls[c].local))])
  }

  predicate Run(s: State, es: seq<Event>)
    decreases |es|
  {
    es == [] || (Enabled(s, es[0]) && Run(Next(s, es[0]), es[1..]))
  }

  function Final(s: State, es: seq<Event>): State
    requires Run(s, es)
    decreases |es|
  {
    if es == [] then s else Final(Next(s, es[0]), es[1..])
  }

  // ----- invariant

  ghost predicate TrackedExact(s: State) {
    && (forall i | i in s.data.threads :: i < |s.workers| && Guarded(s.workers[i].pc))
    && (forall i | 0 <= i < |s.workers| && Guarded(s.workers[i].pc) :: i in s.data.threads)
  }

  /** A handle exists only for a thread whose guard was made. */
  ghost predicate TargetsMade(s: State) {
    forall c | c in s.calls && s.calls[c].target.One? ::
      s.calls[c].target.w < |s.workers| && GuardMade(s.workers[s.calls[c].target.w].pc)
  }

  ghost predicate LocalsSound(s: State) {
    forall c | c in s.calls ::
      && (s.calls[c].target.All? && s.calls[c].pc != Entering ==> !s.data.canSpawn)
      && (s.calls[c].pc == Asleep ==> s.calls[c].local.left > 0)
      && (s.calls[c].pc == OnCondvar ==> s.calls[c].local.left == 0)
  }

  ghost predicate Inv(s: State) {
    TrackedExact(s) && TargetsMade(s) && LocalsSound(s)
  }

  lemma StepKeepsExact(s: State, e: Event)
    requires TrackedExact(s) && Enabled(s, e)
    ensures TrackedExact(Next(s, e))
  {
  }

  lemma StepKeepsTargets(s: State, e: Event)
    requires TargetsMade(s) && Enabled(s, e)
    ensures TargetsMade(Next(s, e))
  {
    var s' := Next(s, e);
    assert |s'.workers| >= |s.workers|;
    assert forall w | 0 <= w < |s.workers| && GuardMade(s.workers[w].pc) :: GuardMade(s'.workers[w].pc);
  }

  lemma StepKeepsLocals(s: State, e: Event)
    requires LocalsSound(s) && Enabled(s, e)
    ensures LocalsSound(Next(s, e))
  {
  }

  lemma StepKeepsInv(s: State, e: Event)
    requires Inv(s) && Enabled(s, e)
    ensures Inv(Next(s, e))
  {
    StepKeepsExact(s, e);
    StepKeepsTargets(s, e);
    StepKeepsLocals(s, e);
  }

  lemma {:induction false} RunKeepsInv(s: State, es: seq<Event>)
    requires Inv(s) && Run(s, es)
    ensures Inv(Final(s, es))
    decreases |es|
  {
    if es != [] {
      StepKeepsInv(s, es[0]);
      RunKeepsInv(Next(s, es[0]), es[1..]);
    }
  }

  // ----- the ranking

  /** Steps a tracked thread has left before its exit flag is set. */
  function Rank(pc: Pc): nat {
    match pc
    case Starting => 0 case Refused => 0 case Exited => 0
    case Tracked => 8 case Masked => 7 case Probed => 6 case Window => 5
    case Waiting => 4 case Back => 3 case Closed => 2 case Untracked => 1
  }

  function RankSum(ws: seq<Worker>): nat {
    if ws == [] then 0 else Rank(ws[0].pc) + RankSum(ws[1..])
  }

  function Work(s: State, t: Target): nat {
    match t
    case All => RankSum(s.workers)
    case One(w) => if w < |s.workers| then Rank(s.workers[w].pc) else 0
  }

  /** What call `c` still waits for: thread steps, snoozes, and a possible backoff reset. */
  function Measure(s: State, c: CallId): nat
    requires c in s.calls
  {
    var k := s.calls[c];
    Work(s, k.target) + k.local.left + if k.target.All? && s.data.newThread then s.limit + 1 else 0
  }

  /** Call `c` is past its first critical section. */
  ghost predicate Begun(s: State, c: CallId) {
    c in s.calls && s.calls[c].pc != Entering
  }

  ghost predicate IsTarget(s: State, c: CallId, w: int)
    requires c in s.calls
  {
    0 <= w < |s.workers| && (s.calls[c].target.All? || s.calls[c].target == One(w))
  }

  lemma {:induction false} RankSumUpdate(ws: seq<Worker>, i: nat, k: Worker)
    requires i < |ws|
    ensures RankSum(ws[i := k]) == RankSum(ws) - Rank(ws[i].pc) + Rank(k.pc)
    decreases |ws|
  {
    if i == 0 {
      assert ws[i := k][1..] == ws[1..];
    } else {
      assert ws[i := k][1..] == ws[1..][i - 1 := k];
      RankSumUpdate(ws[1..], i - 1, k);
    }
  }

  lemma {:induction false} RankSumAppend(ws: seq<Worker>, k: Worker)
    ensures RankSum(ws + [k]) == RankSum(ws) + Rank(k.pc)
    decreases |ws|
  {
    if ws == [] {
      assert [k][1..] == [];
    } else {
      assert (ws + [k])[1..] == ws[1..] + [k];
      RankSumAppend(ws[1..], k);
    }
  }

  /** Pointwise no larger, and smaller somewhere, is smaller in sum. */
  lemma {:induction false} RankSumMonotone(ws: seq<Worker>, vs: seq<Worker>)
    requires |ws| == |vs| && forall i | 0 <= i < |ws| :: Rank(vs[i].pc) <= Rank(ws[i].pc)
    ensures RankSum(vs) <= RankSum(ws)
    ensures (exists i | 0 <= i < |ws| :: Rank(vs[i].pc) < Rank(ws[i].pc)) ==> RankSum(vs) < RankSum(ws)
    decreases |ws|
  {
    if ws != [] {
      RankSumMonotone(ws[1..], vs[1..]);
      if i :| 0 <= i < |ws| && Rank(vs[i].pc) < Rank(ws[i].pc) {
        if i > 0 {
          assert Rank(vs[1..][i - 1].pc) < Rank(ws[1..][i - 1].pc);
        }
      }
    }
  }

  /** A round of some call: no thread's rank grows. */
  lemma RoundRanks(s: State, d: CallId)
    requires Enabled(s, RoundOf(d))
    ensures var s' := Next(s, RoundOf(d));
            |s'.workers| == |s.workers| && forall i | 0 <= i < |s.workers| :: Rank(s'.workers[i].pc) <= Rank(s.workers[i].pc)
  {
  }

  /** What a call waits for besides thread steps. */
  function Budget(s: State, c: CallId): nat
    requires c in s.calls
  {
    s.calls[c].local.left + if s.calls[c].target.All? && s.data.newThread then s.limit + 1 else 0
  }

  /** The call that runs a round pays for its reset; other calls only gain. */
  lemma RoundBudget(s: State, d: CallId, c: CallId)
    requires Enabled(s, RoundOf(d)) && Begun(s, c)
    ensures var s' := Next(s, RoundOf(d));
            Begun(s', c) && s'.calls[c].target == s.calls[c].target && Budget(s', c) <= Budget(s, c)
  {
  }

  lemma RoundNeverGrows(s: State, d: CallId, c: CallId)
    requires Enabled(s, RoundOf(d)) && Begun(s, c)
    ensures var s' := Next(s, RoundOf(d));
            && Begun(s', c) && s'.calls[c].target == s.calls[c].target
            && |s'.workers| == |s.workers|
            && (forall i | 0 <= i < |s.workers| :: Rank(s'.workers[i].pc) <= Rank(s.workers[i].pc))
            && Measure(s', c) - Work(s', s.calls[c].target) <= Measure(s, c) - Work(s, s.calls[c].target)
  {
    RoundRanks(s, d);
    RoundBudget(s, d, c);
    assert Measure(Next(s, RoundOf(d)), c) == Work(Next(s, RoundOf(d)), s.calls[c].target) + Budget(Next(s, RoundOf(d)), c);
  }

  lemma WorkNeverGrows(s: State, e: Event, t: Target)
    requires Enabled(s, e)
    requires !e.RoundOf? && !e.Spawn? && (t.All? ==> !s.data.canSpawn) && (t.One? ==> t.w < |s.workers| && GuardMade(s.workers[t.w].pc))
    ensures Work(Next(s, e), t) <= Work(s, t)
  {
    if e.Advance? || e.Granted? {
      RankSumUpdate(s.workers, e.w, Next(s, e).workers[e.w]);
    }
  }

  /** No event of anybody adds to what a begun call waits for. */
  lemma MeasureNeverGrows(s: State, e: Event, c: CallId)
    requires Inv(s) && Enabled(s, e) && Begun(s, c)
    ensures Begun(Next(s, e), c) && Next(s, e).calls[c].target == s.calls[c].target
    ensures Measure(Next(s, e), c) <= Measure(s, c)
  {
    if e.RoundOf? {
      RoundNeverGrows(s, e.c, c);
      RankSumMonotone(s.workers, Next(s, e).workers);
    } else if e.Spawn? {
      RankSumAppend(s.workers, Worker(Starting, false));
    } else {
      WorkNeverGrows(s, e, s.calls[c].target);
    }
  }

  /** A target's own step, when it is not stuck in F_SETLKW, brings the call closer. */
  lemma AdvanceIsProgress(s: State, e: Event, c: CallId)
    requires Inv(s) && Enabled(s, e) && Begun(s, c)
    requires (e.Advance? || e.Granted?) && IsTarget(s, c, e.w) && Rank(s.workers[e.w].pc) > 0
    ensures Measure(Next(s, e), c) < Measure(s, c)
  {
    RankSumUpdate(s.workers, e.w, Next(s, e).workers[e.w]);
  }

  lemma SnoozeIsProgress(s: State, c: CallId)
    requires Inv(s) && Enabled(s, SnoozeOf(c)) && Begun(s, c)
    ensures Measure(Next(s, SnoozeOf(c)), c) < Measure(s, c)
  {
  }

  /** Every target that is not done sits inside F_SETLKW. */
  ghost predicate AllParked(s: State, c: CallId)
    requires c in s.calls
  {
    forall w | IsTarget(s, c, w) && Rank(s.workers[w].pc) > 0 :: s.workers[w].pc == Waiting
  }

  /** A thread interrupted by a round of `d` is progress for every call it is a target of. */
  lemma InterruptIsProgress(s: State, d: CallId, c: CallId, w: nat)
    requires Inv(s) && Enabled(s, RoundOf(d)) && Begun(s, c) && IsTarget(s, c, w)
    requires Rank(Next(s, RoundOf(d)).workers[w].pc) < Rank(s.workers[w].pc)
    ensures Begun(Next(s, RoundOf(d)), c) && Measure(Next(s, RoundOf(d)), c) < Measure(s, c)
  {
    RoundNeverGrows(s, d, c);
    RankSumMonotone(s.workers, Next(s, RoundOf(d)).workers);
  }

  /** If all targets are inside F_SETLKW, a round of the call returns, makes progress, or puts the
      call to sleep, the last only with snoozes left. */
  lemma RoundWhenParked(s: State, c: CallId)
    requires Inv(s) && Enabled(s, RoundOf(c)) && Begun(s, c) && AllParked(s, c)
    ensures var s' := Next(s, RoundOf(c));
            && Begun(s', c)
            && (s'.calls[c].pc == Returned || Measure(s', c) < Measure(s, c)
                || (s'.calls[c].pc == Asleep && s.calls[c].local.left > 0))
  {
    match s.calls[c].target {
      case All => TrackerRoundWhenParked(s, c);
      case One(w) =>
        assert IsTarget(s, c, w);
        if s.workers[w].pc == Waiting && HandleRoundFor(s, s.calls[c]).kill {
          InterruptIsProgress(s, c, c, w);
        }
    }
  }

  lemma TrackerRoundWhenParked(s: State, c: CallId)
    requires Inv(s) && Enabled(s, RoundOf(c)) && Begun(s, c) && AllParked(s, c) && s.calls[c].target.All?
    ensures var s' := Next(s, RoundOf(c));
            && Begun(s', c)
            && (s'.calls[c].pc == Returned || Measure(s', c) < Measure(s, c) || (s'.calls[c].pc == Asleep && s.calls[c].local.left > 0))
  {
    var r := RoundFor(s, s.calls[c]);
    if r.kills != {} {
      var w :| w in s.data.threads;
      assert Guarded(s.workers[w].pc);
      assert IsTarget(s, c, w) && Rank(s.workers[w].pc) > 0;
      assert w in r.kills && s.workers[w].pc == Waiting;
      InterruptIsProgress(s, c, c, w);
    }
  }

  // ----- fair runs

  /** Target `w` has steps left and is not inside F_SETLKW. */
  ghost predicate CanMove(s: State, c: CallId, w: int)
    requires c in s.calls
  {
    IsTarget(s, c, w) && Rank(s.workers[w].pc) > 0 && s.workers[w].pc != Waiting
  }

  /** A stretch of a run is fair to call `c` if, unless the call has returned by its end, the call got
      the lock twice in it and every target that could move at its start did move. */
  ghost predicate FairStretch(s: State, es: seq<Event>, c: CallId)
    requires c in s.calls
  {
    && Run(s, es)
    && (!HasReturned(Final(s, es), c) ==> GotLockTwice(es, c) && forall w | CanMove(s, c, w) :: Moves(es, w))
  }

  ghost predicate HasReturned(s: State, c: CallId) {
    c in s.calls && s.calls[c].pc == Returned
  }

  predicate GotLock(es: seq<Event>, c: CallId) {
    es != [] && (es[0] == RoundOf(c) || GotLock(es[1..], c))
  }

  predicate GotLockTwice(es: seq<Event>, c: CallId) {
    es != [] && (if es[0] == RoundOf(c) then GotLock(es[1..], c) else GotLockTwice(es[1..], c))
  }

  predicate Moves(es: seq<Event>, w: int) {
    es != [] && ((es[0].Advance? && es[0].w == w) || Moves(es[1..], w))
  }

  lemma {:induction false} MeasureNeverGrowsInRun(s: State, es: seq<Event>, c: CallId)
    requires Inv(s) && Run(s, es) && Begun(s, c)
    ensures Begun(Final(s, es), c) && Measure(Final(s, es), c) <= Measure(s, c)
    ensures s.calls[c].pc == Returned ==> Final(s, es).calls[c].pc == Returned
    decreases |es|
  {
    if es != [] {
      StepKeepsInv(s, es[0]);
      MeasureNeverGrows(s, es[0], c);
      MeasureNeverGrowsInRun(Next(s, es[0]), es[1..], c);
    }
  }

  lemma {:induction false} AdvanceSomewhere(s: State, es: seq<Event>, c: CallId, w: nat)
    requires Inv(s) && Run(s, es) && Begun(s, c) && IsTarget(s, c, w) && Rank(s.workers[w].pc) > 0
    requires Moves(es, w)
    ensures Begun(Final(s, es), c) && Measure(Final(s, es), c) < Measure(s, c)
    decreases |es|
  {
    var e, s' := es[0], Next(s, es[0]);
    StepKeepsInv(s, e);
    MeasureNeverGrows(s, e, c);
    if (e.Advance? || e.Granted?) && e.w == w {
      AdvanceIsProgress(s, e, c);
      MeasureNeverGrowsInRun(s', es[1..], c);
    } else {
      RankKept(s, e, w);
      AdvanceSomewhere(s', es[1..], c, w);
    }
  }

  /** Other threads' events leave a thread inside its closure or its drop. */
  lemma RankKept(s: State, e: Event, w: nat)
    requires Enabled(s, e) && w < |s.workers| && Rank(s.workers[w].pc) > 0
    requires !((e.Advance? || e.Granted?) && e.w == w)
    ensures var s' := Next(s, e); w < |s'.workers| && Rank(s'.workers[w].pc) > 0
  {
  }

  lemma {:induction false} SnoozeSomewhere(s: State, es: seq<Event>, c: CallId)
    requires Inv(s) && Run(s, es) && Begun(s, c) && s.calls[c].pc == Asleep
    requires GotLock(es, c)
    ensures Begun(Final(s, es), c) && Measure(Final(s, es), c) < Measure(s, c)
    decreases |es|
  {
    var e := es[0];
    StepKeepsInv(s, e);
    MeasureNeverGrows(s, e, c);
    if e == SnoozeOf(c) {
      SnoozeIsProgress(s, c);
      MeasureNeverGrowsInRun(Next(s, e), es[1..], c);
    } else {
      SnoozeSomewhere(Next(s, e), es[1..], c);
    }
  }

  lemma ParkedKept(s: State, e: Event, c: CallId)
    requires Inv(s) && Enabled(s, e) && Begun(s, c) && AllParked(s, c)
    ensures Begun(Next(s, e), c)
    ensures Measure(Next(s, e), c) < Measure(s, c) || AllParked(Next(s, e), c)
  {
    MeasureNeverGrows(s, e, c);
    var s' := Next(s, e);
    if (e.Advance? || e.Granted?) && IsTarget(s, c, e.w) && Rank(s.workers[e.w].pc) > 0 {
      AdvanceIsProgress(s, e, c);
    } else if e.RoundOf? {
      KillsOrParked(s, e.c, c);
    } else {
      forall w | IsTarget(s', c, w) && Rank(s'.workers[w].pc) > 0 ensures s'.workers[w].pc == Waiting {
        if w < |s.workers| {
          assert IsTarget(s, c, w);
        }
      }
    }
  }

  /** A round of any call leaves the targets of `c` inside F_SETLKW or brings `c` closer. */
  lemma KillsOrParked(s: State, d: CallId, c: CallId)
    requires Inv(s) && Enabled(s, RoundOf(d)) && Begun(s, c) && AllParked(s, c)
    ensures Begun(Next(s, RoundOf(d)), c)
    ensures Measure(Next(s, RoundOf(d)), c) < Measure(s, c) || AllParked(Next(s, RoundOf(d)), c)
  {
    var s' := Next(s, RoundOf(d));
    RoundNeverGrows(s, d, c);
    if w :| IsTarget(s', c, w) && Rank(s'.workers[w].pc) > 0 && s'.workers[w].pc != Waiting {
      assert IsTarget(s, c, w) && s.workers[w].pc == Waiting;
      InterruptIsProgress(s, d, c, w);
    }
  }

  lemma {:induction false} TwoRoundsSomewhere(s: State, es: seq<Event>, c: CallId)
    requires Inv(s) && Run(s, es) && Begun(s, c) && AllParked(s, c)
    requires GotLockTwice(es, c)
    ensures Begun(Final(s, es), c)
    ensures Final(s, es).calls[c].pc == Returned || Measure(Final(s, es), c) < Measure(s, c)
    decreases |es|
  {
    var e, s' := es[0], Next(s, es[0]);
    StepKeepsInv(s, e);
    MeasureNeverGrows(s, e, c);
    if Measure(s', c) < Measure(s, c) {
      MeasureNeverGrowsInRun(s', es[1..], c);
    } else if e == RoundOf(c) {
      RoundWhenParked(s, c);
      if s'.calls[c].pc == Returned {
        MeasureNeverGrowsInRun(s', es[1..], c);
      } else {
        SnoozeSomewhere(s', es[1..], c);
      }
    } else {
      ParkedKept(s, e, c);
      TwoRoundsSomewhere(s', es[1..], c);
    }
  }

  /** A fair stretch ends with the call returned or strictly closer to it. */
  lemma FairStretchProgress(s: State, es: seq<Event>, c: CallId)
    requires Inv(s) && Begun(s, c) && FairStretch(s, es, c)
    ensures Inv(Final(s, es)) && Begun(Final(s, es), c)
    ensures Final(s, es).calls[c].pc == Returned || Measure(Final(s, es), c) < Measure(s, c)
  {
    RunKeepsInv(s, es);
    MeasureNeverGrowsInRun(s, es, c);
    if !HasReturned(Final(s, es), c) {
      StretchProgress(s, es, c);
    }
  }

  lemma StretchProgress(s: State, es: seq<Event>, c: CallId)
    requires Inv(s) && Begun(s, c) && Run(s, es)
    requires GotLockTwice(es, c) && forall w | CanMove(s, c, w) :: Moves(es, w)
    ensures Begun(Final(s, es), c)
    ensures Final(s, es).calls[c].pc == Returned || Measure(Final(s, es), c) < Measure(s, c)
  {
    if w :| CanMove(s, c, w) {
      assert Moves(es, w);
      AdvanceSomewhere(s, es, c, w);
    } else {
      NobodyMoves(s, c);
      TwoRoundsSomewhere(s, es, c);
    }
  }

  lemma NobodyMoves(s: State, c: CallId)
    requires c in s.calls && forall w :: !CanMove(s, c, w)
    ensures AllParked(s, c)
  {
    forall w | IsTarget(s, c, w) && Rank(s.workers[w].pc) > 0 ensures s.workers[w].pc == Waiting {
      assert !CanMove(s, c, w);
    }
  }

  ghost predicate FairStretches(s: State, ess: seq<seq<Event>>, c: CallId)
    decreases |ess|
  {
    ess == [] || (c in s.calls && FairStretch(s, ess[0], c) && FairStretches(Final(s, ess[0]), ess[1..], c))
  }

  ghost function FinalOf(s: State, ess: seq<seq<Event>>, c: CallId): State
    requires FairStretches(s, ess, c)
    decreases |ess|
  {
    if ess == [] then s else FinalOf(Final(s, ess[0]), ess[1..], c)
  }

  lemma {:induction false} FairRunsStop(s: State, ess: seq<seq<Event>>, c: CallId)
    requires Inv(s) && Begun(s, c) && FairStretches(s, ess, c)
    requires |ess| > Measure(s, c) || s.calls[c].pc == Returned
    ensures HasReturned(FinalOf(s, ess, c), c)
    decreases |ess|
  {
    if ess != [] {
      FairStretchProgress(s, ess[0], c);
      MeasureNeverGrowsInRun(s, ess[0], c);
      FairRunsStop(Final(s, ess[0]), ess[1..], c);
    }
  }

  /** Lost signals never keep a `stop` from returning. In any run whatsoever that reaches a state where
      the call waits and then goes on fairly for more stretches than the ranking allows, with any
      other calls, spawns, grants and failures interleaved, the call has returned. */
  lemma StopReturnsInEveryFairRun(s0: State, es: seq<Event>, c: CallId, ess: seq<seq<Event>>)
    requires Init(s0) && Run(s0, es) && Begun(Final(s0, es), c)
    requires FairStretches(Final(s0, es), ess, c) && |ess| > Measure(Final(s0, es), c)
    ensures HasReturned(FinalOf(Final(s0, es), ess, c), c)
  {
    RunKeepsInv(s0, es);
    FairRunsStop(Final(s0, es), ess, c);
  }

  // ----- and such runs exist from everywhere

  /** Some event brings a waiting call closer, or returns it. */
  lemma HelpfulEvent(s: State, c: CallId) returns (e: Event)
    requires Inv(s) && Begun(s, c) && s.calls[c].pc != Returned
    ensures Enabled(s, e)
    ensures Begun(Next(s, e), c)
    ensures Next(s, e).calls[c].pc == Returned || Measure(Next(s, e), c) < Measure(s, c)
  {
    if w :| CanMove(s, c, w) {
      e := Advance(w, true);
      AdvanceIsProgress(s, e, c);
    } else if s.calls[c].pc == Asleep || (s.calls[c].pc == Trying && s.calls[c].local.left > 0) {
      e := SnoozeOf(c);
      SnoozeIsProgress(s, c);
    } else {
      e := RoundOf(c);
      NobodyMoves(s, c);
      RoundWhenParked(s, c);
    }
    MeasureNeverGrows(s, e, c);
  }

  lemma {:induction false} CanReturn(s: State, c: CallId) returns (es: seq<Event>)
    requires Inv(s) && Begun(s, c)
    ensures Run(s, es) && |es| <= Measure(s, c) + 1
    ensures HasReturned(Final(s, es), c)
    decreases Measure(s, c)
  {
    if s.calls[c].pc == Returned {
      return [];
    }
    var e := HelpfulEvent(s, c);
    if Next(s, e).calls[c].pc == Returned {
      es := [e];
      assert es[1..] == [];
    } else {
      StepKeepsInv(s, e);
      var rest := CanReturn(Next(s, e), c);
      es := [e] + rest;
      assert es[1..] == rest;
    }
  }

  /** From every reachable state in which a `stop` waits there is a continuation, no longer than the
      ranking plus one, after which it has returned. */
  lemma StopNeverStuck(s0: State, es: seq<Event>, c: CallId) returns (more: seq<Event>)
    requires Init(s0) && Run(s0, es) && Begun(Final(s0, es), c)
    ensures Run(Final(s0, es), more) && |more| <= Measure(Final(s0, es), c) + 1
    ensures HasReturned(Final(Final(s0, es), more), c)
  {
    RunKeepsInv(s0, es);
    more := CanReturn(Final(s0, es), c);
  }

  // ----- a signal can be lost

  lemma {:induction false} RunSnoc(s0: State, es: seq<Event>, e: Event)
    requires Run(s0, es) && Enabled(Final(s0, es), e)
    ensures Run(s0, es + [e]) && Final(s0, es + [e]) == Next(Final(s0, es), e)
    decreases |es|
  {
    if es == [] {
      assert [e][1..] == [];
    } else {
      assert (es + [e])[1..] == es[1..] + [e];
      RunSnoc(Next(s0, es[0]), es[1..], e);
    }
  }

  lemma Extend(s0: State, es: seq<Event>, s: State, e: Event) returns (es': seq<Event>, s': State)
    requires Run(s0, es) && Final(s0, es) == s && Enabled(s, e)
    ensures s' == Next(s, e) && es' == es + [e] && Run(s0, es') && Final(s0, es') == s'
  {
    es', s' := es + [e], Next(s, e);
    RunSnoc(s0, es, e);
  }

  lemma ThreadProbed(s0: State) returns (es: seq<Event>, s: State)
    requires Init(s0)
    ensures Run(s0, es) && Final(s0, es) == s && s.limit == s0.limit && s.calls == map[]
    ensures s.workers == [Worker(Probed, false)] && s.data == Data(true, true, {0})
  {
    es, s := [], s0;
    es, s := Extend(s0, es, s, Spawn);
    es, s := Extend(s0, es, s, Advance(0, true));
    es, s := Extend(s0, es, s, Advance(0, true));
    es, s := Extend(s0, es, s, Advance(0, true));
  }

  /** A signal that comes while SIGUSR1 is blocked is taken, and lost, when that is unblocked. */
  lemma PendingSignalIsLost(s0: State) returns (es: seq<Event>)
    requires Init(s0) && s0.limit > 0
    ensures Run(s0, es) && |es| >= 3 && es[|es| - 3..] == [RoundOf(0), Advance(0, true), Advance(0, true)]
    ensures var s := Final(s0, es); s.workers == [Worker(Waiting, false)] && 0 in s.calls && s.calls[0].pc == Asleep
  {
    var s;
    es, s := ThreadProbed(s0);
    es, s := Extend(s0, es, s, Begin(0, All));
    es, s := Extend(s0, es, s, RoundOf(0));
    assert s.workers[0] == Worker(Probed, true) && s.calls[0].pc == Asleep;
    es, s := Extend(s0, es, s, Advance(0, true));
    es, s := Extend(s0, es, s, Advance(0, true));
  }

  /** Signalling once is not enough: a run in which `stop` signals a lock thread just before that enters F_SETLKW, and the thread is
      then parked in it with no signal pending, while `stop` sleeps. */
  lemma SignalCanBeLost(s0: State) returns (es: seq<Event>)
    requires Init(s0) && s0.limit > 0
    ensures Run(s0, es) && |es| >= 2 && es[|es| - 2] == RoundOf(0) && es[|es| - 1] == Advance(0, true)
    ensures var s := Final(s0, es);
            s.workers == [Worker(Waiting, false)] && 0 in s.calls && s.calls[0].pc == Asleep && s.calls[0].local.snoozed
  {
    var s;
    es, s := ThreadProbed(s0);
    es, s := Extend(s0, es, s, Advance(0, true));
    assert s.workers == [Worker(Window, false)];
    es, s := Extend(s0, es, s, Begin(0, All));
    es, s := Extend(s0, es, s, RoundOf(0));
    assert s.workers[0] == Worker(Window, false) && s.calls[0].pc == Asleep;
    es, s := Extend(s0, es, s, Advance(0, true));
  }
}
