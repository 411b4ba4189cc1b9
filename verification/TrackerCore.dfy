/** The critical sections of the interruptible tracker (src/tracker.rs).

Each function below is the effect of one stretch of code that runs under a single mutex
acquisition: `track`, `untrack`, and one pass of the loop inside the two `stop` methods.
The class `RawInterruptibleTracker` is the imperative form, proved equal to these functions;
the step machines elsewhere in the project interleave the same functions.
*/
module TrackerCore {

  type Pthread = nat

  /** What the tracker's mutex protects. */
  datatype Data = Data(canSpawn: bool, newThread: bool, threads: set<Pthread>)

  /** Local variables of one `stop` call: snoozes left before the backoff is completed, and
      whether the current snooze group was already signalled. */
  datatype Local = Local(left: nat, snoozed: bool)

  /** How a critical section of `stop` ends: the call returns, waits on the condition variable,
      or drops the lock in order to snooze. */
  datatype Outcome = Return | CondWait | Snooze

  datatype Round = Round(data: Data, local: Local, kills: set<Pthread>, outcome: Outcome)

  function Track(d: Data, p: Pthread): Data {
    if d.canSpawn then Data(true, true, d.threads + {p}) else d
  }

  function Untrack(d: Data, p: Pthread): Data {
    d.(threads := d.threads - {p})
  }

  function Close(d: Data): Data {
    d.(canSpawn := false)
  }

  /** One pass of the loop of `InterruptibleTracker::stop`, lock held. */
  function StopRound(d: Data, l: Local, limit: nat): Round {
    if d.threads == {} then
      Round(d, l, {}, Return)
    else
      var l' := if d.newThread then Local(limit, false) else l;
      var d' := d.(newThread := false);
      if l'.left == 0 then
        Round(d', l', d.threads, CondWait)
      else
        Round(d', l'.(snoozed := true), if l'.snoozed then {} else d.threads, Snooze)
  }

  /** How a critical section of `InterruptibleHandle::stop` ends, and whether it signals. */
  datatype HandleOutcome = HReturn | HPanic | HCondWait | HSnooze

  datatype HandleRound = HandleRound(local: Local, kill: bool, outcome: HandleOutcome)

  function HandleStopRound(exited: bool, self: bool, l: Local): HandleRound {
    if exited then HandleRound(l, false, HReturn)
    else if self then HandleRound(l, false, HPanic)
    else if l.left == 0 then HandleRound(l, true, HCondWait)
    else HandleRound(l.(snoozed := true), !l.snoozed, HSnooze)
  }

  /** One snooze: the backoff gets closer to completion. */
  function Snoozed(l: Local): Local {
    l.(left := if l.left == 0 then 0 else l.left - 1)
  }

  function SnoozedTimes(l: Local, n: nat): Local
    decreases n
  {
    if n == 0 then l else SnoozedTimes(Snoozed(l), n - 1)
  }

  // ----- what happens while `stop` does not hold the lock

  datatype Op = TrackOp(p: Pthread) | UntrackOp(p: Pthread)

  /** One interval in which the lock is free: critical sections of other threads, and how many
      attempts to take the lock back failed. */
  datatype Interval = Interval(ops: seq<Op>, failedTries: nat)

  function ApplyOp(d: Data, op: Op): Data {
    match op
    case TrackOp(p) => Track(d, p)
    case UntrackOp(p) => Untrack(d, p)
  }

  function ApplyOps(d: Data, ops: seq<Op>): Data
    decreases |ops|
  {
    if ops == [] then d else ApplyOps(ApplyOp(d, ops[0]), ops[1..])
  }

  datatype StopResult = StopResult(data: Data, kills: seq<set<Pthread>>, returned: bool)

  /** Locals of `stop` when it holds the lock again. */
  function Reacquired(r: Round, i: Interval): Local {
    if r.outcome == Snooze then SnoozedTimes(Snoozed(r.local), i.failedTries) else r.local
  }

  /** A whole `stop` call, over every interval the environment offers; when the intervals run
      out before the set is empty, the call is still waiting. */
  function StopRun(d: Data, l: Local, limit: nat, env: seq<Interval>): StopResult
    decreases |env|
  {
    var r := StopRound(d, l, limit);
    if r.outcome == Return then StopResult(r.data, [], true)
    else if env == [] then StopResult(r.data, [r.kills], false)
    else
      var rest := StopRun(ApplyOps(r.data, env[0].ops), Reacquired(r, env[0]), limit, env[1..]);
      Prefixed([r.kills], rest)
  }

  function Prefixed(kills: seq<set<Pthread>>, r: StopResult): StopResult {
    r.(kills := kills + r.kills)
  }

  lemma PrefixedTwice(kills: seq<set<Pthread>>, k: set<Pthread>, r: StopResult)
    ensures Prefixed(kills, Prefixed([k], r)) == Prefixed(kills + [k], r)
  {
    assert kills + ([k] + r.kills) == kills + [k] + r.kills;
  }

  /** After `Close`, no interleaving of other threads' critical sections grows the tracked set or
      raises the new-thread flag. */
  lemma {:induction false} ClosedOps(d: Data, ops: seq<Op>)
    requires !d.canSpawn
    ensures var d' := ApplyOps(d, ops);
            !d'.canSpawn && d'.threads <= d.threads && d'.newThread == d.newThread
    decreases |ops|
  {
    if ops != [] {
      ClosedOps(ApplyOp(d, ops[0]), ops[1..]);
    }
  }

  /** A `stop` call that finds threads signals all of them before it first gives the lock away,
      signals only threads that were tracked when the call began, and returns only with the set
      empty and closed. A call that never returned still has tracked threads, all of them signalled. */
  lemma {:induction false} StopRunSafe(d: Data, l: Local, limit: nat, env: seq<Interval>)
    requires !d.canSpawn
    ensures var r := StopRun(d, l, limit, env);
            && !r.data.canSpawn && r.data.threads <= d.threads
            && (forall i | 0 <= i < |r.kills| :: r.kills[i] <= d.threads)
            && (r.returned ==> r.data.threads == {})
            && (d.threads != {} && (!l.snoozed || l.left == 0 || d.newThread) ==> |r.kills| > 0 && r.kills[0] == d.threads)
    decreases |env|
  {
    var r := StopRound(d, l, limit);
    if r.outcome != Return && env != [] {
      ClosedOps(r.data, env[0].ops);
      StopRunSafe(ApplyOps(r.data, env[0].ops), Reacquired(r, env[0]), limit, env[1..]);
    }
  }

  /** The mutex-protected tracker as the code has it. */
  class RawInterruptibleTracker {
    var canSpawn: bool
    var newThread: bool
    var threads: set<Pthread>

    function View(): Data
      reads this
    {
      Data(canSpawn, newThread, threads)
    }

    constructor ()
      ensures View() == Data(true, false, {})
    {
      canSpawn, newThread, threads := true, false, {};
    }

    method TrackThread(p: Pthread) returns (ok: bool)
      modifies this
      ensures ok == old(canSpawn) && canSpawn == old(canSpawn)
      ensures View() == Track(old(View()), p)
      ensures ok ==> newThread && threads == old(threads) + {p}
      ensures !ok ==> newThread == old(newThread) && threads == old(threads)
    {
      if !canSpawn {
        return false;
      }
      threads := threads + {p};
      newThread := true;
      return true;
    }

    method UntrackThread(p: Pthread)
      modifies this
      ensures View() == Untrack(old(View()), p)
      ensures threads == old(threads) - {p} && canSpawn == old(canSpawn) && newThread == old(newThread)
    {
      threads := threads - {p};
    }

    /** Other threads' critical sections, while the lock is free. */
    method Interfere(ops: seq<Op>)
      modifies this
      ensures View() == ApplyOps(old(View()), ops)
    {
      var i := 0;
      while i < |ops|
        invariant 0 <= i <= |ops|
        invariant ApplyOps(View(), ops[i..]) == ApplyOps(old(View()), ops)
      {
        match ops[i] {
          case TrackOp(p) => var _ := TrackThread(p);
          case UntrackOp(p) => UntrackThread(p);
        }
        assert ops[i..][1..] == ops[i + 1..];
        i := i + 1;
      }
    }

    /** `for thread in g.threads.iter() { pthread_kill(..) }` */
    method SignalAll() returns (kills: set<Pthread>)
      ensures kills == threads
    {
      var todo := threads;
      kills := {};
      while todo != {}
        invariant kills + todo == threads
        decreases todo
      {
        var p :| p in todo;
        kills := kills + {p};
        todo := todo - {p};
      }
    }

    /** `InterruptibleTracker::stop`. `env` says what happens in each interval without the lock;
        when it runs out, the method ends with `returned` false: the call is still waiting. */
    method Stop(limit: nat, env: seq<Interval>) returns (returned: bool, kills: seq<set<Pthread>>)
      modifies this
      ensures StopResult(View(), kills, returned) == StopRun(Close(old(View())), Local(limit, false), limit, env)
      ensures returned ==> threads == {} && !canSpawn
      ensures old(threads) != {} ==> |kills| > 0 && kills[0] == old(threads)
    {
      canSpawn := false;
      ghost var whole := StopRun(View(), Local(limit, false), limit, env);
      StopRunSafe(View(), Local(limit, false), limit, env);
      var left, snoozed, i := limit, false, 0;
      kills := [];
      while threads != {}
        invariant 0 <= i <= |env|
        invariant whole == Prefixed(kills, StopRun(View(), Local(left, snoozed), limit, env[i..]))
        decreases |env| - i
      {
        ghost var round := StopRound(View(), Local(left, snoozed), limit);
        ghost var before := kills;
        var completed, signalled;
        left, snoozed, completed, signalled := RunRound(left, snoozed, limit);
        kills := kills + [signalled];
        if i == |env| {
          return false, kills;
        }
        Interfere(env[i].ops);
        if !completed {
          left := Reacquire(left, env[i].failedTries);
          SnoozedLeft(Snoozed(round.local), env[i].failedTries);
        }
        assert Reacquired(round, env[i]) == Local(left, snoozed);
        PrefixedTwice(before, signalled, StopRun(View(), Local(left, snoozed), limit, env[i + 1..]));
        assert env[i..][0] == env[i] && env[i..][1..] == env[i + 1..];
        i := i + 1;
      }
      return true, kills;
    }

    /** The part of the loop body that runs with the lock held, for a set that is not empty. */
    method RunRound(left: nat, snoozed: bool, limit: nat)
      returns (left': nat, snoozed': bool, completed: bool, signalled: set<Pthread>)
      requires threads != {}
      modifies this
      ensures Round(View(), Local(left', snoozed'), signalled, if completed then CondWait else Snooze)
              == StopRound(old(View()), Local(left, snoozed), limit)
      ensures completed == (left' == 0)
      ensures !newThread && threads == old(threads) && canSpawn == old(canSpawn)
      ensures left' == if old(newThread) then limit else left
      ensures signalled == if completed || !snoozed || old(newThread) then threads else {}
      ensures !completed ==> snoozed'
    {
      left', snoozed', signalled := left, snoozed, {};
      if newThread {
        newThread, snoozed', left' := false, false, limit;
      }
      completed := left' == 0;
      if completed {
        signalled := SignalAll();
      } else {
        if !snoozed' {
          signalled := SignalAll();
          snoozed' := true;
        }
      }
    }
  }

  /** The snooze and the inner loop that takes the lock back: every failed attempt snoozes once
      more until the backoff is completed. */
  method Reacquire(start: nat, failedTries: nat) returns (left: nat)
    requires start > 0
    ensures left == if start - 1 <= failedTries then 0 else start - 1 - failedTries
  {
    left := start - 1;
    var failed := 0;
    while failed < failedTries && left != 0
      invariant 0 <= failed <= failedTries
      invariant left == if start - 1 <= failed then 0 else start - 1 - failed
      decreases failedTries - failed
    {
      left := left - 1;
      failed := failed + 1;
    }
  }

  lemma {:induction false} SnoozedLeft(l: Local, n: nat)
    ensures SnoozedTimes(l, n) == l.(left := if l.left <= n then 0 else l.left - n)
    decreases n
  {
    if n > 0 {
      SnoozedLeft(Snoozed(l), n - 1);
    }
  }

  // ----- InterruptibleHandle::stop

  /** An interval without the exit lock: whether the thread sets its exit flag in it, and failed attempts. */
  datatype ExitInterval = ExitInterval(exits: bool, failedTries: nat)

  datatype HandleEnd = HandleReturned | HandlePanicked | HandleWaiting

  datatype HandleResult = HandleResult(end: HandleEnd, kills: nat, exited: bool)

  /** A whole call of the handle's `stop`, over every interval the environment offers. */
  function HandleRun(exited: bool, self: bool, l: Local, env: seq<ExitInterval>): HandleResult
    decreases |env|
  {
    var r := HandleStopRound(exited, self, l);
    if r.outcome == HReturn then HandleResult(HandleReturned, 0, exited)
    else if r.outcome == HPanic then HandleResult(HandlePanicked, 0, exited)
    else if env == [] then HandleResult(HandleWaiting, if r.kill then 1 else 0, exited)
    else
      var l' := if r.outcome == HSnooze then SnoozedTimes(Snoozed(r.local), env[0].failedTries) else r.local;
      var rest := HandleRun(exited || env[0].exits, self, l', env[1..]);
      rest.(kills := (if r.kill then 1 else 0) + rest.kills)
  }

  /** The call returns exactly when some interval it lives through sets the flag, or it was set before; it panics
      exactly when called by the thread itself before that; and it has signalled at least once when it waits. */
  lemma {:induction false} HandleRunEnds(exited: bool, self: bool, l: Local, env: seq<ExitInterval>)
    ensures var r := HandleRun(exited, self, l, env);
            && (r.end == HandleReturned <==> exited || (!self && SomeExit(env)))
            && (r.end == HandlePanicked <==> !exited && self)
            && (r.end == HandlePanicked ==> r.kills == 0)
            && (r.end == HandleReturned ==> r.exited)
            && (!exited && !self && (!l.snoozed || l.left == 0) ==> r.kills >= 1)
    decreases |env|
  {
    var r := HandleStopRound(exited, self, l);
    if !exited && !self && env != [] {
      var l' := if r.outcome == HSnooze then SnoozedTimes(Snoozed(r.local), env[0].failedTries) else r.local;
      HandleRunEnds(env[0].exits, self, l', env[1..]);
      SomeExitTail(env);
    }
  }

  ghost predicate SomeExit(env: seq<ExitInterval>) {
    exists i :: 0 <= i < |env| && env[i].exits
  }

  lemma SomeExitTail(env: seq<ExitInterval>)
    requires env != []
    ensures SomeExit(env) <==> env[0].exits || SomeExit(env[1..])
  {
    if i :| 0 <= i < |env| && env[i].exits {
      assert i > 0 ==> env[1..][i - 1].exits;
    }
    if i :| 0 <= i < |env[1..]| && env[1..][i].exits {
      assert env[i + 1].exits;
    }
  }

  /** The exit flag of one guard, with the `stop` of the handle made with it. */
  class RawInterruptibleExitTracker {
    var exited: bool

    constructor ()
      ensures !exited
    {
      exited := false;
    }

    /** The second half of the guard's `drop`. */
    method Mark()
      modifies this
      ensures exited
    {
      exited := true;
    }

    /** The part of the loop body that may signal. */
    method Signal(left: nat, snoozed: bool) returns (snoozed': bool, completed: bool, signalled: bool)
      ensures HandleRound(Local(left, snoozed'), signalled, if completed then HCondWait else HSnooze)
              == HandleStopRound(false, false, Local(left, snoozed))
      ensures completed == (left == 0)
    {
      snoozed', completed, signalled := snoozed, left == 0, false;
      if completed {
        signalled := true;
      } else if !snoozed' {
        signalled, snoozed' := true, true;
      }
    }

    /** `InterruptibleHandle::stop`, called from the guarded thread itself if `self`. */
    method StopHandle(self: bool, limit: nat, env: seq<ExitInterval>) returns (end: HandleEnd, kills: nat)
      modifies this
      ensures HandleResult(end, kills, exited) == HandleRun(old(exited), self, Local(limit, false), env)
      ensures end == HandleReturned ==> exited
      ensures end == HandlePanicked <==> !old(exited) && self
      ensures !old(exited) && !self ==> kills >= 1
    {
      HandleRunEnds(exited, self, Local(limit, false), env);
      ghost var whole := HandleRun(exited, self, Local(limit, false), env);
      var left, snoozed, i := limit, false, 0;
      kills := 0;
      while !exited
        invariant 0 <= i <= |env|
        invariant var rest := HandleRun(exited, self, Local(left, snoozed), env[i..]);
                  whole == rest.(kills := kills + rest.kills)
        invariant i > 0 ==> !self
        decreases |env| - i
      {
        if self {
          return HandlePanicked, kills;
        }
        ghost var round := HandleStopRound(false, false, Local(left, snoozed));
        var completed, signalled;
        snoozed, completed, signalled := Signal(left, snoozed);
        kills := kills + if signalled then 1 else 0;
        if i == |env| {
          return HandleWaiting, kills;
        }
        if env[i].exits {
          Mark();
        }
        if !completed {
          left := Reacquire(left, env[i].failedTries);
          SnoozedLeft(Snoozed(round.local), env[i].failedTries);
        }
        assert env[i..][1..] == env[i + 1..];
        i := i + 1;
      }
      return HandleReturned, kills;
    }
  }
}
