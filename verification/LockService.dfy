/** Lock commands on one file in one owner process, with the kernel's lock table (src/owner.rs:175-235, src/owner.rs:341-454).

The receiving loop runs non-blocking commands itself and answers them; each blocking command has a lock thread, which tries
F_SETLK, answers, and goes on to F_SETLKW whatever the answer was. Loop, lock threads and other processes interleave freely
between their system calls and replies.
*/
module LockService {
  import opened IdAllocation
  import opened Types
  import opened LockTable

  type CallId = nat

  /** Requests with whence Start. */
  function RequestOf(p: LockParams): Request {
    Request(p.kind, p.start, p.len)
  }

  /** A lock thread. Started: nothing done. Probed: F_SETLK done, reply not sent. Told: first reply out. Waiting: in F_SETLKW.
      Over: F_SETLKW done, reply not sent. */
  datatype Stage = Started | Probed(reply: Reply) | Told | Waiting | Over(reply: Reply) | Finished

  datatype Job = Job(params: LockParams, stage: Stage)

  datatype Loop = Idle | Answering(c: CallId, reply: Reply)

  datatype State = State(me: Process, table: Table, loop: Loop, jobs: map<CallId, Job>, delivered: map<CallId, seq<Reply>>)

  /** `fails` is an error of the system call other than the lock being taken, `sent` whether a reply gets through. */
  datatype Event =
    | Foreign(cmd: Command)                                            // another process
    | OwnClose                                                         // another registration of the file is dropped
    | RecvDirect(c: CallId, params: LockParams, fails: Option<I32>)    // the loop runs F_SETLK for a non-blocking command
    | SendDirect(sent: bool)
    | RecvBlocking(c: CallId, params: LockParams)
    | Probe(c: CallId, id: U64, fails: Option<I32>)
    | SendFirst(c: CallId, sent: bool)
    | EnterWait(c: CallId)
    | Acquire(c: CallId)                                               // F_SETLKW is granted
    | Abort(c: CallId, errno: I32)                                     // F_SETLKW fails, or is interrupted
    | SendLast(c: CallId, sent: bool)

  ghost predicate Init(s: State) {
    s.table == imap[] && s.loop == Idle && s.jobs == map[] && s.delivered == map[]
  }

  predicate IsAt(s: State, c: CallId, stage: Stage) {
    c in s.jobs && s.jobs[c].stage == stage
  }

  ghost predicate Enabled(s: State, e: Event) {
    match e
    case Foreign(cmd) => cmd.p != s.me
    case OwnClose => true
    case RecvDirect(c, _, _) => s.loop == Idle && c !in s.delivered
    case SendDirect(_) => s.loop.Answering? && s.loop.c in s.delivered
    case RecvBlocking(c, _) => s.loop == Idle && c !in s.delivered && c !in s.jobs
    case Probe(c, _, _) => c in s.jobs && s.jobs[c].stage == Started
    case SendFirst(c, _) => c in s.jobs && s.jobs[c].stage.Probed? && c in s.delivered
    case EnterWait(c) => c in s.jobs && s.jobs[c].stage == Told
    case Acquire(c) => c in s.jobs && s.jobs[c].stage == Waiting && !Blocked(s.table, s.me, RequestOf(s.jobs[c].params))
    case Abort(c, _) => c in s.jobs && s.jobs[c].stage == Waiting
    case SendLast(c, _) => c in s.jobs && s.jobs[c].stage.Over? && c in s.delivered
  }

  /** The answer to F_SETLK. */
  ghost function Tried(s: State, params: LockParams, fails: Option<I32>): Reply {
    if fails.Some? then Err(fails.value) else if Blocked(s.table, s.me, RequestOf(params)) then Err(EAGAIN) else Done(params)
  }

  /** What the event does to the file's locks, as commands on the table. */
  ghost function Commands(s: State, e: Event): seq<Command>
    requires Enabled(s, e)
  {
    match e
    case Foreign(cmd) => [cmd]
    case OwnClose => [CloseFile(s.me)]
    case RecvDirect(_, params, fails) => if fails.Some? then [] else [SetLock(s.me, RequestOf(params))]
    case Probe(c, _, fails) => if fails.Some? then [] else [SetLock(s.me, RequestOf(s.jobs[c].params))]
    case Acquire(c) => [SetLock(s.me, RequestOf(s.jobs[c].params))]
    case _ => []
  }

  ghost function NextStage(s: State, e: Event, k: Job): Stage {
    match e
    case Probe(_, id, fails) => var r := Tried(s, k.params, fails); Probed(if r == Err(EAGAIN) then Pending(id) else r)
    case SendFirst(_, _) => Told
    case EnterWait(_) => Waiting
    case Acquire(_) => Over(Done(k.params))
    case Abort(_, n) => Over(Err(n))
    case SendLast(_, _) => Finished
    case _ => k.stage
  }

  function Sent(d: map<CallId, seq<Reply>>, c: CallId, r: Reply, sent: bool): map<CallId, seq<Reply>>
    requires c in d
  {
    if sent then d[c := d[c] + [r]] else d
  }

  ghost function Next(s: State, e: Event): State
    requires Enabled(s, e)
  {
    State(
      s.me,
      Steps(s.table, Commands(s, e)),
      if e.RecvDirect? then Answering(e.c, Tried(s, e.params, e.fails)) else if e.SendDirect? then Idle else s.loop,
      if e.RecvBlocking? then s.jobs[e.c := Job(e.params, Started)]
      else if e.Probe? || e.SendFirst? || e.EnterWait? || e.Acquire? || e.Abort? || e.SendLast? then
        s.jobs[e.c := s.jobs[e.c].(stage := NextStage(s, e, s.jobs[e.c]))]
      else s.jobs,
      match e
      case RecvDirect(c, _, _) => s.delivered[c := []]
      case RecvBlocking(c, _) => s.delivered[c := []]
      case SendDirect(sent) => Sent(s.delivered, s.loop.c, s.loop.reply, sent)
      case SendFirst(c, sent) => Sent(s.delivered, c, s.jobs[c].stage.reply, sent)
      case SendLast(c, sent) => Sent(s.delivered, c, s.jobs[c].stage.reply, sent)
      case _ => s.delivered)
  }

  ghost predicate Run(s: State, es: seq<Event>)
    decreases |es|
  {
    es == [] || (Enabled(s, es[0]) && Run(Next(s, es[0]), es[1..]))
  }

  ghost function Final(s: State, es: seq<Event>): State
    requires Run(s, es)
    decreases |es|
  {
    if es == [] then s else Final(Next(s, es[0]), es[1..])
  }

  // ----- runs and the table

  /** Everything a run does to the file's locks. */
  ghost function AllCommands(s: State, es: seq<Event>): seq<Command>
    requires Run(s, es)
    decreases |es|
  {
    if es == [] then [] else Commands(s, es[0]) + AllCommands(Next(s, es[0]), es[1..])
  }

  lemma {:induction false} StepsConcat(t: Table, a: seq<Command>, b: seq<Command>)
    ensures Steps(t, a + b) == Steps(Steps(t, a), b)
    decreases |a|
  {
    if a == [] {
      assert a + b == b;
    } else {
      assert (a + b)[1..] == a[1..] + b;
      StepsConcat(Step(t, a[0]), a[1..], b);
    }
  }

  lemma {:induction false} RunOnTable(s: State, es: seq<Event>)
    requires Run(s, es)
    ensures Final(s, es).table == Steps(s.table, AllCommands(s, es)) && Final(s, es).me == s.me
    decreases |es|
  {
    if es != [] {
      RunOnTable(Next(s, es[0]), es[1..]);
      StepsConcat(s.table, Commands(s, es[0]), AllCommands(Next(s, es[0]), es[1..]));
    }
  }

  lemma {:induction false} StepsKeepCompatible(t: Table, cs: seq<Command>)
    requires Stored(t) && Compatible(t)
    ensures Stored(Steps(t, cs)) && Compatible(Steps(t, cs))
    decreases |cs|
  {
    if cs != [] {
      StepKeepsCompatible(t, cs[0]);
      StepsKeepCompatible(Step(t, cs[0]), cs[1..]);
    }
  }

  lemma TableSound(s0: State, es: seq<Event>)
    requires Init(s0) && Run(s0, es)
    ensures Stored(Final(s0, es).table) && Compatible(Final(s0, es).table)
  {
    RunOnTable(s0, es);
    StepsKeepCompatible(s0.table, AllCommands(s0, es));
  }

  lemma StageForward(s: State, e: Event, c: CallId)
    requires Enabled(s, e) && c in s.jobs && s.jobs[c].stage != Started
    ensures c in Next(s, e).jobs && Next(s, e).jobs[c].params == s.jobs[c].params && Next(s, e).jobs[c].stage != Started
  {
  }

  lemma {:induction false} JobStays(s: State, es: seq<Event>, c: CallId)
    requires Run(s, es) && c in s.jobs && s.jobs[c].stage != Started
    ensures c in Final(s, es).jobs && Final(s, es).jobs[c].params == s.jobs[c].params && Final(s, es).jobs[c].stage != Started
    decreases |es|
  {
    if es != [] {
      StageForward(s, es[0], c);
      JobStays(Next(s, es[0]), es[1..], c);
    }
  }

  // ----- when the second call is harmless

  ghost predicate SecondCallHarmless(s: State, c: CallId) {
    Enabled(s, Acquire(c)) && Next(s, Acquire(c)).table == s.table
  }

  lemma HarmlessOnTable(s: State, c: CallId)
    requires IsAt(s, c, Waiting)
    ensures var q := RequestOf(s.jobs[c].params); SecondCallHarmless(s, c) <==> !Blocked(s.table, s.me, q) && Granted(s.table, s.me, q) == s.table
  {
    OneStep(s.table, SetLock(s.me, RequestOf(s.jobs[c].params)));
  }

  /** In every run: call `c` is granted its lock at once, then come the events `mid` of the loop, of other lock threads and of other
      processes, and now its thread is inside F_SETLKW. That call returns at once and leaves the table alone if and
      only if for every byte of the request the last command of the owner process in `mid` that had an effect on the
      byte, if any, gave it the kind of lock that was asked for. */
  lemma SecondCallHarmlessInRunsIff(s0: State, es: seq<Event>, c: CallId, id: U64, mid: seq<Event>)
    requires Init(s0) && Run(s0, es) && Enabled(Final(s0, es), Probe(c, id, None))
    requires !Blocked(Final(s0, es).table, Final(s0, es).me, RequestOf(Final(s0, es).jobs[c].params))
    requires var s1 := Next(Final(s0, es), Probe(c, id, None)); Run(s1, mid) && IsAt(Final(s1, mid), c, Waiting)
    ensures var s1 := Next(Final(s0, es), Probe(c, id, None));
            var q, between := RequestOf(s1.jobs[c].params), AllCommands(s1, mid);
            SecondCallHarmless(Final(s1, mid), c)
            <==> forall b: nat | Covers(q, b) :: var l := LastOwn(s1.table, between, s1.me, b); l == Untouched || l == Set(q.kind)
  {
    var s := Final(s0, es);
    TableSound(s0, es);
    var s1 := Next(s, Probe(c, id, None));
    var q, between := RequestOf(s1.jobs[c].params), AllCommands(s1, mid);
    OneStep(s.table, SetLock(s.me, q));
    RunOnTable(s1, mid);
    JobStays(s1, mid, c);
    SecondCallHarmlessIff(s.table, s.me, q, between);
    HarmlessOnTable(Final(s1, mid), c);
  }

  lemma OneStep(t: Table, c: Command)
    ensures Steps(t, [c]) == Step(t, c)
  {
    assert [c][1..] == [];
  }

  /** The event is a system call of the owner process on the file's locks. */
  ghost predicate OwnCommand(s: State, e: Event)
    requires Enabled(s, e)
  {
    exists i :: 0 <= i < |Commands(s, e)| && Commands(s, e)[i].p == s.me
  }

  ghost predicate Undisturbed(s: State, es: seq<Event>)
    requires Run(s, es)
    decreases |es|
  {
    es == [] || (!OwnCommand(s, es[0]) && Undisturbed(Next(s, es[0]), es[1..]))
  }

  lemma {:induction false} UndisturbedCommands(s: State, es: seq<Event>)
    requires Run(s, es) && Undisturbed(s, es)
    ensures forall i | 0 <= i < |AllCommands(s, es)| :: AllCommands(s, es)[i].p != s.me
    decreases |es|
  {
    if es != [] {
      UndisturbedCommands(Next(s, es[0]), es[1..]);
    }
  }

  /** In particular it is harmless in every run in which no other command of the owner process touches the file in between. */
  lemma SecondCallHarmlessUndisturbed(s0: State, es: seq<Event>, c: CallId, id: U64, mid: seq<Event>)
    requires Init(s0) && Run(s0, es) && Enabled(Final(s0, es), Probe(c, id, None))
    requires !Blocked(Final(s0, es).table, Final(s0, es).me, RequestOf(Final(s0, es).jobs[c].params))
    requires var s1 := Next(Final(s0, es), Probe(c, id, None)); Run(s1, mid) && IsAt(Final(s1, mid), c, Waiting) && Undisturbed(s1, mid)
    ensures SecondCallHarmless(Final(Next(Final(s0, es), Probe(c, id, None)), mid), c)
  {
    var s1 := Next(Final(s0, es), Probe(c, id, None));
    UndisturbedCommands(s1, mid);
    forall b: nat ensures LastOwn(s1.table, AllCommands(s1, mid), s1.me, b) == Untouched {
      OthersAreNotOwn(s1.table, AllCommands(s1, mid), s1.me, b);
    }
    SecondCallHarmlessInRunsIff(s0, es, c, id, mid);
  }

  // ----- and when it is not

  lemma {:induction false} RunSnoc(s0: State, es: seq<Event>, e: Event)
    requires Run(s0, es) && Enabled(Final(s0, es), e)
    ensures Run(s0, es + [e]) && Final(s0, es + [e]) == Next(Final(s0, es), e)
    decreases |es|
  {
    if es == [] {
      assert [e][1..] == [];
    } else {
      assert (es + [e])[1..] == es[1..] + [e];
      RunSnoc(Next(s0, es[0]), es[1..], e);
    }
  }

  /** One more event, and what its command, if it has one, does to the table. */
  lemma Extend(s0: State, es: seq<Event>, s: State, e: Event) returns (es': seq<Event>, s': State)
    requires Run(s0, es) && Final(s0, es) == s && Enabled(s, e)
    ensures s' == Next(s, e) && es' == es + [e] && Run(s0, es') && Final(s0, es') == s'
    ensures Commands(s, e) == [] ==> s'.table == s.table
    ensures |Commands(s, e)| == 1 ==> s'.table == Step(s.table, Commands(s, e)[0])
  {
    es', s' := es + [e], Next(s, e);
    RunSnoc(s0, es, e);
    if |Commands(s, e)| == 1 {
      OneStep(s.table, Commands(s, e)[0]);
      assert Commands(s, e) == [Commands(s, e)[0]];
    }
  }

  /** Only one process has locks, and they are all of one kind. */
  ghost predicate Only(t: Table, p: Process, kind: LockType) {
    forall o: Process, b: nat :: At(t, o, b) == if o == p then kind else Unlock
  }

  lemma OnlyStep(t: Table, p: Process, held: LockType, q: Request)
    requires Stored(t) && Only(t, p, held) && q.start == 0 && q.len == 0
    ensures !Blocked(t, p, q) && Stored(Step(t, SetLock(p, q))) && Only(Step(t, SetLock(p, q)), p, q.kind)
  {
    forall o: Process, b: nat ensures !ClashAt(t, p, q, o, b) {
      assert At(t, o, b) == if o == p then held else Unlock;
    }
    var t' := Step(t, SetLock(p, q));
    forall o: Process, b: nat ensures At(t', o, b) == if o == p then q.kind else Unlock {
      assert At(t, o, b) == if o == p then held else Unlock;
    }
  }

  const WHOLE: LockParams := LockParams(Write, Start, 0, 0, 0)
  const NOTHING: LockParams := LockParams(Unlock, Start, 0, 0, 0)

  /** A blocking command for the whole file is granted and its client told so. */
  lemma LockedAtOnce(s0: State) returns (es: seq<Event>, s: State)
    requires Init(s0)
    ensures Run(s0, es) && Final(s0, es) == s && s.me == s0.me && s.loop == Idle
    ensures s.jobs == map[0 := Job(WHOLE, Told)] && s.delivered == map[0 := [Done(WHOLE)]]
    ensures Stored(s.table) && Only(s.table, s.me, Write)
  {
    es, s := [], s0;
    es, s := Extend(s0, es, s, RecvBlocking(0, WHOLE));
    assert s.jobs == map[0 := Job(WHOLE, Started)] && s.delivered == map[0 := []];
    OnlyStep(s.table, s.me, Unlock, RequestOf(WHOLE));
    es, s := Extend(s0, es, s, Probe(0, 0, None));
    assert s.jobs == map[0 := Job(WHOLE, Probed(Done(WHOLE)))] && [] + [Done(WHOLE)] == [Done(WHOLE)];
    es, s := Extend(s0, es, s, SendFirst(0, true));
  }

  /** The client unlocks the file and is told so. */
  lemma UnlockedAgain(s0: State) returns (es: seq<Event>, s: State)
    requires Init(s0)
    ensures Run(s0, es) && Final(s0, es) == s && s.me == s0.me && s.loop == Idle
    ensures s.jobs == map[0 := Job(WHOLE, Told)] && s.delivered == map[0 := [Done(WHOLE)], 1 := [Done(NOTHING)]]
    ensures Stored(s.table) && Only(s.table, s.me, Unlock)
  {
    es, s := LockedAtOnce(s0);
    OnlyStep(s.table, s.me, Write, RequestOf(NOTHING));
    es, s := Extend(s0, es, s, RecvDirect(1, NOTHING, None));
    assert s.delivered == map[0 := [Done(WHOLE)], 1 := []] && [] + [Done(NOTHING)] == [Done(NOTHING)];
    assert s.loop == Answering(1, Done(NOTHING));
    es, s := Extend(s0, es, s, SendDirect(true));
  }

  /** The lock thread goes on. */
  lemma LockedOnceMore(s1: State) returns (more: seq<Event>, s: State)
    requires s1.jobs == map[0 := Job(WHOLE, Told)] && 0 in s1.delivered && Stored(s1.table) && Only(s1.table, s1.me, Unlock)
    ensures Run(s1, more) && Final(s1, more) == s && more == [EnterWait(0), Acquire(0), SendLast(0, true)]
    ensures Only(s.table, s1.me, Write) && IsAt(s, 0, Finished) && s.delivered == s1.delivered[0 := s1.delivered[0] + [Done(WHOLE)]]
  {
    more, s := [], s1;
    OnlyStep(s.table, s.me, Unlock, RequestOf(WHOLE));
    more, s := Extend(s1, more, s, EnterWait(0));
    more, s := Extend(s1, more, s, Acquire(0));
    assert s.jobs[0].stage == Over(Done(WHOLE));
    more, s := Extend(s1, more, s, SendLast(0, true));
  }

  /** The run in which an acknowledged unlock is undone. After `es` the client has been told Done for its lock and then Done for its
      unlock, and nobody holds a lock on the file; after `more`, in which only the lock thread moves, the owner process
      holds the whole file again and the thread is gone. */
  lemma AcknowledgedUnlockUndone(s0: State) returns (es: seq<Event>, more: seq<Event>)
    requires Init(s0)
    ensures Run(s0, es) && Run(Final(s0, es), more) && more == [EnterWait(0), Acquire(0), SendLast(0, true)]
    ensures var s := Final(s0, es); s.delivered == map[0 := [Done(WHOLE)], 1 := [Done(NOTHING)]] && Only(s.table, s0.me, Unlock)
    ensures var s := Final(Final(s0, es), more);
            Only(s.table, s0.me, Write) && IsAt(s, 0, Finished) && s.delivered == map[0 := [Done(WHOLE), Done(WHOLE)], 1 := [Done(NOTHING)]]
  {
    var s, s';
    es, s := UnlockedAgain(s0);
    more, s' := LockedOnceMore(s);
    assert [Done(WHOLE)] + [Done(WHOLE)] == [Done(WHOLE), Done(WHOLE)];
  }

  const SHARE: LockParams := LockParams(Read, Start, 0, 0, 0)

  lemma SharedTable(t: Table, me: Process, o: Process)
    requires Stored(t) && Only(t, me, Read) && me != o
    ensures Blocked(Step(t, SetLock(o, RequestOf(SHARE))), me, RequestOf(WHOLE))
  {
    var q := RequestOf(SHARE);
    forall x: Process, b: nat ensures !ClashAt(t, o, q, x, b) {
      assert At(t, x, b) == if x == me then Read else Unlock;
    }
    var t' := Step(t, SetLock(o, q));
    assert (o, 0) in t' && ClashAt(t', me, RequestOf(WHOLE), o, 0);
  }

  /** The client downgrades its lock to a shared one and is told so. */
  lemma Downgraded(s0: State) returns (es: seq<Event>, s: State)
    requires Init(s0)
    ensures Run(s0, es) && Final(s0, es) == s && s.me == s0.me && s.loop == Idle
    ensures s.jobs == map[0 := Job(WHOLE, Told)] && s.delivered == map[0 := [Done(WHOLE)], 1 := [Done(SHARE)]]
    ensures Stored(s.table) && Only(s.table, s.me, Read)
  {
    es, s := LockedAtOnce(s0);
    OnlyStep(s.table, s.me, Write, RequestOf(SHARE));
    es, s := Extend(s0, es, s, RecvDirect(1, SHARE, None));
    assert s.delivered == map[0 := [Done(WHOLE)], 1 := []] && [] + [Done(SHARE)] == [Done(SHARE)];
    assert s.loop == Answering(1, Done(SHARE));
    es, s := Extend(s0, es, s, SendDirect(true));
  }

  /** The run in which the second call waits for a lock the client was already given: the client has downgraded it, another process
      gets a shared lock, and the lock thread is left in F_SETLKW. */
  lemma SecondCallCanWait(s0: State, o: Process) returns (es: seq<Event>)
    requires Init(s0) && o != s0.me
    ensures Run(s0, es)
    ensures var s := Final(s0, es);
            && s.delivered == map[0 := [Done(WHOLE)], 1 := [Done(SHARE)]]
            && IsAt(s, 0, Waiting) && !Enabled(s, Acquire(0))
  {
    var s;
    es, s := Downgraded(s0);
    SharedTable(s.table, s.me, o);
    es, s := Extend(s0, es, s, Foreign(SetLock(o, RequestOf(SHARE))));
    es, s := Extend(s0, es, s, EnterWait(0));
  }

  // ----- what the answers mean

  /** What an answer to F_SETLK for `params` means: Done if and only if the request was granted, and then every byte of it has the kind
      asked for; any error leaves the table alone. `before` and `after` are the tables around the call. */
  ghost predicate TriedMeans(before: Table, after: Table, me: Process, params: LockParams, fails: Option<I32>, r: Reply) {
    var q := RequestOf(params);
    && (r.Done? <==> fails.None? && !Blocked(before, me, q))
    && (r.Done? ==> r.params == params && after == LockTable.Granted(before, me, q) && forall b: nat | Covers(q, b) :: At(after, me, b) == params.kind)
    && (!r.Done? ==> after == before && r == Err(if fails.Some? then fails.value else EAGAIN))
  }

  lemma TriedSound(s: State, params: LockParams, fails: Option<I32>, after: Table)
    requires after == if fails.Some? then s.table else Step(s.table, SetLock(s.me, RequestOf(params)))
    ensures TriedMeans(s.table, after, s.me, params, fails, Tried(s, params, fails))
  {
  }

  lemma {:induction false} LoopKeepsAnswer(s: State, es: seq<Event>)
    requires Run(s, es) && s.loop.Answering? && s.loop.c in s.delivered && s.loop.c !in s.jobs && forall i | 0 <= i < |es| :: !es[i].SendDirect?
    ensures var t, c := Final(s, es), s.loop.c;
            t.loop == s.loop && c in t.delivered && c !in t.jobs && t.delivered[c] == s.delivered[c]
    decreases |es|
  {
    if es != [] {
      LoopKeepsAnswer(Next(s, es[0]), es[1..]);
    }
  }

  /** A non-blocking command, in any run: what its client is told, if the reply gets through, is what its F_SETLK did, and nothing else
      is told to it. */
  lemma DirectAnswer(s0: State, es: seq<Event>, c: CallId, params: LockParams, fails: Option<I32>, mid: seq<Event>, sent: bool)
    requires Init(s0) && Run(s0, es) && Enabled(Final(s0, es), RecvDirect(c, params, fails))
    requires Run(Next(Final(s0, es), RecvDirect(c, params, fails)), mid) && forall i | 0 <= i < |mid| :: !mid[i].SendDirect?
    ensures var s := Final(s0, es);
            var s1 := Next(s, RecvDirect(c, params, fails));
            var t := Final(s1, mid);
            && Enabled(t, SendDirect(sent)) && c in Next(t, SendDirect(sent)).delivered
            && var told := Next(t, SendDirect(sent)).delivered[c];
               (!sent ==> told == []) && (sent ==> |told| == 1 && TriedMeans(s.table, s1.table, s.me, params, fails, told[0]))
  {
    var s := Final(s0, es);
    var s1 := Next(s, RecvDirect(c, params, fails));
    if fails.None? {
      OneStep(s.table, SetLock(s.me, RequestOf(params)));
    }
    TriedSound(s, params, fails, s1.table);
    RunKeepsChannels(s0, es);
    LoopKeepsAnswer(s1, mid);
  }

  lemma {:induction false} ThreadKeepsAnswer(s: State, c: CallId, es: seq<Event>)
    requires Run(s, es) && c in s.jobs && (s.jobs[c].stage.Probed? || s.jobs[c].stage.Over?) && c in s.delivered && !(s.loop.Answering? && s.loop.c == c)
    requires forall i | 0 <= i < |es| :: !((es[i].SendFirst? || es[i].SendLast?) && es[i].c == c)
    ensures var t := Final(s, es);
            c in t.jobs && t.jobs[c] == s.jobs[c] && c in t.delivered && t.delivered[c] == s.delivered[c]
    decreases |es|
  {
    if es != [] {
      ThreadKeepsAnswer(Next(s, es[0]), c, es[1..]);
    }
  }

  /** The loop never answers in a lock thread's place. */
  ghost predicate OwnChannels(s: State) {
    && (forall c | c in s.jobs :: c in s.delivered)
    && (s.loop.Answering? ==> s.loop.c in s.delivered && s.loop.c !in s.jobs)
  }

  lemma {:induction false} RunKeepsChannels(s: State, es: seq<Event>)
    requires OwnChannels(s) && Run(s, es)
    ensures OwnChannels(Final(s, es))
    decreases |es|
  {
    if es != [] {
      RunKeepsChannels(Next(s, es[0]), es[1..]);
    }
  }

  /** The first reply of a lock thread, in any run: it is what the thread's F_SETLK did, except that a refusal is told as Pending. */
  lemma FirstAnswer(s0: State, es: seq<Event>, c: CallId, id: U64, fails: Option<I32>, mid: seq<Event>)
    requires Init(s0) && Run(s0, es) && Enabled(Final(s0, es), Probe(c, id, fails))
    requires Run(Next(Final(s0, es), Probe(c, id, fails)), mid)
    requires forall i | 0 <= i < |mid| :: !((mid[i].SendFirst? || mid[i].SendLast?) && mid[i].c == c)
    ensures var s := Final(s0, es);
            var s1 := Next(s, Probe(c, id, fails));
            var t := Final(s1, mid);
            && Enabled(t, SendFirst(c, true)) && c in t.delivered
            && exists r :: Next(t, SendFirst(c, true)).delivered[c] == t.delivered[c] + [if r == Err(EAGAIN) then Pending(id) else r]
                           && TriedMeans(s.table, s1.table, s.me, s.jobs[c].params, fails, r)
  {
    var s := Final(s0, es);
    var s1 := Next(s, Probe(c, id, fails));
    RunKeepsChannels(s0, es);
    var params := s.jobs[c].params;
    if fails.None? {
      OneStep(s.table, SetLock(s.me, RequestOf(params)));
    }
    TriedSound(s, params, fails, s1.table);
    ThreadKeepsAnswer(s1, c, mid);
    var r := Tried(s, params, fails);
    assert Next(Final(s1, mid), SendFirst(c, true)).delivered[c] == Final(s1, mid).delivered[c] + [if r == Err(EAGAIN) then Pending(id) else r];
  }

  /** The last reply of a lock thread, in any run: Done if and only if F_SETLKW was granted, and then every byte asked for had the kind
      asked for when it was. */
  lemma LastAnswer(s0: State, es: seq<Event>, c: CallId, e: Event, mid: seq<Event>)
    requires Init(s0) && Run(s0, es) && (e == Acquire(c) || (e.Abort? && e.c == c)) && Enabled(Final(s0, es), e)
    requires Run(Next(Final(s0, es), e), mid) && forall i | 0 <= i < |mid| :: !((mid[i].SendFirst? || mid[i].SendLast?) && mid[i].c == c)
    ensures var s := Final(s0, es);
            var s1 := Next(s, e);
            var t, q := Final(s1, mid), RequestOf(s.jobs[c].params);
            && Enabled(t, SendLast(c, true)) && c in t.delivered
            && Next(t, SendLast(c, true)).delivered[c] == t.delivered[c] + [if e == Acquire(c) then Done(s.jobs[c].params) else Err(e.errno)]
            && (e == Acquire(c) ==> forall b: nat | Covers(q, b) :: At(s1.table, s.me, b) == q.kind)
            && (e != Acquire(c) ==> s1.table == s.table)
  {
    var s := Final(s0, es);
    var s1 := Next(s, e);
    RunKeepsChannels(s0, es);
    if e == Acquire(c) {
      OneStep(s.table, SetLock(s.me, RequestOf(s.jobs[c].params)));
    }
    ThreadKeepsAnswer(s1, c, mid);
  }
}
