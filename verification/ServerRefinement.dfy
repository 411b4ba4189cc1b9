/** The server's `set_lock_blocking` as code (`LockThread`) and as steps (`BlockingProtocol`) say the same (src/owner.rs:408-454): for
every outcome of its system calls, what the method sends is what a run of the machine's lock thread delivers. */
module ServerRefinement {
  import opened IdAllocation
  import opened Types
  import opened P = BlockingProtocol
  import T = LockThread

  /** Outcome of F_SETLK, in the machine's terms. */
  function AsProbe(o: T.Outcome): P.Probe {
    match o
    case Granted => P.Granted
    case Errno(n) => if n == EAGAIN then P.Busy else P.Error(n)
  }

  lemma {:induction false} RunSnoc(s0: State, es: seq<Event>, e: Event)
    requires Run(s0, es) && Enabled(Final(s0, es), e)
    ensures Run(s0, es + [e]) && Final(s0, es + [e]) == Next(Final(s0, es), e)
    decreases |es|
  {
    if es == [] {
      assert [e][1..] == [];
    } else {
      assert (es + [e])[1..] == es[1..] + [e];
      RunSnoc(Next(s0, es[0]), es[1..], e);
    }
  }

  /** One more step of call `c`: what it does to that call. */
  lemma Extend(s0: State, es: seq<Event>, s: State, e: Event) returns (es': seq<Event>, s': State, k: Call)
    requires Run(s0, es) && Final(s0, es) == s && e.c in s.calls && !e.Begin? && EnabledOn(s, e, s.calls[e.c])
    ensures es' == es + [e] && Run(s0, es') && Final(s0, es') == s' && e.c in s'.calls && s'.calls[e.c] == k
    ensures k == NextCall(s, e, s.calls[e.c]) && s'.interrupts == NextMap(s, e) && s'.next == if e.ServeFetch? then Bump(s.next) else s.next
  {
    es', s' := es + [e], Next(s, e);
    RunSnoc(s0, es, e);
    k := s'.calls[e.c];
  }

  /** `handle_interrupt_add`, run without interference: it passes over the ids in use and takes the first free one, in cyclic order, from the
      counter on. */
  lemma {:induction false} AddLoop(s0: State, es0: seq<Event>, s1: State, c: CallId, n: nat) returns (es: seq<Event>, s: State)
    requires Run(s0, es0) && Final(s0, es0) == s1 && c in s1.calls && s1.calls[c].server == Adding
    requires (forall i | 0 <= i < n :: Ahead(s1.next, i) in s1.interrupts) && Ahead(s1.next, n) !in s1.interrupts
    ensures Run(s0, es) && Final(s0, es) == s && |es| == |es0| + 2 * (n + 1) && c in s.calls
    ensures s.calls[c] == s1.calls[c].(server := Added, added := Some(Ahead(s1.next, n)))
    ensures s.interrupts == s1.interrupts[Ahead(s1.next, n) := c] && s.next == Ahead(s1.next, n + 1)
    decreases n
  {
    es, s := OneTry(s0, es0, s1, c);
    AheadStep(s1.next, 0);
    if n > 0 {
      assert Ahead(s1.next, 0) in s1.interrupts;
      forall i | 0 <= i < n ensures Ahead(s.next, i) == Ahead(s1.next, i + 1) {
        BumpAhead(s1.next, i);
      }
      BumpAhead(s1.next, n - 1);
      BumpAhead(s1.next, n);
      es, s := AddLoop(s0, es, s, c, n - 1);
    }
  }

  /** One try: a number from the counter, then the map. */
  lemma OneTry(s0: State, es0: seq<Event>, s1: State, c: CallId) returns (es: seq<Event>, s: State)
    requires Run(s0, es0) && Final(s0, es0) == s1 && c in s1.calls && s1.calls[c].server == Adding
    ensures Run(s0, es) && Final(s0, es) == s && |es| == |es0| + 2 && c in s.calls && s.next == Bump(s1.next)
    ensures s1.next in s1.interrupts ==> s.calls[c] == s1.calls[c] && s.interrupts == s1.interrupts
    ensures s1.next !in s1.interrupts ==>
              s.calls[c] == s1.calls[c].(server := Added, added := Some(s1.next)) && s.interrupts == s1.interrupts[s1.next := c]
  {
    var k;
    es, s, k := Extend(s0, es0, s1, ServeFetch(c));
    es, s, k := Extend(s0, es, s, ServeAdd(c));
  }

  lemma BumpAhead(n: U64, k: nat)
    ensures Ahead(Bump(n), k) == Ahead(n, k + 1)
  {
  }

  /** After EAGAIN: the handle goes into the map and Pending is sent. */
  lemma PendingPart(s0: State, es0: seq<Event>, s1: State, c: CallId, n: nat) returns (es: seq<Event>, s: State)
    requires Run(s0, es0) && Final(s0, es0) == s1 && c in s1.calls && s1.calls[c].server == Adding
    requires (forall i | 0 <= i < n :: Ahead(s1.next, i) in s1.interrupts) && Ahead(s1.next, n) !in s1.interrupts
    ensures Run(s0, es) && Final(s0, es) == s && c in s.calls && s.calls[c].server == Probed && s.calls[c].params == s1.calls[c].params
    ensures s.calls[c].delivered == s1.calls[c].delivered + [Pending(Ahead(s1.next, n))]
  {
    var k;
    es, s := AddLoop(s0, es0, s1, c, n);
    es, s, k := Extend(s0, es, s, ServePending(c, true));
  }

  /** Up to the first reply. */
  lemma FirstHalf(s0: State, c: CallId, probe: T.Outcome, n: nat) returns (es: seq<Event>, s: State)
    requires c in s0.calls && s0.calls[c].server == Queued
    requires (forall i | 0 <= i < n :: Ahead(s0.next, i) in s0.interrupts) && Ahead(s0.next, n) !in s0.interrupts
    ensures Run(s0, es) && Final(s0, es) == s && c in s.calls && s.calls[c].server == Probed && s.calls[c].params == s0.calls[c].params
    ensures s.calls[c].delivered == s0.calls[c].delivered + [if probe == T.Errno(EAGAIN) then Pending(Ahead(s0.next, n)) else T.AsReply(probe, s0.calls[c].params)]
  {
    es, s := [], s0;
    var k;
    es, s, k := Extend(s0, es, s, ServeStart(c));
    es, s, k := Extend(s0, es, s, ServeProbe(c, AsProbe(probe), true));
    if probe == T.Errno(EAGAIN) {
      es, s := PendingPart(s0, es, s, c, n);
    }
  }

  /** From the first reply to the exit of the thread. */
  lemma SecondHalf(s0: State, es0: seq<Event>, s1: State, c: CallId, unblockErr: Option<I32>, wait: T.Outcome) returns (es: seq<Event>, s: State)
    requires Run(s0, es0) && Final(s0, es0) == s1 && c in s1.calls && s1.calls[c].server == Probed
    ensures Run(s0, es) && Final(s0, es) == s && c in s.calls && s.calls[c].server == Exited && s.calls[c].closed
    ensures s.calls[c].delivered == s1.calls[c].delivered + [if unblockErr.Some? then Err(unblockErr.value) else T.AsReply(wait, s1.calls[c].params)]
  {
    es, s := es0, s1;
    var k;
    if unblockErr.Some? {
      es, s, k := Extend(s0, es, s, ServeUnmaskErr(c, unblockErr.value, true));
    } else {
      es, s, k := Extend(s0, es, s, ServeWait(c));
      es, s, k := Extend(s0, es, s, ServeWaited(c, T.AsReply(wait, k.params), true));
    }
    es, s, k := Extend(s0, es, s, ServeClose(c));
    es, s, k := Extend(s0, es, s, ServeExit(c));
  }

  lemma MaskingFails(s0: State, c: CallId, errno: I32) returns (es: seq<Event>, s: State)
    requires c in s0.calls && s0.calls[c].server == Queued
    ensures Run(s0, es) && Final(s0, es) == s && c in s.calls && s.calls[c].server == Exited && s.calls[c].closed
    ensures s.calls[c].delivered == s0.calls[c].delivered + [Err(errno)]
  {
    es, s := [], s0;
    var k;
    es, s, k := Extend(s0, es, s, ServeStart(c));
    es, s, k := Extend(s0, es, s, ServeMaskErr(c, errno, true));
    es, s, k := Extend(s0, es, s, ServeClose(c));
    es, s, k := Extend(s0, es, s, ServeExit(c));
  }

  /** The replies that `LockThread.ServeBlocking` sends are, for every outcome, those that a run of the machine's lock thread puts on
      the stream before it exits; the interrupt id is the first free one from the counter on, however many are in use. */
  lemma ServeBlockingIsARun(s0: State, c: CallId, blockErr: Option<I32>, probe: T.Outcome, unblockErr: Option<I32>, wait: T.Outcome, n: nat)
    returns (es: seq<Event>)
    requires c in s0.calls && s0.calls[c].server == Queued
    requires (forall i | 0 <= i < n :: Ahead(s0.next, i) in s0.interrupts) && Ahead(s0.next, n) !in s0.interrupts
    ensures Run(s0, es)
    ensures var s, params := Final(s0, es), s0.calls[c].params;
            && c in s.calls && s.calls[c].server == Exited && s.calls[c].closed
            && s.calls[c].delivered == s0.calls[c].delivered + T.ServerReplies(params, blockErr, probe, Ahead(s0.next, n), unblockErr, wait)
  {
    var s;
    if blockErr.Some? {
      es, s := MaskingFails(s0, c, blockErr.value);
    } else {
      es, s := FirstHalf(s0, c, probe, n);
      es, s := SecondHalf(s0, es, s, c, unblockErr, wait);
    }
  }

  /** Without a registration the machine delivers what `LockThread.HandleLockCommand` answers, and without a thread nothing; either way
      the stream is closed. */
  lemma NoThreadIsARun(s0: State, c: CallId, found: bool) returns (es: seq<Event>)
    requires c in s0.calls && s0.calls[c].server == Queued
    ensures Run(s0, es)
    ensures var s := Final(s0, es);
            && c in s.calls && s.calls[c].closed
            && s.calls[c].delivered == s0.calls[c].delivered + if found then [] else [Err(ENOENT)]
  {
    es := [];
    var s, k;
    if found {
      es, s, k := Extend(s0, es, s0, ServeNoThread(c));
    } else {
      es, s, k := Extend(s0, es, s0, ServeReject(c, true));
    }
  }
}
