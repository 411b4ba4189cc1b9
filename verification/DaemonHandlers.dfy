/** The daemon's state as the code has it, with the handlers that run to completion inside the receiving loop or the
TTL thread (src/owner.rs:55-78 and src/owner.rs:304-324). Each is proved to do what a run of the step machine
does, whatever other threads there are. */
module DaemonHandlers {
  import opened TrackerCore
  import opened IdAllocation
  import opened Types
  import opened Daemon
  import StopProgress

  class DaemonOwnerInner {
    var exitFlag: bool
    var readers: nat
    var objects: map<Obj, FdData>
    const descriptors: IdMap<Obj>
    ghost var threads: map<Pid, Proc>
    ghost var workers: map<Pid, StopProgress.Worker>

    ghost function View(): State
      reads this, descriptors
    {
      State(0, exitFlag, readers, objects, descriptors.entries, descriptors.next, Idle, threads, workers)
    }

    constructor ()
      ensures Init(View()) && fresh(descriptors)
    {
      exitFlag, readers, objects, threads, workers := false, 0, map[], map[], map[];
      descriptors := new IdMap<Obj>();
    }

    /** `try_exit`: succeeds exactly when no read guard exists, and then the flag is set. */
    method TryToExit() returns (ok: bool)
      modifies this`exitFlag
      ensures ok == Enabled(old(View()), TryExit)
      ensures View() == if ok then Next(old(View()), TryExit) else old(View())
    {
      if readers != 0 {
        return false;
      }
      exitFlag := true;
      return true;
    }

    /** `acquire_exit_lock`: a read guard, given back at once if the owner has exited. */
    method AcquireExitLock() returns (ok: bool)
      modifies this`readers
      ensures ok == !exitFlag && readers == old(readers) + if ok then 1 else 0
    {
      readers := readers + 1;
      if exitFlag {
        readers := readers - 1;
        return false;
      }
      return true;
    }

    /** `handle_fd_register` for a new object `o`; `trackerOk` is the outcome of `InterruptibleTracker::new`. It fails,
        changing nothing, exactly if the owner has exited or no tracker can be made; otherwise the object is in
        the map under an id that was free, with one reference and one more read guard. Either way the effect is
        that of the machine's register steps. */
    method HandleFdRegister(o: Obj, trackerOk: bool) returns (id: Option<U64>, ghost tries: nat)
      requires o !in objects && |descriptors.entries| < TWO64
      modifies this`readers, this`objects, descriptors
      ensures Run(old(View()), RegisterEvents(exitFlag, o, trackerOk, tries))
      ensures View() == Final(old(View()), RegisterEvents(exitFlag, o, trackerOk, tries))
      ensures id.Some? <==> !exitFlag && trackerOk
      ensures id.Some? ==> id.value !in old(descriptors.entries) && descriptors.entries == old(descriptors.entries)[id.value := o]
      ensures id.Some? ==> objects == old(objects)[o := FdData(1, Data(true, false, {}), false)] && readers == old(readers) + 1
      ensures id.None? ==> View() == old(View())
    {
      ghost var s := View();
      tries := 0;
      var locked := AcquireExitLock();
      if !locked {
        FailedRegister(s, o, trackerOk);
        return None, 0;
      }
      if !trackerOk {
        readers := readers - 1;
        FailedRegister(s, o, trackerOk);
        return None, 0;
      }
      objects := objects[o := FdData(1, Data(true, false, {}), false)];
      var i, n := descriptors.Insert(o);
      tries := n;
      SuccessfulRegister(s, o, n);
      return Some(i), n;
    }
  }

  /** The machine's steps for one Register request. */
  function RegisterEvents(exited: bool, o: Obj, trackerOk: bool, tries: nat): seq<Event> {
    if exited then [RecvRegister, RegCheck, RegReply]
    else if !trackerOk then [RecvRegister, RegCheck, RegBuild(o, false), RegReply]
    else [RecvRegister, RegCheck, RegBuild(o, true)] + Tries(tries)
  }

  function Tries(n: nat): seq<Event> {
    if n == 0 then [RegReply] else [RegTry] + Tries(n - 1)
  }

  lemma Prepend(s: State, e: Event, s': State, es: seq<Event>, end: State)
    requires Enabled(s, e) && Next(s, e) == s' && Run(s', es) && Final(s', es) == end
    ensures Run(s, [e] + es) && Final(s, [e] + es) == end
  {
    assert ([e] + es)[1..] == es;
  }

  lemma FailedRegister(s: State, o: Obj, trackerOk: bool)
    requires s.loop == Idle && o !in s.objects && (s.exited || !trackerOk)
    ensures Run(s, RegisterEvents(s.exited, o, trackerOk, 0)) && Final(s, RegisterEvents(s.exited, o, trackerOk, 0)) == s
  {
    var s1 := Next(s, RecvRegister);
    var s2 := Next(s1, RegCheck);
    var replied := [RegReply];
    if s.exited {
      Prepend(s2, RegReply, s, [], s);
      assert [RegReply] + [] == replied;
      Prepend(s1, RegCheck, s2, replied, s);
      Prepend(s, RecvRegister, s1, [RegCheck] + replied, s);
      assert [RecvRegister] + ([RegCheck] + replied) == RegisterEvents(s.exited, o, trackerOk, 0);
    } else {
      var s3 := Next(s2, RegBuild(o, false));
      Prepend(s3, RegReply, s, [], s);
      assert [RegReply] + [] == replied;
      Prepend(s2, RegBuild(o, false), s3, replied, s);
      Prepend(s1, RegCheck, s2, [RegBuild(o, false)] + replied, s);
      Prepend(s, RecvRegister, s1, [RegCheck] + ([RegBuild(o, false)] + replied), s);
      assert [RecvRegister] + ([RegCheck] + ([RegBuild(o, false)] + replied)) == RegisterEvents(s.exited, o, trackerOk, 0);
    }
  }

  lemma AheadOfBump(n: U64, k: nat)
    ensures Ahead(Bump(n), k) == Ahead(n, k + 1)
    decreases k
  {
    AheadStep(n, k);
    if k == 0 {
      AheadStep(Bump(n), 0);
    } else {
      AheadStep(Bump(n), k - 1);
      AheadOfBump(n, k - 1);
    }
  }

  /** The insertion loop of the machine, over any number of occupied ids. */
  lemma {:induction false} InsertionLoop(s: State, n: nat)
    requires s.loop.RegBuilt? && n >= 1
    requires forall k | 0 <= k < n - 1 :: Ahead(s.nextId, k) in s.descriptors
    requires Ahead(s.nextId, n - 1) !in s.descriptors
    ensures Run(s, Tries(n))
    ensures Final(s, Tries(n)) == s.(descriptors := s.descriptors[Ahead(s.nextId, n - 1) := s.loop.o], nextId := Ahead(s.nextId, n), loop := Idle)
    decreases n
  {
    AheadStep(s.nextId, 0);
    var s' := Next(s, RegTry);
    assert Tries(n)[1..] == Tries(n - 1);
    if n == 1 {
      assert Tries(0)[1..] == [];
    } else {
      assert s.nextId in s.descriptors;
      forall k | 0 <= k < n - 2 ensures Ahead(s'.nextId, k) in s'.descriptors {
        AheadOfBump(s.nextId, k);
      }
      AheadOfBump(s.nextId, n - 2);
      AheadOfBump(s.nextId, n - 1);
      InsertionLoop(s', n - 1);
    }
  }

  lemma SuccessfulRegister(s: State, o: Obj, n: nat)
    requires s.loop == Idle && o !in s.objects && !s.exited && n >= 1
    requires forall k | 0 <= k < n - 1 :: Ahead(s.nextId, k) in s.descriptors
    requires Ahead(s.nextId, n - 1) !in s.descriptors
    ensures var es := RegisterEvents(false, o, true, n);
            Run(s, es) && Final(s, es) == s.(readers := s.readers + 1, objects := s.objects[o := FdData(1, Data(true, false, {}), false)],
                                             descriptors := s.descriptors[Ahead(s.nextId, n - 1) := o], nextId := Ahead(s.nextId, n))
  {
    var s1 := Next(s, RecvRegister);
    var s2 := Next(s1, RegCheck);
    var s3 := Next(s2, RegBuild(o, true));
    InsertionLoop(s3, n);
    var end := Final(s3, Tries(n));
    Prepend(s2, RegBuild(o, true), s3, Tries(n), end);
    Prepend(s1, RegCheck, s2, [RegBuild(o, true)] + Tries(n), end);
    Prepend(s, RecvRegister, s1, [RegCheck] + ([RegBuild(o, true)] + Tries(n)), end);
    assert [RecvRegister] + ([RegCheck] + ([RegBuild(o, true)] + Tries(n))) == RegisterEvents(false, o, true, n);
  }
}
