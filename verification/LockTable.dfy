/** Record locks of one file, after the `fcntl()` page of POSIX.1-2017 (System Interfaces), and what the
daemon's blocking command does to them (src/owner.rs:422-453).

The daemon's blocking command first tries F_SETLK and, even when that is granted and acknowledged, goes on
to F_SETLKW with the same request. This module says when the second call is harmless, whatever happens on the
file in between; `LockService` says what can happen there.
*/
module LockTable {
  import opened Types

  type Process = nat

  /** A request with whence Start, as in `LockParams`. */
  datatype Request = Request(kind: LockType, start: int, len: int)

  /** Length 0 reaches to the end of any file; a negative length counts backwards from `start`. */
  predicate Covers(q: Request, b: nat) {
    if q.len > 0 then q.start <= b < q.start + q.len
    else if q.len == 0 then q.start <= b
    else q.start + q.len <= b < q.start
  }

  /** Length 1 is the start byte, lengths add up, a negative length is the positive one that ends where it starts, and length 0 goes
      on for ever. */
  lemma CoversExtent(kind: LockType, start: int, n: int, m: int, b: nat)
    requires n > 0 && m > 0
    ensures Covers(Request(kind, start, 1), b) <==> b == start
    ensures Covers(Request(kind, start, n + m), b) <==> Covers(Request(kind, start, n), b) != Covers(Request(kind, start + n, m), b)
    ensures Covers(Request(kind, start, -n), b) <==> Covers(Request(kind, start - n, n), b)
    ensures Covers(Request(kind, start, 0), b) <==> Covers(Request(kind, start, n), b) != Covers(Request(kind, start + n, 0), b)
  {
  }

  /** Which process holds which lock on which byte; Unlock is never stored. */
  type Table = imap<(Process, nat), LockType>

  ghost predicate Stored(t: Table) {
    forall k | k in t :: t[k] != Unlock
  }

  /** Two processes never hold conflicting locks on a byte. */
  ghost predicate Compatible(t: Table) {
    forall p: Process, q: Process, b: nat | (p, b) in t && (q, b) in t && p != q :: t[(p, b)] == Read && t[(q, b)] == Read
  }

  predicate Clash(held: LockType, wanted: LockType) {
    wanted != Unlock && (held == Write || wanted == Write)
  }

  ghost predicate ClashAt(t: Table, p: Process, q: Request, o: Process, b: nat) {
    o != p && Covers(q, b) && (o, b) in t && Clash(t[(o, b)], q.kind)
  }

  /** Another process holds a lock in the way: F_SETLK fails with EAGAIN and F_SETLKW waits. */
  ghost predicate Blocked(t: Table, p: Process, q: Request) {
    exists o: Process, b: nat :: ClashAt(t, p, q, o, b)
  }

  /** The table after a granted request: the bytes it covers take its kind, for its process only. */
  ghost function Granted(t: Table, p: Process, q: Request): Table {
    imap k: (Process, nat) | (if k.0 == p && Covers(q, k.1) then q.kind != Unlock else k in t)
      :: if k.0 == p && Covers(q, k.1) then q.kind else t[k]
  }

  /** What happens on the file: a request made with F_SETLK, or a process closing a descriptor of the file,
      which drops all its locks on it. */
  datatype Command = SetLock(p: Process, q: Request) | CloseFile(p: Process)

  ghost function Step(t: Table, c: Command): Table {
    match c
    case SetLock(p, q) => if Blocked(t, p, q) then t else Granted(t, p, q)
    case CloseFile(p) => imap k: (Process, nat) | k in t && k.0 != p :: t[k]
  }

  ghost function Steps(t: Table, cs: seq<Command>): Table
    decreases |cs|
  {
    if cs == [] then t else Steps(Step(t, cs[0]), cs[1..])
  }

  ghost function At(t: Table, p: Process, b: nat): LockType {
    if (p, b) in t then t[(p, b)] else Unlock
  }

  lemma StepKeepsCompatible(t: Table, c: Command)
    requires Stored(t) && Compatible(t)
    ensures Stored(Step(t, c)) && Compatible(Step(t, c))
  {
    if c.SetLock? && !Blocked(t, c.p, c.q) {
      forall p: Process, q: Process, b: nat | (p, b) in Step(t, c) && (q, b) in Step(t, c) && p != q
        ensures Step(t, c)[(p, b)] == Read && Step(t, c)[(q, b)] == Read
      {
        assert !ClashAt(t, c.p, c.q, q, b) && !ClashAt(t, c.p, c.q, p, b);
      }
    }
  }

  /** The kind that the last effective command of process `p` gave to byte `b`, if any did. */
  datatype Last = Untouched | Set(kind: LockType)

  ghost function LastOwn(t: Table, cs: seq<Command>, p: Process, b: nat): Last
    decreases |cs|
  {
    if cs == [] then Untouched
    else
      var later := LastOwn(Step(t, cs[0]), cs[1..], p, b);
      if later != Untouched then later
      else if cs[0].p != p then Untouched
      else if cs[0].CloseFile? then Set(Unlock)
      else if Covers(cs[0].q, b) && !Blocked(t, p, cs[0].q) then Set(cs[0].q.kind)
      else Untouched
  }

  /** A process's own lock on a byte is what its last effective command made it: no command of another
      process changes it. */
  lemma {:induction false} OwnLockIsLastOwn(t: Table, cs: seq<Command>, p: Process, b: nat)
    requires Stored(t) && Compatible(t)
    ensures Stored(Steps(t, cs)) && Compatible(Steps(t, cs))
    ensures At(Steps(t, cs), p, b) == match LastOwn(t, cs, p, b) case Untouched => At(t, p, b) case Set(k) => k
    decreases |cs|
  {
    if cs != [] {
      StepKeepsCompatible(t, cs[0]);
      OwnLockIsLastOwn(Step(t, cs[0]), cs[1..], p, b);
    }
  }

  /** Holding exactly what it asks for, a process is not blocked and the request changes nothing. */
  lemma RepeatIsHarmless(t: Table, p: Process, q: Request)
    requires Stored(t) && Compatible(t)
    requires forall b: nat | Covers(q, b) :: At(t, p, b) == q.kind
    ensures !Blocked(t, p, q) && Granted(t, p, q) == t
  {
    forall o: Process, b: nat ensures !ClashAt(t, p, q, o, b) {
      if o != p && Covers(q, b) {
        assert At(t, p, b) == q.kind;
      }
    }
    forall k: (Process, nat) ensures (k in Granted(t, p, q) <==> k in t) && (k in t ==> Granted(t, p, q)[k] == t[k]) {
      if k.0 == p && Covers(q, k.1) {
        assert k == (p, k.1) && At(t, p, k.1) == q.kind;
      }
    }
  }

  /** The daemon's blocking command, granted at once: F_SETLK, then whatever happens on the file until the
      lock thread reaches F_SETLKW, then F_SETLKW. The second call returns without waiting and leaves the
      table as if it had never been made if and only if, for every byte of the request, no command of the
      owner process itself in between left that byte with another kind of lock. */
  lemma SecondCallHarmlessIff(t: Table, p: Process, q: Request, between: seq<Command>)
    requires Stored(t) && Compatible(t) && !Blocked(t, p, q)
    ensures var t1 := Granted(t, p, q);
            var t2 := Steps(t1, between);
            (!Blocked(t2, p, q) && Granted(t2, p, q) == t2)
            <==> (forall b: nat | Covers(q, b) :: LastOwn(t1, between, p, b) == Untouched || LastOwn(t1, between, p, b) == Set(q.kind))
  {
    var t1 := Granted(t, p, q);
    assert t1 == Step(t, SetLock(p, q));
    StepKeepsCompatible(t, SetLock(p, q));
    var t2 := Steps(t1, between);
    forall b: nat
      ensures Stored(t2) && Compatible(t2)
      ensures Covers(q, b) ==> (At(t2, p, b) == q.kind <==> LastOwn(t1, between, p, b) == Untouched || LastOwn(t1, between, p, b) == Set(q.kind))
    {
      OwnLockIsLastOwn(t1, between, p, b);
    }
    if forall b: nat | Covers(q, b) :: At(t2, p, b) == q.kind {
      OwnLockIsLastOwn(t1, between, p, 0);
      RepeatIsHarmless(t2, p, q);
    } else {
      var b: nat :| Covers(q, b) && At(t2, p, b) != q.kind;
      assert At(Granted(t2, p, q), p, b) == q.kind;
    }
  }

  /** In particular, other processes cannot make it wait or have an effect, whatever they do. */
  lemma {:induction false} OthersAreNotOwn(t: Table, cs: seq<Command>, p: Process, b: nat)
    requires forall i | 0 <= i < |cs| :: cs[i].p != p
    ensures LastOwn(t, cs, p, b) == Untouched
    decreases |cs|
  {
    if cs != [] {
      OthersAreNotOwn(Step(t, cs[0]), cs[1..], p, b);
    }
  }

  lemma SecondCallHarmlessAmongOthers(t: Table, p: Process, q: Request, between: seq<Command>)
    requires Stored(t) && Compatible(t) && !Blocked(t, p, q)
    requires forall i | 0 <= i < |between| :: between[i].p != p
    ensures var t2 := Steps(Granted(t, p, q), between); !Blocked(t2, p, q) && Granted(t2, p, q) == t2
  {
    forall b: nat ensures LastOwn(Granted(t, p, q), between, p, b) == Untouched {
      OthersAreNotOwn(Granted(t, p, q), between, p, b);
    }
    SecondCallHarmlessIff(t, p, q, between);
  }
}
