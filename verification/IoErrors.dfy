/** Errors across the wire (src/owner.rs:237-259, src/messages.rs:62-67, src/messages.rs:570-575) and the retry in
`LockManager::register` (src/lib.rs:125-137). */
module IoErrors {
  import opened Types

  /** The kinds of the standard library. */
  datatype Kind =
    | NotFound | PermissionDenied | ConnectionRefused | ConnectionReset | HostUnreachable | NetworkUnreachable | ConnectionAborted
    | NotConnected | AddrInUse | AddrNotAvailable | NetworkDown | BrokenPipe | AlreadyExists | WouldBlock | NotADirectory
    | IsADirectory | DirectoryNotEmpty | ReadOnlyFilesystem | FilesystemLoop | StaleNetworkFileHandle | InvalidInput | InvalidData
    | TimedOut | WriteZero | StorageFull | NotSeekable | QuotaExceeded | FileTooLarge | ResourceBusy | ExecutableFileBusy | Deadlock
    | CrossesDevices | TooManyLinks | InvalidFilename | ArgumentListTooLong | Interrupted | Unsupported | UnexpectedEof | OutOfMemory
    | InProgress | Other | Uncategorized

  /** An `io::Error`: from the operating system, or made up with a kind. */
  datatype IoError = Os(errno: I32) | Custom(kind: Kind)

  /** `io_cvt` on an error. */
  function IoCvt(e: IoError): I32 {
    match e
    case Os(n) => n
    case Custom(k) =>
      match k
      case NotFound => ENOENT
      case PermissionDenied => EPERM
      case ConnectionRefused => ECONNREFUSED
      case ConnectionReset => ECONNRESET
      case ConnectionAborted => ECONNABORTED
      case NotConnected => ENOTCONN
      case AddrInUse => EADDRINUSE
      case AddrNotAvailable => EADDRNOTAVAIL
      case TimedOut => ETIMEDOUT
      case WouldBlock => EAGAIN
      case AlreadyExists => EEXIST
      case InvalidInput => EINVAL
      case InvalidData => EINVAL
      case Deadlock => EDEADLK
      case _ => EIO
  }

  /** The kind the standard library gives to an error number. */
  function KindOfErrno(n: I32): Kind {
    if n == ENOENT then NotFound
    else if n == EPERM || n == EACCES then PermissionDenied
    else if n == ECONNREFUSED then ConnectionRefused
    else if n == ECONNRESET then ConnectionReset
    else if n == ECONNABORTED then ConnectionAborted
    else if n == ENOTCONN then NotConnected
    else if n == EADDRINUSE then AddrInUse
    else if n == EADDRNOTAVAIL then AddrNotAvailable
    else if n == ETIMEDOUT then TimedOut
    else if n == EAGAIN then WouldBlock
    else if n == EEXIST then AlreadyExists
    else if n == EINVAL then InvalidInput
    else if n == EDEADLK then Deadlock
    else if n == EPIPE then BrokenPipe
    else if n == EBUSY then ResourceBusy
    else if n == EINTR then Interrupted
    else if n == EHOSTUNREACH then HostUnreachable
    else if n == ENETUNREACH then NetworkUnreachable
    else if n == ENETDOWN then NetworkDown
    else if n == ENOTDIR then NotADirectory
    else if n == EISDIR then IsADirectory
    else if n == ENOTEMPTY then DirectoryNotEmpty
    else if n == EROFS then ReadOnlyFilesystem
    else if n == ELOOP then FilesystemLoop
    else if n == ESTALE then StaleNetworkFileHandle
    else if n == ENOSPC then StorageFull
    else if n == ESPIPE then NotSeekable
    else if n == EDQUOT then QuotaExceeded
    else if n == EFBIG then FileTooLarge
    else if n == ETXTBSY then ExecutableFileBusy
    else if n == EXDEV then CrossesDevices
    else if n == EMLINK then TooManyLinks
    else if n == ENAMETOOLONG then InvalidFilename
    else if n == E2BIG then ArgumentListTooLong
    else if n == ENOSYS || n == EOPNOTSUPP then Unsupported
    else if n == ENOMEM then OutOfMemory
    else if n == EINPROGRESS then InProgress
    else Uncategorized
  }

  function KindOf(e: IoError): Kind {
    match e case Os(n) => KindOfErrno(n) case Custom(k) => k
  }

  /** The error the client builds from what the server sent. */
  function AsSeenByClient(e: IoError): IoError {
    Os(IoCvt(e))
  }

  /** The kinds with an error number of their own in `io_cvt`'s table, and the one that its default stands for. */
  const SURVIVING: set<Kind> := {
    NotFound, PermissionDenied, ConnectionRefused, ConnectionReset, ConnectionAborted, NotConnected, AddrInUse, AddrNotAvailable,
    TimedOut, WouldBlock, AlreadyExists, InvalidInput, Deadlock, Uncategorized}

  /** An error keeps its kind across the wire if and only if it came from the operating system or its kind is one of these; "broken
      pipe" is not. */
  lemma KindSurvivesIff(e: IoError)
    ensures KindOf(AsSeenByClient(e)) == KindOf(e) <==> e.Os? || e.kind in SURVIVING
    ensures BrokenPipe !in SURVIVING
  {
  }

  /** An error of the operating system arrives as it was; one that was made up arrives under the number of its kind if the kind
      survives, invalid data as invalid input, and anything else as EIO. */
  lemma ErrorAsSeen(e: IoError)
    ensures e.Os? ==> AsSeenByClient(e) == e
    ensures e.Custom? && e.kind in SURVIVING - {Uncategorized} ==> KindOf(AsSeenByClient(e)) == e.kind && AsSeenByClient(e) != Os(EACCES)
    ensures e == Custom(InvalidData) ==> AsSeenByClient(e) == Os(EINVAL)
    ensures e.Custom? && e.kind !in SURVIVING - {Uncategorized} && e.kind != InvalidData ==> AsSeenByClient(e) == Os(EIO)
  {
  }

  /** How one pass of `register` ends for the client: no owner was to be had, a system call of its own failed or the connection was
      gone, the server answered with an error, or the file is registered. */
  datatype Attempt = NoOwner(error: IoError) | Local(error: IoError) | Refused(error: IoError) | Registered

  /** The server closed its end without an answer. */
  const LOST := Local(Custom(BrokenPipe))

  datatype Verdict = Retry | GiveUp(error: IoError) | Succeed

  function ErrorOf(a: Attempt): IoError
    requires !a.Registered?
  {
    match a case NoOwner(e) => e case Local(e) => e case Refused(e) => AsSeenByClient(e)
  }

  /** The loop body of `register`; `alive` is the outcome of the extra ping. Without an owner there is nothing to retry. */
  function Judge(a: Attempt, alive: bool): Verdict {
    match a
    case Registered => Succeed
    case NoOwner(e) => GiveUp(e)
    case _ => if KindOf(ErrorOf(a)) == BrokenPipe && !alive then Retry else GiveUp(ErrorOf(a))
  }

  /** "owner already exited", as `acquire_exit_lock` raises it. */
  const OWNER_EXITED := Custom(BrokenPipe)

  /** What the retry sees: a broken pipe on the client's own side, or an EPIPE of the server's operating system. */
  predicate Retried(a: Attempt) {
    (a.Local? && KindOf(a.error) == BrokenPipe) || a == Refused(Os(EPIPE))
  }

  /** Registration is retried exactly for these, with a dead owner. The refusal of an owner that is exiting is meant to be retried but
      reaches the client as EIO and is given up. */
  lemma RetryIff(a: Attempt, alive: bool)
    ensures Judge(a, alive) == Retry <==> !alive && Retried(a)
    ensures Judge(a, alive) == Succeed <==> a.Registered?
    ensures forall e :: Judge(a, alive) == GiveUp(e) <==>
                          || a == NoOwner(e)
                          || (a == Local(e) && (alive || KindOf(e) != BrokenPipe))
                          || (a.Refused? && AsSeenByClient(a.error) == e && (alive || e != Os(EPIPE)))
    ensures Retried(LOST) && !Retried(Refused(OWNER_EXITED)) && Judge(Refused(OWNER_EXITED), alive) == GiveUp(Os(EIO))
  {
    if a.Refused? && a.error.Custom? {
      assert IoCvt(a.error) != EPIPE;
    }
  }

  /** The loop of `register` over a sequence of passes, each with its later ping: it ends with the first that is not a broken pipe
      with a dead owner. */
  method Register(attempts: seq<Attempt>, alive: seq<bool>) returns (verdict: Verdict, used: nat)
    requires |alive| == |attempts|
    ensures used <= |attempts|
    ensures verdict == Retry ==> used == |attempts|
    ensures verdict != Retry ==> 0 < used && verdict == Judge(attempts[used - 1], alive[used - 1])
    ensures verdict == Succeed <==> 0 < used && attempts[used - 1].Registered?
    ensures verdict.GiveUp? ==> !attempts[used - 1].Registered? && (attempts[used - 1].Refused? ==> verdict.error == AsSeenByClient(attempts[used - 1].error))
    ensures verdict.GiveUp? && !attempts[used - 1].Refused? ==> verdict.error == attempts[used - 1].error
    ensures forall i | 0 <= i < used - (if verdict == Retry then 0 else 1) :: !alive[i] && Retried(attempts[i])
  {
    used := 0;
    while used < |attempts|
      invariant used <= |attempts|
      invariant forall i | 0 <= i < used :: !alive[i] && Retried(attempts[i])
    {
      verdict := Judge(attempts[used], alive[used]);
      RetryIff(attempts[used], alive[used]);
      used := used + 1;
      if verdict != Retry {
        return;
      }
    }
    verdict := Retry;
  }
}
