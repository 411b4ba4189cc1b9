/** Types shared by the other modules (src/types.rs:4-153 and src/messages.rs:489-493) and Linux error numbers. */
module Types {
  import opened IdAllocation

  datatype Option<T> = None | Some(value: T)

  datatype LockAction = GetLockStatus | SetLockNonBlocking | SetLockBlocking

  datatype LockType = Read | Write | Unlock

  datatype LockWhence = Start | Current | End

  type I64 = x: int | -0x8000_0000_0000_0000 <= x < 0x8000_0000_0000_0000
  type I32 = x: int | -0x8000_0000 <= x < 0x8000_0000

  datatype LockParams = LockParams(kind: LockType, whence: LockWhence, start: I64, len: I64, pid: I32)

  /** A reply to a lock command, as the client sees it. */
  datatype Reply = Done(params: LockParams) | Err(errno: I32) | Pending(id: U64)

  /** The reply ends the command. */
  predicate Terminal(r: Reply) {
    !r.Pending?
  }

  const EPERM: I32 := 1
  const ENOENT: I32 := 2
  const EINTR: I32 := 4
  const EIO: I32 := 5
  const E2BIG: I32 := 7
  const EAGAIN: I32 := 11
  const ENOMEM: I32 := 12
  const EACCES: I32 := 13
  const EBUSY: I32 := 16
  const EEXIST: I32 := 17
  const EXDEV: I32 := 18
  const ENOTDIR: I32 := 20
  const EISDIR: I32 := 21
  const EINVAL: I32 := 22
  const ETXTBSY: I32 := 26
  const EFBIG: I32 := 27
  const ENOSPC: I32 := 28
  const ESPIPE: I32 := 29
  const EROFS: I32 := 30
  const EMLINK: I32 := 31
  const EPIPE: I32 := 32
  const EDEADLK: I32 := 35
  const ENAMETOOLONG: I32 := 36
  const ENOSYS: I32 := 38
  const ENOTEMPTY: I32 := 39
  const ELOOP: I32 := 40
  const EOPNOTSUPP: I32 := 95
  const EADDRINUSE: I32 := 98
  const EADDRNOTAVAIL: I32 := 99
  const ENETDOWN: I32 := 100
  const ENETUNREACH: I32 := 101
  const ECONNABORTED: I32 := 103
  const ECONNRESET: I32 := 104
  const ENOTCONN: I32 := 107
  const ETIMEDOUT: I32 := 110
  const ECONNREFUSED: I32 := 111
  const EHOSTUNREACH: I32 := 113
  const EINPROGRESS: I32 := 115
  const ESTALE: I32 := 116
  const EDQUOT: I32 := 122
}
