/** Wire framing (src/messages.rs:74-140, src/messages.rs:580-708 and src/messages.rs:762-810).

A frame is a 16-byte header (payload length and number of descriptors, each 64 bits) and the payload; its
descriptors travel with the first byte. The receiver peeks at the header and then takes the whole frame at
once. Numbers are written little-endian here; the code uses the machine's order at both ends.
*/
module Wire {
  import opened IdAllocation
  import opened Types

  type Byte = n: nat | n < 256
  type Fd = nat

  /** One byte of a stream socket, with the descriptors pinned to it. */
  datatype Cell = Cell(value: Byte, fds: seq<Fd>)

  /** Error kinds a send or receive can end with. */
  datatype Kind = BrokenPipe | UnexpectedEof | InvalidInput | InvalidData | Interrupted | WriteZero | OtherError

  datatype Received = Wait | Failed(kind: Kind) | Message(payload: seq<Byte>, fds: seq<Fd>)

  // ----- numbers

  function Pow256(k: nat): nat {
    if k == 0 then 1 else 256 * Pow256(k - 1)
  }

  function Encode(n: nat, k: nat): (bs: seq<Byte>)
    ensures |bs| == k
    decreases k
  {
    if k == 0 then [] else [n % 256] + Encode(n / 256, k - 1)
  }

  function Decode(bs: seq<Byte>): nat {
    if bs == [] then 0 else bs[0] + 256 * Decode(bs[1..])
  }

  lemma {:induction false} DecodeEncode(n: nat, k: nat)
    requires n < Pow256(k)
    ensures Decode(Encode(n, k)) == n
    decreases k
  {
    if k > 0 {
      DecodeEncode(n / 256, k - 1);
      assert Encode(n, k)[1..] == Encode(n / 256, k - 1);
    }
  }

  lemma Pow256Of8()
    ensures Pow256(8) == TWO64
  {
    assert Pow256(4) == 256 * Pow256(3) == 256 * 256 * Pow256(2) == 0x1_0000_0000;
    assert Pow256(6) == 256 * Pow256(5) == 256 * 256 * Pow256(4);
    assert Pow256(8) == 256 * Pow256(7) == 256 * 256 * Pow256(6);
  }

  // ----- frames

  /** What a sender puts on the stream. `declared` is the header's descriptor count; the code's own sender
      declares what it attaches, a faulty peer may not. */
  datatype Frame = Frame(payload: seq<Byte>, declared: U64, fds: seq<Fd>)

  predicate Sendable(f: Frame) {
    |f.payload| < TWO64
  }

  predicate Honest(f: Frame) {
    Sendable(f) && f.declared == |f.fds|
  }

  function FrameBytes(f: Frame): (bs: seq<Byte>)
    ensures |bs| == 16 + |f.payload|
  {
    Encode(|f.payload|, 8) + Encode(f.declared, 8) + f.payload
  }

  function Pinned(bs: seq<Byte>, fds: seq<Fd>): (cs: seq<Cell>)
    ensures |cs| == |bs|
  {
    seq(|bs|, i requires 0 <= i < |bs| => Cell(bs[i], if i == 0 then fds else []))
  }

  function FrameCells(f: Frame): (cs: seq<Cell>)
    ensures |cs| == 16 + |f.payload|
  {
    Pinned(FrameBytes(f), f.fds)
  }

  function Stream(fs: seq<Frame>): seq<Cell> {
    if fs == [] then [] else FrameCells(fs[0]) + Stream(fs[1..])
  }

  function Values(cs: seq<Cell>): (bs: seq<Byte>)
    ensures |bs| == |cs|
  {
    seq(|cs|, i requires 0 <= i < |cs| => cs[i].value)
  }

  /** Descriptors pinned to a stretch of the stream, in order. */
  function Attached(cs: seq<Cell>): seq<Fd> {
    if cs == [] then [] else cs[0].fds + Attached(cs[1..])
  }

  // ----- receiving

  function Min(a: nat, b: nat): nat {
    if a <= b then a else b
  }

  /** `receive_raw_message`: the outcome and what is left of the stream. `eof` says that the peer has closed
      its end, so that nothing follows. The kernel delivers at most `declared + slack` descriptors. */
  function Receive(cs: seq<Cell>, eof: bool, slack: nat): (Received, seq<Cell>) {
    if |cs| < 16 && !eof then (Wait, cs)
    else if |cs| == 0 then (Failed(BrokenPipe), cs)
    else if |cs| < 16 then (Failed(UnexpectedEof), cs)
    else
      var n, m := Decode(Values(cs[..8])), Decode(Values(cs[8..16]));
      if |cs| < 16 + n && !eof then (Wait, cs)
      else if |cs| < 16 + n then (Failed(UnexpectedEof), [])
      else
        var all := Attached(cs[..16 + n]);
        var fds := all[..Min(|all|, m + slack)];
        (if |fds| != m then Failed(UnexpectedEof) else Message(Values(cs[16..16 + n]), fds), cs[16 + n..])
  }

  /** What a receiver makes of a frame, from the frame alone. */
  function FrameOutcome(f: Frame, slack: nat): Received {
    var fds := f.fds[..Min(|f.fds|, f.declared + slack)];
    if |fds| != f.declared then Failed(UnexpectedEof) else Message(f.payload, fds)
  }

  lemma {:induction false} AttachedNone(cs: seq<Cell>)
    requires forall i | 0 <= i < |cs| :: cs[i].fds == []
    ensures Attached(cs) == []
  {
    if cs != [] {
      AttachedNone(cs[1..]);
    }
  }

  lemma AttachedPinned(bs: seq<Byte>, fds: seq<Fd>)
    requires bs != []
    ensures Attached(Pinned(bs, fds)) == fds
  {
    AttachedNone(Pinned(bs, fds)[1..]);
  }

  lemma SliceOf(f: Frame, tail: seq<Cell>, lo: nat, hi: nat)
    requires lo <= hi <= 16 + |f.payload|
    ensures Values((FrameCells(f) + tail)[lo..hi]) == FrameBytes(f)[lo..hi]
  {
  }

  lemma BytesOf(f: Frame)
    ensures FrameBytes(f)[0..8] == Encode(|f.payload|, 8) && FrameBytes(f)[8..16] == Encode(f.declared, 8)
    ensures FrameBytes(f)[16..16 + |f.payload|] == f.payload
  {
    Parts(Encode(|f.payload|, 8), Encode(f.declared, 8), f.payload);
  }

  lemma Parts(a: seq<Byte>, b: seq<Byte>, c: seq<Byte>)
    requires |a| == 8 && |b| == 8
    ensures (a + b + c)[0..8] == a && (a + b + c)[8..16] == b && (a + b + c)[16..16 + |c|] == c
  {
  }

  lemma HeaderOf(f: Frame, tail: seq<Cell>)
    requires Sendable(f)
    ensures var cs := FrameCells(f) + tail;
            && Decode(Values(cs[..8])) == |f.payload| && Decode(Values(cs[8..16])) == f.declared
            && Values(cs[16..16 + |f.payload|]) == f.payload
  {
    var cs := FrameCells(f) + tail;
    SliceOf(f, tail, 0, 8);
    SliceOf(f, tail, 8, 16);
    SliceOf(f, tail, 16, 16 + |f.payload|);
    BytesOf(f);
    assert cs[..8] == cs[0..8];
    Pow256Of8();
    DecodeEncode(|f.payload|, 8);
    DecodeEncode(f.declared, 8);
  }

  /** A receive that meets a frame takes exactly that frame, 16 bytes and its payload, whatever follows it
      and whatever is wrong with it. */
  lemma ReceiveTakesOneFrame(f: Frame, tail: seq<Cell>, eof: bool, slack: nat)
    requires Sendable(f)
    ensures Receive(FrameCells(f) + tail, eof, slack) == (FrameOutcome(f, slack), tail)
  {
    var cs := FrameCells(f) + tail;
    HeaderOf(f, tail);
    assert cs[..16 + |f.payload|] == FrameCells(f);
    assert cs[16 + |f.payload|..] == tail;
    AttachedPinned(FrameBytes(f), f.fds);
  }

  // ----- requests

  datatype RawMessage =
    | RawPing
    | RawInterrupt(id: U64)
    | RawRemoveInterrupt(id: U64)
    | RawRegister
    | RawUnregister(id: U64)
    | RawLockCommand(id: U64, action: LockAction, params: LockParams)

  datatype Request =
    | Ping
    | Interrupt(id: U64)
    | RemoveInterrupt(id: U64)
    | Register(fd: Fd)
    | Unregister(id: U64)
    | LockCommand(id: U64, action: LockAction, params: LockParams)

  function Serialize(q: Request): (RawMessage, seq<Fd>) {
    match q
    case Ping => (RawPing, [])
    case Interrupt(id) => (RawInterrupt(id), [])
    case RemoveInterrupt(id) => (RawRemoveInterrupt(id), [])
    case Register(fd) => (RawRegister, [fd])
    case Unregister(id) => (RawUnregister(id), [])
    case LockCommand(id, action, params) => (RawLockCommand(id, action, params), [])
  }

  function Deserialize(raw: RawMessage, fds: seq<Fd>): Option<Request> {
    match raw
    case RawPing => Some(Ping)
    case RawInterrupt(id) => Some(Interrupt(id))
    case RawRemoveInterrupt(id) => Some(RemoveInterrupt(id))
    case RawRegister => if |fds| != 1 then None else Some(Register(fds[0]))
    case RawUnregister(id) => Some(Unregister(id))
    case RawLockCommand(id, action, params) => Some(LockCommand(id, action, params))
  }

  /** The payload encoding, of which only this is used: decoding undoes encoding. */
  datatype Codec = Codec(enc: RawMessage -> seq<Byte>, dec: seq<Byte> -> Option<RawMessage>)

  ghost predicate Lawful(k: Codec) {
    forall m :: k.dec(k.enc(m)) == Some(m) && |k.enc(m)| < TWO64
  }

  /** `send_request_iter_with_fds`: the reply descriptor goes in front of the request's own. */
  function RequestFrame(k: Codec, q: Request, reply: Fd): Frame {
    var (raw, fds) := Serialize(q);
    Frame(k.enc(raw), 1 + |fds|, [reply] + fds)
  }

  datatype GotRequest = NoneYet | Bad(kind: Kind) | Got(q: Request, reply: Fd)

  /** `receive_request`, from what `receive_raw_message` gave. */
  function Interpret(k: Codec, r: Received): GotRequest {
    match r
    case Wait => NoneYet
    case Failed(kind) => Bad(kind)
    case Message(payload, fds) =>
      if fds == [] then Bad(InvalidInput)
      else match k.dec(payload)
        case None => Bad(InvalidData)
        case Some(raw) =>
          match Deserialize(raw, fds[1..])
          case None => Bad(InvalidInput)
          case Some(q) => Got(q, fds[0])
  }

  /** The receiving loop's first `n` receives, and what is left of the stream. */
  function ReceiveRequests(k: Codec, cs: seq<Cell>, eof: bool, slack: nat, n: nat): (seq<GotRequest>, seq<Cell>)
    decreases n
  {
    if n == 0 then ([], cs)
    else
      var (r, rest) := Receive(cs, eof, slack);
      var (rs, end) := ReceiveRequests(k, rest, eof, slack, n - 1);
      ([Interpret(k, r)] + rs, end)
  }

  /** What a receiver makes of each of a sequence of frames alone. */
  function Outcomes(k: Codec, fs: seq<Frame>, slack: nat): (rs: seq<GotRequest>)
    ensures |rs| == |fs| && forall i | 0 <= i < |fs| :: rs[i] == Interpret(k, FrameOutcome(fs[i], slack))
  {
    if fs == [] then [] else [Interpret(k, FrameOutcome(fs[0], slack))] + Outcomes(k, fs[1..], slack)
  }

  /** Frames do not disturb one another: a receiver makes of a sequence of frames, good and bad ones in any
      order, exactly what it makes of each frame alone, and ends at the boundary behind the last. */
  lemma {:induction false} FramesAreIndependent(k: Codec, fs: seq<Frame>, tail: seq<Cell>, eof: bool, slack: nat)
    requires forall i | 0 <= i < |fs| :: Sendable(fs[i])
    ensures ReceiveRequests(k, Stream(fs) + tail, eof, slack, |fs|) == (Outcomes(k, fs, slack), tail)
    decreases |fs|
  {
    if fs == [] {
      assert Stream(fs) + tail == tail;
    } else {
      var rest := Stream(fs[1..]) + tail;
      assert Stream(fs) + tail == FrameCells(fs[0]) + rest;
      ReceiveTakesOneFrame(fs[0], rest, eof, slack);
      FramesAreIndependent(k, fs[1..], tail, eof, slack);
    }
  }

  lemma RequestFrameOutcome(k: Codec, q: Request, reply: Fd, slack: nat)
    requires Lawful(k)
    ensures Honest(RequestFrame(k, q, reply))
    ensures Interpret(k, FrameOutcome(RequestFrame(k, q, reply), slack)) == Got(q, reply)
  {
    var (raw, fds) := Serialize(q);
    var f := RequestFrame(k, q, reply);
    assert k.dec(k.enc(raw)) == Some(raw);
    assert f.fds[..Min(|f.fds|, f.declared + slack)] == f.fds;
    assert f.fds[1..] == fds;
  }

  function RequestFrames(k: Codec, qs: seq<(Request, Fd)>): (fs: seq<Frame>)
    ensures |fs| == |qs| && forall i | 0 <= i < |qs| :: fs[i] == RequestFrame(k, qs[i].0, qs[i].1)
  {
    seq(|qs|, i requires 0 <= i < |qs| => RequestFrame(k, qs[i].0, qs[i].1))
  }

  /** Any sequence of requests sent on a stream is received as the same sequence, each with its own reply
      descriptor and Register with exactly its own file descriptor. */
  lemma RequestsRoundTrip(k: Codec, qs: seq<(Request, Fd)>, tail: seq<Cell>, eof: bool, slack: nat)
    requires Lawful(k)
    ensures var received := ReceiveRequests(k, Stream(RequestFrames(k, qs)) + tail, eof, slack, |qs|);
            && received.1 == tail && |received.0| == |qs|
            && forall i | 0 <= i < |qs| :: received.0[i] == Got(qs[i].0, qs[i].1)
  {
    var fs := RequestFrames(k, qs);
    forall i | 0 <= i < |fs| ensures Sendable(fs[i]) && Interpret(k, FrameOutcome(fs[i], slack)) == Got(qs[i].0, qs[i].1) {
      RequestFrameOutcome(k, qs[i].0, qs[i].1, slack);
    }
    FramesAreIndependent(k, fs, tail, eof, slack);
  }

  /** A good request is read correctly however many faulty frames came before it. */
  lemma RequestReadAfterErrors(k: Codec, bad: seq<Frame>, q: Request, reply: Fd, tail: seq<Cell>, eof: bool, slack: nat)
    requires Lawful(k) && forall i | 0 <= i < |bad| :: Sendable(bad[i])
    ensures var received := ReceiveRequests(k, Stream(bad + [RequestFrame(k, q, reply)]) + tail, eof, slack, |bad| + 1);
            received.1 == tail && |received.0| == |bad| + 1 && received.0[|bad|] == Got(q, reply)
  {
    RequestFrameOutcome(k, q, reply, slack);
    FramesAreIndependent(k, bad + [RequestFrame(k, q, reply)], tail, eof, slack);
  }

  // ----- replies

  /** What a reply says: a result, or an error number. */
  datatype Answer<T> = Item(item: T) | ErrorNumber(errno: I32)

  datatype ReplyCodec<!T> = ReplyCodec(enc: Answer<T> -> seq<Byte>, dec: seq<Byte> -> Option<Answer<T>>)

  ghost predicate LawfulReplies<T(!new)>(k: ReplyCodec<T>) {
    forall a :: k.dec(k.enc(a)) == Some(a) && |k.enc(a)| < TWO64
  }

  /** A reply and the descriptors sent with it. */
  datatype Sent<T> = Sent(answer: Answer<T>, fds: seq<Fd>)

  function ReplyFrame<T>(k: ReplyCodec<T>, a: Sent<T>): Frame
    requires |a.fds| < TWO64
  {
    Frame(k.enc(a.answer), |a.fds|, a.fds)
  }

  datatype NextItem<T> = NoReplyYet | EndOfReplies | ReadFailed(kind: Kind) | ServerError(errno: I32) | GotReply(item: T, fds: seq<Fd>)

  /** `ReplyIterator::next`, from what `receive_raw_message` gave. */
  function NextReply<T>(k: ReplyCodec<T>, r: Received): NextItem<T> {
    match r
    case Wait => NoReplyYet
    case Failed(kind) => if kind == BrokenPipe then EndOfReplies else ReadFailed(kind)
    case Message(payload, fds) =>
      match k.dec(payload)
      case None => ReadFailed(InvalidData)
      case Some(Item(x)) => GotReply(x, fds)
      case Some(ErrorNumber(n)) => ServerError(n)
  }

  /** What the client is to read for a reply; with an error the descriptors are dropped. */
  function AsRead<T>(a: Sent<T>): NextItem<T> {
    match a.answer case Item(x) => GotReply(x, a.fds) case ErrorNumber(n) => ServerError(n)
  }

  /** The first `n` reads of a oneshot channel, and what is left of it. */
  function ReceiveReplies<T>(k: ReplyCodec<T>, cs: seq<Cell>, eof: bool, slack: nat, n: nat): (seq<NextItem<T>>, seq<Cell>)
    decreases n
  {
    if n == 0 then ([], cs)
    else
      var (r, rest) := Receive(cs, eof, slack);
      var (rs, end) := ReceiveReplies(k, rest, eof, slack, n - 1);
      ([NextReply(k, r)] + rs, end)
  }

  function ReplyStream<T>(k: ReplyCodec<T>, sent: seq<Sent<T>>): seq<Cell>
    requires forall i | 0 <= i < |sent| :: |sent[i].fds| < TWO64
  {
    if sent == [] then [] else FrameCells(ReplyFrame(k, sent[0])) + ReplyStream(k, sent[1..])
  }

  lemma ReplyRoundTrip<T(!new)>(k: ReplyCodec<T>, a: Sent<T>, tail: seq<Cell>, eof: bool, slack: nat)
    requires LawfulReplies(k) && |a.fds| < TWO64
    ensures var (r, rest) := Receive(FrameCells(ReplyFrame(k, a)) + tail, eof, slack);
            NextReply(k, r) == AsRead(a) && rest == tail
  {
    assert k.dec(k.enc(a.answer)) == Some(a.answer);
    var f := ReplyFrame(k, a);
    assert f.fds[..Min(|f.fds|, f.declared + slack)] == f.fds;
    ReceiveTakesOneFrame(f, tail, eof, slack);
  }

  /** Any sequence of replies is read as sent, results with their descriptors and error numbers as errors, whatever follows and
      whether or not the server has closed its end; and after the last one the reader waits if the channel is
      open, and finds the end if it is closed. */
  lemma {:induction false} RepliesRoundTrip<T(!new)>(k: ReplyCodec<T>, sent: seq<Sent<T>>, tail: seq<Cell>, eof: bool, slack: nat)
    requires LawfulReplies(k) && forall i | 0 <= i < |sent| :: |sent[i].fds| < TWO64
    ensures var (rs, end) := ReceiveReplies(k, ReplyStream(k, sent) + tail, eof, slack, |sent|);
            && end == tail && |rs| == |sent| && (forall i | 0 <= i < |sent| :: rs[i] == AsRead(sent[i]))
            && (tail == [] ==> NextReply(k, Receive(end, eof, slack).0) == if eof then EndOfReplies else NoReplyYet)
    decreases |sent|
  {
    if sent == [] {
      assert ReplyStream(k, sent) + tail == tail;
    } else {
      var rest := ReplyStream(k, sent[1..]) + tail;
      assert ReplyStream(k, sent) + tail == FrameCells(ReplyFrame(k, sent[0])) + rest;
      ReplyRoundTrip(k, sent[0], rest, eof, slack);
      RepliesRoundTrip(k, sent[1..], tail, eof, slack);
    }
  }

  // ----- the end of the stream

  /** Errors after which the receiving loop goes on. */
  predicate Recoverable(k: Kind) {
    k == UnexpectedEof || k == InvalidInput || k == InvalidData
  }

  /** At the end of a stream, a receive error that the loop treats as recoverable consumes nothing if and
      only if what is left is a truncated header. */
  lemma NoProgressIffTruncatedHeader(k: Codec, cs: seq<Cell>, slack: nat)
    requires var (r, _) := Receive(cs, true, slack); Interpret(k, r).Bad? && Recoverable(Interpret(k, r).kind)
    ensures Receive(cs, true, slack).1 == cs <==> 0 < |cs| < 16
  {
  }

  /** Then the loop meets the same bytes again, any number of times. */
  lemma {:induction false} TruncatedHeaderLoops(k: Codec, cs: seq<Cell>, slack: nat, n: nat)
    requires 0 < |cs| < 16
    ensures var (rs, end) := ReceiveRequests(k, cs, true, slack, n);
            end == cs && |rs| == n && forall i | 0 <= i < n :: rs[i] == Bad(UnexpectedEof)
    decreases n
  {
    if n > 0 {
      TruncatedHeaderLoops(k, cs, slack, n - 1);
    }
  }

  /** What is left of a frame of which only the first `kept` bytes were sent. */
  lemma CutFrame(cut: Frame, kept: nat, slack: nat)
    requires Sendable(cut) && kept < 16 + |cut.payload|
    ensures var tail := FrameCells(cut)[..kept];
            Receive(tail, true, slack) ==
              if kept == 0 then (Failed(BrokenPipe), tail)
              else if kept < 16 then (Failed(UnexpectedEof), tail)
              else (Failed(UnexpectedEof), [])
  {
    if 16 <= kept {
      HeaderOf(cut, []);
      assert FrameCells(cut) + [] == FrameCells(cut);
      var tail := FrameCells(cut)[..kept];
      assert tail[..8] == FrameCells(cut)[..8] && tail[8..16] == FrameCells(cut)[8..16];
    }
  }

  /** On an open stream, a frame of which only a part has arrived is waited for and none of it is taken. */
  lemma PartialFrameIsAwaited(f: Frame, arrived: nat, slack: nat)
    requires Sendable(f) && arrived < 16 + |f.payload|
    ensures Receive(FrameCells(f)[..arrived], false, slack) == (Wait, FrameCells(f)[..arrived])
  {
    if 16 <= arrived {
      HeaderOf(f, []);
      assert FrameCells(f) + [] == FrameCells(f);
      assert FrameCells(f)[..arrived][..8] == FrameCells(f)[..8];
    }
  }

  /** A stream of frames that breaks off inside a frame: every complete frame is read as if alone; a frame
      cut behind its header is one recoverable error and then the end; one cut inside its header stays. */
  lemma BrokenOffStream(k: Codec, fs: seq<Frame>, cut: Frame, kept: nat, slack: nat)
    requires (forall i | 0 <= i < |fs| :: Sendable(fs[i])) && Sendable(cut) && kept < 16 + |cut.payload|
    ensures var tail := FrameCells(cut)[..kept];
            && ReceiveRequests(k, Stream(fs) + tail, true, slack, |fs|) == (Outcomes(k, fs, slack), tail)
            && (kept == 0 ==> Receive(tail, true, slack).0 == Failed(BrokenPipe))
            && (0 < kept < 16 ==> Receive(tail, true, slack) == (Failed(UnexpectedEof), tail))
            && (16 <= kept ==> Receive(tail, true, slack) == (Failed(UnexpectedEof), []))
  {
    FramesAreIndependent(k, fs, FrameCells(cut)[..kept], true, slack);
    CutFrame(cut, kept, slack);
  }

  // ----- system calls that fail

  /** How the system calls of a receive go wrong: the peek fails, the second call fails, or the second call is cut short by a
      signal after it has taken some bytes. */
  datatype Fault = NoFault | PeekFails(errno: I32) | ReadFails(errno: I32) | ReadShort(taken: nat)

  function SyscallKind(errno: I32): Kind {
    if errno == EINTR then Interrupted else if errno == EPIPE then BrokenPipe else if errno == EINVAL then InvalidInput else OtherError
  }

  /** The second call is reached, and cut short. */
  predicate CutShort(cs: seq<Cell>, f: Fault) {
    f.ReadShort? && |cs| >= 16 && 0 < f.taken <= |cs| && f.taken < 16 + Decode(Values(cs[..8]))
  }

  function ReceiveWith(cs: seq<Cell>, eof: bool, slack: nat, f: Fault): (Received, seq<Cell>) {
    if f.PeekFails? then (Failed(SyscallKind(f.errno)), cs)
    else if f.ReadFails? && |cs| >= 16 then (Failed(SyscallKind(f.errno)), cs)
    else if CutShort(cs, f) then (Failed(UnexpectedEof), cs[f.taken..])
    else Receive(cs, eof, slack)
  }

  /** The error number with which a system call of the receive failed, if one did; the second is only made behind a whole header. */
  function FailedWith(cs: seq<Cell>, f: Fault): Option<I32> {
    match f
    case PeekFails(n) => Some(n)
    case ReadFails(n) => if |cs| >= 16 then Some(n) else None
    case _ => None
  }

  /** A failed system call takes nothing from the stream and is passed on by its kind: EINTR, and nothing else, as an interruption,
      EPIPE as a broken pipe, EINVAL as invalid input. Without one, a broken pipe means an empty stream that is closed,
      and an interruption never comes. */
  lemma FailuresPassedOn(cs: seq<Cell>, eof: bool, slack: nat, f: Fault)
    ensures var (r, rest) := ReceiveWith(cs, eof, slack, f);
            var n := FailedWith(cs, f);
            && (n.Some? ==> rest == cs && r.Failed?)
            && (r == Failed(Interrupted) <==> n == Some(EINTR))
            && (r == Failed(BrokenPipe) <==> n == Some(EPIPE) || (n.None? && cs == [] && eof))
            && (r == Failed(InvalidInput) <==> n == Some(EINVAL))
            && (r == Failed(OtherError) <==> n.Some? && n.value != EINTR && n.value != EPIPE && n.value != EINVAL)
            && r != Failed(WriteZero) && r != Failed(InvalidData)
  {
  }

  /** At a frame, a failing system call takes nothing, and a receive leaves the stream at a boundary, in front of the frame or
      behind it, if and only if its second call was not cut short. */
  lemma BoundaryKeptIff(f: Frame, tail: seq<Cell>, eof: bool, slack: nat, fault: Fault)
    requires Sendable(f)
    ensures var cs := FrameCells(f) + tail;
            var rest := ReceiveWith(cs, eof, slack, fault).1;
            && (fault.PeekFails? || fault.ReadFails? ==> rest == cs)
            && (|rest| == |cs| || |rest| == |tail| <==> !CutShort(cs, fault))
            && (!CutShort(cs, fault) ==> rest == cs || rest == tail)
  {
    HeaderOf(f, tail);
    ReceiveTakesOneFrame(f, tail, eof, slack);
  }

  /** The receiving loop's receives, one for each of the given faults. */
  function ReceiveThrough(k: Codec, cs: seq<Cell>, eof: bool, slack: nat, faults: seq<Fault>): (seq<GotRequest>, seq<Cell>)
    decreases |faults|
  {
    if faults == [] then ([], cs)
    else
      var (r, rest) := ReceiveWith(cs, eof, slack, faults[0]);
      var (rs, end) := ReceiveThrough(k, rest, eof, slack, faults[1..]);
      ([Interpret(k, r)] + rs, end)
  }

  lemma {:induction false} WithoutFaults(k: Codec, cs: seq<Cell>, eof: bool, slack: nat, faults: seq<Fault>)
    requires forall i | 0 <= i < |faults| :: faults[i] == NoFault
    ensures ReceiveThrough(k, cs, eof, slack, faults) == ReceiveRequests(k, cs, eof, slack, |faults|)
    decreases |faults|
  {
    if faults != [] {
      WithoutFaults(k, Receive(cs, eof, slack).1, eof, slack, faults[1..]);
    }
  }

  /** How the receiving loop stands: it waits for more, the connection is terminated, or it died of an error. */
  datatype LoopEnd = StillOpen | Terminated | Died(kind: Kind)

  /** The receive after which the loop goes on. */
  predicate GoesOn(r: GotRequest) {
    r.Got? || (r.Bad? && Recoverable(r.kind))
  }

  function EndFor(r: GotRequest): LoopEnd {
    match r
    case Bad(kind) => if kind == BrokenPipe then Terminated else Died(kind)
    case _ => StillOpen
  }

  // ----- the socket as the code uses it

  datatype SendOutcome = SentAll | SendFails(errno: I32) | SentShort(taken: nat)

  class Socket {
    var cells: seq<Cell>
    var eof: bool

    constructor ()
      ensures cells == [] && !eof
    {
      cells, eof := [], false;
    }

    /** `sendmsg`: all of it, an error, or only the first bytes. */
    method SendMsg(iov: seq<Byte>, fds: seq<Fd>, outcome: SendOutcome) returns (r: Option<nat>)
      modifies this`cells
      ensures r == if outcome.SendFails? then None else if outcome.SentShort? && outcome.taken < |iov| then Some(outcome.taken) else Some(|iov|)
      ensures cells == old(cells) + Pinned(iov, fds)[..if r.Some? then r.value else 0]
    {
      if outcome.SendFails? {
        return None;
      }
      var n := if outcome.SentShort? && outcome.taken < |iov| then outcome.taken else |iov|;
      cells := cells + Pinned(iov, fds)[..n];
      return Some(n);
    }

    /** `send_raw_message`: header, payload and descriptors in one `sendmsg`. It succeeds exactly if the whole frame is on the stream;
        an error leaves the stream as it was, a short send leaves a frame that breaks off. */
    method SendRawMessage(payload: seq<Byte>, fds: seq<Fd>, outcome: SendOutcome) returns (failure: Option<Kind>)
      requires |payload| < TWO64 && |fds| < TWO64
      modifies this`cells
      ensures failure == None ==> cells == old(cells) + FrameCells(Frame(payload, |fds|, fds))
      ensures failure == None <==> outcome.SentAll? || (outcome.SentShort? && outcome.taken >= 16 + |payload|)
      ensures outcome.SendFails? ==> failure == Some(SyscallKind(outcome.errno)) && cells == old(cells)
      ensures outcome.SentShort? && outcome.taken < 16 + |payload| ==>
                failure == Some(WriteZero) && cells == old(cells) + FrameCells(Frame(payload, |fds|, fds))[..outcome.taken]
    {
      var iov := Encode(|payload|, 8) + Encode(|fds|, 8) + payload;
      var sent := SendMsg(iov, fds, outcome);
      if sent.None? {
        return Some(SyscallKind(outcome.errno));
      }
      if sent.value != |iov| {
        return Some(WriteZero);
      }
      assert Pinned(iov, fds)[..|iov|] == Pinned(iov, fds);
      return None;
    }

    /** `recvmsg` with WAITALL, on a stream that has enough bytes or is at its end. */
    method RecvMsg(want: nat, room: nat, peek: bool) returns (bytes: seq<Byte>, fds: seq<Fd>)
      requires want <= |cells| || eof
      modifies this`cells
      ensures var n := Min(want, |old(cells)|);
              && bytes == Values(old(cells)[..n])
              && fds == Attached(old(cells)[..n])[..Min(|Attached(old(cells)[..n])|, room)]
              && cells == if peek then old(cells) else old(cells)[n..]
    {
      var n := Min(want, |cells|);
      var got := cells[..n];
      bytes := Values(got);
      fds := [];
      var i := 0;
      while i < n
        invariant 0 <= i <= n
        invariant fds + Attached(got[i..]) == Attached(got)
      {
        assert got[i..][1..] == got[i + 1..];
        fds := fds + got[i].fds;
        i := i + 1;
      }
      assert got[n..] == [];
      fds := fds[..Min(|fds|, room)];
      if !peek {
        cells := cells[n..];
      }
    }

    /** `receive_raw_message`, over every outcome of its two system calls. */
    method ReceiveRawMessage(slack: nat, fault: Fault) returns (r: Received)
      modifies this`cells
      ensures (r, cells) == ReceiveWith(old(cells), eof, slack, fault)
      ensures r == Failed(Interrupted) <==> FailedWith(old(cells), fault) == Some(EINTR)
      ensures r == Failed(BrokenPipe) ==> FailedWith(old(cells), fault) == Some(EPIPE) || (old(cells) == [] && eof)
      ensures FailedWith(old(cells), fault).Some? ==> r.Failed? && cells == old(cells)
    {
      FailuresPassedOn(cells, eof, slack, fault);
      if fault.PeekFails? {
        return Failed(SyscallKind(fault.errno));
      }
      if |cells| < 16 && !eof {
        return Wait;
      }
      var header, _ := RecvMsg(16, 0, true);
      if |header| == 0 {
        return Failed(BrokenPipe);
      }
      if |header| != 16 {
        return Failed(UnexpectedEof);
      }
      assert header[..8] == Values(cells[..8]) && header[8..] == Values(cells[8..16]);
      var bytesToReceive, fdsToReceive := Decode(header[..8]), Decode(header[8..]);
      if fault.ReadFails? {
        return Failed(SyscallKind(fault.errno));
      }
      if fault.ReadShort? && 0 < fault.taken <= |cells| && fault.taken < 16 + bytesToReceive {
        cells := cells[fault.taken..];
        return Failed(UnexpectedEof);
      }
      if |cells| < 16 + bytesToReceive && !eof {
        return Wait;
      }
      ghost var before := cells;
      var whole, rights := RecvMsg(16 + bytesToReceive, fdsToReceive + slack, false);
      if |whole| != 16 + bytesToReceive {
        return Failed(UnexpectedEof);
      }
      assert whole[16..] == Values(before[16..16 + bytesToReceive]);
      var fds := [];
      for i := 0 to |rights|
        invariant fds == rights[..i]
      {
        fds := fds + [rights[i]];
      }
      assert fds == rights;
      if |fds| != fdsToReceive {
        return Failed(UnexpectedEof);
      }
      return Message(whole[16..], fds);
    }

    /** `receive_request`. */
    method ReceiveRequest(k: Codec, slack: nat, fault: Fault) returns (r: GotRequest)
      modifies this`cells
      ensures var (raw, rest) := ReceiveWith(old(cells), eof, slack, fault);
              && r == Interpret(k, raw) && cells == rest
              && (r.NoneYet? <==> raw.Wait?) && (forall kind :: raw == Failed(kind) ==> r == Bad(kind))
              && (raw.Message? && raw.fds == [] ==> r == Bad(InvalidInput))
              && (raw.Message? && raw.fds != [] && k.dec(raw.payload) == None ==> r == Bad(InvalidData))
              && (raw.Message? && raw.fds != [] && k.dec(raw.payload) == Some(RawRegister) && |raw.fds| != 2 ==> r == Bad(InvalidInput))
    {
      var raw := ReceiveRawMessage(slack, fault);
      match raw {
        case Wait => return NoneYet;
        case Failed(kind) => return Bad(kind);
        case Message(buffer, fds) =>
          if fds == [] {
            return Bad(InvalidInput);
          }
          var payload := k.dec(buffer);
          if payload == None {
            return Bad(InvalidData);
          }
          var message := Deserialize(payload.value, fds[1..]);
          return if message == None then Bad(InvalidInput) else Got(message.value, fds[0]);
      }
    }

    /** `ReplyIterator::next`. */
    method ReadReply<T>(k: ReplyCodec<T>, slack: nat, fault: Fault) returns (r: NextItem<T>)
      modifies this`cells
      ensures var (raw, rest) := ReceiveWith(old(cells), eof, slack, fault);
              && r == NextReply(k, raw) && cells == rest
              && (forall kind :: r == ReadFailed(kind) && kind != InvalidData ==> raw == Failed(kind))
              && (raw.Message? && k.dec(raw.payload) == None <==> r == ReadFailed(InvalidData))
              && (forall n: I32 :: r == ServerError(n) <==> raw.Message? && k.dec(raw.payload) == Some(ErrorNumber(n)))
      ensures r == EndOfReplies <==>
                FailedWith(old(cells), fault) == Some(EPIPE) || (FailedWith(old(cells), fault).None? && old(cells) == [] && eof)
      ensures r == ReadFailed(Interrupted) <==> FailedWith(old(cells), fault) == Some(EINTR)
      ensures fault == PeekFails(EINTR) ==> r == ReadFailed(Interrupted) && cells == old(cells)
    {
      FailuresPassedOn(cells, eof, slack, fault);
      var raw := ReceiveRawMessage(slack, fault);
      match raw {
        case Wait => return NoReplyYet;
        case Failed(kind) =>
          if kind == BrokenPipe {
            return EndOfReplies;
          }
          return ReadFailed(kind);
        case Message(buffer, fds) =>
          match k.dec(buffer) {
            case Some(Item(item)) => return GotReply(item, fds);
            case Some(ErrorNumber(n)) => return ServerError(n);
            case None => return ReadFailed(InvalidData);
          }
      }
    }

    /** The part of the receiving loop that reads requests, for one round per given fault: it goes on after a recoverable error,
        stops when it has to wait, and ends at the end of the connection or with any other error. */
    method ReadRequests(k: Codec, slack: nat, faults: seq<Fault>) returns (log: seq<GotRequest>, end: LoopEnd)
      modifies this`cells
      ensures |log| <= |faults|
      ensures forall i | 0 <= i < |log| :: log[i].Got? || log[i] in {Bad(UnexpectedEof), Bad(InvalidInput), Bad(InvalidData)}
      ensures (log, cells) == ReceiveThrough(k, old(cells), eof, slack, faults[..|log|])
      ensures |log| == |faults| ==> end == StillOpen
      ensures |log| < |faults| ==>
                var r := Interpret(k, ReceiveWith(cells, eof, slack, faults[|log|]).0);
                && !r.Got? && r !in {Bad(UnexpectedEof), Bad(InvalidInput), Bad(InvalidData)}
                && (end == StillOpen <==> r == NoneYet) && (end == Terminated <==> r == Bad(BrokenPipe))
                && (forall kind :: end == Died(kind) <==> r == Bad(kind) && kind != BrokenPipe)
      ensures end == Died(Interrupted) <==> |log| < |faults| && FailedWith(cells, faults[|log|]) == Some(EINTR)
      ensures end == Terminated ==>
                |log| < |faults| && (FailedWith(cells, faults[|log|]) == Some(EPIPE) || (cells == [] && eof))
    {
      log, end := [], StillOpen;
      ghost var start := cells;
      while |log| < |faults|
        invariant |log| <= |faults| && end == StillOpen && forall i | 0 <= i < |log| :: GoesOn(log[i])
        invariant (log, cells) == ReceiveThrough(k, start, eof, slack, faults[..|log|])
        decreases |faults| - |log|
      {
        ghost var before := cells;
        var r := ReceiveRequest(k, slack, faults[|log|]);
        if r == NoneYet || (r.Bad? && !Recoverable(r.kind)) {
          FatalTakesNothing(k, before, eof, slack, faults[|log|]);
          FailuresPassedOn(before, eof, slack, faults[|log|]);
          return log, EndFor(r);
        }
        ReceiveOneMore(k, start, eof, slack, faults[..|log|], faults[|log|]);
        assert faults[..|log|] + [faults[|log|]] == faults[..|log| + 1];
        log := log + [r];
      }
      assert faults[..|log|] == faults;
    }
  }

  lemma FatalTakesNothing(k: Codec, cs: seq<Cell>, eof: bool, slack: nat, f: Fault)
    requires !GoesOn(Interpret(k, ReceiveWith(cs, eof, slack, f).0))
    ensures ReceiveWith(cs, eof, slack, f).1 == cs
  {
  }

  lemma {:induction false} ReceiveOneMore(k: Codec, cs: seq<Cell>, eof: bool, slack: nat, faults: seq<Fault>, f: Fault)
    ensures var (rs, rest) := ReceiveThrough(k, cs, eof, slack, faults);
            var (r, rest') := ReceiveWith(rest, eof, slack, f);
            ReceiveThrough(k, cs, eof, slack, faults + [f]) == (rs + [Interpret(k, r)], rest')
    decreases |faults|
  {
    if faults == [] {
      var (r, rest) := ReceiveWith(cs, eof, slack, f);
      assert [f][1..] == [] && faults + [f] == [f];
      assert ReceiveThrough(k, rest, eof, slack, []) == ([], rest);
      assert [Interpret(k, r)] + [] == [] + [Interpret(k, r)];
    } else {
      var (r0, rest0) := ReceiveWith(cs, eof, slack, faults[0]);
      assert (faults + [f])[1..] == faults[1..] + [f];
      ReceiveOneMore(k, rest0, eof, slack, faults[1..], f);
      var (rs, rest) := ReceiveThrough(k, rest0, eof, slack, faults[1..]);
      var (r, _) := ReceiveWith(rest, eof, slack, f);
      assert [Interpret(k, r0)] + (rs + [Interpret(k, r)]) == [Interpret(k, r0)] + rs + [Interpret(k, r)];
    }
  }
}
