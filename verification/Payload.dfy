/** The payloads of requests (src/messages.rs:72-92) and replies (src/messages.rs:56-68, src/messages.rs:489-493), encoded as bincode 1
does by default: the index of the variant in 32 bits, then the fields in order, every number at fixed width and
little-endian. `Wire` asks of a codec only that decoding undoes encoding; this module shows that these do. */
module Payload {
  import opened IdAllocation
  import opened Types
  import opened Wire

  const TWO32: nat := 0x1_0000_0000

  function ActionIndex(a: LockAction): nat {
    match a case SetLockNonBlocking => 0 case SetLockBlocking => 1 case GetLockStatus => 2
  }

  function KindIndex(k: LockType): nat {
    match k case Read => 0 case Write => 1 case Unlock => 2
  }

  function WhenceIndex(w: LockWhence): nat {
    match w case Start => 0 case Current => 1 case End => 2
  }

  function ActionAt(n: nat): Option<LockAction> {
    if n == 0 then Some(SetLockNonBlocking) else if n == 1 then Some(SetLockBlocking) else if n == 2 then Some(GetLockStatus) else None
  }

  function KindAt(n: nat): Option<LockType> {
    if n == 0 then Some(Read) else if n == 1 then Some(Write) else if n == 2 then Some(Unlock) else None
  }

  function WhenceAt(n: nat): Option<LockWhence> {
    if n == 0 then Some(Start) else if n == 1 then Some(Current) else if n == 2 then Some(End) else None
  }

  /** Two's complement at 64 and 32 bits. */
  function Unsigned64(x: I64): nat {
    if x < 0 then x + TWO64 else x
  }

  function Signed64(n: nat): I64 {
    var m := n % TWO64;
    if m >= 0x8000_0000_0000_0000 then m - TWO64 else m
  }

  function Unsigned32(x: I32): nat {
    if x < 0 then x + TWO32 else x
  }

  function Signed32(n: nat): I32 {
    var m := n % TWO32;
    if m >= 0x8000_0000 then m - TWO32 else m
  }

  function EncodeParams(p: LockParams): (bs: seq<Byte>)
    ensures |bs| == 28
  {
    Encode(KindIndex(p.kind), 4) + Encode(WhenceIndex(p.whence), 4) + Encode(Unsigned64(p.start), 8)
    + Encode(Unsigned64(p.len), 8) + Encode(Unsigned32(p.pid), 4)
  }

  function ParamsOf(kind: nat, whence: nat, start: nat, len: nat, pid: nat): Option<LockParams> {
    var k, w := KindAt(kind), WhenceAt(whence);
    if k.None? || w.None? then None
    else Some(LockParams(k.value, w.value, Signed64(start), Signed64(len), Signed32(pid)))
  }

  function DecodeParams(bs: seq<Byte>): Option<LockParams> {
    if |bs| < 28 then None
    else ParamsOf(Decode(bs[0..4]), Decode(bs[4..8]), Decode(bs[8..16]), Decode(bs[16..24]), Decode(bs[24..28]))
  }

  function EncodeRaw(m: RawMessage): seq<Byte> {
    match m
    case RawPing => Encode(0, 4)
    case RawInterrupt(id) => Encode(1, 4) + Encode(id, 8)
    case RawRemoveInterrupt(id) => Encode(2, 4) + Encode(id, 8)
    case RawRegister => Encode(3, 4)
    case RawUnregister(id) => Encode(4, 4) + Encode(id, 8)
    case RawLockCommand(id, action, params) =>
      Encode(5, 4) + Encode(id, 8) + Encode(ActionIndex(action), 4) + EncodeParams(params)
  }

  /** A message with an id, from its tag, its id and what follows. */
  function WithId(tag: nat, id: U64, rest: seq<Byte>): Option<RawMessage> {
    if tag == 1 then Some(RawInterrupt(id))
    else if tag == 2 then Some(RawRemoveInterrupt(id))
    else if tag == 4 then Some(RawUnregister(id))
    else if tag == 5 && |rest| >= 4 then
      var action, params := ActionAt(Decode(rest[..4])), DecodeParams(rest[4..]);
      if action.None? || params.None? then None else Some(RawLockCommand(id, action.value, params.value))
    else None
  }

  function DecodeRaw(bs: seq<Byte>): Option<RawMessage> {
    if |bs| < 4 then None
    else
      var tag := Decode(bs[..4]);
      if tag == 0 then Some(RawPing)
      else if tag == 3 then Some(RawRegister)
      else if |bs| < 12 then None
      else WithId(tag, Decode(bs[4..12]) % TWO64, bs[12..])
  }

  lemma Pow256Of4()
    ensures Pow256(4) == TWO32
  {
    assert Pow256(2) == 256 * Pow256(1) == 0x1_0000;
    assert Pow256(4) == 256 * Pow256(3) == 256 * 256 * Pow256(2);
  }

  /** A number written at 32 or 64 bits is read back. */
  lemma NumberBack(n: nat, k: nat)
    requires (k == 4 && n < TWO32) || (k == 8 && n < TWO64)
    ensures Decode(Encode(n, k)) == n
  {
    Pow256Of4();
    Pow256Of8();
    DecodeEncode(n, k);
  }

  lemma FiveParts(a: seq<Byte>, b: seq<Byte>, c: seq<Byte>, d: seq<Byte>, e: seq<Byte>)
    requires |a| == 4 && |b| == 4 && |c| == 8 && |d| == 8 && |e| == 4
    ensures var bs := a + b + c + d + e;
            bs[0..4] == a && bs[4..8] == b && bs[8..16] == c && bs[16..24] == d && bs[24..28] == e
  {
  }

  lemma ParamsBack(p: LockParams)
    ensures ParamsOf(KindIndex(p.kind), WhenceIndex(p.whence), Unsigned64(p.start), Unsigned64(p.len), Unsigned32(p.pid)) == Some(p)
  {
  }

  lemma ParamsRoundTrip(p: LockParams)
    ensures DecodeParams(EncodeParams(p)) == Some(p)
  {
    NumberBack(KindIndex(p.kind), 4);
    NumberBack(WhenceIndex(p.whence), 4);
    NumberBack(Unsigned64(p.start), 8);
    NumberBack(Unsigned64(p.len), 8);
    NumberBack(Unsigned32(p.pid), 4);
    FiveParts(Encode(KindIndex(p.kind), 4), Encode(WhenceIndex(p.whence), 4), Encode(Unsigned64(p.start), 8),
              Encode(Unsigned64(p.len), 8), Encode(Unsigned32(p.pid), 4));
    ParamsBack(p);
  }

  /** The fields of lock parameters in the order of their declaration. */
  lemma ParamsLayout(p: LockParams)
    ensures var bs := EncodeParams(p);
            && Decode(bs[0..4]) == (match p.kind case Read => 0 case Write => 1 case Unlock => 2)
            && Decode(bs[4..8]) == (match p.whence case Start => 0 case Current => 1 case End => 2)
            && Decode(bs[8..16]) == Unsigned64(p.start) && Decode(bs[16..24]) == Unsigned64(p.len) && Decode(bs[24..28]) == Unsigned32(p.pid)
  {
    NumberBack(KindIndex(p.kind), 4);
    NumberBack(WhenceIndex(p.whence), 4);
    NumberBack(Unsigned64(p.start), 8);
    NumberBack(Unsigned64(p.len), 8);
    NumberBack(Unsigned32(p.pid), 4);
    FiveParts(Encode(KindIndex(p.kind), 4), Encode(WhenceIndex(p.whence), 4), Encode(Unsigned64(p.start), 8),
              Encode(Unsigned64(p.len), 8), Encode(Unsigned32(p.pid), 4));
  }

  lemma TagOnly(t: seq<Byte>)
    requires |t| == 4 && (Decode(t) == 0 || Decode(t) == 3)
    ensures DecodeRaw(t) == Some(if Decode(t) == 0 then RawPing else RawRegister)
  {
    assert t[..4] == t;
  }

  lemma ThreeParts(t: seq<Byte>, i: seq<Byte>, rest: seq<Byte>)
    requires |t| == 4 && |i| == 8
    ensures var bs := t + i + rest; bs[..4] == t && bs[4..12] == i && bs[12..] == rest
  {
  }

  lemma TagAndId(bs: seq<Byte>, id: U64)
    requires |bs| >= 12 && Decode(bs[4..12]) == id && Decode(bs[..4]) != 0 && Decode(bs[..4]) != 3
    ensures DecodeRaw(bs) == WithId(Decode(bs[..4]), id, bs[12..])
  {
  }

  lemma IdRoundTrip(tag: nat, id: U64, rest: seq<Byte>)
    requires 0 < tag < TWO32 && tag != 3
    ensures DecodeRaw(Encode(tag, 4) + Encode(id, 8) + rest) == WithId(tag, id, rest)
  {
    NumberBack(tag, 4);
    NumberBack(id, 8);
    ThreeParts(Encode(tag, 4), Encode(id, 8), rest);
    TagAndId(Encode(tag, 4) + Encode(id, 8) + rest, id);
  }

  lemma CommandRoundTrip(id: U64, action: LockAction, p: LockParams)
    ensures WithId(5, id, Encode(ActionIndex(action), 4) + EncodeParams(p)) == Some(RawLockCommand(id, action, p))
  {
    var v := Encode(ActionIndex(action), 4);
    var rest := v + EncodeParams(p);
    assert rest[..4] == v && rest[4..] == EncodeParams(p);
    NumberBack(ActionIndex(action), 4);
    ParamsRoundTrip(p);
  }

  lemma NoRest(a: seq<Byte>, b: seq<Byte>, c: seq<Byte>, d: seq<Byte>)
    ensures a + b + [] == a + b && a + b + c + d == a + b + (c + d)
  {
  }

  lemma RawRoundTrip(m: RawMessage)
    ensures DecodeRaw(EncodeRaw(m)) == Some(m) && |EncodeRaw(m)| <= 44
  {
    match m
    case RawPing => NumberBack(0, 4); TagOnly(Encode(0, 4));
    case RawRegister => NumberBack(3, 4); TagOnly(Encode(3, 4));
    case RawInterrupt(id) => IdRoundTrip(1, id, []); NoRest(Encode(1, 4), Encode(id, 8), [], []);
    case RawRemoveInterrupt(id) => IdRoundTrip(2, id, []); NoRest(Encode(2, 4), Encode(id, 8), [], []);
    case RawUnregister(id) => IdRoundTrip(4, id, []); NoRest(Encode(4, 4), Encode(id, 8), [], []);
    case RawLockCommand(id, action, p) =>
      var v := Encode(ActionIndex(action), 4);
      NoRest(Encode(5, 4), Encode(id, 8), v, EncodeParams(p));
      IdRoundTrip(5, id, v + EncodeParams(p));
      CommandRoundTrip(id, action, p);
  }

  /** The layout: the position of the variant in its declaration, then as many bytes as its fields take. */
  lemma RawLayout(m: RawMessage)
    ensures var bs := EncodeRaw(m);
            |bs| >= 4 &&
            match m
            case RawPing => Decode(bs[..4]) == 0 && |bs| == 4
            case RawInterrupt(_) => Decode(bs[..4]) == 1 && |bs| == 12
            case RawRemoveInterrupt(_) => Decode(bs[..4]) == 2 && |bs| == 12
            case RawRegister => Decode(bs[..4]) == 3 && |bs| == 4
            case RawUnregister(_) => Decode(bs[..4]) == 4 && |bs| == 12
            case RawLockCommand(_, action, _) =>
              && Decode(bs[..4]) == 5 && |bs| == 44
              && Decode(bs[12..16]) == match action case SetLockNonBlocking => 0 case SetLockBlocking => 1 case GetLockStatus => 2
  {
    match m
    case RawPing => NumberBack(0, 4); PrefixBack(Encode(0, 4), []);
    case RawInterrupt(id) => NumberBack(1, 4); PrefixBack(Encode(1, 4), Encode(id, 8));
    case RawRemoveInterrupt(id) => NumberBack(2, 4); PrefixBack(Encode(2, 4), Encode(id, 8));
    case RawRegister => NumberBack(3, 4); PrefixBack(Encode(3, 4), []);
    case RawUnregister(id) => NumberBack(4, 4); PrefixBack(Encode(4, 4), Encode(id, 8));
    case RawLockCommand(id, action, p) =>
      var tag, i, v := Encode(5, 4), Encode(id, 8), Encode(ActionIndex(action), 4);
      NumberBack(5, 4);
      NumberBack(ActionIndex(action), 4);
      CommandParts(tag, i, v, EncodeParams(p));
  }

  lemma PrefixBack(t: seq<Byte>, rest: seq<Byte>)
    requires |t| == 4
    ensures (t + rest)[..4] == t && t + [] == t && t[..4] == t
  {
  }

  lemma CommandParts(t: seq<Byte>, i: seq<Byte>, v: seq<Byte>, p: seq<Byte>)
    requires |t| == 4 && |i| == 8 && |v| == 4
    ensures (t + i + v + p)[..4] == t && (t + i + v + p)[12..16] == v
  {
  }

  const BINCODE: Codec := Codec(m => EncodeRaw(m), bs => DecodeRaw(bs))

  /** With this encoding requests come through as the very bytes on the socket: no assumption on the codec is left. */
  lemma BytesRoundTrip(qs: seq<(Request, Fd)>, tail: seq<Cell>, eof: bool, slack: nat)
    ensures Lawful(BINCODE)
    ensures var received := ReceiveRequests(BINCODE, Stream(RequestFrames(BINCODE, qs)) + tail, eof, slack, |qs|);
            && received.1 == tail && |received.0| == |qs|
            && forall i | 0 <= i < |qs| :: received.0[i] == Got(qs[i].0, qs[i].1)
  {
    forall m ensures BINCODE.dec(BINCODE.enc(m)) == Some(m) && |BINCODE.enc(m)| < TWO64 {
      RawRoundTrip(m);
    }
    RequestsRoundTrip(BINCODE, qs, tail, eof, slack);
  }

  // ----- replies

  /** How the item of a reply is written; `()` takes no bytes, an id eight. */
  datatype Body<!T> = Body(enc: T -> seq<Byte>, dec: seq<Byte> -> Option<T>)

  ghost predicate LawfulBody<T(!new)>(b: Body<T>) {
    forall x :: b.dec(b.enc(x)) == Some(x) && |b.enc(x)| <= 44
  }

  /** `Result<T, i32>`. */
  function EncodeAnswer<T>(b: Body<T>, a: Answer<T>): seq<Byte> {
    match a
    case Item(x) => Encode(0, 4) + b.enc(x)
    case ErrorNumber(n) => Encode(1, 4) + Encode(Unsigned32(n), 4)
  }

  function DecodeAnswer<T>(b: Body<T>, bs: seq<Byte>): Option<Answer<T>> {
    if |bs| < 4 then None
    else if Decode(bs[..4]) == 0 then
      match b.dec(bs[4..]) case None => None case Some(x) => Some(Item(x))
    else if Decode(bs[..4]) == 1 && |bs| >= 8 then Some(ErrorNumber(Signed32(Decode(bs[4..8]))))
    else None
  }

  function BincodeReplies<T>(b: Body<T>): ReplyCodec<T> {
    ReplyCodec(a => EncodeAnswer(b, a), bs => DecodeAnswer(b, bs))
  }

  lemma TagAndRest(t: seq<Byte>, rest: seq<Byte>)
    requires |t| == 4
    ensures var bs := t + rest; bs[..4] == t && bs[4..] == rest
  {
  }

  lemma ItemBack<T>(b: Body<T>, t: seq<Byte>, rest: seq<Byte>, x: T)
    requires |t| == 4 && Decode(t) == 0 && b.dec(rest) == Some(x)
    ensures DecodeAnswer(b, t + rest) == Some(Item(x))
  {
    TagAndRest(t, rest);
  }

  lemma ErrorNumberBack<T>(b: Body<T>, t: seq<Byte>, rest: seq<Byte>, n: I32)
    requires |t| == 4 && Decode(t) == 1 && |rest| == 4 && Decode(rest) == Unsigned32(n)
    ensures DecodeAnswer(b, t + rest) == Some(ErrorNumber(n))
  {
    TagAndRest(t, rest);
    assert (t + rest)[4..8] == rest;
  }

  lemma AnswerRoundTrip<T(!new)>(b: Body<T>, a: Answer<T>)
    requires LawfulBody(b)
    ensures DecodeAnswer(b, EncodeAnswer(b, a)) == Some(a) && |EncodeAnswer(b, a)| <= 48
  {
    match a
    case Item(x) =>
      NumberBack(0, 4);
      ItemBack(b, Encode(0, 4), b.enc(x), x);
    case ErrorNumber(n) =>
      NumberBack(1, 4);
      NumberBack(Unsigned32(n), 4);
      ErrorNumberBack(b, Encode(1, 4), Encode(Unsigned32(n), 4), n);
  }

  lemma RepliesLawful<T(!new)>(b: Body<T>)
    requires LawfulBody(b)
    ensures LawfulReplies(BincodeReplies(b))
  {
    forall a ensures BincodeReplies(b).dec(BincodeReplies(b).enc(a)) == Some(a) && |BincodeReplies(b).enc(a)| < TWO64 {
      AnswerRoundTrip(b, a);
    }
  }

  /** `ReplyLockCommandData`. */
  datatype LockData = PendingData(id: U64) | DoneData(params: LockParams)

  function EncodeLockData(d: LockData): seq<Byte> {
    match d
    case PendingData(id) => Encode(0, 4) + Encode(id, 8)
    case DoneData(p) => Encode(1, 4) + EncodeParams(p)
  }

  function DecodeLockData(bs: seq<Byte>): Option<LockData> {
    if |bs| < 4 then None
    else if Decode(bs[..4]) == 0 && |bs| >= 12 then Some(PendingData(Decode(bs[4..12]) % TWO64))
    else if Decode(bs[..4]) == 1 then
      match DecodeParams(bs[4..]) case None => None case Some(p) => Some(DoneData(p))
    else None
  }

  function DecodeId(bs: seq<Byte>): Option<U64> {
    if |bs| < 8 then None else Some(Decode(bs[..8]) % TWO64)
  }

  const UNIT: Body<()> := Body(u => [], bs => Some(()))
  const ID: Body<U64> := Body((id: U64) => Encode(id, 8), bs => DecodeId(bs))
  const LOCK: Body<LockData> := Body(d => EncodeLockData(d), bs => DecodeLockData(bs))

  lemma PendingBack(t: seq<Byte>, rest: seq<Byte>, id: U64)
    requires |t| == 4 && Decode(t) == 0 && |rest| == 8 && Decode(rest) == id
    ensures DecodeLockData(t + rest) == Some(PendingData(id))
  {
    TagAndRest(t, rest);
    assert (t + rest)[4..12] == rest;
  }

  lemma DoneBack(t: seq<Byte>, rest: seq<Byte>, p: LockParams)
    requires |t| == 4 && Decode(t) == 1 && DecodeParams(rest) == Some(p)
    ensures DecodeLockData(t + rest) == Some(DoneData(p))
  {
    TagAndRest(t, rest);
  }

  lemma LockDataRoundTrip(d: LockData)
    ensures DecodeLockData(EncodeLockData(d)) == Some(d)
  {
    match d
    case PendingData(id) =>
      NumberBack(0, 4);
      NumberBack(id, 8);
      PendingBack(Encode(0, 4), Encode(id, 8), id);
    case DoneData(p) =>
      NumberBack(1, 4);
      ParamsRoundTrip(p);
      DoneBack(Encode(1, 4), EncodeParams(p), p);
  }

  /** The layout of a reply to a lock command: the result's variant, then the data's, then the fields. */
  lemma AnswerLayout(a: Answer<LockData>)
    ensures var bs := EncodeAnswer(LOCK, a);
            |bs| >= 8 &&
            match a
            case ErrorNumber(n) => Decode(bs[..4]) == 1 && Decode(bs[4..8]) == Unsigned32(n) && |bs| == 8
            case Item(PendingData(id)) => Decode(bs[..4]) == 0 && Decode(bs[4..8]) == 0 && |bs| == 16
            case Item(DoneData(p)) => Decode(bs[..4]) == 0 && Decode(bs[4..8]) == 1 && |bs| == 36
  {
    NumberBack(0, 4);
    NumberBack(1, 4);
    match a
    case ErrorNumber(n) => NumberBack(Unsigned32(n), 4); TwoTags(Encode(1, 4), Encode(Unsigned32(n), 4), []);
    case Item(PendingData(id)) => TwoTags(Encode(0, 4), Encode(0, 4), Encode(id, 8));
    case Item(DoneData(p)) => TwoTags(Encode(0, 4), Encode(1, 4), EncodeParams(p));
  }

  lemma TwoTags(t: seq<Byte>, u: seq<Byte>, rest: seq<Byte>)
    requires |t| == 4 && |u| == 4
    ensures u + [] == u && (t + (u + rest))[..4] == t && (t + (u + rest))[4..8] == u
  {
  }

  lemma IdBack(bs: seq<Byte>, id: U64)
    requires |bs| == 8 && Decode(bs) == id
    ensures DecodeId(bs) == Some(id)
  {
    assert bs[..8] == bs;
  }

  lemma UnitLawful()
    ensures LawfulBody(UNIT)
  {
    forall x: () ensures UNIT.dec(UNIT.enc(x)) == Some(x) && |UNIT.enc(x)| <= 44 {
      assert x == ();
      assert UNIT.enc(x) == [];
    }
  }

  lemma IdLawful()
    ensures LawfulBody(ID)
  {
    forall id: U64 ensures ID.dec(ID.enc(id)) == Some(id) && |ID.enc(id)| <= 44 {
      NumberBack(id, 8);
      IdBack(Encode(id, 8), id);
    }
  }

  lemma LockLawful()
    ensures LawfulBody(LOCK)
  {
    forall d ensures LOCK.dec(LOCK.enc(d)) == Some(d) && |LOCK.enc(d)| <= 44 {
      LockDataRoundTrip(d);
    }
  }

  /** The replies to a lock command come through as the very bytes on the oneshot channel, open or closed. */
  lemma ReplyBytesRoundTrip(sent: seq<Sent<LockData>>, tail: seq<Cell>, eof: bool, slack: nat)
    requires forall i | 0 <= i < |sent| :: |sent[i].fds| < TWO64
    ensures LawfulReplies(BincodeReplies(LOCK)) && LawfulReplies(BincodeReplies(ID)) && LawfulReplies(BincodeReplies(UNIT))
    ensures var k := BincodeReplies(LOCK);
            var (rs, end) := ReceiveReplies(k, ReplyStream(k, sent) + tail, eof, slack, |sent|);
            end == tail && |rs| == |sent| && forall i | 0 <= i < |sent| :: rs[i] == AsRead(sent[i])
  {
    UnitLawful();
    IdLawful();
    LockLawful();
    RepliesLawful(UNIT);
    RepliesLawful(ID);
    RepliesLawful(LOCK);
    RepliesRoundTrip(BincodeReplies(LOCK), sent, tail, eof, slack);
  }
}
