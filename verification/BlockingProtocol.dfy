/** The blocking lock between client and owner daemon (src/owner.rs:261-302, src/owner.rs:408-454 and
src/owner.rs:588-647), as a step machine over any number of concurrent calls.

Each call has a client thread, a server lock thread, a reply stream, at most one Interrupt request with
its handler thread, and at most one RemoveInterrupt request. The calls share the daemon's interrupt map
and its wrapping id counter. Any reply may be lost to a failing send, and any local system call of the
client may fail.
*/
module BlockingProtocol {
  import opened IdAllocation
  import opened Types

  type CallId = nat

  /** The server side. Started: thread tracked. Adding: F_SETLK said EAGAIN, about to take a number from the counter.
      Fetched: has a number, map not looked at. Added: in the map, Pending not sent. Probed: first reply out. Waiting: in F_SETLKW. Ending: last
      reply out. Closed: reply channel dropped. Exited: exit flag set. NoThread: rejected or not spawned. */
  datatype Server = Queued | NoThread | Started | Adding | Fetched(candidate: U64) | Added | Probed | Waiting | Ending | Closed | Exited

  datatype Result = Value(reply: Reply) | Broken | LocalFailure | UnexpectedPending | InterruptRefused

  /** The client side; `interrupted` is the local variable of that name. */
  datatype Client =
    | AwaitFirst
    | Armed(id: U64, interrupted: bool)
    | Reading(id: U64, interrupted: bool)
    | Interrupting(id: U64)
    | AwaitAck(id: U64)
    | Cleanup(id: U64, result: Result)
    | AwaitRemove(id: U64, result: Result)
    | Returned(result: Result)

  /** The Interrupt request: InFlight until the handler thread has looked the id up, Stopping while that
      thread is inside `stop` on the handle of lock thread `target`. */
  datatype Interrupt = NotSent | InFlight(id: U64) | Stopping(target: CallId) | Answered(ok: bool)

  datatype Remove = RemNotSent | RemInFlight(id: U64) | RemAnswered(ok: bool)

  datatype Call = Call(
    params: LockParams,
    client: Client,
    server: Server,
    added: Option<U64>,      // id under which the server thread put its handle in the map
    removed: bool,           // a RemoveInterrupt of this call took an entry out
    delivered: seq<Reply>,   // replies on the stream, in order
    pos: nat,                // how many of them the client has read
    closed: bool,
    interrupt: Interrupt,
    interruptsSent: nat,
    remove: Remove,
    removeTries: nat)

  datatype State = State(calls: map<CallId, Call>, interrupts: map<U64, CallId>, next: U64)

  /** Outcome of the first F_SETLK. */
  datatype Probe = Granted | Busy | Error(errno: I32)

  datatype Event =
    | Begin(c: CallId, params: LockParams)
    | ServeReject(c: CallId, sent: bool)
    | ServeNoThread(c: CallId)
    | ServeStart(c: CallId)
    | ServeMaskErr(c: CallId, errno: I32, sent: bool)
    | ServeProbe(c: CallId, probe: Probe, sent: bool)
    | ServeFetch(c: CallId)
    | ServeAdd(c: CallId)
    | ServePending(c: CallId, sent: bool)
    | ServeUnmaskErr(c: CallId, errno: I32, sent: bool)
    | ServeWait(c: CallId)
    | ServeWaited(c: CallId, reply: Reply, sent: bool)
    | ServeClose(c: CallId)
    | ServeExit(c: CallId)
    | ClientFirst(c: CallId, fails: bool)
    | ClientArm(c: CallId, fails: bool)
    | ClientRead(c: CallId, fails: bool)
    | ClientEintr(c: CallId)
    | ClientInterrupt(c: CallId, fails: bool)
    | ClientAck(c: CallId, fails: bool)
    | ClientRemove(c: CallId, fails: bool)
    | ClientRemoved(c: CallId)
    | InterruptLookup(c: CallId)
    | InterruptDone(c: CallId)
    | RemoveLookup(c: CallId)

  predicate Init(s: State) {
    s.calls == map[] && s.interrupts == map[]
  }

  /** A read returns at once: a reply is there or the other end is closed. */
  predicate ReadReady(k: Call) {
    k.pos < |k.delivered| || k.closed
  }

  predicate EnabledOn(s: State, e: Event, k: Call) {
    match e
    case Begin(_, _) => false
    case ServeReject(_, _) => k.server == Queued
    case ServeNoThread(_) => k.server == Queued
    case ServeStart(_) => k.server == Queued
    case ServeMaskErr(_, _, _) => k.server == Started
    case ServeProbe(_, _, _) => k.server == Started
    case ServeFetch(_) => k.server == Adding
    case ServeAdd(_) => k.server.Fetched?
    case ServePending(_, _) => k.server == Added && k.added.Some?
    case ServeUnmaskErr(_, _, _) => k.server == Probed
    case ServeWait(_) => k.server == Probed
    case ServeWaited(_, r, _) => k.server == Waiting && (r.Err? || r == Done(k.params))
    case ServeClose(_) => k.server == Ending
    case ServeExit(_) => k.server == Closed
    case ClientFirst(_, fails) => k.client == AwaitFirst && (fails || ReadReady(k))
    case ClientArm(_, _) => k.client.Armed?
    case ClientRead(_, fails) => k.client.Reading? && (fails || ReadReady(k))
    case ClientEintr(_) => k.client.Reading? && !k.client.interrupted
    case ClientInterrupt(_, _) => k.client.Interrupting?
    case ClientAck(_, fails) => k.client.AwaitAck? && (fails || k.interrupt.Answered?)
    case ClientRemove(_, _) => k.client.Cleanup?
    case ClientRemoved(_) => k.client.AwaitRemove? && k.remove.RemAnswered?
    case InterruptLookup(_) => k.interrupt.InFlight?
    case InterruptDone(_) => k.interrupt.Stopping? && k.interrupt.target in s.calls && s.calls[k.interrupt.target].server == Exited
    case RemoveLookup(_) => k.remove.RemInFlight?
  }

  predicate Enabled(s: State, e: Event) {
    if e.Begin? then e.c !in s.calls else e.c in s.calls && EnabledOn(s, e, s.calls[e.c])
  }

  /** The reply goes on the stream unless its send fails. */
  function Sent(k: Call, r: Reply, sent: bool): seq<Reply> {
    if sent then k.delivered + [r] else k.delivered
  }

  /** The number that the lock thread took is in use. */
  predicate Collides(s: State, k: Call) {
    k.server.Fetched? && k.server.candidate in s.interrupts
  }

  function NextServer(s: State, e: Event, k: Call): Server {
    match e
    case ServeReject(_, _) => NoThread
    case ServeNoThread(_) => NoThread
    case ServeStart(_) => Started
    case ServeMaskErr(_, _, _) => Ending
    case ServeProbe(_, p, _) => if p == Busy then Adding else Probed
    case ServeFetch(_) => Fetched(s.next)
    case ServeAdd(_) => if Collides(s, k) then Adding else Added
    case ServePending(_, _) => Probed
    case ServeUnmaskErr(_, _, _) => Ending
    case ServeWait(_) => Waiting
    case ServeWaited(_, _, _) => Ending
    case ServeClose(_) => Closed
    case ServeExit(_) => Exited
    case _ => k.server
  }

  function NextDelivered(e: Event, k: Call): seq<Reply>
    requires e.ServePending? ==> k.added.Some?
  {
    match e
    case ServeReject(_, sent) => Sent(k, Err(ENOENT), sent)
    case ServeMaskErr(_, n, sent) => Sent(k, Err(n), sent)
    case ServeProbe(_, Granted, sent) => Sent(k, Done(k.params), sent)
    case ServeProbe(_, Error(n), sent) => Sent(k, Err(n), sent)
    case ServePending(_, sent) => Sent(k, Pending(k.added.value), sent)
    case ServeUnmaskErr(_, n, sent) => Sent(k, Err(n), sent)
    case ServeWaited(_, r, sent) => Sent(k, r, sent)
    case _ => k.delivered
  }

  /** What the client makes of its first read. */
  function FirstRead(k: Call): Client
    requires ReadReady(k)
  {
    if k.pos < |k.delivered| then
      if k.delivered[k.pos].Pending? then Armed(k.delivered[k.pos].id, false) else Returned(Value(k.delivered[k.pos]))
    else Returned(Broken)
  }

  /** What the client makes of a later read. */
  function LaterRead(k: Call): Result
    requires ReadReady(k)
  {
    if k.pos < |k.delivered| then
      if k.delivered[k.pos].Pending? then UnexpectedPending else Value(k.delivered[k.pos])
    else Broken
  }

  function NextClient(s: State, e: Event, k: Call): Client
    requires EnabledOn(s, e, k)
  {
    match e
    case ClientFirst(_, fails) => if fails then Returned(LocalFailure) else FirstRead(k)
    case ClientArm(_, fails) =>
      // only a call that was not interrupted unblocks SIGUSR1, which may fail
      if fails && !k.client.interrupted then Cleanup(k.client.id, LocalFailure) else Reading(k.client.id, k.client.interrupted)
    case ClientRead(_, fails) => Cleanup(k.client.id, if fails then LocalFailure else LaterRead(k))
    case ClientEintr(_) => Interrupting(k.client.id)
    case ClientInterrupt(_, fails) => if fails then Cleanup(k.client.id, LocalFailure) else AwaitAck(k.client.id)
    case ClientAck(_, fails) =>
      if fails then Cleanup(k.client.id, LocalFailure)
      else if k.interrupt.ok then Armed(k.client.id, true)
      else Cleanup(k.client.id, InterruptRefused)
    case ClientRemove(_, fails) => if fails then Returned(k.client.result) else AwaitRemove(k.client.id, k.client.result)
    case ClientRemoved(_) => Returned(k.client.result)
    case _ => k.client
  }

  function NextInterrupt(s: State, e: Event, k: Call): Interrupt
    requires EnabledOn(s, e, k)
  {
    match e
    case ClientInterrupt(_, fails) => if fails then k.interrupt else InFlight(k.client.id)
    case InterruptLookup(_) => if k.interrupt.id in s.interrupts then Stopping(s.interrupts[k.interrupt.id]) else Answered(false)
    case InterruptDone(_) => Answered(true)
    case _ => k.interrupt
  }

  function NextRemove(s: State, e: Event, k: Call): Remove
    requires EnabledOn(s, e, k)
  {
    match e
    case ClientRemove(_, fails) => if fails then k.remove else RemInFlight(k.client.id)
    case RemoveLookup(_) => RemAnswered(k.remove.id in s.interrupts)
    case _ => k.remove
  }

  function NextCall(s: State, e: Event, k: Call): Call
    requires EnabledOn(s, e, k)
  {
    Call(
      k.params,
      NextClient(s, e, k),
      NextServer(s, e, k),
      if e.ServeAdd? && !Collides(s, k) then Some(k.server.candidate) else k.added,
      k.removed || (e.RemoveLookup? && k.remove.id in s.interrupts),
      NextDelivered(e, k),
      if (e.ClientFirst? || e.ClientRead?) && !e.fails && k.pos < |k.delivered| then k.pos + 1 else k.pos,
      k.closed || e.ServeReject? || e.ServeNoThread? || e.ServeClose?,
      NextInterrupt(s, e, k),
      if e.ClientInterrupt? && !e.fails then k.interruptsSent + 1 else k.interruptsSent,
      NextRemove(s, e, k),
      if e.ClientRemove? then k.removeTries + 1 else k.removeTries)
  }

  function Fresh(params: LockParams): Call {
    Call(params, AwaitFirst, Queued, None, false, [], 0, false, NotSent, 0, RemNotSent, 0)
  }

  function NextMap(s: State, e: Event): map<U64, CallId>
    requires Enabled(s, e)
  {
    if e.ServeAdd? && !Collides(s, s.calls[e.c]) then s.interrupts[s.calls[e.c].server.candidate := e.c]
    else if e.RemoveLookup? then s.interrupts - {s.calls[e.c].remove.id}
    else s.interrupts
  }

  function Next(s: State, e: Event): State
    requires Enabled(s, e)
  {
    State(s.calls[e.c := if e.Begin? then Fresh(e.params) else NextCall(s, e, s.calls[e.c])],
          NextMap(s, e),
          if e.ServeFetch? then Bump(s.next) else s.next)
  }

  predicate Run(s: State, es: seq<Event>)
    decreases |es|
  {
    es == [] || (Enabled(s, es[0]) && Run(Next(s, es[0]), es[1..]))
  }

  function Final(s: State, es: seq<Event>): State
    requires Run(s, es)
    decreases |es|
  {
    if es == [] then s else Final(Next(s, es[0]), es[1..])
  }

  // ----- the reply stream

  /** How many replies may be out at each server stage. */
  function MaxReplies(p: Server): nat {
    match p
    case Queued => 0 case Started => 0 case Adding => 0 case Fetched(_) => 0 case Added => 0
    case NoThread => 1 case Probed => 1 case Waiting => 1
    case Ending => 2 case Closed => 2 case Exited => 2
  }

  /** Nothing, one reply, or two, and Pending only as the first, with the id that was put in the map. */
  ghost predicate StreamSound(k: Call) {
    && |k.delivered| <= MaxReplies(k.server) && k.pos <= |k.delivered|
    && (forall i | 0 < i < |k.delivered| :: Terminal(k.delivered[i]))
    && (forall i | 0 <= i < |k.delivered| && k.delivered[i].Done? :: k.delivered[i].params == k.params)
    && (|k.delivered| > 0 && k.delivered[0].Pending? ==> k.added == Some(k.delivered[0].id))
    && (k.closed <==> k.server == NoThread || k.server == Closed || k.server == Exited)
    && (k.added.Some? ==> k.server != Queued && k.server != NoThread && k.server != Started && k.server != Adding && !k.server.Fetched?)
    && (k.server == Added ==> k.added.Some?)
  }

  /** The client has read a Pending with this id and is still in the call. */
  predicate HasId(p: Client) {
    p.Armed? || p.Reading? || p.Interrupting? || p.AwaitAck? || p.Cleanup? || p.AwaitRemove?
  }

  predicate GotPending(k: Call) {
    k.pos > 0 && |k.delivered| > 0 && k.delivered[0].Pending?
  }

  /** What a result says about the stream. */
  ghost predicate ResultSound(k: Call, r: Result) {
    match r
    case Value(v) => Terminal(v) && FirstTerminal(k.delivered) == Some(v)
    case Broken => k.closed && FirstTerminal(k.delivered) == None
    case LocalFailure => true
    case UnexpectedPending => false
    case InterruptRefused => false
  }

  function FirstTerminal(rs: seq<Reply>): Option<Reply> {
    if rs == [] then None else if Terminal(rs[0]) then Some(rs[0]) else FirstTerminal(rs[1..])
  }

  ghost predicate ClientSound(k: Call) {
    && (k.client == AwaitFirst ==> k.pos == 0)
    && (HasId(k.client) ==> GotPending(k) && k.delivered[0].id == k.client.id)
    && (HasId(k.client) && !k.client.Cleanup? && !k.client.AwaitRemove? ==> k.pos == 1)
    && (k.client.Cleanup? || k.client.AwaitRemove? || k.client.Returned? ==> ResultSound(k, k.client.result))
  }

  // ----- Interrupt and RemoveInterrupt

  /** At most one Interrupt is sent, and none before it is due. */
  ghost predicate InterruptsSound(k: Call) {
    && k.interruptsSent <= 1
    && (k.interruptsSent == 0 ==> k.interrupt == NotSent)
    && ((k.client.AwaitFirst? || k.client.Interrupting? || ((k.client.Armed? || k.client.Reading?) && !k.client.interrupted)) ==> k.interruptsSent == 0)
  }

  /** RemoveInterrupt is tried exactly once on every way out after a Pending, never otherwise, and finds
      its entry. */
  ghost predicate RemovesSound(k: Call) {
    && (k.removed <==> k.remove.RemAnswered?)
    && (k.remove.RemAnswered? ==> k.remove.ok && k.removeTries == 1)
    && (k.remove.RemInFlight? ==> GotPending(k) && k.delivered[0].id == k.remove.id && k.removeTries == 1)
    && k.removeTries == (if k.client.AwaitRemove? || (k.client.Returned? && GotPending(k)) then 1 else 0)
    && (k.client.AwaitRemove? ==> !k.remove.RemNotSent?)
  }

  /** The map holds exactly the handles that were added and not removed. */
  ghost predicate MapHolds(s: State, c: CallId) {
    c in s.calls && s.calls[c].added.Some? && !s.calls[c].removed ==>
      s.calls[c].added.value in s.interrupts && s.interrupts[s.calls[c].added.value] == c
  }

  ghost predicate MapJustified(s: State, id: U64) {
    id in s.interrupts ==>
      s.interrupts[id] in s.calls && s.calls[s.interrupts[id]].added == Some(id) && !s.calls[s.interrupts[id]].removed
  }

  /** While the client waits for the acknowledgement, its Interrupt is on its own lock thread; once
      acknowledged, that thread has exited. */
  ghost predicate AckSound(c: CallId, k: Call) {
    && (k.client.AwaitAck? ==>
          || k.interrupt == InFlight(k.client.id)
          || k.interrupt == Stopping(c)
          || (k.interrupt == Answered(true) && k.server == Exited))
    && ((k.client.Armed? || k.client.Reading?) && k.client.interrupted ==> k.server == Exited)
  }

  ghost predicate CallSound(s: State, c: CallId) {
    c in s.calls ==>
      var k := s.calls[c];
      StreamSound(k) && ClientSound(k) && InterruptsSound(k) && RemovesSound(k) && AckSound(c, k)
  }

  ghost predicate Inv(s: State) {
    && (forall c | c in s.calls :: CallSound(s, c))
    && (forall c | c in s.calls :: MapHolds(s, c))
    && (forall id | id in s.interrupts :: MapJustified(s, id))
  }

  /** Once the client knows an id, that id is in the map and leads to its own lock thread. */
  lemma OwnEntry(s: State, c: CallId)
    requires Inv(s) && c in s.calls
    requires var k := s.calls[c]; k.remove.RemInFlight? || (HasId(k.client) && !k.client.AwaitRemove?)
    ensures var k := s.calls[c];
            var id := if k.remove.RemInFlight? then k.remove.id else k.client.id;
            !k.removed && id in s.interrupts && s.interrupts[id] == c
  {
    assert CallSound(s, c) && MapHolds(s, c);
  }

  lemma StreamAfter(s: State, e: Event, k: Call)
    requires EnabledOn(s, e, k) && StreamSound(k)
    ensures StreamSound(NextCall(s, e, k))
  {
  }

  lemma {:induction false} FirstTerminalStays(rs: seq<Reply>, r: Reply)
    ensures FirstTerminal(rs).Some? ==> FirstTerminal(rs + [r]) == FirstTerminal(rs)
  {
    if rs != [] {
      assert (rs + [r])[1..] == rs[1..] + [r];
      FirstTerminalStays(rs[1..], r);
    }
  }

  lemma ResultStays(s: State, e: Event, k: Call, r: Result)
    requires EnabledOn(s, e, k) && StreamSound(k) && ResultSound(k, r)
    ensures ResultSound(NextCall(s, e, k), r)
  {
    var k' := NextCall(s, e, k);
    if k'.delivered != k.delivered {
      FirstTerminalStays(k.delivered, k'.delivered[|k.delivered|]);
      assert k'.delivered == k.delivered + [k'.delivered[|k.delivered|]];
    }
  }

  lemma ReadsAreSound(k: Call)
    requires StreamSound(k) && ReadReady(k)
    ensures k.client == AwaitFirst && k.pos == 0 && FirstRead(k).Returned? ==> ResultSound(k, FirstRead(k).result)
    ensures k.pos == 1 && k.delivered[0].Pending? ==> ResultSound(k, LaterRead(k))
  {
    if k.pos == 1 && k.delivered[0].Pending? {
      assert FirstTerminal(k.delivered) == FirstTerminal(k.delivered[1..]);
    }
  }

  predicate ReadsReply(e: Event) {
    (e.ClientFirst? || e.ClientRead?) && !e.fails
  }

  lemma ClientAfterRead(s: State, e: Event, k: Call)
    requires EnabledOn(s, e, k) && StreamSound(k) && ClientSound(k) && ReadsReply(e)
    ensures ClientSound(NextCall(s, e, k))
  {
    ReadsAreSound(k);
  }

  /** Any other event leaves what the client has read, and makes no result but a local failure. */
  lemma OtherEventsReadNothing(s: State, e: Event, c: CallId, k: Call)
    requires EnabledOn(s, e, k) && AckSound(c, k) && !ReadsReply(e)
    ensures var k' := NextCall(s, e, k);
            && k'.pos == k.pos && |k.delivered| <= |k'.delivered| && k'.delivered[..|k.delivered|] == k.delivered
            && (k'.client == AwaitFirst ==> k.client == AwaitFirst)
            && (HasId(k'.client) ==> HasId(k.client) && k'.client.id == k.client.id)
            && (HasId(k'.client) && !k'.client.Cleanup? && !k'.client.AwaitRemove? ==> !k.client.Cleanup? && !k.client.AwaitRemove?)
            && (k'.client.Cleanup? || k'.client.AwaitRemove? || k'.client.Returned? ==>
                  k'.client.result == LocalFailure || ((k.client.Cleanup? || k.client.AwaitRemove? || k.client.Returned?) && k'.client.result == k.client.result))
  {
  }

  lemma ClientAfterOther(s: State, e: Event, c: CallId, k: Call)
    requires EnabledOn(s, e, k) && StreamSound(k) && ClientSound(k) && AckSound(c, k) && !ReadsReply(e)
    ensures ClientSound(NextCall(s, e, k))
  {
    OtherEventsReadNothing(s, e, c, k);
    if k.client.Cleanup? || k.client.AwaitRemove? || k.client.Returned? {
      ResultStays(s, e, k, k.client.result);
    }
    assert GotPending(k) ==> NextCall(s, e, k).delivered[0] == k.delivered[0];
  }

  lemma InterruptsAfter(s: State, e: Event, k: Call)
    requires EnabledOn(s, e, k) && InterruptsSound(k)
    ensures InterruptsSound(NextCall(s, e, k))
  {
  }

  lemma RemovesAfter(s: State, e: Event, k: Call)
    requires EnabledOn(s, e, k) && StreamSound(k) && ClientSound(k) && RemovesSound(k)
    requires e.RemoveLookup? ==> k.remove.id in s.interrupts
    ensures RemovesSound(NextCall(s, e, k))
  {
  }

  lemma AckAfter(s: State, e: Event, c: CallId, k: Call)
    requires EnabledOn(s, e, k) && AckSound(c, k) && c in s.calls && s.calls[c] == k
    requires e.InterruptLookup? && k.client.AwaitAck? && k.interrupt == InFlight(k.client.id) ==> k.client.id in s.interrupts && s.interrupts[k.client.id] == c
    ensures AckSound(c, NextCall(s, e, k))
  {
  }

  lemma OwnCallAfter(s: State, e: Event)
    requires Inv(s) && Enabled(s, e)
    ensures CallSound(Next(s, e), e.c)
  {
    if !e.Begin? {
      var c, k := e.c, s.calls[e.c];
      assert CallSound(s, c);
      if e.RemoveLookup? || (e.InterruptLookup? && k.client.AwaitAck?) {
        OwnEntry(s, c);
      }
      StreamAfter(s, e, k);
      if ReadsReply(e) {
        ClientAfterRead(s, e, k);
      } else {
        ClientAfterOther(s, e, c, k);
      }
      InterruptsAfter(s, e, k);
      RemovesAfter(s, e, k);
      AckAfter(s, e, c, k);
    }
  }

  /** What the map invariant needs to know of the call that acts. */
  ghost predicate ActsOnOwnEntry(s: State, e: Event)
    requires Enabled(s, e)
  {
    && (e.ServeAdd? ==> s.calls[e.c].added.None? && !s.calls[e.c].removed)
    && (e.RemoveLookup? ==>
          var id := s.calls[e.c].remove.id;
          id in s.interrupts && s.interrupts[id] == e.c && s.calls[e.c].added == Some(id))
  }

  lemma ActsOnOwn(s: State, e: Event)
    requires Inv(s) && Enabled(s, e)
    ensures ActsOnOwnEntry(s, e)
  {
    if e.ServeAdd? || e.RemoveLookup? {
      assert CallSound(s, e.c);
      if e.RemoveLookup? {
        OwnEntry(s, e.c);
      }
    }
  }

  lemma MapAfter(s: State, e: Event, c: CallId)
    requires Enabled(s, e) && ActsOnOwnEntry(s, e) && MapHolds(s, c)
    ensures MapHolds(Next(s, e), c)
  {
  }

  lemma EntryAfter(s: State, e: Event, id: U64)
    requires Enabled(s, e) && ActsOnOwnEntry(s, e) && MapJustified(s, id)
    ensures MapJustified(Next(s, e), id)
  {
  }

  lemma StepKeepsInv(s: State, e: Event)
    requires Inv(s) && Enabled(s, e)
    ensures Inv(Next(s, e))
  {
    OwnCallAfter(s, e);
    ActsOnOwn(s, e);
    forall c | c in Next(s, e).calls ensures CallSound(Next(s, e), c) && MapHolds(Next(s, e), c) {
      if c != e.c {
        assert CallSound(s, c);
      }
      assert MapHolds(s, c);
      MapAfter(s, e, c);
    }
    forall id | id in Next(s, e).interrupts ensures MapJustified(Next(s, e), id) {
      assert MapJustified(s, id);
      EntryAfter(s, e, id);
    }
  }

  lemma {:induction false} RunKeepsInv(s: State, es: seq<Event>)
    requires Inv(s) && Run(s, es)
    ensures Inv(Final(s, es))
    decreases |es|
  {
    if es != [] {
      StepKeepsInv(s, es[0]);
      RunKeepsInv(Next(s, es[0]), es[1..]);
    }
  }

  // ----- what this means for every run

  /** At most one Interrupt is ever sent per call, and the handler that looks its id up while the client
      waits finds the handle of this very call's lock thread. */
  lemma InterruptFindsItsThread(s0: State, es: seq<Event>, c: CallId)
    requires Init(s0) && Run(s0, es) && c in Final(s0, es).calls
    ensures var s, k := Final(s0, es), Final(s0, es).calls[c];
            && k.interruptsSent <= 1
            && (k.client.AwaitAck? && k.interrupt.InFlight? ==>
                  k.interrupt.id in s.interrupts && s.interrupts[k.interrupt.id] == c)
            && !(k.client.AwaitAck? && k.interrupt == Answered(false))
  {
    RunKeepsInv(s0, es);
    var s := Final(s0, es);
    assert CallSound(s, c);
    if s.calls[c].client.AwaitAck? && s.calls[c].interrupt.InFlight? {
      OwnEntry(s, c);
    }
  }

  /** After an acknowledged Interrupt the lock thread has exited, so the final reply or the end of the
      stream is already there: the client's next read does not wait. */
  lemma NextReadDoesNotWait(s0: State, es: seq<Event>, c: CallId)
    requires Init(s0) && Run(s0, es) && c in Final(s0, es).calls
    requires var k := Final(s0, es).calls[c].client; (k.Armed? || k.Reading?) && k.interrupted
    ensures var k := Final(s0, es).calls[c]; k.server == Exited && k.closed && ReadReady(k)
  {
    RunKeepsInv(s0, es);
    assert CallSound(Final(s0, es), c);
  }

  /** The server sends nothing, one reply or two, Pending only first; the client never meets a second
      Pending nor a refused Interrupt; and what it returns, unless a local call failed, is the first
      terminal reply, or "connection closed" exactly when the stream ended without one. Every Done carries the
      parameters that were asked for. */
  lemma ClientReturnsFirstTerminalReply(s0: State, es: seq<Event>, c: CallId)
    requires Init(s0) && Run(s0, es) && c in Final(s0, es).calls
    ensures var k := Final(s0, es).calls[c];
            && (forall i | 0 <= i < |k.delivered| && k.delivered[i].Done? :: k.delivered[i].params == k.params)
            && |k.delivered| <= 2 && (forall i | 0 < i < |k.delivered| :: Terminal(k.delivered[i]))
            && (k.client.Returned? ==>
                  match k.client.result
                  case Value(r) => FirstTerminal(k.delivered) == Some(r)
                  case Broken => k.closed && FirstTerminal(k.delivered) == None
                  case LocalFailure => true
                  case _ => false)
  {
    RunKeepsInv(s0, es);
    assert CallSound(Final(s0, es), c);
  }

  /** Conservation: the interrupt map holds exactly the ids added and not yet removed, each under the
      call that added it. */
  lemma InterruptMapConserved(s0: State, es: seq<Event>, id: U64, c: CallId)
    requires Init(s0) && Run(s0, es)
    ensures var s := Final(s0, es);
            id in s.interrupts && s.interrupts[id] == c <==> c in s.calls && s.calls[c].added == Some(id) && !s.calls[c].removed
  {
    RunKeepsInv(s0, es);
    var s := Final(s0, es);
    if id in s.interrupts {
      assert MapJustified(s, id);
    }
    if c in s.calls {
      assert MapHolds(s, c);
    }
  }

  ghost predicate RemovedOnce(s: State, c: CallId)
    requires c in s.calls
  {
    var k := s.calls[c];
    && (k.client.Returned? ==> k.removeTries == if GotPending(k) then 1 else 0)
    && (Enabled(s, RemoveLookup(c)) ==> k.remove.id in s.interrupts && s.interrupts[k.remove.id] == c)
    && (k.remove.RemAnswered? ==> k.remove.ok && k.removed)
  }

  lemma RemovedOnceIn(s: State, c: CallId)
    requires Inv(s) && c in s.calls
    ensures RemovedOnce(s, c)
  {
    assert CallSound(s, c);
    if s.calls[c].remove.RemInFlight? {
      OwnEntry(s, c);
    }
  }

  /** Every Pending the client reads leads to exactly one RemoveInterrupt on every way out, no other call
      sends one, and when it is processed it removes the entry of this very call. */
  lemma RemovedExactlyOnce(s0: State, es: seq<Event>, c: CallId)
    requires Init(s0) && Run(s0, es) && c in Final(s0, es).calls
    ensures RemovedOnce(Final(s0, es), c)
  {
    RunKeepsInv(s0, es);
    RemovedOnceIn(Final(s0, es), c);
  }

  // ----- what a result, a reply and a signal lead to, event by event

  /** The client is on its way out, or out, with a local failure for a result. */
  predicate LocallyFailed(p: Client) {
    (p.Cleanup? || p.AwaitRemove? || p.Returned?) && p.result == LocalFailure
  }

  /** A local call of the client fails in a way that ends the call. Unblocking SIGUSR1, which may fail, is only done before an
      Interrupt. */
  predicate FailsLocally(k: Call, e: Event) {
    || ((e.ClientFirst? || e.ClientRead? || e.ClientInterrupt? || e.ClientAck?) && e.fails)
    || (e.ClientArm? && e.fails && k.client.Armed? && !k.client.interrupted)
  }

  /** Somewhere in the run a local call of `c` fails. */
  predicate SomeLocalCallFails(s: State, es: seq<Event>, c: CallId)
    requires Run(s, es)
    decreases |es|
  {
    es != [] && ((es[0].c == c && c in s.calls && FailsLocally(s.calls[c], es[0])) || SomeLocalCallFails(Next(s, es[0]), es[1..], c))
  }

  lemma LocalFailureStep(s: State, e: Event, c: CallId)
    requires Enabled(s, e) && c in s.calls
    ensures LocallyFailed(Next(s, e).calls[c].client) <==> LocallyFailed(s.calls[c].client) || (e.c == c && FailsLocally(s.calls[c], e))
  {
  }

  lemma {:induction false} LocalFailureIff(s: State, es: seq<Event>, c: CallId)
    requires Run(s, es) && c in s.calls
    ensures c in Final(s, es).calls
    ensures LocallyFailed(Final(s, es).calls[c].client) <==> LocallyFailed(s.calls[c].client) || SomeLocalCallFails(s, es, c)
    decreases |es|
  {
    if es != [] {
      LocalFailureStep(s, es[0], c);
      LocalFailureIff(Next(s, es[0]), es[1..], c);
    }
  }

  /** A call from its Begin to its return, in any run: the client returns a local failure if and only if a local call of its own failed.
      Otherwise it returns a terminal reply if and only if the stream has one, and then the first, and "connection
      closed" if and only if it has none. */
  lemma ClientResultIff(s0: State, es: seq<Event>, c: CallId, params: LockParams, call: seq<Event>)
    requires Init(s0) && Run(s0, es) && Enabled(Final(s0, es), Begin(c, params))
    requires var s := Next(Final(s0, es), Begin(c, params)); Run(s, call) && c in Final(s, call).calls && Final(s, call).calls[c].client.Returned?
    ensures var s := Next(Final(s0, es), Begin(c, params));
            var k := Final(s, call).calls[c];
            && (k.client.result == LocalFailure <==> SomeLocalCallFails(s, call, c))
            && (k.client.result != LocalFailure ==>
                  k.client.result == match FirstTerminal(k.delivered) case Some(r) => Value(r) case None => Broken)
  {
    RunKeepsInv(s0, es);
    StepKeepsInv(Final(s0, es), Begin(c, params));
    var s := Next(Final(s0, es), Begin(c, params));
    RunKeepsInv(s, call);
    LocalFailureIff(s, call, c);
    assert CallSound(Final(s, call), c);
  }

  /** How many signals the client took in its wait, how many Interrupts it tried to send, and how many went out. */
  function SignalsTaken(es: seq<Event>, c: CallId): nat {
    if es == [] then 0 else (if es[0] == ClientEintr(c) then 1 else 0) + SignalsTaken(es[1..], c)
  }

  function InterruptsTried(es: seq<Event>, c: CallId): nat {
    if es == [] then 0 else (if es[0].ClientInterrupt? && es[0].c == c then 1 else 0) + InterruptsTried(es[1..], c)
  }

  function InterruptsOut(es: seq<Event>, c: CallId): nat {
    if es == [] then 0 else (if es[0] == ClientInterrupt(c, false) then 1 else 0) + InterruptsOut(es[1..], c)
  }

  function One(b: bool): nat {
    if b then 1 else 0
  }

  lemma InterruptStep(s: State, e: Event, c: CallId)
    requires Enabled(s, e) && c in s.calls
    ensures var k, k' := s.calls[c], Next(s, e).calls[c];
            && One(e == ClientEintr(c)) + One(k.client.Interrupting?) == One(e.ClientInterrupt? && e.c == c) + One(k'.client.Interrupting?)
            && k'.interruptsSent == k.interruptsSent + One(e == ClientInterrupt(c, false))
  {
  }

  lemma {:induction false} InterruptsCounted(s: State, es: seq<Event>, c: CallId)
    requires Run(s, es) && c in s.calls
    ensures c in Final(s, es).calls
    ensures var k, k' := s.calls[c], Final(s, es).calls[c];
            && SignalsTaken(es, c) + One(k.client.Interrupting?) == InterruptsTried(es, c) + One(k'.client.Interrupting?)
            && k'.interruptsSent == k.interruptsSent + InterruptsOut(es, c)
    decreases |es|
  {
    if es != [] {
      InterruptStep(s, es[0], c);
      InterruptsCounted(Next(s, es[0]), es[1..], c);
    }
  }

  /** Every signal the client takes in its wait is turned into one Interrupt: in every run of a call as many are tried as signals were
      taken, up to the one about to be, at most one goes out, and if a signal was taken and no local call failed then,
      once the client is past sending, exactly one did. */
  lemma SignalBecomesInterrupt(s0: State, es: seq<Event>, c: CallId, params: LockParams, call: seq<Event>)
    requires Init(s0) && Run(s0, es) && Enabled(Final(s0, es), Begin(c, params)) && Run(Next(Final(s0, es), Begin(c, params)), call)
    ensures var s := Next(Final(s0, es), Begin(c, params));
            && c in Final(s, call).calls
            && SignalsTaken(call, c) == InterruptsTried(call, c) + One(Final(s, call).calls[c].client.Interrupting?)
            && InterruptsOut(call, c) <= 1
            && (SignalsTaken(call, c) > 0 && !SomeLocalCallFails(s, call, c) && !Final(s, call).calls[c].client.Interrupting? ==>
                  SignalsTaken(call, c) == 1 && InterruptsOut(call, c) == 1)
  {
    RunKeepsInv(s0, es);
    StepKeepsInv(Final(s0, es), Begin(c, params));
    var s := Next(Final(s0, es), Begin(c, params));
    RunKeepsInv(s, call);
    InterruptsCounted(s, call, c);
    assert CallSound(Final(s, call), c);
    if !SomeLocalCallFails(s, call, c) {
      TriedIsOut(s, call, c);
    }
  }

  lemma {:induction false} TriedIsOut(s: State, es: seq<Event>, c: CallId)
    requires Run(s, es) && c in s.calls && !SomeLocalCallFails(s, es, c)
    ensures InterruptsTried(es, c) == InterruptsOut(es, c)
    decreases |es|
  {
    if es != [] {
      TriedIsOut(Next(s, es[0]), es[1..], c);
    }
  }

  /** A reply is on the stream exactly if its send went through: an event of the server adds nothing, or the one reply it tries to
      send at the end, and never anything when the send fails. */
  lemma OnlySentReplies(s: State, e: Event)
    requires Enabled(s, e) && !e.Begin?
    ensures var k, k' := s.calls[e.c], Next(s, e).calls[e.c];
            && (k'.delivered == k.delivered || (|k'.delivered| == |k.delivered| + 1 && k'.delivered[..|k.delivered|] == k.delivered))
            && (k'.delivered != k.delivered ==>
                  (e.ServeReject? || e.ServeMaskErr? || e.ServeProbe? || e.ServePending? || e.ServeUnmaskErr? || e.ServeWaited?) && e.sent)
  {
  }

  /** An Interrupt goes to the thread that is entered under its id, and is refused if there is none. */
  lemma InterruptAnsweredByMap(s: State, c: CallId)
    requires Enabled(s, InterruptLookup(c))
    ensures var id, i := s.calls[c].interrupt.id, Next(s, InterruptLookup(c)).calls[c].interrupt;
            (id in s.interrupts ==> i == Stopping(s.interrupts[id])) && (id !in s.interrupts ==> i == Answered(false))
  {
  }

  /** A RemoveInterrupt is answered Ok exactly if there is an entry, which is then gone, and touches no other. */
  lemma RemoveAnsweredByMap(s: State, c: CallId, other: U64)
    requires Enabled(s, RemoveLookup(c))
    ensures var id, s' := s.calls[c].remove.id, Next(s, RemoveLookup(c));
            && (s'.calls[c].remove == RemAnswered(true) <==> id in s.interrupts) && s'.calls[c].remove.RemAnswered?
            && id !in s'.interrupts
            && (other != id && other in s.interrupts ==> other in s'.interrupts && s'.interrupts[other] == s.interrupts[other])
  {
  }

  /** A client whose Interrupt was acknowledged reads on, with signals blocked from then on; one whose Interrupt was refused gives up. */
  lemma AckDecides(s: State, c: CallId)
    requires Enabled(s, ClientAck(c, false))
    ensures Next(s, ClientAck(c, false)).calls[c].client ==
              if s.calls[c].interrupt.ok then Armed(s.calls[c].client.id, true) else Cleanup(s.calls[c].client.id, InterruptRefused)
  {
  }
}
