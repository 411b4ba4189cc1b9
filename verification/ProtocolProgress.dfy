/** The interrupt handshake always gets through (src/owner.rs:588-647 with src/owner.rs:261-302): once a waiting client has
taken its signal, the steps of its own call alone, at most seventeen of them, bring it to its return, whatever
other calls are in the middle of. That a lock thread inside F_SETLKW is in fact interrupted is shown in StopProgress. */
module ProtocolProgress {
  import opened IdAllocation
  import opened Types
  import opened BlockingProtocol

  /** The client has taken its signal, or has its result. */
  predicate Leaving(p: Client) {
    p.Interrupting? || p.AwaitAck? || ((p.Armed? || p.Reading?) && p.interrupted) || p.Cleanup? || p.AwaitRemove? || p.Returned?
  }

  function ClientRank(p: Client): nat {
    match p
    case Interrupting(_) => 7 case AwaitAck(_) => 6 case Armed(_, _) => 5 case Reading(_, _) => 4
    case Cleanup(_, _) => 3 case AwaitRemove(_, _) => 2 case Returned(_) => 0 case AwaitFirst => 0
  }

  function ServerRank(p: Server): nat {
    match p
    case Probed => 4 case Waiting => 3 case Ending => 2 case Closed => 1 case Exited => 0 case _ => 5
  }

  function InterruptRank(i: Interrupt): nat {
    match i case NotSent => 3 case InFlight(_) => 2 case Stopping(_) => 1 case Answered(_) => 0
  }

  function RemoveRank(r: Remove): nat {
    match r case RemNotSent => 2 case RemInFlight(_) => 1 case RemAnswered(_) => 0
  }

  function Measure(k: Call): (m: nat)
    ensures m <= 17
  {
    ClientRank(k.client) + ServerRank(k.server) + InterruptRank(k.interrupt) + RemoveRank(k.remove)
  }

  ghost predicate Helps(s: State, c: CallId, e: Event) {
    && c in s.calls && e.c == c && Enabled(s, e) && c in Next(s, e).calls
    && Leaving(Next(s, e).calls[c].client) && Measure(Next(s, e).calls[c]) < Measure(s.calls[c])
  }

  /** The next step of a lock thread that has sent its first reply. */
  lemma ServerStep(s: State, c: CallId) returns (e: Event)
    requires c in s.calls && Leaving(s.calls[c].client)
    requires var p := s.calls[c].server; p == Probed || p == Waiting || p == Ending || p == Closed
    ensures Helps(s, c, e)
  {
    match s.calls[c].server
    case Probed => e := ServeWait(c);
    case Waiting => e := ServeWaited(c, Err(EINTR), true);
    case Ending => e := ServeClose(c);
    case Closed => e := ServeExit(c);
  }

  lemma InterruptHelps(s: State, c: CallId)
    requires c in s.calls && s.calls[c].client.Interrupting? && s.calls[c].interrupt == NotSent
    ensures Helps(s, c, ClientInterrupt(c, false))
  {
  }

  lemma LookupHelps(s: State, c: CallId)
    requires c in s.calls && s.calls[c].client.AwaitAck? && s.calls[c].interrupt.InFlight?
    ensures Helps(s, c, InterruptLookup(c))
  {
  }

  lemma AckHelps(s: State, c: CallId, e: Event)
    requires c in s.calls && s.calls[c].client.AwaitAck? && (e == InterruptDone(c) || e == ClientAck(c, false))
    requires s.calls[c].interrupt == if e.ClientAck? then Answered(true) else Stopping(c)
    requires s.calls[c].server == Exited
    ensures Helps(s, c, e)
  {
  }

  lemma AckStep(s: State, c: CallId) returns (e: Event)
    requires c in s.calls && s.calls[c].client.AwaitAck?
    requires var k := s.calls[c]; StreamSound(k) && ClientSound(k) && AckSound(c, k)
    ensures Helps(s, c, e)
  {
    var k := s.calls[c];
    if k.interrupt.InFlight? {
      e := InterruptLookup(c);
      LookupHelps(s, c);
    } else if k.server == Exited {
      e := if k.interrupt.Answered? then ClientAck(c, false) else InterruptDone(c);
      AckHelps(s, c, e);
    } else {
      e := ServerStep(s, c);
    }
  }

  lemma ReadHelps(s: State, c: CallId, e: Event)
    requires c in s.calls && (s.calls[c].client.Armed? || s.calls[c].client.Reading?) && s.calls[c].client.interrupted
    requires s.calls[c].closed
    requires e == if s.calls[c].client.Armed? then ClientArm(c, false) else ClientRead(c, false)
    ensures Helps(s, c, e)
  {
  }

  lemma RemoveHelps(s: State, c: CallId, e: Event)
    requires c in s.calls && (s.calls[c].client.Cleanup? || s.calls[c].client.AwaitRemove?)
    requires s.calls[c].client.Cleanup? ==> s.calls[c].remove == RemNotSent && e == ClientRemove(c, false)
    requires s.calls[c].client.AwaitRemove? ==> !s.calls[c].remove.RemNotSent? && e == if s.calls[c].remove.RemInFlight? then RemoveLookup(c) else ClientRemoved(c)
    ensures Helps(s, c, e)
  {
  }

  lemma HelpfulStep(s: State, c: CallId) returns (e: Event)
    requires Inv(s) && c in s.calls && Leaving(s.calls[c].client) && !s.calls[c].client.Returned?
    ensures Helps(s, c, e)
  {
    assert CallSound(s, c);
    var k := s.calls[c];
    if k.client.Interrupting? {
      e := ClientInterrupt(c, false);
      InterruptHelps(s, c);
    } else if k.client.AwaitAck? {
      e := AckStep(s, c);
    } else if k.client.Armed? || k.client.Reading? {
      e := if k.client.Armed? then ClientArm(c, false) else ClientRead(c, false);
      ReadHelps(s, c, e);
    } else {
      e := if k.client.Cleanup? then ClientRemove(c, false) else if k.remove.RemInFlight? then RemoveLookup(c) else ClientRemoved(c);
      RemoveHelps(s, c, e);
    }
  }

  /** One helpful step, with the state it leads to. */
  lemma Advance(s: State, c: CallId) returns (e: Event, t: State)
    requires Inv(s) && c in s.calls && Leaving(s.calls[c].client) && !s.calls[c].client.Returned?
    ensures e.c == c && Enabled(s, e) && t == Next(s, e) && Inv(t)
    ensures c in t.calls && Leaving(t.calls[c].client) && Measure(t.calls[c]) < Measure(s.calls[c])
  {
    e := HelpfulStep(s, c);
    t := Next(s, e);
    StepKeepsInv(s, e);
  }

  ghost predicate Returns(s: State, c: CallId, es: seq<Event>) {
    && Run(s, es) && (forall i | 0 <= i < |es| :: es[i].c == c)
    && c in Final(s, es).calls && Final(s, es).calls[c].client.Returned?
  }

  lemma PrependStep(s: State, c: CallId, e: Event, rest: seq<Event>)
    requires Enabled(s, e) && e.c == c && Returns(Next(s, e), c, rest)
    ensures Returns(s, c, [e] + rest)
  {
    assert ([e] + rest)[1..] == rest;
  }

  lemma {:induction false} CanReturn(s: State, c: CallId) returns (es: seq<Event>)
    requires Inv(s) && c in s.calls && Leaving(s.calls[c].client)
    ensures Returns(s, c, es) && |es| <= Measure(s.calls[c])
    decreases Measure(s.calls[c])
  {
    if s.calls[c].client.Returned? {
      return [];
    }
    var e, t := Advance(s, c);
    var rest := CanReturn(t, c);
    es := [e] + rest;
    PrependStep(s, c, e, rest);
  }

  /** In every reachable state, a client that was interrupted in its wait can be brought to its return by at most
      seventeen steps of its own call, with no other call moving. */
  lemma InterruptedCallCanReturn(s0: State, es: seq<Event>, c: CallId) returns (more: seq<Event>)
    requires Init(s0) && Run(s0, es) && c in Final(s0, es).calls && Leaving(Final(s0, es).calls[c].client)
    ensures Returns(Final(s0, es), c, more) && |more| <= 17
  {
    RunKeepsInv(s0, es);
    more := CanReturn(Final(s0, es), c);
  }

  // ----- and in every run

  function OwnSteps(es: seq<Event>, c: CallId): nat {
    if es == [] then 0 else (if es[0].c == c then 1 else 0) + OwnSteps(es[1..], c)
  }

  /** The client has read a Pending and is on its way out, or out. */
  ghost predicate OnItsWay(k: Call) {
    Leaving(k.client) && GotPending(k)
  }

  predicate OfServer(e: Event) {
    e.ServeReject? || e.ServeNoThread? || e.ServeStart? || e.ServeMaskErr? || e.ServeProbe? || e.ServeFetch? || e.ServeAdd?
    || e.ServePending? || e.ServeUnmaskErr? || e.ServeWait? || e.ServeWaited? || e.ServeClose? || e.ServeExit?
  }

  lemma ServerShrinks(s: State, e: Event, k: Call)
    requires EnabledOn(s, e, k) && StreamSound(k) && OnItsWay(k) && OfServer(e)
    ensures OnItsWay(NextCall(s, e, k)) && Measure(NextCall(s, e, k)) < Measure(k)
  {
    assert k.server == Probed || k.server == Waiting || k.server == Ending || k.server == Closed || k.server == Exited;
  }

  lemma ClientShrinks(s: State, e: Event, k: Call)
    requires EnabledOn(s, e, k) && InterruptsSound(k) && RemovesSound(k) && OnItsWay(k) && !OfServer(e)
    ensures OnItsWay(NextCall(s, e, k)) && Measure(NextCall(s, e, k)) < Measure(k)
  {
  }

  /** No step of the call, whichever it is and whatever fails in it, leads anywhere but closer to the end. */
  lemma OwnStepShrinks(s: State, e: Event)
    requires Enabled(s, e) && e.c in s.calls && CallSound(s, e.c) && OnItsWay(s.calls[e.c])
    ensures OnItsWay(Next(s, e).calls[e.c]) && Measure(Next(s, e).calls[e.c]) < Measure(s.calls[e.c])
  {
    if OfServer(e) {
      ServerShrinks(s, e, s.calls[e.c]);
    } else {
      ClientShrinks(s, e, s.calls[e.c]);
    }
  }

  lemma {:induction false} OwnStepsBounded(s: State, c: CallId, es: seq<Event>)
    requires Inv(s) && c in s.calls && OnItsWay(s.calls[c]) && Run(s, es)
    ensures c in Final(s, es).calls && OnItsWay(Final(s, es).calls[c])
    ensures OwnSteps(es, c) + Measure(Final(s, es).calls[c]) <= Measure(s.calls[c])
    decreases |es|
  {
    if es != [] {
      if es[0].c == c {
        assert CallSound(s, c);
        OwnStepShrinks(s, es[0]);
      }
      StepKeepsInv(s, es[0]);
      OwnStepsBounded(Next(s, es[0]), c, es[1..]);
    }
  }

  /** In every run, whatever other calls do: after a waiting client has taken its signal its call makes at most seventeen more
      steps, and as long as the client has not returned one of them is possible. So it returns in every run that
      does not leave the call aside for ever. */
  lemma InterruptedCallReturns(s0: State, es: seq<Event>, c: CallId, more: seq<Event>)
    requires Init(s0) && Run(s0, es) && c in Final(s0, es).calls && OnItsWay(Final(s0, es).calls[c])
    requires Run(Final(s0, es), more)
    ensures OwnSteps(more, c) <= 17
    ensures var s := Final(Final(s0, es), more);
            c in s.calls && (s.calls[c].client.Returned? || exists e :: Helps(s, c, e))
  {
    RunKeepsInv(s0, es);
    OwnStepsBounded(Final(s0, es), c, more);
    RunKeepsInv(Final(s0, es), more);
    var s := Final(Final(s0, es), more);
    if !s.calls[c].client.Returned? {
      var e := HelpfulStep(s, c);
    }
  }
}
