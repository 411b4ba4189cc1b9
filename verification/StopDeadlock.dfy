/** When a `stop` can return at all (src/tracker.rs:104-138 and src/tracker.rs:207-252).

Threads of a tracker may themselves call `stop`. A thread inside `InterruptibleTracker::stop` waits for the tracked set
to be empty; a thread inside the `stop` of a handle waits for one guard to be dropped by its own thread. Who waits for
whom decides, exactly, which calls can still return.
*/
module StopDeadlock {
  import opened TrackerCore
  import opened TrackerMachine

  /** A thread that is inside a call is the caller of a call under way. */
  ghost predicate BusyAt(s: State, u: Uid) {
    u in s.threads ==>
      match s.threads[u].busy
      case Free => true
      case InStop(c) => c in s.stops && Pending(s.stops[c].pc) && s.stops[c].caller == u
      case InHandleStop(c) => c in s.handleStops && Pending(s.handleStops[c].pc) && s.handleStops[c].caller == u
  }

  ghost predicate Sound(s: State) {
    Inv(s) && forall u | u in s.threads :: BusyAt(s, u)
  }

  lemma BusyAfter(s: State, e: Event, u: Uid)
    requires StopCallsHeld(s) && HandleCallsHeld(s) && Enabled(s, e) && BusyAt(s, u)
    ensures BusyAt(Next(s, e), u)
  {
  }

  lemma StepKeepsSound(s: State, e: Event)
    requires Sound(s) && Enabled(s, e)
    ensures Sound(Next(s, e))
  {
    StepKeepsInv(s, e);
    forall u | u in Next(s, e).threads ensures BusyAt(Next(s, e), u) {
      BusyAfter(s, e, u);
    }
  }

  lemma {:induction false} RunKeepsSound(s: State, es: seq<Event>)
    requires Sound(s) && Run(s, es)
    ensures Sound(Final(s, es))
    decreases |es|
  {
    if es != [] {
      StepKeepsSound(s, es[0]);
      RunKeepsSound(Next(s, es[0]), es[1..]);
    }
  }

  // ----- who waits for whom

  /** Following the handle stops that thread `u` is in, from thread to thread, for at most `n` hops, ends at a thread that is in
      no `stop`, or at a handle stop that has nobody else to wait for: its guard is dropped, or is the caller's own.
      A thread inside the tracker's `stop` counts as such an end only if `drains`. */
  ghost predicate Freeable(s: State, u: Uid, n: nat, drains: bool)
    decreases n
  {
    u in s.threads &&
    match s.threads[u].busy
    case Free => true
    case InStop(_) => drains
    case InHandleStop(d) =>
      d in s.handleStops && s.handleStops[d].guard in s.guards &&
      var g := s.guards[s.handleStops[d].guard];
      g.phase != Live || g.thread == u || (n > 0 && Freeable(s, g.thread, n - 1, drains))
  }

  ghost predicate CanFree(s: State, u: Uid, drains: bool) {
    exists n: nat :: Freeable(s, u, n, drains)
  }

  ghost predicate IsTracked(s: State, u: Uid) {
    u in s.threads && s.threads[u].pthread in s.data.threads
  }

  /** No tracked thread is inside the tracker's `stop`, or waits through handle stops for a thread that is, or for ever in a
      circle. */
  ghost predicate Drains(s: State) {
    forall u | IsTracked(s, u) :: CanFree(s, u, false)
  }

  // ----- a set of threads that nothing can free

  ghost predicate SomeTracked(s: State, b: set<Uid>) {
    exists u :: u in b && IsTracked(s, u)
  }

  ghost predicate StuckAt(s: State, b: set<Uid>, u: Uid) {
    u in s.threads &&
    match s.threads[u].busy
    case Free => false
    case InStop(c) => c in s.stops && SomeTracked(s, b)
    case InHandleStop(d) =>
      && d in s.handleStops && s.handleStops[d].caller == u && s.handleStops[d].guard in s.guards
      && var g := s.guards[s.handleStops[d].guard];
         g.phase == Live && g.thread != u && g.thread in b
  }

  /** Each thread of the set waits for another of the set, or for the tracked set, which has a member in it, to be empty. */
  ghost predicate Stuck(s: State, b: set<Uid>) {
    forall u | u in b :: StuckAt(s, b, u)
  }

  /** The event ends the call that thread `u` is in. */
  ghost predicate EndsCallOf(s: State, e: Event, u: Uid)
    requires Enabled(s, e) && u in s.threads
  {
    match e
    case RoundOf(c) => s.threads[u].busy == InStop(c) && s.data.threads == {}
    case HandleRoundOf(c) =>
      && s.threads[u].busy == InHandleStop(c)
      && var g := s.guards[s.handleStops[c].guard];
         g.phase == Exited || g.thread == u
    case _ => false
  }

  lemma BusyStaysInRound(s: State, e: Event, u: Uid)
    requires PthreadsDistinct(s) && GuardsAlive(s) && StopCallsHeld(s) && HandleCallsHeld(s) && (e.RoundOf? || e.HandleRoundOf?)
    requires Enabled(s, e) && u in s.threads && s.threads[u].busy != Free && BusyAt(s, u) && !EndsCallOf(s, e, u)
    ensures Next(s, e).threads.Keys == s.threads.Keys && Next(s, e).threads[u] == s.threads[u]
  {
  }

  /** A thread inside a call stays there, until a round of that call ends it. */
  lemma BusyStays(s: State, e: Event, u: Uid)
    requires PthreadsDistinct(s) && GuardsAlive(s) && StopCallsHeld(s) && HandleCallsHeld(s)
    requires Enabled(s, e) && u in s.threads && s.threads[u].busy != Free && BusyAt(s, u) && !EndsCallOf(s, e, u)
    ensures var s' := Next(s, e);
            u in s'.threads && s'.threads[u].busy == s.threads[u].busy && s'.threads[u].pthread == s.threads[u].pthread
  {
    if e.RoundOf? || e.HandleRoundOf? {
      BusyStaysInRound(s, e, u);
    }
  }

  lemma TrackedThreadStays(s: State, e: Event, u: Uid)
    requires PthreadsDistinct(s) && Enabled(s, e) && IsTracked(s, u) && s.threads[u].busy != Free
    ensures s.threads[u].pthread in Next(s, e).data.threads
  {
  }

  lemma LiveStays(s: State, e: Event, g: GuardId)
    requires Enabled(s, e) && g in s.guards && s.guards[g].phase == Live
    requires var v := s.guards[g].thread; v in s.threads && s.threads[v].busy != Free
    ensures g in Next(s, e).guards && Next(s, e).guards[g] == s.guards[g]
  {
  }

  lemma CallsStay(s: State, e: Event)
    requires Enabled(s, e)
    ensures forall c | c in s.stops :: c in Next(s, e).stops
    ensures forall d | d in s.handleStops :: d in Next(s, e).handleStops && Next(s, e).handleStops[d].caller == s.handleStops[d].caller
                                             && Next(s, e).handleStops[d].guard == s.handleStops[d].guard
  {
  }

  lemma StuckIsBusy(s: State, e: Event, b: set<Uid>, u: Uid)
    requires Sound(s) && Enabled(s, e) && StuckAt(s, b, u)
    ensures !EndsCallOf(s, e, u) && s.threads[u].busy != Free && BusyAt(s, u)
  {
  }

  lemma TrackedStays(s: State, e: Event, b: set<Uid>)
    requires Sound(s) && Enabled(s, e) && Stuck(s, b) && SomeTracked(s, b)
    ensures SomeTracked(Next(s, e), b)
  {
    var u :| u in b && IsTracked(s, u);
    StuckIsBusy(s, e, b, u);
    BusyStays(s, e, u);
    TrackedThreadStays(s, e, u);
    assert IsTracked(Next(s, e), u);
  }

  lemma StuckAtStays(s: State, e: Event, b: set<Uid>, u: Uid)
    requires Sound(s) && Enabled(s, e) && Stuck(s, b) && u in b
    ensures StuckAt(Next(s, e), b, u) && Next(s, e).threads[u].busy == s.threads[u].busy
  {
    StuckIsBusy(s, e, b, u);
    BusyStays(s, e, u);
    CallsStay(s, e);
    if s.threads[u].busy.InStop? {
      TrackedStays(s, e, b);
    } else {
      var g := s.handleStops[s.threads[u].busy.call].guard;
      StuckIsBusy(s, e, b, s.guards[g].thread);
      LiveStays(s, e, g);
    }
  }

  lemma {:induction false} StuckForever(s: State, b: set<Uid>, es: seq<Event>)
    requires Sound(s) && Stuck(s, b) && Run(s, es)
    ensures Stuck(Final(s, es), b) && (SomeTracked(s, b) ==> SomeTracked(Final(s, es), b))
    ensures forall u | u in b :: u in s.threads && u in Final(s, es).threads && Final(s, es).threads[u].busy == s.threads[u].busy
    decreases |es|
  {
    assert forall u | u in b :: StuckAt(s, b, u);
    if es != [] {
      forall u | u in b ensures StuckAt(Next(s, es[0]), b, u) && Next(s, es[0]).threads[u].busy == s.threads[u].busy {
        StuckAtStays(s, es[0], b, u);
      }
      if SomeTracked(s, b) {
        TrackedStays(s, es[0], b);
      }
      StepKeepsSound(s, es[0]);
      StuckForever(Next(s, es[0]), b, es[1..]);
    }
  }

  // ----- the threads that cannot be freed are such a set

  ghost function Unfreeable(s: State, drains: bool): set<Uid> {
    set u | u in s.threads && !CanFree(s, u, drains)
  }

  lemma UnfreeableAt(s: State, drains: bool, b: set<Uid>, u: Uid)
    requires Sound(s) && u in Unfreeable(s, drains) && Unfreeable(s, drains) <= b
    requires SomeTracked(s, b) || drains
    ensures StuckAt(s, b, u)
  {
    assert !Freeable(s, u, 0, drains) && BusyAt(s, u);
    if s.threads[u].busy.InHandleStop? {
      var v := s.guards[s.handleStops[s.threads[u].busy.call].guard].thread;
      if CanFree(s, v, drains) {
        var n: nat :| Freeable(s, v, n, drains);
        assert Freeable(s, u, n + 1, drains);
      }
    }
  }

  /** If the tracked set cannot drain, the threads that hold it up are stuck for good. */
  lemma UndrainableIsStuck(s: State)
    requires Sound(s) && !Drains(s)
    ensures Stuck(s, Unfreeable(s, false)) && SomeTracked(s, Unfreeable(s, false))
  {
    var b := Unfreeable(s, false);
    var u :| IsTracked(s, u) && !CanFree(s, u, false);
    assert u in b;
    forall v | v in b ensures StuckAt(s, b, v) {
      UnfreeableAt(s, false, b, v);
    }
  }

  /** So is every thread that cannot be freed. */
  lemma UnfreeableIsStuck(s: State)
    requires Sound(s)
    ensures Stuck(s, Unfreeable(s, Drains(s)))
  {
    var b := Unfreeable(s, Drains(s));
    if !Drains(s) {
      UndrainableIsStuck(s);
    }
    forall v | v in b ensures StuckAt(s, b, v) {
      UnfreeableAt(s, Drains(s), b, v);
    }
  }

  // ----- everybody else can be brought to an end

  /** Counts of what is left to do. */
  ghost function LiveGuards(gs: map<GuardId, Guard>): set<GuardId> { set g | g in gs && gs[g].phase == Live }
  ghost function OpenGuards(gs: map<GuardId, Guard>): set<GuardId> { set g | g in gs && gs[g].phase != Exited }
  ghost function Closures(ts: map<Uid, Thread>): set<Uid> { set u | u in ts && ts[u].job.Running? }
  ghost function OpenStops(ss: map<CallId, StopCall>): set<CallId> { set c | c in ss && Pending(ss[c].pc) }
  ghost function SleepingStops(ss: map<CallId, StopCall>): set<CallId> { set c | c in ss && ss[c].pc == Asleep }
  ghost function OpenHandleStops(hs: map<CallId, HandleCall>): set<CallId> { set c | c in hs && Pending(hs[c].pc) }
  ghost function SleepingHandleStops(hs: map<CallId, HandleCall>): set<CallId> { set c | c in hs && hs[c].pc == Asleep }

  ghost function GuardWork(gs: map<GuardId, Guard>): nat { |LiveGuards(gs)| + |OpenGuards(gs)| }
  ghost function StopWork(ss: map<CallId, StopCall>): nat { |OpenStops(ss)| + |SleepingStops(ss)| }
  ghost function HandleWork(hs: map<CallId, HandleCall>): nat { |OpenHandleStops(hs)| + |SleepingHandleStops(hs)| }

  ghost function Measure(s: State): nat {
    GuardWork(s.guards) + |Closures(s.threads)| + StopWork(s.stops) + HandleWork(s.handleStops)
  }

  lemma FewerAfter<T>(all: set<T>, fewer: set<T>, x: T)
    requires fewer == all || fewer == all - {x}
    ensures |fewer| <= |all| && (x in all && x !in fewer ==> |fewer| < |all|)
  {
  }

  /** A guard that goes on in its drop, a call that wakes up or ends: less work. */
  lemma GuardUpdate(gs: map<GuardId, Guard>, g: GuardId, x: Guard)
    requires g in gs && gs[g].phase != Exited && x.phase != Live && (gs[g].phase == Untracked ==> x.phase == Exited)
    ensures GuardWork(gs[g := x]) < GuardWork(gs)
  {
    var gs' := gs[g := x];
    assert forall h | h != g :: h in LiveGuards(gs') <==> h in LiveGuards(gs);
    assert forall h | h != g :: h in OpenGuards(gs') <==> h in OpenGuards(gs);
    FewerAfter(LiveGuards(gs), LiveGuards(gs'), g);
    FewerAfter(OpenGuards(gs), OpenGuards(gs'), g);
  }

  lemma StopUpdate(ss: map<CallId, StopCall>, c: CallId, x: StopCall)
    requires c in ss && Pending(ss[c].pc) && x.pc != Asleep && (ss[c].pc != Asleep ==> !Pending(x.pc))
    ensures StopWork(ss[c := x]) < StopWork(ss)
  {
    var ss' := ss[c := x];
    assert forall d | d != c :: d in OpenStops(ss') <==> d in OpenStops(ss);
    assert forall d | d != c :: d in SleepingStops(ss') <==> d in SleepingStops(ss);
    FewerAfter(OpenStops(ss), OpenStops(ss'), c);
    FewerAfter(SleepingStops(ss), SleepingStops(ss'), c);
  }

  lemma HandleUpdate(hs: map<CallId, HandleCall>, c: CallId, x: HandleCall)
    requires c in hs && Pending(hs[c].pc) && x.pc != Asleep && (hs[c].pc != Asleep ==> !Pending(x.pc))
    ensures HandleWork(hs[c := x]) < HandleWork(hs)
  {
    var hs' := hs[c := x];
    assert forall d | d != c :: d in OpenHandleStops(hs') <==> d in OpenHandleStops(hs);
    assert forall d | d != c :: d in SleepingHandleStops(hs') <==> d in SleepingHandleStops(hs);
    FewerAfter(OpenHandleStops(hs), OpenHandleStops(hs'), c);
    FewerAfter(SleepingHandleStops(hs), SleepingHandleStops(hs'), c);
  }

  lemma FreedKeepsClosures(s: State, u: Uid)
    ensures Closures(SetBusy(s, u, Free)) == Closures(s.threads)
  {
  }

  /** `t` is `s` with some threads freed and some guards dropped. */
  ghost predicate Looser(s: State, t: State) {
    && t.data.threads <= s.data.threads
    && t.threads.Keys == s.threads.Keys
    && (forall u | u in s.threads :: t.threads[u].pthread == s.threads[u].pthread && (t.threads[u].busy == s.threads[u].busy || t.threads[u].busy == Free))
    && (forall d | d in s.handleStops :: d in t.handleStops && t.handleStops[d].guard == s.handleStops[d].guard)
    && (forall g | g in s.guards :: g in t.guards && t.guards[g].thread == s.guards[g].thread && (t.guards[g].phase == Live ==> s.guards[g].phase == Live))
  }

  ghost predicate Helps(s: State, e: Event) {
    Enabled(s, e) && Looser(s, Next(s, e)) && Measure(Next(s, e)) < Measure(s)
  }

  lemma {:induction false} LooserFreeable(s: State, t: State, u: Uid, n: nat, drains: bool)
    requires Looser(s, t) && Freeable(s, u, n, drains)
    ensures Freeable(t, u, n, drains)
    decreases n
  {
    if s.threads[u].busy.InHandleStop? && t.threads[u].busy != Free {
      var g := s.guards[s.handleStops[s.threads[u].busy.call].guard];
      if g.phase == Live && g.thread != u {
        LooserFreeable(s, t, g.thread, n - 1, drains);
      }
    }
  }

  lemma LooserCanFree(s: State, t: State, u: Uid, drains: bool)
    requires Looser(s, t) && CanFree(s, u, drains)
    ensures CanFree(t, u, drains)
  {
    var n: nat :| Freeable(s, u, n, drains);
    LooserFreeable(s, t, u, n, drains);
  }

  lemma LooserDrains(s: State, t: State)
    requires Looser(s, t) && Drains(s)
    ensures Drains(t)
  {
    forall u | IsTracked(t, u) ensures CanFree(t, u, false) {
      assert IsTracked(s, u);
      LooserCanFree(s, t, u, false);
    }
  }

  lemma EndClosureHelps(s: State, u: Uid)
    requires Enabled(s, EndClosure(u))
    ensures Helps(s, EndClosure(u))
  {
    assert Closures(Next(s, EndClosure(u)).threads) == Closures(s.threads) - {u};
  }

  lemma DropUntrackHelps(s: State, g: GuardId)
    requires Enabled(s, DropUntrack(g))
    ensures Helps(s, DropUntrack(g))
  {
    GuardUpdate(s.guards, g, s.guards[g].(phase := Untracked));
  }

  lemma DropMarkHelps(s: State, g: GuardId)
    requires Enabled(s, DropMark(g))
    ensures Helps(s, DropMark(g))
  {
    GuardUpdate(s.guards, g, s.guards[g].(phase := Exited));
  }

  lemma HandleSnoozeHelps(s: State, d: CallId)
    requires d in s.handleStops && s.handleStops[d].pc == Asleep
    ensures Helps(s, HandleSnoozeOf(d))
  {
    HandleUpdate(s.handleStops, d, Next(s, HandleSnoozeOf(d)).handleStops[d]);
  }

  lemma HandleRoundHelps(s: State, d: CallId)
    requires Enabled(s, HandleRoundOf(d)) && (HandleRoundFor(s, d).outcome == HReturn || HandleRoundFor(s, d).outcome == HPanic)
    ensures Helps(s, HandleRoundOf(d))
  {
    HandleUpdate(s.handleStops, d, Next(s, HandleRoundOf(d)).handleStops[d]);
    FreedKeepsClosures(s, s.handleStops[d].caller);
  }

  lemma SnoozeHelps(s: State, c: CallId)
    requires c in s.stops && s.stops[c].pc == Asleep
    ensures Helps(s, SnoozeOf(c))
  {
    StopUpdate(s.stops, c, Next(s, SnoozeOf(c)).stops[c]);
  }

  lemma RoundHelps(s: State, c: CallId)
    requires Enabled(s, RoundOf(c)) && s.data.threads == {}
    ensures Helps(s, RoundOf(c))
  {
    StopUpdate(s.stops, c, Next(s, RoundOf(c)).stops[c]);
    FreedKeepsClosures(s, s.stops[c].caller);
  }

  /** A handle stop whose guard is gone, or is its caller's own, ends within two steps. */
  lemma HandleStopStep(s: State, d: CallId) returns (e: Event)
    requires Sound(s) && d in s.handleStops && Pending(s.handleStops[d].pc)
    requires var k := s.handleStops[d]; k.guard in s.guards && (s.guards[k.guard].phase == Exited || s.guards[k.guard].thread == k.caller)
    ensures Helps(s, e)
  {
    if s.handleStops[d].pc == Asleep {
      e := HandleSnoozeOf(d);
      HandleSnoozeHelps(s, d);
    } else {
      e := HandleRoundOf(d);
      HandleRoundHelps(s, d);
    }
  }

  /** With nothing tracked, so does the tracker's `stop`. */
  lemma StopStep(s: State, c: CallId) returns (e: Event)
    requires c in s.stops && Pending(s.stops[c].pc) && s.data.threads == {}
    ensures Helps(s, e)
  {
    if s.stops[c].pc == Asleep {
      e := SnoozeOf(c);
      SnoozeHelps(s, c);
    } else {
      e := RoundOf(c);
      RoundHelps(s, c);
    }
  }

  /** What brings the thread of a live guard closer to dropping it. */
  lemma GuardStep(s: State, g: GuardId, n: nat, drains: bool) returns (e: Event)
    requires Sound(s) && (drains ==> Drains(s))
    requires g in s.guards && s.guards[g].phase == Live && Freeable(s, s.guards[g].thread, n, drains)
    ensures Helps(s, e)
    decreases if drains then 2 else 0, n, 1
  {
    var u := s.guards[g].thread;
    if s.threads[u].busy != Free {
      e := CallStep(s, u, n, drains);
    } else if s.threads[u].job == Running(g) {
      e := EndClosure(u);
      EndClosureHelps(s, u);
    } else {
      e := DropUntrack(g);
      DropUntrackHelps(s, g);
    }
  }

  /** What brings a thread closer to the end of the call it is in. */
  lemma CallStep(s: State, u: Uid, n: nat, drains: bool) returns (e: Event)
    requires Sound(s) && (drains ==> Drains(s))
    requires Freeable(s, u, n, drains) && s.threads[u].busy != Free
    ensures Helps(s, e)
    decreases if drains then 2 else 0, n, 0
  {
    assert BusyAt(s, u);
    match s.threads[u].busy {
      case InStop(c) =>
        if s.data.threads == {} {
          e := StopStep(s, c);
        } else {
          e := DrainStep(s);
        }
      case InHandleStop(d) =>
        var h := s.handleStops[d].guard;
        if s.guards[h].phase == Exited || s.guards[h].thread == u {
          e := HandleStopStep(s, d);
        } else if s.guards[h].phase == Untracked {
          e := DropMark(h);
          DropMarkHelps(s, h);
        } else {
          e := GuardStep(s, h, n - 1, drains);
        }
    }
  }

  /** What brings the tracked set closer to being empty. */
  lemma DrainStep(s: State) returns (e: Event)
    requires Sound(s) && Drains(s) && s.data.threads != {}
    ensures Helps(s, e)
    decreases 1, 0, 0
  {
    var p :| p in s.data.threads;
    assert HasLiveGuard(s, p);
    var g :| g in s.guards && s.guards[g].phase == Live && s.guards[g].pthread == p;
    assert IsTracked(s, s.guards[g].thread);
    var n: nat :| Freeable(s, s.guards[g].thread, n, false);
    e := GuardStep(s, g, n, false);
  }

  // ----- exactly which calls can return

  ghost predicate StopReturns(s: State, c: CallId, es: seq<Event>) {
    Run(s, es) && c in Final(s, es).stops && Final(s, es).stops[c].pc == Returned
  }

  ghost predicate HandleStopEnds(s: State, c: CallId, es: seq<Event>) {
    Run(s, es) && c in Final(s, es).handleStops && !Pending(Final(s, es).handleStops[c].pc)
  }

  lemma PrependStep(s: State, e: Event, rest: seq<Event>)
    requires Enabled(s, e) && Run(Next(s, e), rest)
    ensures Run(s, [e] + rest) && Final(s, [e] + rest) == Final(Next(s, e), rest)
  {
    assert ([e] + rest)[1..] == rest;
  }

  lemma StopStays(s: State, e: Event, c: CallId)
    requires Enabled(s, e) && c in s.stops
    ensures c in Next(s, e).stops && (s.stops[c].pc != Panicked ==> Next(s, e).stops[c].pc != Panicked)
  {
  }

  lemma {:induction false} CanReturn(s: State, c: CallId) returns (es: seq<Event>)
    requires Sound(s) && Drains(s) && c in s.stops && s.stops[c].pc != Panicked
    ensures StopReturns(s, c, es) && |es| <= Measure(s)
    decreases Measure(s)
  {
    if s.stops[c].pc == Returned {
      return [];
    }
    var e;
    if s.data.threads == {} {
      e := StopStep(s, c);
    } else {
      e := DrainStep(s);
    }
    StepKeepsSound(s, e);
    LooserDrains(s, Next(s, e));
    StopStays(s, e, c);
    var rest := CanReturn(Next(s, e), c);
    PrependStep(s, e, rest);
    es := [e] + rest;
  }

  lemma {:induction false} CanEnd(s: State, c: CallId, drains: bool) returns (es: seq<Event>)
    requires Sound(s) && (drains ==> Drains(s))
    requires c in s.handleStops && (Pending(s.handleStops[c].pc) ==> CanFree(s, s.handleStops[c].caller, drains))
    ensures HandleStopEnds(s, c, es) && |es| <= Measure(s)
    decreases Measure(s)
  {
    if !Pending(s.handleStops[c].pc) {
      return [];
    }
    var u := s.handleStops[c].caller;
    var n: nat :| Freeable(s, u, n, drains);
    var e := CallStep(s, u, n, drains);
    StepKeepsSound(s, e);
    CallsStay(s, e);
    LooserCanFree(s, Next(s, e), u, drains);
    if drains {
      LooserDrains(s, Next(s, e));
    }
    var rest := CanEnd(Next(s, e), c, drains);
    PrependStep(s, e, rest);
    es := [e] + rest;
  }

  lemma {:induction false} NeverPanicked(s: State, es: seq<Event>)
    requires Run(s, es) && forall c | c in s.stops :: s.stops[c].pc != Panicked
    ensures forall c | c in Final(s, es).stops :: Final(s, es).stops[c].pc != Panicked
    decreases |es|
  {
    if es != [] {
      NeverPanicked(Next(s, es[0]), es[1..]);
    }
  }

  /** In every reachable state, some continuation returns a pending call of the tracker's `stop` if and only if no tracked thread
      is inside the tracker's `stop`, or waits through handle stops for a thread that is, or in a circle. Whose call it
      is makes no difference. */
  lemma StopReturnsIff(s0: State, es: seq<Event>, c: CallId)
    requires Init(s0) && Run(s0, es) && c in Final(s0, es).stops && Final(s0, es).stops[c].pc != Returned
    ensures (exists more :: StopReturns(Final(s0, es), c, more)) <==> Drains(Final(s0, es))
  {
    RunKeepsSound(s0, es);
    NeverPanicked(s0, es);
    var s := Final(s0, es);
    if Drains(s) {
      var more := CanReturn(s, c);
    } else {
      forall more ensures !StopReturns(s, c, more) {
        if Run(s, more) {
          NeverDrains(s, c, more);
        }
      }
    }
  }

  lemma NeverDrains(s: State, c: CallId, more: seq<Event>)
    requires Sound(s) && !Drains(s) && Run(s, more)
    ensures !StopReturns(s, c, more)
  {
    UndrainableIsStuck(s);
    StuckForever(s, Unfreeable(s, false), more);
    RunKeepsSound(s, more);
  }

  /** And some continuation ends a pending call of a handle's `stop`, by return or by panic, if and only if the chain of waits
      from its caller ends: at a thread in no `stop`, at a handle stop with nobody else to wait for, or at a call of the
      tracker's `stop` that can itself return. */
  lemma HandleStopEndsIff(s0: State, es: seq<Event>, c: CallId)
    requires Init(s0) && Run(s0, es) && c in Final(s0, es).handleStops && Pending(Final(s0, es).handleStops[c].pc)
    ensures var s := Final(s0, es);
            (exists more :: HandleStopEnds(s, c, more)) <==> CanFree(s, s.handleStops[c].caller, Drains(s))
  {
    RunKeepsSound(s0, es);
    var s := Final(s0, es);
    if CanFree(s, s.handleStops[c].caller, Drains(s)) {
      var more := CanEnd(s, c, Drains(s));
    } else {
      forall more ensures !HandleStopEnds(s, c, more) {
        if Run(s, more) {
          UnfreeableIsStuck(s);
          StuckCallNeverEnds(s, c, Unfreeable(s, Drains(s)), more);
        }
      }
    }
  }

  lemma StuckCallNeverEnds(s: State, c: CallId, b: set<Uid>, more: seq<Event>)
    requires Sound(s) && Stuck(s, b) && c in s.handleStops && Pending(s.handleStops[c].pc) && s.handleStops[c].caller in b && Run(s, more)
    ensures !HandleStopEnds(s, c, more)
  {
    StuckForever(s, b, more);
    RunKeepsSound(s, more);
    assert BusyAt(Final(s, more), s.handleStops[c].caller);
  }

  // ----- the runs that show it

  /** The caller of call `c` of the tracker's `stop` is itself tracked. */
  ghost predicate CallerTracked(s: State, c: CallId) {
    && c in s.stops && Pending(s.stops[c].pc) && IsTracked(s, s.stops[c].caller)
  }

  /** `InterruptibleTracker::stop` has no self test. Called from a tracked thread, in any run, it returns in no continuation; nor
      does any other call of the tracker's `stop` that is under way, whoever its caller is. */
  lemma SelfStopNeverReturns(s0: State, es: seq<Event>, c: CallId, d: CallId, later: seq<Event>)
    requires Init(s0) && Run(s0, es) && CallerTracked(Final(s0, es), c) && Run(Final(s0, es), later)
    requires d in Final(s0, es).stops && Final(s0, es).stops[d].pc != Returned
    ensures !StopReturns(Final(s0, es), c, later) && !StopReturns(Final(s0, es), d, later)
  {
    RunKeepsSound(s0, es);
    var s := Final(s0, es);
    assert !CanFree(s, s.stops[c].caller, false);
    NeverDrains(s, c, later);
    NeverDrains(s, d, later);
  }

  /** Such a state is reached: closure 0 calls `stop` on its own tracker, and so does thread 1, which is not tracked. */
  lemma SelfStopHappens(s0: State) returns (es: seq<Event>)
    requires Init(s0)
    ensures Run(s0, es) && CallerTracked(Final(s0, es), 0)
    ensures var s := Final(s0, es); 1 in s.stops && Pending(s.stops[1].pc) && !IsTracked(s, s.stops[1].caller)
    ensures !Drains(Final(s0, es))
  {
    var s;
    es, s := [], s0;
    es, s := Extend(s0, es, s, Create(0, 7, true));
    es, s := Extend(s0, es, s, MakeGuard(0, 0));
    assert s.threads == map[0 := Thread(7, Running(0), Free)] && s.data.threads == {7};
    es, s := Extend(s0, es, s, Create(1, 8, false));
    es, s := Extend(s0, es, s, BeginStop(0, 0));
    es, s := Extend(s0, es, s, BeginStop(1, 1));
    assert IsTracked(s, 0) && !CanFree(s, 0, false);
  }

  lemma TwoClosures(s0: State) returns (es: seq<Event>, s: State)
    requires Init(s0)
    ensures Run(s0, es) && Final(s0, es) == s
    ensures s.guards == map[0 := Guard(0, 7, Live), 1 := Guard(1, 8, Live)] && s.stops == map[] && s.handleStops == map[]
    ensures s.threads == map[0 := Thread(7, Running(0), Free), 1 := Thread(8, Running(1), Free)]
  {
    es, s := [], s0;
    es, s := Extend(s0, es, s, Create(0, 7, true));
    es, s := Extend(s0, es, s, Create(1, 8, true));
    es, s := Extend(s0, es, s, MakeGuard(0, 0));
    es, s := Extend(s0, es, s, MakeGuard(1, 1));
  }

  lemma MutualCalls(s0: State) returns (es: seq<Event>, s: State)
    requires Init(s0)
    ensures Run(s0, es) && Final(s0, es) == s && s.stops == map[] && Stuck(s, {0, 1})
    ensures forall c | c in {0, 1} :: c in s.handleStops && s.handleStops[c].caller == c && Pending(s.handleStops[c].pc)
  {
    es, s := TwoClosures(s0);
    es, s := Extend(s0, es, s, BeginHandleStop(0, 0, 1));
    es, s := Extend(s0, es, s, BeginHandleStop(1, 1, 0));
    assert StuckAt(s, {0, 1}, 0) && StuckAt(s, {0, 1}, 1);
  }

  /** Two closures that stop each other's handle: neither call ever ends, not even with the panic that reports a reentrant call,
      although no thread is inside the tracker's `stop`. */
  lemma MutualHandleStops(s0: State) returns (es: seq<Event>)
    requires Init(s0)
    ensures Run(s0, es)
    ensures var s := Final(s0, es);
            && s.stops == map[] && 0 in s.handleStops && 1 in s.handleStops
            && forall more :: !HandleStopEnds(s, 0, more) && !HandleStopEnds(s, 1, more)
  {
    var s;
    es, s := MutualCalls(s0);
    RunKeepsSound(s0, es);
    forall more ensures !HandleStopEnds(s, 0, more) && !HandleStopEnds(s, 1, more) {
      if Run(s, more) {
        StuckCallNeverEnds(s, 0, {0, 1}, more);
        StuckCallNeverEnds(s, 1, {0, 1}, more);
      }
    }
  }
}
