/** The client's cache of owner processes (src/lib.rs:84-161), as a step machine over any number of callers of
`get_or_create_owner`, the cleanup thread and dying owners, with the imperative form of the loop.

A ping succeeds exactly when the owner process is alive, and a dead owner stays dead. Spawning an owner
yields a fresh live one.
*/
module OwnerCache {
  import opened Types

  type OwnerId = nat
  type Owner = nat   // one owner process, never reused
  type CallId = nat

  datatype Pc =
    | Looking                  // about to look the id up
    | Missing                  // the lookup found nothing
    | Holding(o: Owner)        // has an owner, about to ping it
    | Condemned(o: Owner)      // the ping failed, about to remove the id
    | ReturnedOwner(o: Owner)
    | ReturnedError

  datatype Caller = Caller(id: OwnerId, zeroTtl: bool, newOwner: bool, pc: Pc)

  datatype State = State(owners: map<OwnerId, Owner>, spawned: map<Owner, OwnerId>, dead: set<Owner>, callers: map<CallId, Caller>)

  datatype Event =
    | Begin(c: CallId, id: OwnerId, zeroTtl: bool)
    | Lookup(c: CallId)
    | GetOrInsert(c: CallId, made: Owner, spawns: bool)
    | Ping(c: CallId)
    | Evict(c: CallId)
    | Die(o: Owner)
    | Clean(id: OwnerId)       // the cleanup thread visits one entry

  predicate Init(s: State) {
    s.owners == map[] && s.spawned == map[] && s.dead == {} && s.callers == map[]
  }

  predicate At(s: State, c: CallId, pc: Pc) {
    c in s.callers && s.callers[c].pc == pc
  }

  predicate Enabled(s: State, e: Event) {
    match e
    case Begin(c, _, _) => c !in s.callers
    case Lookup(c) => At(s, c, Looking)
    case GetOrInsert(c, made, _) => At(s, c, Missing) && made !in s.spawned && made !in s.dead
    case Ping(c) => c in s.callers && s.callers[c].pc.Holding?
    case Evict(c) => c in s.callers && s.callers[c].pc.Condemned?
    case Die(o) => o in s.spawned
    case Clean(_) => true
  }

  /** `!new_owner_with_zero_ttl && owner.ping().is_err()` */
  predicate PingFails(s: State, k: Caller)
    requires k.pc.Holding?
  {
    !(k.zeroTtl && k.newOwner) && k.pc.o in s.dead
  }

  function NextCaller(s: State, e: Event, k: Caller): Caller
    requires !e.Begin? && !e.Die? && !e.Clean? && Enabled(s, e) && k == s.callers[e.c]
  {
    match e
    case Lookup(_) => k.(pc := if k.id in s.owners then Holding(s.owners[k.id]) else Missing)
    case GetOrInsert(_, made, spawns) =>
      if k.id in s.owners then k.(pc := Holding(s.owners[k.id]))
      else if spawns then k.(pc := Holding(made), newOwner := true)
      else k.(pc := ReturnedError)
    case Ping(_) => k.(pc := if PingFails(s, k) then Condemned(k.pc.o) else ReturnedOwner(k.pc.o))
    case Evict(_) => k.(pc := Looking)
  }

  predicate Inserts(s: State, e: Event)
    requires Enabled(s, e)
  {
    e.GetOrInsert? && e.spawns && s.callers[e.c].id !in s.owners
  }

  function NextOwners(s: State, e: Event): map<OwnerId, Owner>
    requires Enabled(s, e)
  {
    match e
    case GetOrInsert(c, made, _) => if Inserts(s, e) then s.owners[s.callers[c].id := made] else s.owners
    case Evict(c) => s.owners - {s.callers[c].id}
    case Clean(id) => if id in s.owners && s.owners[id] in s.dead then s.owners - {id} else s.owners
    case _ => s.owners
  }

  function Next(s: State, e: Event): State
    requires Enabled(s, e)
  {
    State(
      NextOwners(s, e),
      if Inserts(s, e) then s.spawned[e.made := s.callers[e.c].id] else s.spawned,
      if e.Die? then s.dead + {e.o} else s.dead,
      if e.Die? || e.Clean? then s.callers
      else if e.Begin? then s.callers[e.c := Caller(e.id, e.zeroTtl, false, Looking)]
      else s.callers[e.c := NextCaller(s, e, s.callers[e.c])])
  }

  predicate Run(s: State, es: seq<Event>)
    decreases |es|
  {
    es == [] || (Enabled(s, es[0]) && Run(Next(s, es[0]), es[1..]))
  }

  function Final(s: State, es: seq<Event>): State
    requires Run(s, es)
    decreases |es|
  {
    if es == [] then s else Final(Next(s, es[0]), es[1..])
  }

  // ----- every run

  predicate Live(s: State, o: Owner) {
    o in s.spawned && o !in s.dead
  }

  ghost predicate CallerSound(s: State, k: Caller) {
    && (k.pc.Holding? || k.pc.Condemned? ==> k.pc.o in s.spawned && s.spawned[k.pc.o] == k.id)
    && (k.pc.Condemned? ==> k.pc.o in s.dead && !(k.zeroTtl && k.newOwner))
  }

  ghost predicate Inv(s: State) {
    && (forall id | id in s.owners :: s.owners[id] in s.spawned && s.spawned[s.owners[id]] == id)
    && (forall c | c in s.callers :: CallerSound(s, s.callers[c]))
    && (forall o | o in s.dead :: o in s.spawned)
  }

  lemma StepKeepsInv(s: State, e: Event)
    requires Inv(s) && Enabled(s, e)
    ensures Inv(Next(s, e))
  {
    forall c | c in Next(s, e).callers ensures CallerSound(Next(s, e), Next(s, e).callers[c]) {
      if c in s.callers {
        assert CallerSound(s, s.callers[c]);
      }
    }
  }

  lemma {:induction false} RunKeepsInv(s: State, es: seq<Event>)
    requires Inv(s) && Run(s, es)
    ensures Inv(Final(s, es))
    decreases |es|
  {
    if es != [] {
      StepKeepsInv(s, es[0]);
      RunKeepsInv(Next(s, es[0]), es[1..]);
    }
  }

  // ----- what a ping leads to

  /** Call `c` itself put an owner into the cache during the run. */
  predicate InsertedBy(s: State, es: seq<Event>, c: CallId)
    requires Run(s, es)
    decreases |es|
  {
    es != [] && ((Inserts(s, es[0]) && es[0].c == c) || InsertedBy(Next(s, es[0]), es[1..], c))
  }

  lemma {:induction false} NewOwnerIff(s: State, es: seq<Event>, c: CallId)
    requires Run(s, es) && c in s.callers
    ensures c in Final(s, es).callers && Final(s, es).callers[c].zeroTtl == s.callers[c].zeroTtl && Final(s, es).callers[c].id == s.callers[c].id
    ensures Final(s, es).callers[c].newOwner <==> s.callers[c].newOwner || InsertedBy(s, es, c)
    decreases |es|
  {
    if es != [] {
      NewOwnerIff(Next(s, es[0]), es[1..], c);
    }
  }

  /** In every run, from its Begin on: a call that pings its owner returns it if and only if the owner is alive at that moment, or the
      TTL is zero and the call has put an owner into the cache itself; otherwise it goes on to evict. */
  lemma PingReturnsIff(s0: State, es: seq<Event>, c: CallId, id: OwnerId, zeroTtl: bool, call: seq<Event>)
    requires Init(s0) && Run(s0, es) && Enabled(Final(s0, es), Begin(c, id, zeroTtl))
    requires var s := Next(Final(s0, es), Begin(c, id, zeroTtl)); Run(s, call) && Enabled(Final(s, call), Ping(c))
    ensures var s := Next(Final(s0, es), Begin(c, id, zeroTtl));
            var t := Final(s, call);
            var o := t.callers[c].pc.o;
            At(Next(t, Ping(c)), c, if o !in t.dead || (zeroTtl && InsertedBy(s, call, c)) then ReturnedOwner(o) else Condemned(o))
  {
    NewOwnerIff(Next(Final(s0, es), Begin(c, id, zeroTtl)), call, c);
  }

  lemma {:induction false} HoldsOn(s: State, es: seq<Event>, c: CallId, o: Owner)
    requires Run(s, es) && At(s, c, Holding(o)) && Ping(c) !in es
    ensures At(Final(s, es), c, Holding(o))
    decreases |es|
  {
    if es != [] {
      HoldsOn(Next(s, es[0]), es[1..], c, o);
    }
  }

  /** In particular a call with a zero TTL returns the very owner it spawned, also when that is dead by then. */
  lemma ZeroTtlKeepsNewOwner(s0: State, es: seq<Event>, c: CallId, made: Owner, mid: seq<Event>)
    requires Init(s0) && Run(s0, es) && Enabled(Final(s0, es), GetOrInsert(c, made, true))
    requires var s := Final(s0, es); s.callers[c].zeroTtl && Inserts(s, GetOrInsert(c, made, true))
    requires Run(Next(Final(s0, es), GetOrInsert(c, made, true)), mid) && Ping(c) !in mid
    ensures var t := Final(Next(Final(s0, es), GetOrInsert(c, made, true)), mid);
            Enabled(t, Ping(c)) && At(Next(t, Ping(c)), c, ReturnedOwner(made))
  {
    var s1 := Next(Final(s0, es), GetOrInsert(c, made, true));
    HoldsOn(s1, mid, c, made);
    NewOwnerIff(s1, mid, c);
  }

  /** The cleanup thread takes an entry out if and only if its owner is dead, and touches no other. */
  lemma CleanRemovesIffDead(s: State, id: OwnerId, other: OwnerId)
    requires Inv(s)
    ensures var s' := Next(s, Clean(id));
            && (id in s'.owners <==> id in s.owners && Live(s, s.owners[id]))
            && (other in s'.owners ==> other in s.owners && s'.owners[other] == s.owners[other])
            && (other in s.owners && other !in s'.owners ==> other == id)
  {
  }

  // ----- when eviction by id hits a live owner

  ghost predicate LiveEntry(s: State, id: OwnerId) {
    id in s.owners && Live(s, s.owners[id])
  }

  /** The event puts a new owner for the id into the cache. */
  predicate InsertsFor(s: State, e: Event, id: OwnerId)
    requires Enabled(s, e)
  {
    Inserts(s, e) && s.callers[e.c].id == id
  }

  /** The event is the death of owner `o` or an eviction of the id. */
  predicate Ends(s: State, e: Event, id: OwnerId, o: Owner)
    requires Enabled(s, e)
  {
    e == Die(o) || (e.Evict? && s.callers[e.c].id == id)
  }

  predicate Survives(s: State, es: seq<Event>, id: OwnerId, o: Owner)
    requires Run(s, es)
    decreases |es|
  {
    es == [] || (!Ends(s, es[0], id, o) && Survives(Next(s, es[0]), es[1..], id, o))
  }

  /** Some call inserts an owner for the id during the run, and until its end that owner neither dies nor is evicted. */
  predicate InsertSurvives(s: State, es: seq<Event>, id: OwnerId)
    requires Run(s, es)
    decreases |es|
  {
    es != []
    && ((InsertsFor(s, es[0], id) && Survives(Next(s, es[0]), es[1..], id, es[0].made)) || InsertSurvives(Next(s, es[0]), es[1..], id))
  }

  lemma LiveEntryStep(s: State, e: Event, id: OwnerId)
    requires Inv(s) && Enabled(s, e)
    ensures LiveEntry(Next(s, e), id) <==> InsertsFor(s, e, id) || (LiveEntry(s, id) && !Ends(s, e, id, s.owners[id]))
    ensures InsertsFor(s, e, id) ==> Next(s, e).owners[id] == e.made && !LiveEntry(s, id)
    ensures LiveEntry(s, id) && LiveEntry(Next(s, e), id) ==> Next(s, e).owners[id] == s.owners[id]
  {
  }

  /** After any run, the cached owner of an id is alive exactly if an insertion of the run survived it, or the owner cached
      before it did. */
  lemma {:induction false} LiveEntryIff(s: State, es: seq<Event>, id: OwnerId)
    requires Inv(s) && Run(s, es)
    ensures LiveEntry(Final(s, es), id) <==> InsertSurvives(s, es, id) || (LiveEntry(s, id) && Survives(s, es, id, s.owners[id]))
    decreases |es|
  {
    if es != [] {
      StepKeepsInv(s, es[0]);
      LiveEntryStep(s, es[0], id);
      LiveEntryIff(Next(s, es[0]), es[1..], id);
    }
  }

  lemma {:induction false} SurvivorIsAlive(s: State, es: seq<Event>, id: OwnerId, o: Owner)
    requires Run(s, es) && Survives(s, es, id, o) && o !in s.dead
    ensures o !in Final(s, es).dead
    decreases |es|
  {
    if es != [] {
      SurvivorIsAlive(Next(s, es[0]), es[1..], id, o);
    }
  }

  /** Call `c` gets an owner by event `get`, then come the events `mid`, at the end of which the owner's ping has failed and `c` is
      about to evict. The eviction, which goes by id, takes out a live owner if and only if some call inserted a
      new owner for the id in `mid`, after `c` got its own, which then neither died nor was evicted before `mid` ended. */
  lemma EvictRemovesLiveIff(s0: State, es: seq<Event>, get: Event, mid: seq<Event>, c: CallId)
    requires Init(s0) && Run(s0, es)
    requires (get == Lookup(c) || (get.GetOrInsert? && get.c == c)) && Enabled(Final(s0, es), get)
    requires var s1 := Next(Final(s0, es), get);
             && s1.callers[c].pc.Holding? && Run(s1, mid) && Enabled(Final(s1, mid), Evict(c))
             && Final(s1, mid).callers[c].id == s1.callers[c].id && Final(s1, mid).callers[c].pc == Condemned(s1.callers[c].pc.o)
    ensures var s1 := Next(Final(s0, es), get);
            var s2, id := Final(s1, mid), s1.callers[c].id;
            && id !in Next(s2, Evict(c)).owners
            && (LiveEntry(s2, id) <==> InsertSurvives(s1, mid, id))
  {
    RunKeepsInv(s0, es);
    var s1 := Next(Final(s0, es), get);
    StepKeepsInv(Final(s0, es), get);
    RunKeepsInv(s1, mid);
    var id, o := s1.callers[c].id, s1.callers[c].pc.o;
    LiveEntryIff(s1, mid, id);
    assert s1.owners[id] == o && CallerSound(Final(s1, mid), Final(s1, mid).callers[c]);
    if LiveEntry(s1, id) && Survives(s1, mid, id, o) {
      SurvivorIsAlive(s1, mid, id, o);
      assert false;
    }
  }

  // ----- runs in which calls for one id do not overlap

  predicate Active(k: Caller) {
    !k.pc.ReturnedOwner? && !k.pc.ReturnedError?
  }

  predicate Alone(s: State, e: Event) {
    e.Begin? ==> forall d | d in s.callers && s.callers[d].id == e.id :: !Active(s.callers[d])
  }

  predicate AloneRun(s: State, es: seq<Event>)
    decreases |es|
  {
    es == [] || (Enabled(s, es[0]) && Alone(s, es[0]) && AloneRun(Next(s, es[0]), es[1..]))
  }

  ghost predicate OneActive(s: State) {
    forall c, d | c in s.callers && d in s.callers && s.callers[c].id == s.callers[d].id
                  && Active(s.callers[c]) && Active(s.callers[d]) :: c == d
  }

  /** What an active call holds is what the cache holds for its id, if anything. */
  ghost predicate HoldsCached(s: State, c: CallId) {
    c in s.callers && (s.callers[c].pc.Holding? || s.callers[c].pc.Condemned?) && s.callers[c].id in s.owners
    ==> s.owners[s.callers[c].id] == s.callers[c].pc.o
  }

  ghost predicate LiveCached(s: State, o: Owner) {
    Live(s, o) ==> s.spawned[o] in s.owners && s.owners[s.spawned[o]] == o
  }

  ghost predicate AloneInv(s: State) {
    && OneActive(s)
    && (forall c | c in s.callers :: HoldsCached(s, c))
    && (forall o | o in s.spawned :: LiveCached(s, o))
  }

  lemma OneActiveAfter(s: State, e: Event)
    requires OneActive(s) && Enabled(s, e) && Alone(s, e)
    ensures OneActive(Next(s, e))
  {
    var s' := Next(s, e);
    assert forall c | c in s.callers && c in s'.callers && Active(s'.callers[c]) :: Active(s.callers[c]) && s'.callers[c].id == s.callers[c].id;
  }

  lemma HoldsCachedAfter(s: State, e: Event, c: CallId)
    requires OneActive(s) && Enabled(s, e) && HoldsCached(s, c)
    ensures HoldsCached(Next(s, e), c)
  {
  }

  lemma LiveCachedAfter(s: State, e: Event, o: Owner)
    requires Inv(s) && Enabled(s, e) && LiveCached(s, o)
    requires e.Evict? ==> HoldsCached(s, e.c)
    ensures LiveCached(Next(s, e), o)
  {
    if e.Evict? {
      assert CallerSound(s, s.callers[e.c]);
    }
  }

  lemma StepKeepsAlone(s: State, e: Event)
    requires Inv(s) && AloneInv(s) && Enabled(s, e) && Alone(s, e)
    ensures AloneInv(Next(s, e))
  {
    OneActiveAfter(s, e);
    forall c | c in Next(s, e).callers ensures HoldsCached(Next(s, e), c) {
      assert c in s.callers ==> HoldsCached(s, c);
      HoldsCachedAfter(s, e, c);
    }
    forall o | o in Next(s, e).spawned ensures LiveCached(Next(s, e), o) {
      LiveCachedAfter(s, e, o);
    }
  }

  lemma {:induction false} AloneRunKeeps(s: State, es: seq<Event>)
    requires Inv(s) && AloneInv(s) && AloneRun(s, es)
    ensures Run(s, es) && Inv(Final(s, es)) && AloneInv(Final(s, es))
    decreases |es|
  {
    if es != [] {
      StepKeepsInv(s, es[0]);
      StepKeepsAlone(s, es[0]);
      AloneRunKeeps(Next(s, es[0]), es[1..]);
    }
  }

  /** If calls for one id do not overlap, then with the cleanup thread and deaths anywhere in between only dead
      owners ever leave the cache, and there is never more than one live owner of an id: the cached one. */
  lemma OneLiveOwnerPerId(s0: State, es: seq<Event>, e: Event, o: Owner, p: Owner)
    requires Init(s0) && AloneRun(s0, es) && Run(s0, es)
    requires Enabled(Final(s0, es), e) && Alone(Final(s0, es), e)
    ensures var s, s' := Final(s0, es), Next(Final(s0, es), e);
            && (forall id | id in s.owners && (id in s'.owners ==> s'.owners[id] != s.owners[id]) :: s.owners[id] in s.dead)
            && (Live(s, o) && Live(s, p) && s.spawned[o] == s.spawned[p] ==> o == p)
            && (Live(s, o) ==> s.spawned[o] in s.owners && s.owners[s.spawned[o]] == o)
  {
    AloneRunKeeps(s0, es);
    var s := Final(s0, es);
    assert LiveCached(s, o) && LiveCached(s, p);
    if e.Evict? {
      assert CallerSound(s, s.callers[e.c]) && HoldsCached(s, e.c);
    }
  }

  // ----- runs in which they do

  lemma {:induction false} RunSnoc(s0: State, es: seq<Event>, e: Event)
    requires Run(s0, es) && Enabled(Final(s0, es), e)
    ensures Run(s0, es + [e]) && Final(s0, es + [e]) == Next(Final(s0, es), e)
    decreases |es|
  {
    if es == [] {
      assert [e][1..] == [];
    } else {
      assert (es + [e])[1..] == es[1..] + [e];
      RunSnoc(Next(s0, es[0]), es[1..], e);
    }
  }

  lemma Extend(s0: State, es: seq<Event>, s: State, e: Event) returns (es': seq<Event>, s': State)
    requires Run(s0, es) && Final(s0, es) == s && Enabled(s, e)
    ensures s' == Next(s, e) && es' == es + [e] && Run(s0, es') && Final(s0, es') == s'
  {
    es', s' := es + [e], Next(s, e);
    RunSnoc(s0, es, e);
  }

  /** Two overlapping calls for id 1 hold the same dead owner ... */
  lemma BothHold(s0: State) returns (es: seq<Event>, s: State)
    requires Init(s0)
    ensures Run(s0, es) && Final(s0, es) == s
    ensures s.owners == map[1 := 10] && s.spawned == map[10 := 1] && s.dead == {10}
    ensures s.callers == map[0 := Caller(1, false, true, Holding(10)), 1 := Caller(1, false, false, Holding(10))]
  {
    es, s := [], s0;
    es, s := Extend(s0, es, s, Begin(0, 1, false));
    es, s := Extend(s0, es, s, Lookup(0));
    es, s := Extend(s0, es, s, GetOrInsert(0, 10, true));
    assert s.owners == map[1 := 10] && s.callers == map[0 := Caller(1, false, true, Holding(10))];
    es, s := Extend(s0, es, s, Die(10));
    es, s := Extend(s0, es, s, Begin(1, 1, false));
    es, s := Extend(s0, es, s, Lookup(1));
  }

  /** ... ping it ... */
  lemma BothCondemn(s0: State) returns (es: seq<Event>, s: State)
    requires Init(s0)
    ensures Run(s0, es) && Final(s0, es) == s
    ensures s.owners == map[1 := 10] && s.spawned == map[10 := 1] && s.dead == {10}
    ensures s.callers == map[0 := Caller(1, false, true, Condemned(10)), 1 := Caller(1, false, false, Condemned(10))]
  {
    es, s := BothHold(s0);
    es, s := Extend(s0, es, s, Ping(0));
    es, s := Extend(s0, es, s, Ping(1));
  }

  /** ... the first replaces it, and the second then evicts the live replacement and spawns another: two live
      owners of one id. */
  lemma OverlappingCallsEvictLiveOwner(s0: State) returns (es: seq<Event>)
    requires Init(s0)
    ensures Run(s0, es)
    ensures var s := Final(s0, es); Live(s, 11) && Live(s, 12) && s.spawned[11] == s.spawned[12] == 1
  {
    var s;
    es, s := BothCondemn(s0);
    es, s := Extend(s0, es, s, Evict(0));
    es, s := Extend(s0, es, s, Lookup(0));
    es, s := Extend(s0, es, s, GetOrInsert(0, 11, true));
    assert s.owners == map[1 := 11] && At(s, 1, Condemned(10)) && Live(s, 11);
    es, s := Extend(s0, es, s, Evict(1));
    es, s := Extend(s0, es, s, Lookup(1));
    es, s := Extend(s0, es, s, GetOrInsert(1, 12, true));
  }

  /** The new owner need not come after the ping: a call that only looked up the dead owner, before it was replaced, evicts the
      replacement too. */
  lemma StaleLookupEvictsLiveOwner(s0: State) returns (es: seq<Event>)
    requires Init(s0)
    ensures Run(s0, es)
    ensures var s := Final(s0, es);
            At(s, 1, Condemned(10)) && LiveEntry(s, 1) && es[|es| - 1] == Ping(1) && Enabled(s, Evict(1)) && 1 !in Next(s, Evict(1)).owners
  {
    var s;
    es, s := BothHold(s0);
    es, s := Extend(s0, es, s, Ping(0));
    es, s := Extend(s0, es, s, Evict(0));
    es, s := Extend(s0, es, s, Lookup(0));
    assert s.owners == map[] && At(s, 1, Holding(10)) && At(s, 0, Missing);
    es, s := Extend(s0, es, s, GetOrInsert(0, 11, true));
    es, s := Extend(s0, es, s, Ping(1));
  }

  // ----- the loop as the code has it

  /** Any step but one of call `c`: other calls, for the same or another id, the cleanup thread, dying owners. */
  predicate Foreign(e: Event, c: CallId) {
    e.Die? || e.Clean? || e.c != c
  }

  predicate AllForeign(es: seq<Event>, c: CallId) {
    forall i | 0 <= i < |es| :: Foreign(es[i], c)
  }

  /** What happens in the gaps of one pass of the loop, and whether spawning an owner succeeds. */
  datatype Pass = Pass(afterLookup: seq<Event>, beforePing: seq<Event>, beforeEvict: seq<Event>, spawns: bool)

  predicate PassForeign(p: Pass, c: CallId) {
    AllForeign(p.afterLookup, c) && AllForeign(p.beforePing, c) && AllForeign(p.beforeEvict, c)
  }

  /** Call `c` stands where it stood. */
  ghost predicate CallKept(before: map<CallId, Caller>, after: map<CallId, Caller>, c: CallId) {
    c in before && c in after && after[c] == before[c]
  }

  class LockManager {
    var owners: map<OwnerId, Owner>
    var spawned: map<Owner, OwnerId>
    var dead: set<Owner>
    var callers: map<CallId, Caller>   // where every call under way stands
    var nextOwner: Owner

    function View(): State
      reads this
    {
      State(owners, spawned, dead, callers)
    }

    /** Fresh owners have fresh names. */
    ghost predicate Valid()
      reads this
    {
      (forall o | o in spawned :: o < nextOwner) && forall o | o in dead :: o < nextOwner
    }

    constructor ()
      ensures Valid() && Init(View())
    {
      owners, spawned, dead, callers, nextOwner := map[], map[], {}, map[], 0;
    }

    /** Whatever other threads do in a gap; events that are not possible at their turn are skipped. */
    method Interfere(c: CallId, events: seq<Event>) returns (ghost es: seq<Event>)
      requires Valid() && c in callers && AllForeign(events, c)
      modifies this
      ensures Valid() && Run(old(View()), es) && View() == Final(old(View()), es)
      ensures old(dead) <= dead && CallKept(old(callers), callers, c) && AllForeign(es, c)
    {
      es := [];
      ghost var s0 := View();
      var i := 0;
      while i < |events|
        invariant 0 <= i <= |events| && Valid()
        invariant Run(s0, es) && View() == Final(s0, es) && old(dead) <= dead && CallKept(old(callers), callers, c) && AllForeign(es, c)
      {
        var e := events[i];
        if Enabled(View(), e) {
          RunSnoc(s0, es, e);
          es := es + [e];
          Step(c, e);
        }
        i := i + 1;
      }
    }

    /** One step of another thread. */
    method Step(c: CallId, e: Event)
      requires Valid() && c in callers && Foreign(e, c) && Enabled(View(), e)
      modifies this
      ensures Valid() && View() == Next(old(View()), e) && old(dead) <= dead && CallKept(old(callers), callers, c)
    {
      var s := Next(View(), e);
      owners, spawned, dead, callers := s.owners, s.spawned, s.dead, s.callers;
      if e.GetOrInsert? && e.made >= nextOwner {
        nextOwner := e.made + 1;
      }
    }

    /** The first half of a pass: look the id up, or spawn an owner for it. */
    method FindOrSpawn(c: CallId, id: OwnerId, newOwner: bool, pass: Pass)
      returns (owner: Option<Owner>, newOwner': bool, ghost es: seq<Event>)
      requires Valid() && PassForeign(pass, c)
      requires c in callers && callers[c].id == id && callers[c].newOwner == newOwner && callers[c].pc == Looking
      modifies this
      ensures Valid() && Run(old(View()), es) && View() == Final(old(View()), es)
      ensures c in callers && callers[c] == old(callers[c]).(newOwner := newOwner', pc := if owner.Some? then Holding(owner.value) else ReturnedError)
      ensures Evictions(es, c) == 0 && (owner.None? ==> !pass.spawns)
    {
      newOwner' := newOwner;
      ghost var s0 := View();
      es := [Lookup(c)];
      assert es[1..] == [];
      owner := Get(c, id);
      if owner.Some? {
        return;
      }
      ghost var more := Interfere(c, pass.afterLookup);
      RunConcat(s0, es, more);
      EvictionsAppend(es, more, c);
      NoneEvicted(more, c);
      es := es + more;
      ghost var e := GetOrInsert(c, nextOwner, pass.spawns);
      EvictionsAppend(es, [e], c);
      assert [e][1..] == [];
      owner, newOwner' := Entry(c, id, newOwner, pass.spawns);
      RunSnoc(s0, es, e);
      es := es + [e];
    }

    /** `owners.get(&owner_id)`. */
    method Get(c: CallId, id: OwnerId) returns (owner: Option<Owner>)
      requires Valid() && c in callers && callers[c].id == id && callers[c].pc == Looking
      modifies this`callers
      ensures Valid() && View() == Next(old(View()), Lookup(c)) && owners == old(owners)
      ensures owner == if id in owners then Some(owners[id]) else None
      ensures callers == old(callers)[c := old(callers[c]).(pc := if owner.Some? then Holding(owner.value) else Missing)]
    {
      owner := if id in owners then Some(owners[id]) else None;
      callers := callers[c := callers[c].(pc := if owner.Some? then Holding(owner.value) else Missing)];
    }

    /** `entry(id).or_try_insert_with(..)`: one step, the entry stays locked while the owner is spawned. */
    method Entry(c: CallId, id: OwnerId, newOwner: bool, spawns: bool) returns (owner: Option<Owner>, newOwner': bool)
      requires Valid() && c in callers && callers[c].id == id && callers[c].newOwner == newOwner && callers[c].pc == Missing
      modifies this
      ensures Valid() && Enabled(old(View()), GetOrInsert(c, old(nextOwner), spawns))
      ensures View() == Next(old(View()), GetOrInsert(c, old(nextOwner), spawns))
      ensures callers == old(callers)[c := old(callers[c]).(newOwner := newOwner', pc := if owner.Some? then Holding(owner.value) else ReturnedError)]
      ensures owner.None? <==> id !in old(owners) && !spawns
      ensures newOwner' <==> newOwner || (id !in old(owners) && spawns)
    {
      owner, newOwner' := None, newOwner;
      if id in owners {
        owner := Some(owners[id]);
      } else if spawns {
        owner, newOwner' := Some(nextOwner), true;
        owners, spawned, nextOwner := owners[id := nextOwner], spawned[nextOwner := id], nextOwner + 1;
      }
      callers := callers[c := callers[c].(newOwner := newOwner', pc := if owner.Some? then Holding(owner.value) else ReturnedError)];
    }

    /** The second half: ping the owner, unless it is new and has no TTL, and remove the id if the ping fails. `before` is what comes
        before the ping: the owner is kept if and only if it is exempt or alive then. */
    method PingOrEvict(c: CallId, id: OwnerId, zeroTtl: bool, newOwner: bool, owner: Owner, pass: Pass)
      returns (keep: bool, ghost es: seq<Event>, ghost before: seq<Event>)
      requires Valid() && PassForeign(pass, c)
      requires c in callers && callers[c] == Caller(id, zeroTtl, newOwner, Holding(owner))
      modifies this
      ensures Valid() && Run(old(View()), es) && View() == Final(old(View()), es)
      ensures c in callers && callers[c] == Caller(id, zeroTtl, newOwner, if keep then ReturnedOwner(owner) else Looking)
      ensures before + [Ping(c)] <= es && Run(old(View()), before)
      ensures keep <==> (zeroTtl && newOwner) || owner !in Final(old(View()), before).dead
      ensures keep ==> owner !in dead || (zeroTtl && newOwner)
      ensures !keep ==> id !in owners && owner in dead && Evictions(es, c) == 1
    {
      ghost var s0 := View();
      before := Interfere(c, pass.beforePing);
      RunSnoc(s0, before, Ping(c));
      es := before + [Ping(c)];
      if !(zeroTtl && newOwner) && owner in dead {
        callers := callers[c := callers[c].(pc := Condemned(owner))];
        ghost var more := Interfere(c, pass.beforeEvict);
        RunConcat(s0, es, more);
        es := es + more;
        RunSnoc(s0, es, Evict(c));
        NoneEvicted(before, c);
        NoneEvicted(more, c);
        EvictionsOf(before, more, c);
        es := es + [Evict(c)];
        Remove(c, id);
        return false, es, before;
      }
      callers := callers[c := callers[c].(pc := ReturnedOwner(owner))];
      return true, es, before;
    }

    /** `owners.remove(&owner_id)`. */
    method Remove(c: CallId, id: OwnerId)
      requires Valid() && c in callers && callers[c].id == id && callers[c].pc.Condemned?
      modifies this`owners, this`callers
      ensures Valid() && View() == Next(old(View()), Evict(c))
      ensures owners == old(owners) - {id} && callers == old(callers)[c := old(callers[c]).(pc := Looking)]
    {
      owners := owners - {id};
      callers := callers[c := callers[c].(pc := Looking)];
    }

    /** `get_or_create_owner`, with any other calls, deaths and the cleanup thread in every gap. What it does is a run of the
        machine; the owner it returns was alive at the ping, or is returned because the TTL is zero and the call has spawned an
        owner. It returns nothing only if spawning failed, or if every given pass ended with an eviction. */
    method GetOrCreateOwner(c: CallId, id: OwnerId, zeroTtl: bool, passes: seq<Pass>)
      returns (r: Option<Owner>, ghost es: seq<Event>)
      requires Valid() && c !in callers && forall i | 0 <= i < |passes| :: PassForeign(passes[i], c)
      modifies this
      ensures Valid() && Run(old(View()), es) && View() == Final(old(View()), es)
      ensures c in callers && callers[c].id == id && callers[c].zeroTtl == zeroTtl
      ensures match r
              case Some(o) => callers[c].pc == ReturnedOwner(o) && (o !in dead || (zeroTtl && callers[c].newOwner))
              case None => callers[c].pc == ReturnedError || (callers[c].pc == Looking && Evictions(es, c) == |passes|)
      ensures callers[c].pc == ReturnedError ==> exists i :: 0 <= i < |passes| && !passes[i].spawns
    {
      ghost var s0 := View();
      es := [Begin(c, id, zeroTtl)];
      assert es[1..] == [];
      callers := callers[c := Caller(id, zeroTtl, false, Looking)];
      var newOwner, i := false, 0;
      while i < |passes|
        invariant 0 <= i <= |passes| && Valid()
        invariant Run(s0, es) && View() == Final(s0, es) && Evictions(es, c) == i
        invariant c in callers && callers[c] == Caller(id, zeroTtl, newOwner, Looking)
      {
        var owner;
        ghost var more, before;
        owner, newOwner, more := FindOrSpawn(c, id, newOwner, passes[i]);
        RunConcat(s0, es, more);
        EvictionsAppend(es, more, c);
        es := es + more;
        if owner.None? {
          return None, es;
        }
        var keep;
        keep, more, before := PingOrEvict(c, id, zeroTtl, newOwner, owner.value, passes[i]);
        RunConcat(s0, es, more);
        EvictionsAppend(es, more, c);
        es := es + more;
        if keep {
          return Some(owner.value), es;
        }
        i := i + 1;
      }
      return None, es;
    }
  }

  /** How often call `c` evicts. */
  function Evictions(es: seq<Event>, c: CallId): nat {
    if es == [] then 0 else (if es[0] == Evict(c) then 1 else 0) + Evictions(es[1..], c)
  }

  lemma {:induction false} EvictionsAppend(a: seq<Event>, b: seq<Event>, c: CallId)
    ensures Evictions(a + b, c) == Evictions(a, c) + Evictions(b, c)
  {
    if a == [] {
      assert a + b == b;
    } else {
      assert (a + b)[1..] == a[1..] + b;
      EvictionsAppend(a[1..], b, c);
    }
  }

  lemma {:induction false} NoneEvicted(es: seq<Event>, c: CallId)
    requires AllForeign(es, c)
    ensures Evictions(es, c) == 0
  {
    if es != [] {
      assert Foreign(es[0], c);
      NoneEvicted(es[1..], c);
    }
  }

  lemma EvictionsOf(before: seq<Event>, more: seq<Event>, c: CallId)
    ensures Evictions(before + [Ping(c)] + more + [Evict(c)], c) == Evictions(before, c) + Evictions(more, c) + 1
  {
    EvictionsAppend(before, [Ping(c)], c);
    EvictionsAppend(before + [Ping(c)], more, c);
    EvictionsAppend(before + [Ping(c)] + more, [Evict(c)], c);
    assert [Ping(c)][1..] == [] && [Evict(c)][1..] == [];
  }

  lemma {:induction false} RunConcat(s0: State, a: seq<Event>, b: seq<Event>)
    requires Run(s0, a) && Run(Final(s0, a), b)
    ensures Run(s0, a + b) && Final(s0, a + b) == Final(Final(s0, a), b)
    decreases |a|
  {
    if a == [] {
      assert a + b == b;
    } else {
      assert (a + b)[1..] == a[1..] + b;
      RunConcat(Next(s0, a[0]), a[1..], b);
    }
  }
}
