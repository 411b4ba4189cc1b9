/** Allocation of 64-bit ids from a wrapping counter (src/owner.rs:276-289 and src/owner.rs:311-322).

The registration loop and the interrupt loop are the same code over different maps: take the counter
value, advance it with wrap-around, insert if the value is free, else try again.
*/
module IdAllocation {

  const TWO64: nat := 0x1_0000_0000_0000_0000

  type U64 = n: nat | n < TWO64

  /** `fetch_add(1)`: the counter after one more try. */
  function Bump(n: U64): U64 {
    if n + 1 == TWO64 then 0 else n + 1
  }

  /** The counter after `k` tries. */
  function Ahead(n: U64, k: nat): U64 {
    (n + k) % TWO64
  }

  /** Tries within one lap of the counter are all different, also across the wrap. */
  lemma AheadInjective(n: U64, j: nat, k: nat)
    requires j < k < TWO64 + j
    ensures Ahead(n, j) != Ahead(n, k)
  {
  }

  lemma AheadStep(n: U64, k: nat)
    ensures Ahead(n, 0) == n && Ahead(n, k + 1) == Bump(Ahead(n, k))
  {
    var q := (n + k) / TWO64;
    assert n + k == q * TWO64 + Ahead(n, k);
    if Ahead(n, k) + 1 == TWO64 {
      assert n + k + 1 == (q + 1) * TWO64;
    } else {
      assert n + k + 1 == q * TWO64 + (Ahead(n, k) + 1);
    }
  }

  /** One of the daemon's two maps with its counter. */
  class IdMap<V> {
    var next: U64
    var entries: map<U64, V>

    constructor ()
      ensures next == 0 && entries == map[]
    {
      next, entries := 0, map[];
    }

    /** Inserts `v` under the first free id at or after the counter, in cyclic order. No live entry is
        overwritten, every id passed over was taken, and at most one more try is made than there are
        live entries. */
    method Insert(v: V) returns (id: U64, tries: nat)
      requires |entries| < TWO64
      modifies this
      ensures id !in old(entries) && entries == old(entries)[id := v]
      ensures 1 <= tries <= |old(entries)| + 1
      ensures id == Ahead(old(next), tries - 1) && next == Ahead(old(next), tries)
      ensures forall k | 0 <= k < tries - 1 :: Ahead(old(next), k) in old(entries)
    {
      ghost var start := next;
      ghost var seen: set<U64> := {};
      tries := 0;
      AheadStep(start, 0);
      while true
        invariant entries == old(entries)
        invariant next == Ahead(start, tries)
        invariant seen <= entries.Keys && |seen| == tries
        invariant forall k | 0 <= k < tries :: Ahead(start, k) in entries
        invariant forall x | x in seen :: exists k :: 0 <= k < tries && Ahead(start, k) == x
        decreases |entries| + 1 - tries
      {
        TriesBounded(seen, entries.Keys);
        id := next;
        AheadStep(start, tries);
        next := Bump(next);
        tries := tries + 1;
        if id !in entries {
          entries := entries[id := v];
          return;
        }
        NotSeenYet(start, seen, tries - 1);
        seen := seen + {id};
      }
    }
  }

  lemma TriesBounded(seen: set<U64>, keys: set<U64>)
    requires seen <= keys
    ensures |seen| <= |keys|
  {
    assert keys == seen + (keys - seen);
  }

  lemma NotSeenYet(start: U64, seen: set<U64>, k: nat)
    requires k < TWO64
    requires forall x | x in seen :: exists j :: 0 <= j < k && Ahead(start, j) == x
    ensures Ahead(start, k) !in seen
  {
    if Ahead(start, k) in seen {
      var j :| 0 <= j < k && Ahead(start, j) == Ahead(start, k);
      AheadInjective(start, j, k);
    }
  }
}
