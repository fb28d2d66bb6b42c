/** The binding store with a bound: when it is full, the address least recently
    seen makes room. It is kept beside the store that never evicts. */
module Bindings {
  import opened BindingLog
  import opened Collections
  import opened Decision
  import opened Net

  //--- bounded against unbounded -----------------------------------------------------------------

  /** What an entry of the bounded store may have lost of the unbounded one. */
  predicate Within(entry: Entry, full: Entry) {
    && (forall c :: c in entry.chains ==> c in full.chains)
    && entry.expiresAt <= full.expiresAt
    && entry.lastSeen == full.lastSeen
  }

  /** The bounded store knows part of what the unbounded one knows, and all of
      it about the addresses that were not lost. */
  ghost predicate Simulates(entries: Entries, full: Entries, lost: set<IpAddr>) {
    && (forall a :: a in entries ==> a in full && Within(entries[a], full[a]))
    && (forall a :: a in full && a !in lost ==> a in entries && entries[a] == full[a])
  }

  lemma RecordedSimulates(entries: Entries, full: Entries, lost: set<IpAddr>, address: IpAddr, chain: Chain, ttl: nat, now: int)
    requires Simulates(entries, full, lost)
    ensures Simulates(Recorded(entries, address, chain, ttl, now), Recorded(full, address, chain, ttl, now), lost)
  {
  }

  lemma LookedUpSimulates(entries: Entries, full: Entries, lost: set<IpAddr>, address: IpAddr, now: int)
    requires Simulates(entries, full, lost)
    ensures Simulates(LookedUp(entries, address, now), LookedUp(full, address, now),
                      if Live(full, address, now) then lost else lost - {ToCanonical(address)})
  {
  }

  /** A lookup's answer is part of the unbounded store's, and all of it unless
      the address was lost; every chain in it was recorded for that address. */
  ghost predicate FoundAsFull(log: seq<Op>, lost: set<IpAddr>, address: IpAddr, now: int, chains: seq<Chain>) {
    && (forall c :: c in chains ==>
          c in Found(Unbounded(log), address, now) && WasRecorded(log, ToCanonical(address), c))
    && (ToCanonical(address) !in lost ==> chains == Found(Unbounded(log), address, now))
  }

  lemma FoundWithin(log: seq<Op>, entries: Entries, lost: set<IpAddr>, address: IpAddr, now: int)
    requires AllWellFormed(log, entries) && Simulates(entries, Unbounded(log), lost)
    ensures FoundAsFull(log, lost, address, now, Found(entries, address, now))
  {
    var a := ToCanonical(address);
    if a in entries {
      assert WellFormed(log, a, entries[a]) && Within(entries[a], Unbounded(log)[a]);
    }
  }

  lemma LookupKeeps(log: seq<Op>, entries: Entries, lost: set<IpAddr>, address: IpAddr, now: int)
    requires AllWellFormed(log, entries) && Simulates(entries, Unbounded(log), lost)
    ensures var log', after := log + [Lookup(address, now)], LookedUp(entries, address, now);
            && AllWellFormed(log', after)
            && Simulates(after, Unbounded(log'),
                         if Live(Unbounded(log), address, now) then lost else lost - {ToCanonical(address)})
            && |after| <= |entries|
  {
    LookedUpIsWellFormed(log, entries, address, now);
    LookedUpSimulates(entries, Unbounded(log), lost, address, now);
    Extend(log, Lookup(address, now));
    assert LookedUp(entries, address, now).Keys <= entries.Keys;
    SubsetSize(LookedUp(entries, address, now).Keys, entries.Keys);
  }

  /** At least `capacity` other addresses were seen no earlier. */
  ghost predicate LeastRecent(entries: Entries, a: IpAddr, capacity: nat) {
    a in entries && exists others: set<IpAddr> :: OthersSeenSince(entries, a, others) && |others| >= capacity
  }

  predicate OthersSeenSince(entries: Entries, a: IpAddr, others: set<IpAddr>)
    requires a in entries
  {
    a !in others && forall b :: b in others ==> b in entries && entries[b].lastSeen >= entries[a].lastSeen
  }

  predicate Oldest(entries: Entries, a: IpAddr) {
    a in entries && forall b :: b in entries ==> entries[a].lastSeen <= entries[b].lastSeen
  }

  lemma {:induction false} SomeOldest(entries: Entries)
    requires entries != map[]
    ensures exists a :: Oldest(entries, a)
    decreases |entries|
  {
    var a :| a in entries;
    var rest := entries - {a};
    if rest == map[] {
      assert forall b :: b in entries ==> b == a || b in rest;
      assert Oldest(entries, a);
    } else {
      assert |rest| < |entries| by { assert rest.Keys == entries.Keys - {a}; }
      SomeOldest(rest);
      var b :| Oldest(rest, b);
      assert Oldest(entries, if entries[a].lastSeen <= entries[b].lastSeen then a else b) by {
        forall c | c in entries ensures c == a || c in rest {
        }
      }
    }
  }

  /** What one `record` may evict: nothing while there is room, else one address
      that `capacity` others have outlasted. */
  ghost predicate Evictable(all: Entries, evicted: set<IpAddr>, capacity: nat) {
    if |all| <= capacity then evicted == {}
    else exists a :: evicted == {a} && LeastRecent(all, a, capacity)
  }

  lemma OldestIsEvictable(all: Entries, oldest: IpAddr, capacity: nat)
    requires Oldest(all, oldest) && |all| == capacity + 1
    ensures Evictable(all, {oldest}, capacity) && |all - {oldest}| == capacity
  {
    var others := all.Keys - {oldest};
    assert (all - {oldest}).Keys == others;
    assert |others| >= capacity && OthersSeenSince(all, oldest, others);
  }

  /** Evicting addresses keeps the simulation: they are then lost. */
  lemma Evicting(log: seq<Op>, entries: Entries, lost: set<IpAddr>, evicted: set<IpAddr>)
    requires AllWellFormed(log, entries) && Simulates(entries, Unbounded(log), lost)
    ensures AllWellFormed(log, entries - evicted) && Simulates(entries - evicted, Unbounded(log), lost + evicted)
  {
  }

  lemma RecordedSize(entries: Entries, address: IpAddr, chain: Chain, ttl: nat, now: int)
    ensures |Recorded(entries, address, chain, ttl, now)| <= |entries| + 1
  {
    assert chain != [] ==> Recorded(entries, address, chain, ttl, now).Keys == entries.Keys + {ToCanonical(address)};
  }

  lemma RecordKeeps(log: seq<Op>, entries: Entries, lost: set<IpAddr>, address: IpAddr, chain: Chain, ttl: nat, now: int,
                    evicted: set<IpAddr>)
    requires AllWellFormed(log, entries) && Simulates(entries, Unbounded(log), lost)
    ensures var log', after := log + [Record(address, chain, ttl, now)], Recorded(entries, address, chain, ttl, now) - evicted;
            AllWellFormed(log', after) && Simulates(after, Unbounded(log'), lost + evicted)
  {
    RecordedIsWellFormed(log, entries, address, chain, ttl, now);
    RecordedSimulates(entries, Unbounded(log), lost, address, chain, ttl, now);
    Extend(log, Record(address, chain, ttl, now));
    Evicting(log + [Record(address, chain, ttl, now)], Recorded(entries, address, chain, ttl, now), lost, evicted);
  }

  //--- retention ---------------------------------------------------------------------------------

  /** The entry is at least as good as one of a store that started later. */
  ghost predicate Remembers(entries: Entries, since: Entries, a: IpAddr) {
    a in since ==>
      && a in entries
      && (forall c :: c in since[a].chains ==> c in entries[a].chains)
      && since[a].expiresAt <= entries[a].expiresAt && since[a].lastSeen == entries[a].lastSeen
  }

  /** Operation `i` recorded the address, and at every moment since then fewer
      than `capacity` other addresses had been used no earlier than it was. The
      unbounded store of the history since `i` tells when that was. */
  ghost predicate Uncrowded(log: seq<Op>, i: nat, a: IpAddr, capacity: nat) {
    && i < |log| && log[i].Record? && log[i].chain != [] && ToCanonical(log[i].address) == a
    && forall j :: i < j <= |log| && a in Unbounded(log[i..j]) ==>
         |Rivals(log[..j], a, Unbounded(log[i..j])[a].lastSeen)| < capacity
  }

  /** The bounded store remembers of an uncrowded address whatever an unbounded
      store that started with its record would. */
  ghost predicate Retains(log: seq<Op>, entries: Entries, capacity: nat) {
    forall i: nat, a :: Uncrowded(log, i, a, capacity) ==> Remembers(entries, Unbounded(log[i..]), a)
  }

  lemma UncrowdedBefore(log: seq<Op>, op: Op, i: nat, a: IpAddr, capacity: nat)
    requires Uncrowded(log + [op], i, a, capacity) && i < |log|
    ensures Uncrowded(log, i, a, capacity)
    ensures Unbounded((log + [op])[i..]) == Step(Unbounded(log[i..]), op)
  {
    var longer := log + [op];
    forall j | i < j <= |log| && a in Unbounded(log[i..j])
      ensures |Rivals(log[..j], a, Unbounded(log[i..j])[a].lastSeen)| < capacity
    {
      assert longer[i..j] == log[i..j] && longer[..j] == log[..j];
    }
    assert longer[i..] == log[i..] + [op];
    Extend(log[i..], op);
  }

  lemma StepRemembers(entries: Entries, since: Entries, op: Op, a: IpAddr)
    requires Remembers(entries, since, a)
    ensures Remembers(Step(entries, op), Step(since, op), a)
  {
  }

  lemma FreshRemembers(entries: Entries, op: Op, a: IpAddr)
    requires op.Record? && op.chain != [] && ToCanonical(op.address) == a
    ensures Remembers(Step(entries, op), Unbounded([op]), a)
  {
    assert [op][..0] == [];
    assert Unbounded([op]) == Step(map[], op);
  }

  /** After one more operation, before any eviction. */
  lemma StepRetains(log: seq<Op>, entries: Entries, op: Op, capacity: nat, i: nat, a: IpAddr)
    requires Retains(log, entries, capacity) && Uncrowded(log + [op], i, a, capacity)
    ensures Remembers(Step(entries, op), Unbounded((log + [op])[i..]), a)
  {
    if i < |log| {
      UncrowdedBefore(log, op, i, a, capacity);
      StepRemembers(entries, Unbounded(log[i..]), op, a);
    } else {
      assert (log + [op])[i..] == [op];
      FreshRemembers(entries, op, a);
    }
  }

  lemma OutlastersAreRivals(log: seq<Op>, all: Entries, lost: set<IpAddr>, a: IpAddr, others: set<IpAddr>)
    requires Simulates(all, Unbounded(log), lost) && a in all && OthersSeenSince(all, a, others)
    ensures others <= Rivals(log, a, all[a].lastSeen)
  {
    forall b | b in others ensures b in Rivals(log, a, all[a].lastSeen) {
      LastSeenIsAUse(log, b);
      var j :| 0 <= j < |log| && Uses(log, j, b) && log[j].now == all[b].lastSeen;
    }
  }

  /** An uncrowded address is not the one to go. */
  lemma UncrowdedStays(log: seq<Op>, all: Entries, lost: set<IpAddr>, evicted: set<IpAddr>, capacity: nat, i: nat, a: IpAddr)
    requires Simulates(all, Unbounded(log), lost) && Evictable(all, evicted, capacity)
    requires Uncrowded(log, i, a, capacity) && Remembers(all, Unbounded(log[i..]), a)
    ensures Remembers(all - evicted, Unbounded(log[i..]), a)
  {
    if a in Unbounded(log[i..]) && LeastRecent(all, a, capacity) {
      var others: set<IpAddr> :| OthersSeenSince(all, a, others) && |others| >= capacity;
      OutlastersAreRivals(log, all, lost, a, others);
      assert log[i..|log|] == log[i..] && log[..|log|] == log;
      SubsetSize(others, Rivals(log, a, all[a].lastSeen));
    }
  }

  lemma RecordRetains(log: seq<Op>, entries: Entries, lost: set<IpAddr>, op: Op, evicted: set<IpAddr>, capacity: nat)
    requires op.Record? && Retains(log, entries, capacity) && Simulates(entries, Unbounded(log), lost)
    requires Evictable(Step(entries, op), evicted, capacity)
    ensures Retains(log + [op], Step(entries, op) - evicted, capacity)
  {
    var longer, all := log + [op], Step(entries, op);
    RecordedSimulates(entries, Unbounded(log), lost, op.address, op.chain, op.ttl, op.now);
    Extend(log, op);
    forall i: nat, a | Uncrowded(longer, i, a, capacity)
      ensures Remembers(all - evicted, Unbounded(longer[i..]), a)
    {
      StepRetains(log, entries, op, capacity, i, a);
      UncrowdedStays(longer, all, lost, evicted, capacity, i, a);
    }
  }

  lemma LookupRetains(log: seq<Op>, entries: Entries, op: Op, capacity: nat)
    requires op.Lookup? && Retains(log, entries, capacity)
    ensures Retains(log + [op], Step(entries, op), capacity)
  {
    forall i: nat, a | Uncrowded(log + [op], i, a, capacity)
      ensures Remembers(Step(entries, op), Unbounded((log + [op])[i..]), a)
    {
      StepRetains(log, entries, op, capacity, i, a);
    }
  }

  class BindingStore {
    var entries: Entries
    const capacity: nat
    var evictions: nat
    /** Every operation so far. */
    ghost var log: seq<Op>
    /** Addresses evicted since the unbounded store last forgot them. */
    ghost var lost: set<IpAddr>

    constructor (capacity: nat)
      ensures Valid() && entries == map[] && log == [] && evictions == 0
      ensures this.capacity == if capacity == 0 then 1 else capacity
    {
      entries, evictions := map[], 0;
      this.capacity := if capacity == 0 then 1 else capacity;
      log, lost := [], {};
    }

    ghost predicate Valid()
      reads this
    {
      && 1 <= capacity && |entries| <= capacity
      && AllWellFormed(log, entries)
      && Simulates(entries, Unbounded(log), lost)
      && Retains(log, entries, capacity)
      && (evictions == 0 ==> lost == {})
    }

    /** Binds a chain to an address. At most one address is evicted, and only
        one that `capacity` others have outlasted. */
    method Record(address: IpAddr, chain: Chain, ttl: nat, now: int) returns (ghost evicted: set<IpAddr>)
      requires Valid()
      modifies this
      ensures Valid()
      ensures log == old(log) + [Op.Record(address, chain, ttl, now)]
      ensures var all := Recorded(old(entries), address, chain, ttl, now);
              entries == all - evicted && Evictable(all, evicted, capacity)
      ensures evictions == old(evictions) + |evicted| && lost == old(lost) + evicted
    {
      RecordedSize(entries, address, chain, ttl, now);
      evicted := Put(address, chain, ttl, now);
      RecordKeeps(log, old(entries), lost, address, chain, ttl, now, evicted);
      RecordRetains(log, old(entries), lost, Op.Record(address, chain, ttl, now), evicted, capacity);
      log, lost := log + [Op.Record(address, chain, ttl, now)], lost + evicted;
    }

    /** The entry is created or extended, and refreshed; then the oldest go. */
    method Put(address: IpAddr, chain: Chain, ttl: nat, now: int) returns (ghost evicted: set<IpAddr>)
      requires 1 <= capacity && |entries| <= capacity
      requires |Recorded(entries, address, chain, ttl, now)| <= capacity + 1
      modifies this`entries, this`evictions
      ensures |entries| <= capacity && evictions == old(evictions) + |evicted|
      ensures var all := Recorded(old(entries), address, chain, ttl, now);
              entries == all - evicted && Evictable(all, evicted, capacity)
    {
      evicted := {};
      if chain == [] {
        assert entries - {} == entries;
        return;
      }
      Upsert(address, chain, ttl, now);
      evicted := EvictOldest();
    }

    method Upsert(address: IpAddr, chain: Chain, ttl: nat, now: int)
      requires chain != []
      modifies this`entries
      ensures entries == Recorded(old(entries), address, chain, ttl, now)
    {
      var a := ToCanonical(address);
      var expiresAt := now + Clamp(ttl);
      var entry := if a in entries then entries[a] else Entry([], expiresAt, now);
      if chain !in entry.chains {
        entry := entry.(chains := entry.chains + [chain]);
      }
      entry := entry.(expiresAt := Max(entry.expiresAt, expiresAt), lastSeen := now);
      entries := entries[a := entry];
    }

    /** The eviction loop. */
    method EvictOldest() returns (ghost evicted: set<IpAddr>)
      requires 1 <= capacity && |entries| <= capacity + 1
      modifies this`entries, this`evictions
      ensures |entries| <= capacity && evictions == old(evictions) + |evicted|
      ensures entries == old(entries) - evicted && Evictable(old(entries), evicted, capacity)
    {
      evicted := {};
      assert entries - {} == entries;
      while |entries| > capacity
        invariant entries == old(entries) - evicted && evictions == old(evictions) + |evicted|
        invariant evicted == {} || |entries| <= capacity
        invariant Evictable(old(entries), evicted, capacity) || evicted == {}
        decreases |entries|
      {
        SomeOldest(entries);
        var oldest :| Oldest(entries, oldest);
        OldestIsEvictable(entries, oldest, capacity);
        entries := entries - {oldest};
        evicted := {oldest};
        evictions := evictions + 1;
      }
    }

    /** Chains bound to an address, refreshing the binding; never more than the
        unbounded store would return, and all of it unless the address was lost. */
    method Lookup(address: IpAddr, now: int) returns (chains: seq<Chain>)
      requires Valid()
      modifies this`entries, this`log, this`lost
      ensures Valid()
      ensures log == old(log) + [Op.Lookup(address, now)]
      ensures chains == Found(old(entries), address, now)
      ensures entries == LookedUp(old(entries), address, now)
      ensures FoundAsFull(old(log), old(lost), address, now, chains)
      ensures evictions == 0 ==> chains == Found(Unbounded(old(log)), address, now)
      ensures forall i: nat :: Uncrowded(old(log), i, ToCanonical(address), capacity) ==>
                forall c :: c in Found(Unbounded(old(log)[i..]), address, now) ==> c in chains
      ensures lost <= old(lost)
    {
      forall i: nat | Uncrowded(log, i, ToCanonical(address), capacity)
        ensures forall c :: c in Found(Unbounded(log[i..]), address, now) ==> c in Found(entries, address, now)
      {
        RecentIsFound(log, entries, capacity, i, address, now);
      }
      FoundWithin(log, entries, lost, address, now);
      LookupKeeps(log, entries, lost, address, now);
      LookupRetains(log, entries, Op.Lookup(address, now), capacity);
      lost := if Live(Unbounded(log), address, now) then lost else lost - {ToCanonical(address)};
      log := log + [Op.Lookup(address, now)];
      chains := Take(address, now);
    }

    method Take(address: IpAddr, now: int) returns (chains: seq<Chain>)
      modifies this`entries
      ensures chains == Found(old(entries), address, now)
      ensures entries == LookedUp(old(entries), address, now)
    {
      var a := ToCanonical(address);
      if a !in entries {
        assert entries - {a} == entries;
        return [];
      }
      var entry := entries[a];
      if entry.expiresAt <= now {
        entries := entries - {a};
        return [];
      }
      chains := entry.chains;
      entries := entries[a := entry.(lastSeen := now, expiresAt := Max(entry.expiresAt, now + TTL_FLOOR))];
    }
  }

  /** In the bounded store too, a binding lives between an hour and a day past
      its last use. */
  lemma BindingLifetime(log: seq<Op>, entries: Entries, lost: set<IpAddr>, a: IpAddr)
    requires AllWellFormed(log, entries) && Simulates(entries, Unbounded(log), lost)
    requires Monotone(log) && a in entries
    ensures entries[a].lastSeen + TTL_FLOOR <= entries[a].expiresAt <= entries[a].lastSeen + TTL_CAP
  {
    ExpiresWithinADay(log);
    assert WellFormed(log, a, entries[a]);
  }

  /** A binding is found, as long as it has not expired since its record, while
      fewer than `capacity` other addresses were used no earlier than its last
      use: at least what a store that started with its record would find. */
  lemma RecentIsFound(log: seq<Op>, entries: Entries, capacity: nat, i: nat, address: IpAddr, now: int)
    requires Retains(log, entries, capacity) && Uncrowded(log, i, ToCanonical(address), capacity)
    ensures forall c :: c in Found(Unbounded(log[i..]), address, now) ==> c in Found(entries, address, now)
  {
  }
}
