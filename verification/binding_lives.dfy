/** What a sandbox's bindings are, told from the history of records and lookups
    alone. */
module BindingLives {
  import opened Net
  import opened Decision
  import opened BindingLog

  /** How long a record keeps an address, in seconds: its time to live, but at
      least an hour and at most a day. */
  function Lifetime(ttl: nat): nat {
    if ttl < 3600 then 3600 else if ttl > 86400 then 86400 else ttl
  }

  /** Operation `i` keeps the address at `now`: a record that has not run out, or
      a lookup that found the address less than an hour ago. */
  ghost predicate Holds(log: seq<Op>, a: IpAddr, i: nat, now: int)
    requires i < |log|
    decreases |log|, 0
  {
    && ToCanonical(log[i].address) == a
    && match log[i]
       case Record(_, chain, ttl, at) => chain != [] && now < at + Lifetime(ttl)
       case Lookup(_, at) => IsBound(log[..i], a, at) && now < at + 3600
  }

  /** Operation `j` forgets the address: a lookup that does not find it. */
  ghost predicate Misses(log: seq<Op>, a: IpAddr, j: nat)
    requires j < |log|
    decreases |log|, 0
  {
    log[j].Lookup? && ToCanonical(log[j].address) == a && !IsBound(log[..j], a, log[j].now)
  }

  ghost predicate HoldsStill(log: seq<Op>, a: IpAddr, i: nat, now: int)
    decreases |log|, 1
  {
    i < |log| && Holds(log, a, i, now) && forall j :: i < j < |log| ==> !Misses(log, a, j)
  }

  /** The address is bound at `now`: since it was last forgotten, some operation
      keeps it. */
  ghost predicate IsBound(log: seq<Op>, a: IpAddr, now: int)
    decreases |log|, 2
  {
    exists i: nat :: HoldsStill(log, a, i, now)
  }

  /** The chain was recorded for the address since that was last forgotten. */
  ghost predicate IsKnown(log: seq<Op>, a: IpAddr, chain: Chain) {
    exists i :: 0 <= i < |log| && Binds(log[i], a, chain) && forall j :: i < j < |log| ==> !Misses(log, a, j)
  }

  //--- one more operation ------------------------------------------------------------------------

  lemma SameEarlier(log: seq<Op>, op: Op, a: IpAddr, i: nat, now: int)
    requires i < |log|
    ensures Holds(log + [op], a, i, now) <==> Holds(log, a, i, now)
    ensures Misses(log + [op], a, i) <==> Misses(log, a, i)
  {
    assert (log + [op])[..i] == log[..i];
  }

  lemma StillEarlier(log: seq<Op>, op: Op, a: IpAddr, i: nat, now: int)
    requires i < |log|
    ensures HoldsStill(log + [op], a, i, now) <==> HoldsStill(log, a, i, now) && !Misses(log + [op], a, |log|)
  {
    SameEarlier(log, op, a, i, now);
    forall j | i < j < |log| ensures Misses(log + [op], a, j) <==> Misses(log, a, j) {
      SameEarlier(log, op, a, j, now);
    }
  }

  /** What an operation does by itself. */
  lemma Newest(log: seq<Op>, op: Op, a: IpAddr, now: int)
    ensures Misses(log + [op], a, |log|) <==> op.Lookup? && ToCanonical(op.address) == a && !IsBound(log, a, op.now)
    ensures Holds(log + [op], a, |log|, now) <==>
              && ToCanonical(op.address) == a
              && match op
                 case Record(_, chain, ttl, at) => chain != [] && now < at + Lifetime(ttl)
                 case Lookup(_, at) => IsBound(log, a, at) && now < at + 3600
  {
    assert (log + [op])[..|log|] == log;
  }

  lemma BoundLater(log: seq<Op>, op: Op, a: IpAddr, now: int)
    ensures IsBound(log + [op], a, now) <==>
              Holds(log + [op], a, |log|, now) || (IsBound(log, a, now) && !Misses(log + [op], a, |log|))
  {
    var longer := log + [op];
    if i: nat :| HoldsStill(longer, a, i, now) {
      if i < |log| { StillEarlier(log, op, a, i, now); }
    }
    if Holds(longer, a, |log|, now) {
      assert HoldsStill(longer, a, |log|, now);
    } else if !Misses(longer, a, |log|) {
      if i: nat :| HoldsStill(log, a, i, now) { StillEarlier(log, op, a, i, now); }
    }
  }

  //--- the store ---------------------------------------------------------------------------------

  predicate LiveAt(entries: Entries, a: IpAddr, now: int) {
    a in entries && now < entries[a].expiresAt
  }

  lemma StepIsLive(entries: Entries, op: Op, a: IpAddr, now: int)
    ensures LiveAt(Step(entries, op), a, now) <==>
              if ToCanonical(op.address) != a then LiveAt(entries, a, now)
              else match op
                   case Record(_, chain, ttl, at) => LiveAt(entries, a, now) || (chain != [] && now < at + Lifetime(ttl))
                   case Lookup(_, at) => LiveAt(entries, a, at) && (LiveAt(entries, a, now) || now < at + 3600)
  {
  }

  /** Over every history: the store holds an address at `now` exactly when the
      history says that it is bound. */
  lemma {:induction false} LiveIff(log: seq<Op>, a: IpAddr, now: int)
    ensures LiveAt(Unbounded(log), a, now) <==> IsBound(log, a, now)
  {
    if log != [] {
      var n := |log| - 1;
      var before, op := log[..n], log[n];
      assert log == before + [op];
      LiveIff(before, a, now);
      LiveIff(before, a, op.now);
      StepIsLive(Unbounded(before), op, a, now);
      BoundLater(before, op, a, now);
      Newest(before, op, a, now);
    }
  }

  lemma MissesIsForgets(log: seq<Op>, a: IpAddr, j: nat)
    requires j < |log|
    ensures Misses(log, a, j) <==> Forgets(log, a, j)
  {
    LiveIff(log[..j], a, log[j].now);
  }

  lemma KnownIff(log: seq<Op>, a: IpAddr, chain: Chain)
    ensures IsKnown(log, a, chain) <==> Remembered(log, a, chain)
  {
    forall j | 0 <= j < |log| ensures Misses(log, a, j) <==> Forgets(log, a, j) {
      MissesIsForgets(log, a, j);
    }
  }

  /** What a lookup returns is what the history says: every chain that was recorded
      since the address was last forgotten, as long as some record or lookup since
      then still keeps it. */
  lemma FoundIff(log: seq<Op>, address: IpAddr, now: int, chain: Chain)
    requires chain != []
    ensures chain in Found(Unbounded(log), address, now)
            <==> IsBound(log, ToCanonical(address), now) && IsKnown(log, ToCanonical(address), chain)
  {
    var a := ToCanonical(address);
    CanonicalForms(address, address);
    LiveIff(log, a, now);
    KnownIff(log, a, chain);
    ChainsAreRemembered(log, a, chain);
  }

  /** A record, or a lookup that finds its address, never takes away a chain that
      any address would have had at any time, nor changes their order. */
  lemma NothingIsTakenAway(entries: Entries, op: Op, address: IpAddr, later: int)
    requires op.Lookup? ==> Live(entries, op.address, op.now)
    ensures Found(entries, address, later) <= Found(Step(entries, op), address, later)
  {
    StepIsLive(entries, op, ToCanonical(address), later);
  }
}
