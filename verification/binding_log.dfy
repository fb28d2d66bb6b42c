/** The histories of a sandbox's bindings, and the store that never evicts. */
module BindingLog {
  import opened Collections
  import opened Net
  import opened Decision

  const TTL_FLOOR := 60 * 60
  const TTL_CAP := 24 * 60 * 60

  datatype Entry = Entry(chains: seq<Chain>, expiresAt: int, lastSeen: int)

  type Entries = map<IpAddr, Entry>

  datatype Op =
    | Record(address: IpAddr, chain: Chain, ttl: nat, now: int)
    | Lookup(address: IpAddr, now: int)

  function Max(a: int, b: int): int {
    if a < b then b else a
  }

  function Clamp(ttl: nat): nat {
    if ttl < TTL_FLOOR then TTL_FLOOR else if ttl > TTL_CAP then TTL_CAP else ttl
  }

  //--- without a bound ---------------------------------------------------------------------------

  /** `record` up to its eviction loop. */
  function Recorded(entries: Entries, address: IpAddr, chain: Chain, ttl: nat, now: int): Entries {
    if chain == [] then entries
    else
      var a := ToCanonical(address);
      var expiresAt := now + Clamp(ttl);
      var entry := if a in entries then entries[a] else Entry([], expiresAt, now);
      var chains := if chain in entry.chains then entry.chains else entry.chains + [chain];
      entries[a := Entry(chains, Max(entry.expiresAt, expiresAt), now)]
  }

  predicate Live(entries: Entries, address: IpAddr, now: int) {
    ToCanonical(address) in entries && entries[ToCanonical(address)].expiresAt > now
  }

  /** What `lookup` returns. */
  function Found(entries: Entries, address: IpAddr, now: int): seq<Chain> {
    if Live(entries, address, now) then entries[ToCanonical(address)].chains else []
  }

  /** What `lookup` leaves: a live entry is refreshed, an expired one removed. */
  function LookedUp(entries: Entries, address: IpAddr, now: int): Entries {
    var a := ToCanonical(address);
    if Live(entries, address, now) then
      entries[a := Entry(entries[a].chains, Max(entries[a].expiresAt, now + TTL_FLOOR), now)]
    else entries - {a}
  }

  function Step(entries: Entries, op: Op): Entries {
    match op
    case Record(address, chain, ttl, now) => Recorded(entries, address, chain, ttl, now)
    case Lookup(address, now) => LookedUp(entries, address, now)
  }

  /** The never-evicting store after a history of operations. */
  function Unbounded(log: seq<Op>): Entries {
    if log == [] then map[] else Step(Unbounded(log[..|log| - 1]), log[|log| - 1])
  }

  lemma Extend(log: seq<Op>, op: Op)
    ensures Unbounded(log + [op]) == Step(Unbounded(log), op)
  {
    assert (log + [op])[..|log|] == log;
  }

  /** The chain was recorded for the address, in either of its forms. */
  ghost predicate WasRecorded(log: seq<Op>, a: IpAddr, chain: Chain) {
    exists i :: 0 <= i < |log| && log[i].Record? && ToCanonical(log[i].address) == a && log[i].chain == chain
  }

  ghost predicate WellFormed(log: seq<Op>, a: IpAddr, entry: Entry) {
    && ToCanonical(a) == a
    && entry.chains != [] && Distinct(entry.chains)
    && (forall c :: c in entry.chains ==> c != [] && WasRecorded(log, a, c))
    && entry.lastSeen + TTL_FLOOR <= entry.expiresAt
  }

  lemma LongerLog(log: seq<Op>, op: Op, a: IpAddr, entry: Entry)
    requires WellFormed(log, a, entry)
    ensures WellFormed(log + [op], a, entry)
  {
    forall c | c in entry.chains ensures WasRecorded(log + [op], a, c) {
      var i :| 0 <= i < |log| && log[i].Record? && ToCanonical(log[i].address) == a && log[i].chain == c;
      assert (log + [op])[i] == log[i];
    }
  }

  /** Keys are canonical, chains nonempty, distinct and recorded; a binding lives
      at least an hour past its last use. */
  ghost predicate AllWellFormed(log: seq<Op>, entries: Entries) {
    forall a :: a in entries ==> WellFormed(log, a, entries[a])
  }

  lemma RecordedIsWellFormed(log: seq<Op>, entries: Entries, address: IpAddr, chain: Chain, ttl: nat, now: int)
    requires AllWellFormed(log, entries)
    ensures AllWellFormed(log + [Record(address, chain, ttl, now)], Recorded(entries, address, chain, ttl, now))
  {
    var op := Record(address, chain, ttl, now);
    var after := Recorded(entries, address, chain, ttl, now);
    assert (log + [op])[|log|] == op;
    forall a | a in after ensures WellFormed(log + [op], a, after[a]) {
      if a in entries {
        LongerLog(log, op, a, entries[a]);
      }
    }
  }

  lemma LookedUpIsWellFormed(log: seq<Op>, entries: Entries, address: IpAddr, now: int)
    requires AllWellFormed(log, entries)
    ensures AllWellFormed(log + [Lookup(address, now)], LookedUp(entries, address, now))
  {
    forall a | a in LookedUp(entries, address, now)
      ensures WellFormed(log + [Lookup(address, now)], a, LookedUp(entries, address, now)[a])
    {
      LongerLog(log, Lookup(address, now), a, entries[a]);
    }
  }

  ghost predicate Monotone(log: seq<Op>) {
    forall i, j :: 0 <= i < j < |log| ==> log[i].now <= log[j].now
  }

  /** With a clock that does not go back, no binding outlives its last use by
      more than a day. */
  lemma {:induction false} ExpiresWithinADay(log: seq<Op>)
    requires Monotone(log)
    ensures forall a :: a in Unbounded(log) ==>
              && Unbounded(log)[a].expiresAt <= Unbounded(log)[a].lastSeen + TTL_CAP
              && (log != [] ==> Unbounded(log)[a].lastSeen <= log[|log| - 1].now)
  {
    if log != [] {
      var n := |log| - 1;
      ExpiresWithinADay(log[..n]);
      if n > 0 { assert log[..n][n - 1].now <= log[n].now; }
    }
  }

  //--- what a history leaves ---------------------------------------------------------------------

  /** After operation `i` the address was looked up while it was not live. */
  ghost predicate ForgottenAfter(log: seq<Op>, a: IpAddr, i: nat) {
    exists j :: i < j < |log| && Forgets(log, a, j)
  }

  ghost predicate Forgets(log: seq<Op>, a: IpAddr, j: nat)
    requires j < |log|
  {
    log[j].Lookup? && ToCanonical(log[j].address) == a && !Live(Unbounded(log[..j]), log[j].address, log[j].now)
  }

  predicate Binds(op: Op, a: IpAddr, chain: Chain) {
    op.Record? && ToCanonical(op.address) == a && op.chain == chain
  }

  /** The chain was recorded for the address and not forgotten since. */
  ghost predicate Remembered(log: seq<Op>, a: IpAddr, chain: Chain) {
    exists i :: 0 <= i < |log| && Binds(log[i], a, chain) && !ForgottenAfter(log, a, i)
  }

  lemma ForgottenLater(log: seq<Op>, op: Op, a: IpAddr, i: nat)
    requires i < |log|
    ensures ForgottenAfter(log + [op], a, i) <==> ForgottenAfter(log, a, i) || Forgets(log + [op], a, |log|)
  {
    var longer := log + [op];
    forall j | 0 <= j < |log| ensures Forgets(longer, a, j) <==> Forgets(log, a, j) {
      assert longer[..j] == log[..j];
    }
  }

  lemma RememberedLater(log: seq<Op>, op: Op, a: IpAddr, chain: Chain)
    ensures Remembered(log + [op], a, chain) <==>
              Binds(op, a, chain) || (Remembered(log, a, chain) && !Forgets(log + [op], a, |log|))
  {
    var longer := log + [op];
    if Remembered(longer, a, chain) {
      var i :| 0 <= i < |longer| && Binds(longer[i], a, chain) && !ForgottenAfter(longer, a, i);
      if i < |log| { ForgottenLater(log, op, a, i); }
    }
    if Binds(op, a, chain) {
      assert longer[|log|] == op && !ForgottenAfter(longer, a, |log|);
    } else if Remembered(log, a, chain) && !Forgets(longer, a, |log|) {
      var i :| 0 <= i < |log| && Binds(log[i], a, chain) && !ForgottenAfter(log, a, i);
      ForgottenLater(log, op, a, i);
      assert longer[i] == log[i];
    }
  }

  predicate HasChain(entries: Entries, a: IpAddr, chain: Chain) {
    a in entries && chain in entries[a].chains
  }

  /** Over every history: a chain is bound to an address exactly when some record
      of it was not followed by a lookup of the address that found it expired. */
  lemma {:induction false} ChainsAreRemembered(log: seq<Op>, a: IpAddr, chain: Chain)
    requires chain != [] && ToCanonical(a) == a
    ensures HasChain(Unbounded(log), a, chain) <==> Remembered(log, a, chain)
  {
    if log != [] {
      var n := |log| - 1;
      var before, op := log[..n], log[n];
      assert log == before + [op];
      ChainsAreRemembered(before, a, chain);
      RememberedLater(before, op, a, chain);
    }
  }

  /** Expiry alone does not forget: over every history, recording a chain for an
      address whose binding has expired brings back exactly the chains whose
      record no lookup has found expired since. */
  lemma ExpiredChainsReviveIff(log: seq<Op>, address: IpAddr, chain: Chain, ttl: nat, now: int, earlier: Chain)
    requires chain != [] && earlier != [] && earlier != chain
    requires !Live(Unbounded(log), address, now)
    ensures earlier !in Found(Unbounded(log), address, now)
    ensures earlier in Found(Unbounded(log + [Record(address, chain, ttl, now)]), address, now)
            <==> Remembered(log, ToCanonical(address), earlier)
  {
    CanonicalForms(address, address);
    Extend(log, Record(address, chain, ttl, now));
    ChainsAreRemembered(log, ToCanonical(address), earlier);
  }

  /** The shortest such history. */
  lemma OldChainRevives(address: IpAddr, first: Chain, second: Chain, now: int)
    requires first != [] && second != [] && first != second && now >= TTL_FLOOR
    ensures Found(Unbounded([Record(address, first, 0, 0)]), address, now) == []
    ensures Found(Unbounded([Record(address, first, 0, 0), Record(address, second, 0, now)]), address, now) == [first, second]
  {
    Extend([], Record(address, first, 0, 0));
    Extend([Record(address, first, 0, 0)], Record(address, second, 0, now));
    assert [] + [Record(address, first, 0, 0)] == [Record(address, first, 0, 0)];
    assert [Record(address, first, 0, 0)] + [Record(address, second, 0, now)]
           == [Record(address, first, 0, 0), Record(address, second, 0, now)];
  }

  //--- uses --------------------------------------------------------------------------------------

  /** Operation `j` uses the address: a record, or a lookup that finds it. */
  ghost predicate Uses(log: seq<Op>, j: nat, a: IpAddr)
    requires j < |log|
  {
    && ToCanonical(log[j].address) == a
    && if log[j].Record? then log[j].chain != [] else Live(Unbounded(log[..j]), log[j].address, log[j].now)
  }

  /** The other addresses that were used at `t` or later. */
  ghost function Rivals(log: seq<Op>, a: IpAddr, t: int): set<IpAddr> {
    set j | 0 <= j < |log| && Uses(log, j, ToCanonical(log[j].address)) && log[j].now >= t
            && ToCanonical(log[j].address) != a :: ToCanonical(log[j].address)
  }

  ghost predicate UsedAt(log: seq<Op>, a: IpAddr, t: int) {
    exists j :: 0 <= j < |log| && Uses(log, j, a) && log[j].now == t
  }

  lemma UsedEarlier(log: seq<Op>, op: Op, a: IpAddr, t: int)
    requires UsedAt(log, a, t)
    ensures UsedAt(log + [op], a, t)
  {
    var j :| 0 <= j < |log| && Uses(log, j, a) && log[j].now == t;
    assert (log + [op])[..j] == log[..j] && (log + [op])[j] == log[j];
    assert Uses(log + [op], j, a);
  }

  /** `lastSeen` is the time of a use. */
  lemma {:induction false} LastSeenIsAUse(log: seq<Op>, a: IpAddr)
    requires a in Unbounded(log)
    ensures UsedAt(log, a, Unbounded(log)[a].lastSeen)
  {
    var n := |log| - 1;
    var before, op := log[..n], log[n];
    assert log == before + [op];
    if ToCanonical(op.address) == a && (op.Lookup? || op.chain != []) {
      assert Uses(log, n, a);
    } else {
      LastSeenIsAUse(before, a);
      UsedEarlier(before, op, a, Unbounded(before)[a].lastSeen);
    }
  }

  //--- lifetimes ---------------------------------------------------------------------------------

  /** How long a recorded name is found: until its time to live has passed, but
      at least an hour; for a new address, and not more than a day, exactly
      that long. */
  lemma RecordedLasts(entries: Entries, address: IpAddr, chain: Chain, ttl: nat, now: int, later: int)
    requires chain != []
    ensures var after := Recorded(entries, address, chain, ttl, now);
            && ((later < now + ttl && ttl <= TTL_CAP) || later < now + TTL_FLOOR || (ttl > TTL_CAP && later < now + TTL_CAP)
                ==> chain in Found(after, address, later))
            && (ToCanonical(address) !in entries ==>
                  (chain in Found(after, address, later)
                   <==> later < now + TTL_FLOOR || (later < now + ttl && later < now + TTL_CAP)))
  {
  }

  /** A successful lookup keeps every chain it returned for another hour. */
  lemma LookupRefreshes(entries: Entries, address: IpAddr, now: int, later: int)
    requires later < now + TTL_FLOOR
    ensures Found(LookedUp(entries, address, now), address, later) == Found(entries, address, now)
  {
  }
}
