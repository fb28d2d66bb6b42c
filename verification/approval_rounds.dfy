/** How often a flow goes around `ask`'s loop. */
module ApprovalRounds {
  import opened Collections
  import opened Net
  import opened ApprovalQueue
  import opened ApprovalProtocol
  import opened ApprovalRuns
  import opened ApprovalTheorems
  import Coalescing = ApprovalCoalescing

  //--- bounded -----------------------------------------------------------------------------------

  /** The flows that ever asked about a key. */
  function Askers(s: State, key: Key): set<nat> {
    set t | t in s.tasks && s.tasks[t].key == key && s.tasks[t].rounds > 0
  }

  function OwnersOf(s: State, channels: set<nat>): set<nat>
    requires forall c :: c in channels ==> c < |s.channels|
  {
    set c | c in channels :: s.channels[c].owner
  }

  lemma {:induction false} DistinctOwners(s: State, channels: set<nat>)
    requires Coalescing.Owners(s) && forall c :: c in channels ==> c < |s.channels|
    ensures |OwnersOf(s, channels)| == |channels|
  {
    if channels != {} {
      var c :| c in channels;
      DistinctOwners(s, channels - {c});
      assert OwnersOf(s, channels) == OwnersOf(s, channels - {c}) + {s.channels[c].owner};
      assert forall d :: d in channels - {c} ==> s.channels[d].owner != s.channels[c].owner;
    }
  }

  /** A leader of the key was dropped while it waited. */
  ghost predicate LeaderDropped(cfg: Settings, limited: set<Entry>, run: seq<Event>, key: Key)
    requires After(cfg, limited, run).Some?
  {
    exists i, u :: u in After(cfg, limited, run).value.tasks && After(cfg, limited, run).value.tasks[u].key == key
                   && 0 <= i < |run| && DropsLeader(cfg, limited, run, i, u)
  }

  /** The key is held by a leader that was dropped. */
  predicate KeyIsDead(s: State, key: Key) {
    && key in s.queue.inflight && s.queue.inflight[key] < |s.channels|
    && PcOf(s, s.channels[s.queue.inflight[key]].owner).Abandoned?
  }

  /** Dropping a leader is what kills a key, and nothing revives it. */
  lemma DeadIffDropped(cfg: Settings, limited: set<Entry>, run: seq<Event>, key: Key)
    requires After(cfg, limited, run).Some?
    ensures KeyIsDead(After(cfg, limited, run).value, key) <==> LeaderDropped(cfg, limited, run, key)
  {
    var s := After(cfg, limited, run).value;
    StaleKeyIffDroppedLeader(cfg, limited, run, key);
    CoalescingIsExclusive(cfg, limited, run, key);
    Coalescing.RunKeeps(cfg, limited, run);
    if key in s.queue.inflight { OwnerLeads(s, key); }
  }

  lemma OwnerLeads(s: State, key: Key)
    requires Coalescing.Coalesced(s) && key in s.queue.inflight
    ensures s.queue.inflight[key] < |s.channels|
    ensures var owner := s.channels[s.queue.inflight[key]].owner;
            ApprovalTheorems.Leader(s, owner, key, PcOf(s, owner).Abandoned?)
  {
    assert Coalescing.KeyOk(s, key) && Coalescing.ChannelOk(s, s.queue.inflight[key]);
    LeadsAbandoned(PcOf(s, s.channels[s.queue.inflight[key]].owner));
  }

  lemma LeadsAbandoned(pc: Pc)
    ensures Coalescing.PartOf(pc).Leads? ==> Coalescing.PartOf(pc).abandoned == pc.Abandoned?
  {
  }

  /** While no leader of its key was dropped, every round of a flow but the one
      it leads follows a new channel, so with N askers there are at most N. */
  lemma RoundsAreBounded(cfg: Settings, limited: set<Entry>, run: seq<Event>, t: nat)
    requires After(cfg, limited, run).Some? && t in After(cfg, limited, run).value.tasks
    requires !LeaderDropped(cfg, limited, run, After(cfg, limited, run).value.tasks[t].key)
    ensures var s := After(cfg, limited, run).value;
            && s.tasks[t].rounds == |s.tasks[t].followed| + (if s.tasks[t].led then 1 else 0)
            && s.tasks[t].rounds <= |Askers(s, s.tasks[t].key)|
  {
    Coalescing.RunKeeps(cfg, limited, run);
    var s := After(cfg, limited, run).value;
    forall u | u in s.tasks && s.tasks[u].key == s.tasks[t].key ensures !PcOf(s, u).Abandoned? {
      AbandonedIffDropped(cfg, limited, run, u);
    }
    BoundedRounds(s, t);
  }

  lemma OwnersAlive(s: State, t: nat)
    requires Coalescing.Coalesced(s) && t in s.tasks
    requires forall u :: u in s.tasks && s.tasks[u].key == s.tasks[t].key ==> !PcOf(s, u).Abandoned?
    ensures forall c :: c in s.tasks[t].followed ==>
              c < |s.channels| && !Coalescing.IsAbandoned(s, c) && s.channels[c].owner in s.tasks
              && s.channels[c].owner != t && s.tasks[s.channels[c].owner].key == s.tasks[t].key
              && s.tasks[s.channels[c].owner].led
    ensures s.tasks[t].rounds == |s.tasks[t].followed| + (if s.tasks[t].led then 1 else 0)
  {
    assert Coalescing.HistoryOk(s, t) && Coalescing.RoundsOk(s, t);
    forall c | c in s.tasks[t].followed ensures Coalescing.FollowedOk(s, t, c) && Coalescing.ChannelOk(s, c) {
    }
  }

  lemma BoundedRounds(s: State, t: nat)
    requires Coalescing.Coalesced(s) && t in s.tasks
    requires forall u :: u in s.tasks && s.tasks[u].key == s.tasks[t].key ==> !PcOf(s, u).Abandoned?
    ensures s.tasks[t].rounds == |s.tasks[t].followed| + (if s.tasks[t].led then 1 else 0)
    ensures s.tasks[t].rounds <= |Askers(s, s.tasks[t].key)|
  {
    var followed := s.tasks[t].followed;
    var askers := Askers(s, s.tasks[t].key);
    OwnersAlive(s, t);
    forall c | c in followed ensures s.channels[c].owner in askers - {t} {
      OwnersAlive(s, s.channels[c].owner);
    }
    DistinctOwners(s, followed);
    SubsetSize(OwnersOf(s, followed), askers - {t});
    if s.tasks[t].rounds > 0 {
      assert t in askers;
    }
  }

  //--- unbounded ---------------------------------------------------------------------------------

  /** The follower of a dead channel finds it closed and asks again, `n` times. */
  function Spins(t: nat, n: nat): seq<Event> {
    if n == 0 then [] else Spins(t, n - 1) + [Enter(t)] + [HearClosed(t)]
  }

  /** Only `t` went on, and it is back where it was `n` rounds ago. */
  ghost predicate SpunFrom(s: State, s': State, t: nat, n: nat)
    requires t in s.tasks
  {
    && s'.tasks.Keys == s.tasks.Keys && (forall u :: u in s.tasks && u != t ==> s'.tasks[u] == s.tasks[u])
    && s'.tasks[t] == s.tasks[t].(rounds := s.tasks[t].rounds + n, followed := s'.tasks[t].followed)
    && s'.queue == s.queue && s'.channels == s.channels
  }

  lemma SpinStep(cfg: Settings, s: State, t: nat)
    requires PcOf(s, t).Asking? && KeyIsDead(s, s.tasks[t].key)
    requires s.channels[s.queue.inflight[s.tasks[t].key]].value.None?
    ensures var s1 := EnterQueue(s, t);
            && Next(cfg, s, Enter(t)) == Some(s1) && Next(cfg, s1, HearClosed(t)) == Some(Goto(s1, t, Asking))
            && SpunFrom(s, Goto(s1, t, Asking), t, 1)
  {
  }

  lemma OneSpin(cfg: Settings, limited: set<Entry>, run: seq<Event>, s: State, t: nat)
    requires After(cfg, limited, run) == Some(s)
    requires PcOf(s, t).Asking? && KeyIsDead(s, s.tasks[t].key)
    requires s.channels[s.queue.inflight[s.tasks[t].key]].value.None?
    ensures After(cfg, limited, run + [Enter(t)] + [HearClosed(t)]) == Some(Goto(EnterQueue(s, t), t, Asking))
    ensures SpunFrom(s, Goto(EnterQueue(s, t), t, Asking), t, 1)
  {
    SpinStep(cfg, s, t);
    Extend(cfg, limited, run, Enter(t), s, EnterQueue(s, t));
    Extend(cfg, limited, run + [Enter(t)], HearClosed(t), EnterQueue(s, t), Goto(EnterQueue(s, t), t, Asking));
  }

  lemma SpunOnce(s: State, s1: State, s2: State, t: nat, n: nat)
    requires t in s.tasks && SpunFrom(s, s1, t, n) && SpunFrom(s1, s2, t, 1)
    ensures SpunFrom(s, s2, t, n + 1)
  {
  }

  /** The flow is about to ask, and its key is held by a dropped leader. */
  ghost predicate CanSpin(s: State, t: nat) {
    && PcOf(s, t).Asking? && KeyIsDead(s, s.tasks[t].key)
    && s.channels[s.queue.inflight[s.tasks[t].key]].value.None?
  }

  lemma StillDead(s: State, s': State, t: nat, n: nat)
    requires CanSpin(s, t) && SpunFrom(s, s', t, n)
    ensures CanSpin(s', t)
  {
  }

  lemma NextSpin(cfg: Settings, limited: set<Entry>, before: seq<Event>, s: State, s': State, t: nat, n: nat)
    returns (s'': State)
    requires CanSpin(s, t) && After(cfg, limited, before) == Some(s') && SpunFrom(s, s', t, n)
    ensures After(cfg, limited, before + [Enter(t)] + [HearClosed(t)]) == Some(s'') && SpunFrom(s, s'', t, n + 1)
  {
    StillDead(s, s', t, n);
    OneSpin(cfg, limited, before, s', t);
    s'' := Goto(EnterQueue(s', t), t, Asking);
    SpunOnce(s, s', s'', t, n);
  }

  ghost predicate SpunTo(cfg: Settings, limited: set<Entry>, run: seq<Event>, s: State, s': State, t: nat, n: nat) {
    After(cfg, limited, run) == Some(s') && t in s.tasks && SpunFrom(s, s', t, n)
  }

  function SpinRun(run: seq<Event>, t: nat, n: nat): seq<Event> {
    if n == 0 then run else SpinRun(run, t, n - 1) + [Enter(t)] + [HearClosed(t)]
  }

  lemma {:induction false} SpinRunIs(run: seq<Event>, t: nat, n: nat)
    ensures SpinRun(run, t, n) == run + Spins(t, n)
  {
    if n > 0 { SpinRunIs(run, t, n - 1); }
  }

  lemma {:induction false} SpinsOn(cfg: Settings, limited: set<Entry>, run: seq<Event>, s: State, t: nat, n: nat)
    returns (s': State)
    requires After(cfg, limited, run) == Some(s) && CanSpin(s, t)
    ensures SpunTo(cfg, limited, SpinRun(run, t, n), s, s', t, n)
  {
    if n == 0 {
      s' := s;
      SpunNone(s, t);
    } else {
      var s1 := SpinsOn(cfg, limited, run, s, t, n - 1);
      s' := NextSpin(cfg, limited, SpinRun(run, t, n - 1), s, s1, t, n - 1);
    }
  }

  /** In every reachable state a flow whose key is dead can make any number of
      rounds, on its own. */
  lemma DeadKeySpins(cfg: Settings, limited: set<Entry>, run: seq<Event>, s: State, t: nat, n: nat)
    returns (longer: seq<Event>, s': State)
    requires After(cfg, limited, run) == Some(s) && PcOf(s, t).Asking? && KeyIsDead(s, s.tasks[t].key)
    ensures longer == run + Spins(t, n)
    ensures After(cfg, limited, longer) == Some(s') && SpunFrom(s, s', t, n)
  {
    DeadChannelIsSilent(cfg, limited, run, s.tasks[t].key);
    s' := SpinsOn(cfg, limited, run, s, t, n);
    SpinRunIs(run, t, n);
    longer := SpinRun(run, t, n);
  }

  lemma SpunNone(s: State, t: nat)
    requires t in s.tasks
    ensures SpunFrom(s, s, t, 0)
  {
  }

  lemma DeadChannelIsSilent(cfg: Settings, limited: set<Entry>, run: seq<Event>, key: Key)
    requires After(cfg, limited, run).Some? && KeyIsDead(After(cfg, limited, run).value, key)
    ensures var s := After(cfg, limited, run).value; s.channels[s.queue.inflight[key]].value.None?
  {
    Coalescing.RunKeeps(cfg, limited, run);
    var s := After(cfg, limited, run).value;
    assert Coalescing.ChannelOk(s, s.queue.inflight[key]);
  }

  //--- exactly when ------------------------------------------------------------------------------

  /** The run can go on to where the flow has made `n` rounds, with no new flows
      and no further leader of its key dropped. */
  ghost predicate CanRound(cfg: Settings, limited: set<Entry>, run: seq<Event>, t: nat, n: nat, more: seq<Event>)
    requires After(cfg, limited, run).Some? && t in After(cfg, limited, run).value.tasks
  {
    && After(cfg, limited, run + more).Some?
    && (forall k :: 0 <= k < |more| ==> !more[k].Begin?)
    && NoFurtherDrop(cfg, limited, run, more, After(cfg, limited, run).value.tasks[t].key)
    && t in After(cfg, limited, run + more).value.tasks
    && After(cfg, limited, run + more).value.tasks[t].rounds >= n
  }

  ghost predicate CanReach(cfg: Settings, limited: set<Entry>, run: seq<Event>, t: nat, n: nat)
    requires After(cfg, limited, run).Some? && t in After(cfg, limited, run).value.tasks
  {
    exists more :: CanRound(cfg, limited, run, t, n, more)
  }

  ghost predicate NoFurtherDrop(cfg: Settings, limited: set<Entry>, run: seq<Event>, more: seq<Event>, key: Key)
    requires After(cfg, limited, run + more).Some?
  {
    forall i, u :: |run| <= i < |run + more| && u in After(cfg, limited, run + more).value.tasks
                   && After(cfg, limited, run + more).value.tasks[u].key == key ==>
                     !DropsLeader(cfg, limited, run + more, i, u)
  }

  lemma DropsLeaderEarlier(cfg: Settings, limited: set<Entry>, run: seq<Event>, more: seq<Event>, i: nat, u: nat)
    requires After(cfg, limited, run + more).Some? && After(cfg, limited, run).Some? && i < |run|
    ensures DropsLeader(cfg, limited, run + more, i, u) <==> DropsLeader(cfg, limited, run, i, u)
  {
    assert (run + more)[..i] == run[..i];
  }

  /** Without further drops a key is dead later only if it was dead before. */
  lemma StillAlive(cfg: Settings, limited: set<Entry>, run: seq<Event>, more: seq<Event>, key: Key)
    requires After(cfg, limited, run + more).Some? && After(cfg, limited, run).Some?
    requires !LeaderDropped(cfg, limited, run, key) && NoFurtherDrop(cfg, limited, run, more, key)
    ensures !LeaderDropped(cfg, limited, run + more, key)
  {
    if LeaderDropped(cfg, limited, run + more, key) {
      var i, u :| u in After(cfg, limited, run + more).value.tasks
                  && After(cfg, limited, run + more).value.tasks[u].key == key
                  && 0 <= i < |run + more| && DropsLeader(cfg, limited, run + more, i, u);
      DropsLeaderEarlier(cfg, limited, run, more, i, u);
      Continues(cfg, limited, run, more);
      AbandonedIffDropped(cfg, limited, run, u);
    }
  }

  lemma {:induction false} SpinsBeginNothing(t: nat, n: nat)
    ensures forall k :: 0 <= k < |Spins(t, n)| ==> !Spins(t, n)[k].Begin? && !Spins(t, n)[k].Drop?
  {
    if n > 0 { SpinsBeginNothing(t, n - 1); }
  }

  lemma RoundsStayBounded(cfg: Settings, limited: set<Entry>, run: seq<Event>, t: nat, n: nat, more: seq<Event>)
    requires After(cfg, limited, run).Some? && t in After(cfg, limited, run).value.tasks
    requires !LeaderDropped(cfg, limited, run, After(cfg, limited, run).value.tasks[t].key)
    ensures CanRound(cfg, limited, run, t, n, more) ==> n <= |After(cfg, limited, run).value.tasks|
  {
    if CanRound(cfg, limited, run, t, n, more) {
      var s, s' := After(cfg, limited, run).value, After(cfg, limited, run + more).value;
      Continues(cfg, limited, run, more);
      StillAlive(cfg, limited, run, more, s.tasks[t].key);
      RoundsAreBounded(cfg, limited, run + more, t);
      SubsetSize(Askers(s', s'.tasks[t].key), s'.tasks.Keys);
      assert |s.tasks| == |s.tasks.Keys| && |s'.tasks| == |s'.tasks.Keys|;
    }
  }

  lemma SpinningCanRound(cfg: Settings, limited: set<Entry>, run: seq<Event>, t: nat, n: nat)
    requires After(cfg, limited, run).Some?
    requires var s := After(cfg, limited, run).value; PcOf(s, t).Asking? && KeyIsDead(s, s.tasks[t].key)
    ensures CanRound(cfg, limited, run, t, n, Spins(t, n))
  {
    var more := Spins(t, n);
    var longer, s' := DeadKeySpins(cfg, limited, run, After(cfg, limited, run).value, t, n);
    SpinsBeginNothing(t, n);
    assert forall i :: |run| <= i < |run + more| ==> (run + more)[i] == more[i - |run|];
  }

  /** A flow about to ask can be kept going around the loop without end, by flows
      that are there already and without dropping more leaders of its key,
      exactly when a leader of its key was dropped before. */
  lemma RoundsUnboundedIff(cfg: Settings, limited: set<Entry>, run: seq<Event>, t: nat)
    requires After(cfg, limited, run).Some? && PcOf(After(cfg, limited, run).value, t).Asking?
    ensures (forall n: nat :: CanReach(cfg, limited, run, t, n))
            <==> LeaderDropped(cfg, limited, run, After(cfg, limited, run).value.tasks[t].key)
  {
    var s := After(cfg, limited, run).value;
    DeadIffDropped(cfg, limited, run, s.tasks[t].key);
    if LeaderDropped(cfg, limited, run, s.tasks[t].key) {
      forall n: nat ensures CanReach(cfg, limited, run, t, n) {
        SpinningCanRound(cfg, limited, run, t, n);
      }
    } else {
      var n := |s.tasks| + 1;
      assert !CanReach(cfg, limited, run, t, n) by {
        forall more ensures CanRound(cfg, limited, run, t, n, more) ==> n <= |s.tasks| {
          RoundsStayBounded(cfg, limited, run, t, n, more);
        }
      }
    }
  }

  /** It does happen: two flows with one key, and the leader dropped. */
  lemma TwoFlowsSpin(n: nat) returns (cfg: Settings, run: seq<Event>)
    ensures After(cfg, {}, run).Some?
    ensures var s := After(cfg, {}, run).value; s.tasks.Keys == {0, 1} && s.tasks[1].rounds == n
  {
    cfg := Settings(false, true, 1, 1);
    run := LeadAndWait(cfg);
    run := SecondAsks(cfg, run);
    var dead: State;
    run, dead := DropFirst(cfg, run);
    var spun: State;
    run, spun := DeadKeySpins(cfg, {}, run, dead, 1, n);
  }

  lemma DropFirst(cfg: Settings, run: seq<Event>) returns (longer: seq<Event>, s': State)
    requires After(cfg, {}, run).Some?
    requires var s := After(cfg, {}, run).value;
             && IsLedAndWaiting(s) && s.tasks.Keys == {0, 1} && s.tasks[1].pc == Asking && s.tasks[1].rounds == 0
             && s.tasks[1].key == s.tasks[0].key
    ensures After(cfg, {}, longer) == Some(s')
    ensures s'.tasks.Keys == {0, 1} && s'.tasks[1].pc == Asking && s'.tasks[1].rounds == 0
    ensures KeyIsDead(s', s'.tasks[1].key)
  {
    var s := After(cfg, {}, run).value;
    s' := Goto(s, 0, Abandoned(0, 1));
    Extend(cfg, {}, run, Drop(0), s, s');
    longer := run + [Drop(0)];
  }
}
