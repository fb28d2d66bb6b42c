/** Which flows can still come to lead. A key is free again before its answer is
    written down, so a flow that was sent to ask in time can lead after it; and a
    flow that follows a leader asks again when that leader is cancelled. */
module ApprovalOverlaps {
  import opened Collections
  import opened Net
  import opened ApprovalQueue
  import opened ApprovalProtocol
  import opened ApprovalRounds
  import opened ApprovalRuns
  import opened ApprovalTheorems
  import Coalescing = ApprovalCoalescing
  import RateLimit

  /** At step `i` flow `u` writes down a human's answer. */
  ghost predicate Applies(cfg: Settings, limited: set<Entry>, run: seq<Event>, i: nat, u: nat) {
    && i < |run| && run[i] == Settle(u) && After(cfg, limited, run[..i]).Some?
    && PcOf(After(cfg, limited, run[..i]).value, u).Applying?
    && IsAnswer(PcOf(After(cfg, limited, run[..i]).value, u).outcome)
  }

  /** At step `j` flow `t` becomes the leader of its key. */
  ghost predicate Leads(cfg: Settings, limited: set<Entry>, run: seq<Event>, j: nat, t: nat) {
    && j < |run| && run[j] == Enter(t) && After(cfg, limited, run[..j]).Some?
    && var s := After(cfg, limited, run[..j]).value;
       PcOf(s, t).Asking? && s.tasks[t].key !in s.queue.inflight
  }

  ghost predicate SameKey(s: State, t: nat, u: nat) {
    t in s.tasks && u in s.tasks && s.tasks[t].key == s.tasks[u].key
  }

  //--- what can happen ---------------------------------------------------------------------------

  /** The run can go on so that the flow leads. */
  ghost predicate LeadsIn(cfg: Settings, limited: set<Entry>, run: seq<Event>, t: nat, more: seq<Event>) {
    && After(cfg, limited, run + more).Some?
    && exists j: nat :: |run| <= j && Leads(cfg, limited, run + more, j, t)
  }

  ghost predicate CanLead(cfg: Settings, limited: set<Entry>, run: seq<Event>, t: nat) {
    exists more :: LeadsIn(cfg, limited, run, t, more)
  }

  /** The owner of the channel published a cancellation, or still can. */
  predicate CanCancel(cfg: Settings, s: State, c: nat) {
    c < |s.channels|
    && if s.channels[c].value.Some? then s.channels[c].value.value.Cancelled?
       else
         match PcOf(s, s.channels[c].owner)
         case Counting(_) => cfg.ReachesHuman() && cfg.maxPrompts > 0
         case Opening(_) => cfg.ReachesHuman()
         case Listing(_, _) => true
         case Waiting(_, _, _) => true
         case Answered(_, _, o) => o.Cancelled?
         case Releasing(_, o) => o.Cancelled?
         case Publishing(_, o) => o.Cancelled?
         case _ => false
  }

  /** The flow has yet to ask, or will ask again if its leader is cancelled; and
      its key is not held by a dropped leader. */
  predicate MayLead(cfg: Settings, s: State, t: nat)
    requires t in s.tasks
  {
    && !KeyIsDead(s, s.tasks[t].key)
    && match s.tasks[t].pc
       case Starting => true
       case Unlimited => true
       case Asking => true
       case Following(c) => CanCancel(cfg, s, c)
       case _ => false
  }

  /** The flow is past asking: it leads, or has its outcome, or is gone. */
  predicate IsPast(pc: Pc) {
    !pc.Starting? && !pc.Unlimited? && !pc.Asking? && !pc.Following?
  }

  lemma PastStays(cfg: Settings, s: State, e: Event, t: nat)
    requires Next(cfg, s, e).Some? && t in s.tasks && IsPast(PcOf(s, t))
    ensures IsPast(PcOf(Next(cfg, s, e).value, t))
  {
    if !IsFlowEvent(e) {
      OutsideStays(cfg, s, e);
    } else if e.task != t {
      StepsAlone(cfg, s, e);
    } else {
      OwnStepPast(cfg, s, e);
    }
  }

  lemma OwnStepPast(cfg: Settings, s: State, e: Event)
    requires IsFlowEvent(e) && FlowStep(cfg, s, e).Some? && IsPast(PcOf(s, e.task))
    ensures IsPast(PcOf(FlowStep(cfg, s, e).value, e.task))
  {
  }

  lemma OneStepMore(cfg: Settings, limited: set<Entry>, run: seq<Event>, more: seq<Event>)
    requires more != [] && After(cfg, limited, run + more).Some?
    ensures var n := |more| - 1;
            && After(cfg, limited, run + more[..n]).Some?
            && Next(cfg, After(cfg, limited, run + more[..n]).value, more[n]) == After(cfg, limited, run + more)
  {
    var n := |more| - 1;
    assert (run + more)[..|run| + n] == run + more[..n] && (run + more)[|run| + n] == more[n];
  }

  lemma {:induction false} PastForever(cfg: Settings, limited: set<Entry>, run: seq<Event>, more: seq<Event>, t: nat)
    requires After(cfg, limited, run).Some? && After(cfg, limited, run + more).Some?
    requires t in After(cfg, limited, run).value.tasks && IsPast(PcOf(After(cfg, limited, run).value, t))
    ensures IsPast(PcOf(After(cfg, limited, run + more).value, t))
  {
    if more == [] {
      assert run + more == run;
    } else {
      var n := |more| - 1;
      OneStepMore(cfg, limited, run, more);
      PastForever(cfg, limited, run, more[..n], t);
      Continues(cfg, limited, run, more[..n]);
      PastStays(cfg, After(cfg, limited, run + more[..n]).value, more[n], t);
    }
  }

  //--- what cannot -------------------------------------------------------------------------------

  /** A channel whose owner lives and will not end cancelled. */
  ghost predicate IsLost(cfg: Settings, s: State, c: nat) {
    c < |s.channels| && !CanCancel(cfg, s, c) && !Coalescing.IsAbandoned(s, c)
  }

  /** The channel's owner takes a step. */
  lemma OwnerStaysLost(cfg: Settings, s: State, e: Event, c: nat)
    requires IsLost(cfg, s, c) && Coalescing.ChannelOk(s, c)
    requires IsFlowEvent(e) && e.task == s.channels[c].owner && FlowStep(cfg, s, e).Some?
    ensures IsLost(cfg, FlowStep(cfg, s, e).value, c)
  {
  }

  lemma OtherStaysLost(cfg: Settings, s: State, e: Event, c: nat)
    requires Coalescing.Coalesced(s) && IsLost(cfg, s, c)
    requires IsFlowEvent(e) && e.task != s.channels[c].owner && FlowStep(cfg, s, e).Some?
    ensures IsLost(cfg, FlowStep(cfg, s, e).value, c)
  {
    assert Coalescing.ChannelOk(s, c);
    StepsAlone(cfg, s, e);
    ForeignChannel(cfg, s, e, c);
    SameOwnerStaysLost(cfg, s, FlowStep(cfg, s, e).value, c);
  }

  /** A flow publishes on its own channel only. */
  lemma ForeignChannel(cfg: Settings, s: State, e: Event, c: nat)
    requires Coalescing.Coalesced(s) && c < |s.channels|
    requires IsFlowEvent(e) && e.task != s.channels[c].owner && FlowStep(cfg, s, e).Some?
    ensures c < |FlowStep(cfg, s, e).value.channels| && FlowStep(cfg, s, e).value.channels[c] == s.channels[c]
  {
    if e.Publish? {
      assert Coalescing.PartOk(s, e.task);
    } else if PcOf(s, e.task).Following? {
      Coalescing.FollowerEvents(cfg, s, e);
    } else if !e.Enter? && !e.Release? && !e.Drop? {
      Coalescing.QuietStepStays(cfg, s, e);
    }
  }

  lemma StepStaysLost(cfg: Settings, s: State, e: Event, c: nat)
    requires Coalescing.Coalesced(s) && IsLost(cfg, s, c) && Next(cfg, s, e).Some?
    ensures IsLost(cfg, Next(cfg, s, e).value, c)
  {
    assert Coalescing.ChannelOk(s, c);
    if IsFlowEvent(e) {
      if e.task == s.channels[c].owner {
        OwnerStaysLost(cfg, s, e, c);
      } else {
        OtherStaysLost(cfg, s, e, c);
      }
    } else {
      OutsideStays(cfg, s, e);
      SameOwnerStaysLost(cfg, s, Next(cfg, s, e).value, c);
    }
  }

  lemma SameOwnerStaysLost(cfg: Settings, s: State, s': State, c: nat)
    requires IsLost(cfg, s, c) && Coalescing.ChannelOk(s, c)
    requires c < |s'.channels| && s'.channels[c] == s.channels[c]
    requires PcOf(s', s.channels[c].owner) == PcOf(s, s.channels[c].owner)
    ensures IsLost(cfg, s', c)
  {
  }

  /** The flow is past asking, or follows a leader that will not send it back. */
  ghost predicate IsStuck(cfg: Settings, s: State, t: nat) {
    t in s.tasks && (IsPast(s.tasks[t].pc) || (s.tasks[t].pc.Following? && IsLost(cfg, s, s.tasks[t].pc.channel)))
  }

  lemma StepStaysStuck(cfg: Settings, s: State, e: Event, t: nat)
    requires Coalescing.Coalesced(s) && IsStuck(cfg, s, t) && Next(cfg, s, e).Some?
    ensures IsStuck(cfg, Next(cfg, s, e).value, t)
  {
    StepSameFlows(cfg, s, e);
    if IsPast(s.tasks[t].pc) {
      PastStays(cfg, s, e, t);
    } else {
      StepStaysLost(cfg, s, e, s.tasks[t].pc.channel);
      FollowerStaysOrIsPast(cfg, s, e, t);
    }
  }

  lemma FollowerStaysOrIsPast(cfg: Settings, s: State, e: Event, t: nat)
    requires Next(cfg, s, e).Some? && PcOf(s, t).Following? && IsLost(cfg, s, PcOf(s, t).channel)
    ensures var pc := PcOf(Next(cfg, s, e).value, t); pc == PcOf(s, t) || IsPast(pc)
  {
    if !IsFlowEvent(e) {
      OutsideStays(cfg, s, e);
    } else if e.task == t {
      LostFollowerSteps(cfg, s, e);
    } else {
      StepsAlone(cfg, s, e);
    }
  }

  lemma LostFollowerSteps(cfg: Settings, s: State, e: Event)
    requires IsFlowEvent(e) && FlowStep(cfg, s, e).Some?
    requires PcOf(s, e.task).Following? && IsLost(cfg, s, PcOf(s, e.task).channel)
    ensures IsPast(PcOf(FlowStep(cfg, s, e).value, e.task))
  {
    Coalescing.FollowerEvents(cfg, s, e);
  }

  lemma {:induction false} StuckForever(cfg: Settings, limited: set<Entry>, run: seq<Event>, more: seq<Event>, t: nat)
    requires After(cfg, limited, run).Some? && After(cfg, limited, run + more).Some?
    requires IsStuck(cfg, After(cfg, limited, run).value, t)
    ensures IsStuck(cfg, After(cfg, limited, run + more).value, t)
  {
    if more == [] {
      assert run + more == run;
    } else {
      var n := |more| - 1;
      OneStepMore(cfg, limited, run, more);
      StuckForever(cfg, limited, run, more[..n], t);
      Coalescing.RunKeeps(cfg, limited, run + more[..n]);
      StepStaysStuck(cfg, After(cfg, limited, run + more[..n]).value, more[n], t);
    }
  }

  lemma {:induction false} DeadForever(cfg: Settings, limited: set<Entry>, run: seq<Event>, more: seq<Event>, key: Key)
    requires After(cfg, limited, run).Some? && After(cfg, limited, run + more).Some?
    requires KeyIsDead(After(cfg, limited, run).value, key)
    ensures KeyIsDead(After(cfg, limited, run + more).value, key)
  {
    DeadIffDropped(cfg, limited, run, key);
    var k, v :| v in After(cfg, limited, run).value.tasks && After(cfg, limited, run).value.tasks[v].key == key
                && 0 <= k < |run| && DropsLeader(cfg, limited, run, k, v);
    Continues(cfg, limited, run, more);
    DropsLeaderEarlier(cfg, limited, run, more, k, v);
    DeadIffDropped(cfg, limited, run + more, key);
  }

  /** A flow that comes to lead was one that may. */
  lemma LeadsOnlyIf(cfg: Settings, limited: set<Entry>, run: seq<Event>, t: nat, more: seq<Event>)
    requires After(cfg, limited, run).Some? && t in After(cfg, limited, run).value.tasks
    requires LeadsIn(cfg, limited, run, t, more)
    ensures MayLead(cfg, After(cfg, limited, run).value, t)
  {
    var s := After(cfg, limited, run).value;
    var j: nat :| |run| <= j && Leads(cfg, limited, run + more, j, t);
    var part := more[..j - |run|];
    assert (run + more)[..j] == run + part;
    Continues(cfg, limited, run, part);
    if KeyIsDead(s, s.tasks[t].key) {
      DeadForever(cfg, limited, run, part, s.tasks[t].key);
    }
    if IsStuck(cfg, s, t) {
      StuckForever(cfg, limited, run, part, t);
    }
    if s.tasks[t].pc.Following? {
      FollowedKey(cfg, limited, run, t);
    }
  }

  /** The channel a flow follows is its key's; a dropped owner makes the key dead. */
  lemma FollowedKey(cfg: Settings, limited: set<Entry>, run: seq<Event>, t: nat)
    requires After(cfg, limited, run).Some? && PcOf(After(cfg, limited, run).value, t).Following?
    ensures var s := After(cfg, limited, run).value;
            var c := s.tasks[t].pc.channel;
            && c < |s.channels| && s.channels[c].owner in s.tasks && s.channels[c].owner != t
            && s.tasks[s.channels[c].owner].key == s.tasks[t].key
            && (Coalescing.IsAbandoned(s, c) ==> KeyIsDead(s, s.tasks[t].key))
  {
    Coalescing.RunKeeps(cfg, limited, run);
    FollowedOwner(After(cfg, limited, run).value, t);
  }

  lemma FollowedOwner(s: State, t: nat)
    requires Coalescing.Coalesced(s) && PcOf(s, t).Following?
    ensures var c := s.tasks[t].pc.channel;
            && c < |s.channels| && s.channels[c].owner in s.tasks && s.channels[c].owner != t
            && s.tasks[s.channels[c].owner].key == s.tasks[t].key
            && (Coalescing.IsAbandoned(s, c) ==> KeyIsDead(s, s.tasks[t].key))
  {
    var c := s.tasks[t].pc.channel;
    assert Coalescing.PartOk(s, t) && Coalescing.HistoryOk(s, t);
    assert Coalescing.FollowedOk(s, t, c);
    OwnerHasKey(s, c);
  }

  lemma OwnerHasKey(s: State, c: nat)
    requires Coalescing.Coalesced(s) && c < |s.channels|
    ensures s.channels[c].owner in s.tasks && s.tasks[s.channels[c].owner].key == s.channels[c].key
    ensures Coalescing.IsAbandoned(s, c) ==> KeyIsDead(s, s.channels[c].key)
  {
    assert Coalescing.ChannelOk(s, c);
    assert Coalescing.PartOk(s, s.channels[c].owner);
  }

  //--- a leader can finish -----------------------------------------------------------------------

  /** Steps that begin, consult, settle and drop nothing. */
  predicate IsPlain(e: Event) {
    !e.Begin? && !e.Consult? && !e.Settle? && !e.Drop?
  }

  predicate Plain(events: seq<Event>) {
    forall k :: 0 <= k < |events| ==> IsPlain(events[k])
  }

  /** What a leader can always do next on its way to giving up its key. */
  function Onward(pc: Pc, v: nat): Event
    requires Coalescing.PartOf(pc).Leads? && !pc.Abandoned?
  {
    match pc
    case Counting(_) => CountPrompt(v, 0)
    case Opening(_) => Open(v)
    case Listing(_, _) => List(v)
    case Waiting(_, _, _) => TimeOut(v)
    case Answered(_, _, _) => Unlist(v)
    case Releasing(_, _) => Release(v)
  }

  function StepsLeft(pc: Pc): nat {
    match pc
    case Counting(_) => 6
    case Opening(_) => 5
    case Listing(_, _) => 4
    case Waiting(_, _, _) => 3
    case Answered(_, _, _) => 2
    case Releasing(_, _) => 1
    case _ => 0
  }

  predicate IsLive(s: State, v: nat) {
    v in s.tasks && Coalescing.PartOf(s.tasks[v].pc).Leads? && !s.tasks[v].pc.Abandoned?
  }

  /** One step nearer, or the key is free. */
  ghost predicate Nearer(cfg: Settings, s: State, v: nat, e: Event)
    requires IsLive(s, v)
  {
    && IsFlowEvent(e) && e.task == v && IsPlain(e) && Next(cfg, s, e).Some?
    && var s' := Next(cfg, s, e).value;
       if e.Release? then s.tasks[v].key !in s'.queue.inflight
       else IsLive(s', v) && StepsLeft(s'.tasks[v].pc) < StepsLeft(s.tasks[v].pc) && s'.tasks[v].key == s.tasks[v].key
  }

  lemma OpenOnward(cfg: Settings, s: State, v: nat)
    requires IsLive(s, v) && s.tasks[v].pc.Opening?
    ensures Nearer(cfg, s, v, Open(v))
  {
    var c := s.tasks[v].pc.channel;
    assert OpenStep(cfg, s, v) ==
           if cfg.ReachesHuman() then Some(Goto(s.(queue := s.queue.TakeId()), v, Listing(c, s.queue.nextId + 1)))
           else Some(Goto(s, v, Releasing(c, Dismissed)));
  }

  lemma ListOnward(cfg: Settings, s: State, v: nat)
    requires IsLive(s, v) && s.tasks[v].pc.Listing?
    ensures Nearer(cfg, s, v, List(v))
  {
    var c, id := s.tasks[v].pc.channel, s.tasks[v].pc.id;
    assert ListStep(cfg, s, v) ==
           Some(Goto(s.(queue := s.queue.List(id, Pending(v, s.tasks[v].key.sandbox))), v,
                     Waiting(c, id, if cfg.surface then AwaitingScreen else NoDialog)));
  }

  lemma CountOnward(cfg: Settings, s: State, v: nat)
    requires IsLive(s, v) && s.tasks[v].pc.Counting?
    ensures Nearer(cfg, s, v, CountPrompt(v, 0))
  {
    var c := s.tasks[v].pc.channel;
    var (accepted, queue) := s.queue.CountPrompt(cfg, s.tasks[v].key.sandbox, 0);
    assert CountStep(cfg, s, v, 0) ==
           if cfg.ReachesHuman()
           then Some(Goto(s.(queue := queue), v, if accepted then Opening(c) else Releasing(c, RateLimited)))
           else Some(Goto(s, v, Opening(c)));
  }

  lemma WaitOnward(cfg: Settings, s: State, v: nat)
    requires IsLive(s, v) && s.tasks[v].pc.Waiting?
    ensures Nearer(cfg, s, v, TimeOut(v))
  {
    assert WaitStep(s, TimeOut(v)) == Some(Resolve(s, v, Dismissed));
  }

  lemma AnswerOnward(cfg: Settings, s: State, v: nat)
    requires IsLive(s, v) && (s.tasks[v].pc.Answered? || s.tasks[v].pc.Releasing?)
    ensures Nearer(cfg, s, v, Onward(s.tasks[v].pc, v))
  {
  }

  lemma OnwardGoes(cfg: Settings, s: State, v: nat)
    requires IsLive(s, v)
    ensures Nearer(cfg, s, v, Onward(s.tasks[v].pc, v))
  {
    var pc := s.tasks[v].pc;
    if pc.Waiting? {
      WaitOnward(cfg, s, v);
    } else if pc.Answered? || pc.Releasing? {
      AnswerOnward(cfg, s, v);
    } else if pc.Counting? {
      CountOnward(cfg, s, v);
    } else if pc.Opening? {
      OpenOnward(cfg, s, v);
    } else {
      ListOnward(cfg, s, v);
    }
  }

  /** With the leader's own steps only, its key comes free. */
  lemma {:induction false} LeaderFinishes(cfg: Settings, limited: set<Entry>, run: seq<Event>, s: State, v: nat, t: nat)
    returns (more: seq<Event>, s': State)
    requires After(cfg, limited, run) == Some(s) && IsLive(s, v) && PcOf(s, t).Asking?
    ensures After(cfg, limited, run + more) == Some(s') && Plain(more)
    ensures s.tasks[v].key !in s'.queue.inflight
    ensures t in s'.tasks && s'.tasks[t] == s.tasks[t]
    decreases StepsLeft(s.tasks[v].pc)
  {
    var e := Onward(s.tasks[v].pc, v);
    OnwardGoes(cfg, s, v);
    StepsAlone(cfg, s, e);
    var s1 := Next(cfg, s, e).value;
    Extend(cfg, limited, run, e, s, s1);
    if s.tasks[v].pc.Releasing? {
      more, s' := [e], s1;
    } else {
      more, s' := LeaderFinishes(cfg, limited, run + [e], s1, v, t);
      assert run + ([e] + more) == run + [e] + more;
      more := [e] + more;
    }
  }

  lemma KeyComesFree(cfg: Settings, limited: set<Entry>, run: seq<Event>, s: State, t: nat)
    returns (more: seq<Event>, s': State)
    requires After(cfg, limited, run) == Some(s) && PcOf(s, t).Asking?
    requires !KeyIsDead(s, s.tasks[t].key)
    ensures After(cfg, limited, run + more) == Some(s') && Plain(more)
    ensures PcOf(s', t).Asking? && s'.tasks[t].key !in s'.queue.inflight
  {
    var key := s.tasks[t].key;
    if key in s.queue.inflight {
      DeadIffDropped(cfg, limited, run, key);
      StaleKeyIffDroppedLeader(cfg, limited, run, key);
      var v :| ApprovalTheorems.Leader(s, v, key, false);
      more, s' := LeaderFinishes(cfg, limited, run, s, v, t);
    } else {
      more, s' := [], s;
      assert run + [] == run;
    }
  }

  lemma AskerLeads(cfg: Settings, limited: set<Entry>, run: seq<Event>, s: State, t: nat) returns (more: seq<Event>)
    requires After(cfg, limited, run) == Some(s) && PcOf(s, t).Asking? && !KeyIsDead(s, s.tasks[t].key)
    ensures LeadsIn(cfg, limited, run, t, more) && Plain(more)
  {
    var s': State;
    more, s' := KeyComesFree(cfg, limited, run, s, t);
    var before := run + more;
    Extend(cfg, limited, before, Enter(t), s', EnterQueue(s', t));
    assert run + (more + [Enter(t)]) == before + [Enter(t)];
    more := more + [Enter(t)];
    assert (run + more)[..|before|] == before;
    assert Leads(cfg, limited, run + more, |before|, t);
  }

  //--- a leader can be cancelled -----------------------------------------------------------------

  /** Late enough for a deque to be empty. */
  function Late(times: seq<int>, window: nat): int {
    if times == [] then 0
    else
      var rest := Late(times[1..], window);
      if rest >= times[0] + window then rest else times[0] + window
  }

  lemma {:induction false} LateIsLate(times: seq<int>, window: nat, now: int)
    requires now >= Late(times, window)
    ensures RateLimit.Prune(times, now, window) == []
  {
    if times != [] {
      LateIsLate(times[1..], window, now);
    }
  }

  /** What brings the owner of a channel nearer to a cancellation. */
  function CancelStep(cfg: Settings, s: State, v: nat): Event
    requires v in s.tasks
  {
    match s.tasks[v].pc
    case Counting(_) => CountPrompt(v, Late(Times(s.queue.recent, s.tasks[v].key.sandbox), cfg.window))
    case Opening(_) => Open(v)
    case Listing(_, _) => List(v)
    case Waiting(_, _, _) => if s.tasks[v].cancelled then ObserveCancel(v) else CancelFlow(v)
    case Answered(_, _, _) => Unlist(v)
    case Releasing(_, _) => Release(v)
    case _ => Publish(v)
  }

  function CancelStepsLeft(task: Task): nat {
    match task.pc
    case Counting(_) => 8
    case Opening(_) => 7
    case Listing(_, _) => 6
    case Waiting(_, _, _) => if task.cancelled then 4 else 5
    case Answered(_, _, _) => 3
    case Releasing(_, _) => 2
    case _ => 1
  }

  /** Flow `v` owns the channel, has not published on it, and can be cancelled. */
  ghost predicate Cancellable(cfg: Settings, s: State, c: nat, v: nat) {
    && CanCancel(cfg, s, c) && s.channels[c].value.None? && s.channels[c].owner == v && v in s.tasks
    && match Coalescing.PartOf(s.tasks[v].pc)
       case Leads(x, _) => x == c
       case Publishes(x) => x == c
       case _ => false
  }

  ghost predicate Closer(cfg: Settings, s: State, c: nat, v: nat, s': State) {
    v in s.tasks && c < |s'.channels|
    && if s'.channels[c].value.Some? then s'.channels[c].value.value.Cancelled?
       else Cancellable(cfg, s', c, v) && CancelStepsLeft(s'.tasks[v]) < CancelStepsLeft(s.tasks[v])
  }

  lemma CountsCloser(cfg: Settings, s: State, c: nat, v: nat)
    requires Cancellable(cfg, s, c, v) && s.tasks[v].pc.Counting?
    ensures Next(cfg, s, CancelStep(cfg, s, v)).Some? && Closer(cfg, s, c, v, Next(cfg, s, CancelStep(cfg, s, v)).value)
  {
    var sandbox := s.tasks[v].key.sandbox;
    var now := Late(Times(s.queue.recent, sandbox), cfg.window);
    LateIsLate(Times(s.queue.recent, sandbox), cfg.window, now);
    var (accepted, queue) := s.queue.CountPrompt(cfg, sandbox, now);
    assert accepted;
    assert CountStep(cfg, s, v, now) == Some(Goto(s.(queue := queue), v, Opening(s.tasks[v].pc.channel)));
  }

  lemma OpensCloser(cfg: Settings, s: State, c: nat, v: nat)
    requires Cancellable(cfg, s, c, v) && s.tasks[v].pc.Opening?
    ensures Next(cfg, s, Open(v)).Some? && Closer(cfg, s, c, v, Next(cfg, s, Open(v)).value)
  {
    assert OpenStep(cfg, s, v) ==
           Some(Goto(s.(queue := s.queue.TakeId()), v, Listing(s.tasks[v].pc.channel, s.queue.nextId + 1)));
  }

  lemma ListsCloser(cfg: Settings, s: State, c: nat, v: nat)
    requires Cancellable(cfg, s, c, v) && s.tasks[v].pc.Listing?
    ensures Next(cfg, s, List(v)).Some? && Closer(cfg, s, c, v, Next(cfg, s, List(v)).value)
  {
  }

  lemma CancelsCloser(cfg: Settings, s: State, c: nat, v: nat)
    requires Cancellable(cfg, s, c, v) && s.tasks[v].pc.Waiting? && !s.tasks[v].cancelled
    ensures Next(cfg, s, CancelFlow(v)).Some? && Closer(cfg, s, c, v, Next(cfg, s, CancelFlow(v)).value)
  {
  }

  lemma ObservesCloser(cfg: Settings, s: State, c: nat, v: nat)
    requires Cancellable(cfg, s, c, v) && s.tasks[v].pc.Waiting? && s.tasks[v].cancelled
    ensures Next(cfg, s, ObserveCancel(v)).Some? && Closer(cfg, s, c, v, Next(cfg, s, ObserveCancel(v)).value)
  {
    assert WaitStep(s, ObserveCancel(v)) == Some(Resolve(s, v, Cancelled));
  }

  lemma UnlistsCloser(cfg: Settings, s: State, c: nat, v: nat)
    requires Cancellable(cfg, s, c, v) && (s.tasks[v].pc.Answered? || s.tasks[v].pc.Releasing?)
    ensures Next(cfg, s, CancelStep(cfg, s, v)).Some? && Closer(cfg, s, c, v, Next(cfg, s, CancelStep(cfg, s, v)).value)
  {
  }

  lemma PublishesCloser(cfg: Settings, s: State, c: nat, v: nat)
    requires Cancellable(cfg, s, c, v) && s.tasks[v].pc.Publishing?
    ensures Next(cfg, s, Publish(v)).Some? && Closer(cfg, s, c, v, Next(cfg, s, Publish(v)).value)
  {
  }

  lemma ComesCloser(cfg: Settings, s: State, c: nat, v: nat)
    requires Cancellable(cfg, s, c, v)
    ensures IsPlain(CancelStep(cfg, s, v))
    ensures Next(cfg, s, CancelStep(cfg, s, v)).Some? && Closer(cfg, s, c, v, Next(cfg, s, CancelStep(cfg, s, v)).value)
  {
    match s.tasks[v].pc
    case Counting(_) => CountsCloser(cfg, s, c, v);
    case Opening(_) => OpensCloser(cfg, s, c, v);
    case Listing(_, _) => ListsCloser(cfg, s, c, v);
    case Waiting(_, _, _) => if s.tasks[v].cancelled { ObservesCloser(cfg, s, c, v); } else { CancelsCloser(cfg, s, c, v); }
    case Publishing(_, _) => PublishesCloser(cfg, s, c, v);
    case _ => UnlistsCloser(cfg, s, c, v);
  }

  lemma CancelStepAlone(cfg: Settings, s: State, v: nat, t: nat)
    requires v in s.tasks && t in s.tasks && t != v && Next(cfg, s, CancelStep(cfg, s, v)).Some?
    ensures var s' := Next(cfg, s, CancelStep(cfg, s, v)).value; t in s'.tasks && s'.tasks[t] == s.tasks[t]
  {
    var e := CancelStep(cfg, s, v);
    if IsFlowEvent(e) { StepsAlone(cfg, s, e); }
  }

  /** The owner of a channel can come to publish a cancellation, while its
      follower stays where it is. */
  lemma {:induction false} OwnerCancels(cfg: Settings, limited: set<Entry>, run: seq<Event>, s: State, c: nat, v: nat, t: nat)
    returns (more: seq<Event>, s': State)
    requires After(cfg, limited, run) == Some(s) && Cancellable(cfg, s, c, v) && t in s.tasks && t != v
    ensures After(cfg, limited, run + more) == Some(s') && Plain(more)
    ensures c < |s'.channels| && s'.channels[c].value == Some(Cancelled)
    ensures t in s'.tasks && s'.tasks[t] == s.tasks[t]
    decreases CancelStepsLeft(s.tasks[v])
  {
    var e := CancelStep(cfg, s, v);
    ComesCloser(cfg, s, c, v);
    CancelStepAlone(cfg, s, v, t);
    var s1 := Next(cfg, s, e).value;
    Extend(cfg, limited, run, e, s, s1);
    if s1.channels[c].value.Some? {
      more, s' := [e], s1;
    } else {
      more, s' := OwnerCancels(cfg, limited, run + [e], s1, c, v, t);
      assert run + ([e] + more) == run + [e] + more;
      more := [e] + more;
    }
  }

  lemma {:induction false} NothingDies(cfg: Settings, limited: set<Entry>, run: seq<Event>, more: seq<Event>, key: Key)
    requires After(cfg, limited, run).Some? && After(cfg, limited, run + more).Some? && Plain(more)
    requires !KeyIsDead(After(cfg, limited, run).value, key)
    ensures !KeyIsDead(After(cfg, limited, run + more).value, key)
  {
    DeadIffDropped(cfg, limited, run, key);
    DeadIffDropped(cfg, limited, run + more, key);
    forall i | |run| <= i < |run + more| ensures !(run + more)[i].Drop? {
      assert (run + more)[i] == more[i - |run|] && IsPlain(more[i - |run|]);
    }
    StillAlive(cfg, limited, run, more, key);
  }

  lemma FollowedIsCancellable(cfg: Settings, limited: set<Entry>, run: seq<Event>, s: State, t: nat)
    requires After(cfg, limited, run) == Some(s) && PcOf(s, t).Following? && CanCancel(cfg, s, s.tasks[t].pc.channel)
    requires s.channels[s.tasks[t].pc.channel].value.None?
    ensures Cancellable(cfg, s, s.tasks[t].pc.channel, s.channels[s.tasks[t].pc.channel].owner)
  {
    Coalescing.RunKeeps(cfg, limited, run);
    assert Coalescing.ChannelOk(s, s.tasks[t].pc.channel);
  }

  /** A follower of a cancelled leader is about to ask again. */
  lemma FollowerAsks(cfg: Settings, limited: set<Entry>, run: seq<Event>, s: State, t: nat)
    returns (more: seq<Event>, s': State)
    requires After(cfg, limited, run) == Some(s) && PcOf(s, t).Following? && CanCancel(cfg, s, s.tasks[t].pc.channel)
    ensures After(cfg, limited, run + more) == Some(s') && Plain(more)
    ensures PcOf(s', t).Asking? && s'.tasks[t].key == s.tasks[t].key
  {
    var c := s.tasks[t].pc.channel;
    var s1: State;
    FollowedKey(cfg, limited, run, t);
    if s.channels[c].value.Some? {
      more, s1 := [], s;
      assert run + [] == run;
    } else {
      FollowedIsCancellable(cfg, limited, run, s, t);
      more, s1 := OwnerCancels(cfg, limited, run, s, c, s.channels[c].owner, t);
    }
    s' := HearsCancelled(cfg, limited, run + more, s1, t);
    assert run + (more + [Hear(t)]) == run + more + [Hear(t)];
    more := more + [Hear(t)];
  }

  lemma HearsCancelled(cfg: Settings, limited: set<Entry>, run: seq<Event>, s: State, t: nat) returns (s': State)
    requires After(cfg, limited, run) == Some(s) && PcOf(s, t).Following?
    requires var c := s.tasks[t].pc.channel; c < |s.channels| && s.channels[c].value == Some(Cancelled)
    ensures After(cfg, limited, run + [Hear(t)]) == Some(s')
    ensures PcOf(s', t).Asking? && s'.tasks[t].key == s.tasks[t].key
  {
    s' := Goto(s, t, Asking);
    assert HearStep(s, t) == Some(s');
    Extend(cfg, limited, run, Hear(t), s, s');
  }

  lemma FollowerLeads(cfg: Settings, limited: set<Entry>, run: seq<Event>, s: State, t: nat) returns (more: seq<Event>)
    requires After(cfg, limited, run) == Some(s) && PcOf(s, t).Following? && MayLead(cfg, s, t)
    ensures LeadsIn(cfg, limited, run, t, more) && Plain(more)
  {
    var first, s' := FollowerAsks(cfg, limited, run, s, t);
    NothingDies(cfg, limited, run, first, s.tasks[t].key);
    var second := AskerLeads(cfg, limited, run + first, s', t);
    more := LeadsLater(cfg, limited, run, first, second, t);
  }

  lemma LeadsLater(cfg: Settings, limited: set<Entry>, run: seq<Event>, first: seq<Event>, second: seq<Event>, t: nat)
    returns (more: seq<Event>)
    requires LeadsIn(cfg, limited, run + first, t, second)
    ensures more == first + second && LeadsIn(cfg, limited, run, t, more)
  {
    more := first + second;
    Associates(run, first, second);
    var j: nat :| |run + first| <= j && Leads(cfg, limited, run + first + second, j, t);
    assert Leads(cfg, limited, run + more, j, t);
  }

  //--- exactly when ------------------------------------------------------------------------------

  /** A flow that was sent to ask, or follows, leads by plain steps if it may. */
  lemma SentLeads(cfg: Settings, limited: set<Entry>, run: seq<Event>, s: State, t: nat) returns (more: seq<Event>)
    requires After(cfg, limited, run) == Some(s) && (PcOf(s, t).Asking? || PcOf(s, t).Following?) && MayLead(cfg, s, t)
    ensures LeadsIn(cfg, limited, run, t, more) && Plain(more)
  {
    if s.tasks[t].pc.Asking? {
      more := AskerLeads(cfg, limited, run, s, t);
    } else {
      more := FollowerLeads(cfg, limited, run, s, t);
    }
  }

  /** A flow about to consult can be sent to ask. */
  lemma ConsultsAndLeads(cfg: Settings, limited: set<Entry>, run: seq<Event>, s: State, t: nat) returns (more: seq<Event>)
    requires After(cfg, limited, run) == Some(s) && PcOf(s, t).Unlimited? && MayLead(cfg, s, t)
    ensures LeadsIn(cfg, limited, run, t, more)
  {
    var s' := Goto(s, t, Asking);
    Extend(cfg, limited, run, Consult(t, MustAsk), s, s');
    more := AskerLeads(cfg, limited, run + [Consult(t, MustAsk)], s', t);
    more := LeadsLater(cfg, limited, run, [Consult(t, MustAsk)], more, t);
  }

  /** A flow that begins can come to its check while its sandbox is not limited. */
  lemma BeginsAndLeads(cfg: Settings, limited: set<Entry>, run: seq<Event>, s: State, t: nat) returns (more: seq<Event>)
    requires After(cfg, limited, run) == Some(s) && PcOf(s, t).Starting? && MayLead(cfg, s, t)
    ensures LeadsIn(cfg, limited, run, t, more)
  {
    var entry := s.tasks[t].entry;
    var s1 := ResumeEntry(s, entry);
    Extend(cfg, limited, run, Resume(entry), s, s1);
    var s2 := Goto(s1, t, Unlimited);
    Extend(cfg, limited, run + [Resume(entry)], CheckLimited(t), s1, s2);
    more := ConsultsAndLeads(cfg, limited, run + [Resume(entry)] + [CheckLimited(t)], s2, t);
    more := LeadsLater(cfg, limited, run + [Resume(entry)], [CheckLimited(t)], more, t);
    more := LeadsLater(cfg, limited, run, [Resume(entry)], more, t);
  }

  /** From every reachable state, whatever was answered: a flow can come to lead
      exactly when no leader of its key was dropped, and it has not asked yet, or
      follows a leader that was cancelled or still can be. */
  lemma CanLeadIff(cfg: Settings, limited: set<Entry>, run: seq<Event>, t: nat)
    requires After(cfg, limited, run).Some? && t in After(cfg, limited, run).value.tasks
    ensures CanLead(cfg, limited, run, t) <==> MayLead(cfg, After(cfg, limited, run).value, t)
  {
    var s := After(cfg, limited, run).value;
    if more :| LeadsIn(cfg, limited, run, t, more) {
      LeadsOnlyIf(cfg, limited, run, t, more);
    }
    if MayLead(cfg, s, t) {
      var more: seq<Event>;
      if s.tasks[t].pc.Starting? {
        more := BeginsAndLeads(cfg, limited, run, s, t);
      } else if s.tasks[t].pc.Unlimited? {
        more := ConsultsAndLeads(cfg, limited, run, s, t);
      } else {
        more := SentLeads(cfg, limited, run, s, t);
      }
    }
  }

  //--- an overlap --------------------------------------------------------------------------------

  /** The first flow has `pc`, the second is sent to ask, both about one key. */
  ghost predicate BesideAsker(s: State, pc: Pc) {
    && s.tasks.Keys == {0, 1} && s.tasks[0].pc == pc && s.tasks[1].pc == Asking
    && s.tasks[1].key == s.tasks[0].key
  }

  /** The first flow's prompt is answered. */
  lemma FirstIsAnswered(cfg: Settings, run: seq<Event>) returns (longer: seq<Event>)
    requires After(cfg, {}, run).Some? && NoneSettled(run)
    requires var s := After(cfg, {}, run).value; IsLedAndWaiting(s) && BesideAsker(s, Waiting(0, 1, NoDialog))
    ensures longer == run + [Decide(1, Allow)] + [ReceiveAnswer(0)] && NoneSettled(longer)
    ensures After(cfg, {}, longer).Some?
    ensures var s := After(cfg, {}, longer).value; BesideAsker(s, Answered(0, 1, Allow)) && |s.channels| == 1
  {
    var s := After(cfg, {}, run).value;
    var s1 := DecideId(s, 1, Allow);
    Extend(cfg, {}, run, Decide(1, Allow), s, s1);
    longer := run + [Decide(1, Allow)];
    Extend(cfg, {}, longer, ReceiveAnswer(0), s1, Resolve(s1, 0, Allow));
    longer := longer + [ReceiveAnswer(0)];
  }

  /** It takes its id off the list and its key out of flight. */
  lemma FirstReleases(cfg: Settings, run: seq<Event>) returns (longer: seq<Event>)
    requires After(cfg, {}, run).Some? && NoneSettled(run)
    requires var s := After(cfg, {}, run).value; BesideAsker(s, Answered(0, 1, Allow)) && |s.channels| == 1
    ensures longer == run + [Unlist(0)] + [Release(0)] && NoneSettled(longer)
    ensures After(cfg, {}, longer).Some?
    ensures var s := After(cfg, {}, longer).value;
            BesideAsker(s, Publishing(0, Allow)) && |s.channels| == 1 && s.tasks[0].key !in s.queue.inflight
  {
    var s := After(cfg, {}, run).value;
    var s1 := Goto(s.(queue := s.queue.Unlist(1)), 0, Releasing(0, Allow));
    Extend(cfg, {}, run, Unlist(0), s, s1);
    longer := run + [Unlist(0)];
    var s2 := Goto(s1.(queue := s1.queue.Release(s1.tasks[0].key)), 0, Publishing(0, Allow));
    Extend(cfg, {}, longer, Release(0), s1, s2);
    longer := longer + [Release(0)];
  }

  lemma FirstPublishes(cfg: Settings, run: seq<Event>) returns (longer: seq<Event>)
    requires After(cfg, {}, run).Some? && NoneSettled(run)
    requires var s := After(cfg, {}, run).value;
             BesideAsker(s, Publishing(0, Allow)) && |s.channels| == 1 && s.tasks[0].key !in s.queue.inflight
    ensures longer == run + [Publish(0)] && NoneSettled(longer)
    ensures After(cfg, {}, longer).Some?
    ensures var s := After(cfg, {}, longer).value;
            BesideAsker(s, Applying(Allow)) && s.tasks[0].key !in s.queue.inflight
  {
    var s := After(cfg, {}, run).value;
    var s1 := Goto(s.(channels := s.channels[0 := s.channels[0].(value := Some(Allow))]), 0, Applying(Allow));
    Extend(cfg, {}, run, Publish(0), s, s1);
    longer := run + [Publish(0)];
  }

  /** It writes the answer down, and then the second flow leads. */
  lemma SecondLeads(cfg: Settings, run: seq<Event>) returns (longer: seq<Event>)
    requires After(cfg, {}, run).Some?
    requires var s := After(cfg, {}, run).value; BesideAsker(s, Applying(Allow)) && s.tasks[0].key !in s.queue.inflight
    ensures longer == run + [Settle(0)] + [Enter(1)]
    ensures After(cfg, {}, longer).Some? && SameKey(After(cfg, {}, longer).value, 1, 0)
    ensures Applies(cfg, {}, longer, |run|, 0) && Leads(cfg, {}, longer, |run| + 1, 1)
  {
    var s := After(cfg, {}, run).value;
    var settled := SettleOutcome(s, 0, Allow);
    var before := run + [Settle(0)];
    Extend(cfg, {}, run, Settle(0), s, settled);
    Extend(cfg, {}, before, Enter(1), settled, EnterQueue(settled, 1));
    longer := before + [Enter(1)];
    assert longer[..|run|] == run && longer[..|run| + 1] == before;
  }

  /** The second of two overlapping flows leads after the first one's answer was
      written down: it was sent to ask while the first waited. */
  lemma OverlapAsksAgain() returns (cfg: Settings, run: seq<Event>, i: nat, j: nat)
    ensures After(cfg, {}, run).Some?
    ensures i < j && Applies(cfg, {}, run, i, 0) && Leads(cfg, {}, run, j, 1)
    ensures SameKey(After(cfg, {}, run).value, 1, 0)
  {
    cfg := Settings(false, true, 1, 1);
    run := LeadAndWait(cfg);
    run := SecondAsks(cfg, run);
    run := FirstIsAnswered(cfg, run);
    run := FirstReleases(cfg, run);
    var before := FirstPublishes(cfg, run);
    run := SecondLeads(cfg, before);
    i, j := |before|, |before| + 1;
  }
}
