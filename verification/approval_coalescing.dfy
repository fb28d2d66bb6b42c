/** What every step keeps about leaders, followers and the `inflight` map. */
module ApprovalCoalescing {
  import opened Net
  import opened ApprovalQueue
  import opened ApprovalProtocol

  /** A flow's part in coalescing. */
  datatype Part =
    | Idle
    | Leads(channel: nat, abandoned: bool)
    | Publishes(channel: nat)
    | Follows(channel: nat)
    | Got(outcome: Outcome)
    | Left

  function PartOf(pc: Pc): Part {
    match pc
    case Counting(c) => Leads(c, false)
    case Opening(c) => Leads(c, false)
    case Listing(c, _) => Leads(c, false)
    case Waiting(c, _, _) => Leads(c, false)
    case Answered(c, _, _) => Leads(c, false)
    case Releasing(c, _) => Leads(c, false)
    case Abandoned(c, _) => Leads(c, true)
    case Publishing(c, _) => Publishes(c)
    case Following(c) => Follows(c)
    case Applying(outcome) => Got(outcome)
    case Returned(_, Some(outcome)) => Got(outcome)
    case Gone => Left
    case _ => Idle
  }

  /** The owner of a channel holds its key, is about to publish, or has
      published exactly the outcome it returned. */
  ghost predicate ChannelOk(s: State, c: nat)
    requires c < |s.channels|
  {
    var ch := s.channels[c];
    && ch.owner in s.tasks
    && s.tasks[ch.owner].key == ch.key
    && s.tasks[ch.owner].led
    && match PartOf(s.tasks[ch.owner].pc)
       case Leads(x, _) => x == c && ch.value.None?
       case Publishes(x) => x == c && ch.value.None?
       case Got(outcome) => ch.value == Some(outcome)
       case _ => false
  }

  ghost predicate PartOk(s: State, t: nat)
    requires t in s.tasks
  {
    var task := s.tasks[t];
    match PartOf(task.pc)
    case Leads(c, _) =>
      && c < |s.channels| && s.channels[c].owner == t
      && task.key in s.queue.inflight && s.queue.inflight[task.key] == c
    case Publishes(c) => c < |s.channels| && s.channels[c].owner == t
    case Follows(c) => c in task.followed && !task.led
    case Idle => !task.led
    case _ => true
  }

  /** The leader of the channel was dropped while it held its key. */
  ghost predicate IsAbandoned(s: State, c: nat) {
    c < |s.channels| && PcOf(s, s.channels[c].owner).Abandoned?
  }

  /** A channel that a flow followed belongs to another flow with its key, and
      once the flow is past it, it will not be found in `inflight` again unless
      its leader was dropped. */
  ghost predicate FollowedOk(s: State, t: nat, c: nat)
    requires t in s.tasks
  {
    && c < |s.channels|
    && s.channels[c].key == s.tasks[t].key
    && s.channels[c].owner != t
    && (s.channels[c].value.Some? || IsAbandoned(s, c)
        || match PartOf(s.tasks[t].pc)
           case Follows(x) => x == c
           case Got(_) => true
           case Left => true
           case _ => false)
  }

  ghost predicate HistoryOk(s: State, t: nat)
    requires t in s.tasks
  {
    forall c :: c in s.tasks[t].followed ==> FollowedOk(s, t, c)
  }

  /** Without dropped leaders every round followed a new channel, or led. */
  ghost predicate RoundsOk(s: State, t: nat)
    requires t in s.tasks
  {
    (forall c :: c in s.tasks[t].followed ==> !IsAbandoned(s, c)) ==>
      s.tasks[t].rounds == |s.tasks[t].followed| + if s.tasks[t].led then 1 else 0
  }

  ghost predicate KeyOk(s: State, k: Key)
    requires k in s.queue.inflight
  {
    var c := s.queue.inflight[k];
    && c < |s.channels|
    && s.channels[c].key == k
    && PartOf(PcOf(s, s.channels[c].owner)).Leads?
  }

  ghost predicate Channels(s: State) {
    forall c :: 0 <= c < |s.channels| ==> ChannelOk(s, c)
  }

  ghost predicate Owners(s: State) {
    forall c, d :: 0 <= c < d < |s.channels| ==> s.channels[c].owner != s.channels[d].owner
  }

  ghost predicate Parts(s: State) {
    forall t :: t in s.tasks ==> PartOk(s, t)
  }

  ghost predicate Histories(s: State) {
    forall t :: t in s.tasks ==> HistoryOk(s, t) && RoundsOk(s, t)
  }

  ghost predicate Keys(s: State) {
    forall k :: k in s.queue.inflight ==> KeyOk(s, k)
  }

  ghost predicate Coalesced(s: State) {
    Channels(s) && Owners(s) && Parts(s) && Histories(s) && Keys(s)
  }

  /** Nothing that coalescing looks at changed. */
  ghost predicate SameParts(s: State, s': State) {
    && s'.channels == s.channels
    && s'.queue.inflight == s.queue.inflight
    && s'.tasks.Keys == s.tasks.Keys
    && forall t :: t in s.tasks ==>
         && s'.tasks[t].key == s.tasks[t].key
         && s'.tasks[t].led == s.tasks[t].led
         && s'.tasks[t].rounds == s.tasks[t].rounds
         && s'.tasks[t].followed == s.tasks[t].followed
         && PartOf(s'.tasks[t].pc) == PartOf(s.tasks[t].pc)
  }

  lemma SamePartsKeep(s: State, s': State)
    requires Coalesced(s) && SameParts(s, s')
    ensures Coalesced(s')
  {
    forall c | 0 <= c < |s'.channels| ensures ChannelOk(s', c) {
      assert ChannelOk(s, c);
    }
    forall t | t in s'.tasks ensures PartOk(s', t) && HistoryOk(s', t) && RoundsOk(s', t) {
      assert PartOk(s, t) && HistoryOk(s, t) && RoundsOk(s, t);
      forall c | c in s'.tasks[t].followed
        ensures FollowedOk(s', t, c) && IsAbandoned(s', c) == IsAbandoned(s, c)
      {
        assert FollowedOk(s, t, c);
        SameAbandoned(s, s', c);
      }
    }
    forall k | k in s'.queue.inflight ensures KeyOk(s', k) {
      assert KeyOk(s, k);
    }
  }

  lemma SameAbandoned(s: State, s': State, c: nat)
    requires SameParts(s, s')
    ensures IsAbandoned(s', c) == IsAbandoned(s, c)
  {
    if c < |s.channels| && s.channels[c].owner in s.tasks {
      var t := s.channels[c].owner;
      assert PartOf(s'.tasks[t].pc) == PartOf(s.tasks[t].pc);
    }
  }

  //--- the steps that change a flow's part -------------------------------------------------------

  /** Only flow `t` changed, channels kept their owners and published values,
      and dropped leaders stay dropped. */
  ghost predicate OnlyTask(s: State, s': State, t: nat) {
    && s'.tasks.Keys == s.tasks.Keys + {t}
    && (forall u :: u in s.tasks && u != t ==> s'.tasks[u] == s.tasks[u])
    && |s.channels| <= |s'.channels|
    && (forall c :: 0 <= c < |s.channels| ==>
          && s'.channels[c].key == s.channels[c].key
          && s'.channels[c].owner == s.channels[c].owner
          && (s.channels[c].value.Some? ==> s'.channels[c] == s.channels[c]))
    && (PcOf(s, t).Abandoned? ==> PcOf(s', t).Abandoned?)
  }

  lemma MoveIsOnlyTask(s: State, s': State, t: nat)
    requires t in s'.tasks && s'.tasks == s.tasks[t := s'.tasks[t]] && s'.channels == s.channels
    requires !PcOf(s, t).Abandoned?
    ensures OnlyTask(s, s', t)
  {
  }

  lemma AbandonedStays(s: State, s': State, t: nat, c: nat)
    requires OnlyTask(s, s', t) && IsAbandoned(s, c)
    ensures IsAbandoned(s', c)
  {
    var owner := s.channels[c].owner;
    assert owner != t ==> s'.tasks[owner] == s.tasks[owner];
  }

  lemma OtherHistoriesKeep(s: State, s': State, t: nat, u: nat)
    requires OnlyTask(s, s', t) && u in s.tasks && u != t
    requires HistoryOk(s, u) && RoundsOk(s, u)
    ensures HistoryOk(s', u) && RoundsOk(s', u)
  {
    forall c | c in s'.tasks[u].followed
      ensures FollowedOk(s', u, c) && (IsAbandoned(s, c) ==> IsAbandoned(s', c))
    {
      assert FollowedOk(s, u, c);
      if IsAbandoned(s, c) { AbandonedStays(s, s', t, c); }
    }
  }

  lemma HistoriesKeep(s: State, s': State, t: nat)
    requires Histories(s) && OnlyTask(s, s', t)
    requires HistoryOk(s', t) && RoundsOk(s', t)
    ensures Histories(s')
  {
    forall u | u in s'.tasks ensures HistoryOk(s', u) && RoundsOk(s', u) {
      if u != t { OtherHistoriesKeep(s, s', t, u); }
    }
  }

  ghost predicate OwnedBy(s: State, c: nat, t: nat) {
    c < |s.channels| && s.channels[c].owner == t
  }

  lemma ChannelsKeep(s: State, s': State, t: nat)
    requires Channels(s) && OnlyTask(s, s', t) && |s'.channels| == |s.channels|
    requires forall c :: 0 <= c < |s.channels| ==>
               if s.channels[c].owner == t then ChannelOk(s', c) else s'.channels[c] == s.channels[c]
    ensures Channels(s')
  {
    forall c | 0 <= c < |s'.channels| ensures ChannelOk(s', c) {
      assert ChannelOk(s, c);
    }
  }

  lemma PartsKeep(s: State, s': State, t: nat)
    requires Parts(s) && OnlyTask(s, s', t) && PartOk(s', t)
    requires forall u :: u in s.tasks && u != t && PartOf(s.tasks[u].pc).Leads? ==>
               var k := s.tasks[u].key;
               k in s.queue.inflight ==> k in s'.queue.inflight && s'.queue.inflight[k] == s.queue.inflight[k]
    ensures Parts(s')
  {
    forall u | u in s'.tasks ensures PartOk(s', u) {
      if u != t { assert PartOk(s, u); }
    }
  }

  lemma KeysKeep(s: State, s': State, t: nat)
    requires Keys(s) && OnlyTask(s, s', t)
    requires forall k :: k in s'.queue.inflight ==>
               k in s.queue.inflight && s'.queue.inflight[k] == s.queue.inflight[k]
    requires forall k :: k in s'.queue.inflight && OwnedBy(s, s.queue.inflight[k], t) ==> PartOf(PcOf(s', t)).Leads?
    ensures Keys(s')
  {
    forall k | k in s'.queue.inflight ensures KeyOk(s', k) {
      assert KeyOk(s, k);
    }
  }

  /** A flow that owns no channel moves without touching the queue. */
  lemma NonOwnerKeeps(s: State, s': State, t: nat)
    requires Coalesced(s) && OnlyTask(s, s', t)
    requires t in s.tasks ==> PartOf(PcOf(s, t)).Idle? || PartOf(PcOf(s, t)).Follows?
    requires s'.channels == s.channels && s'.queue.inflight == s.queue.inflight
    requires PartOk(s', t) && HistoryOk(s', t) && RoundsOk(s', t)
    ensures Coalesced(s')
  {
    forall c | 0 <= c < |s.channels| ensures s.channels[c].owner != t {
      assert ChannelOk(s, c);
    }
    ChannelsKeep(s, s', t);
    PartsKeep(s, s', t);
    HistoriesKeep(s, s', t);
    KeysKeep(s, s', t);
  }

  lemma BeginKeeps(s: State, t: nat, task: Task)
    requires Coalesced(s) && t !in s.tasks
    requires task.pc.Starting? && !task.led && task.rounds == 0 && task.followed == {}
    ensures Coalesced(s.(tasks := s.tasks[t := task]))
  {
    NonOwnerKeeps(s, s.(tasks := s.tasks[t := task]), t);
  }

  /** The key's channel is new to the flow unless its leader was dropped. */
  lemma FollowedIsNew(s: State, t: nat)
    requires Coalesced(s) && PcOf(s, t).Asking? && t in s.tasks && s.tasks[t].key in s.queue.inflight
    ensures var c := s.queue.inflight[s.tasks[t].key];
            && c < |s.channels| && s.channels[c].key == s.tasks[t].key && s.channels[c].owner != t
            && (c in s.tasks[t].followed ==> IsAbandoned(s, c))
  {
    var k := s.tasks[t].key;
    var c := s.queue.inflight[k];
    assert KeyOk(s, k) && ChannelOk(s, c) && HistoryOk(s, t);
    if c in s.tasks[t].followed {
      assert FollowedOk(s, t, c);
    }
  }

  /** What a flow followed before its step stays in order if the step keeps its
      earlier channels, or moves it past them. */
  lemma OwnHistoryKeeps(s: State, s': State, t: nat)
    requires OnlyTask(s, s', t) && t in s.tasks && t in s'.tasks && HistoryOk(s, t)
    requires s'.tasks[t].key == s.tasks[t].key
    requires PartOf(PcOf(s', t)).Got? || PartOf(PcOf(s', t)).Left? || PartOf(PcOf(s, t)).Leads?
             || PartOf(PcOf(s, t)).Publishes? || PartOf(PcOf(s, t)).Idle?
             || (PcOf(s, t).Following? &&
                 var c := PcOf(s, t).channel; c < |s.channels| && (s.channels[c].value.Some? || IsAbandoned(s, c)))
    ensures forall c :: c in s.tasks[t].followed ==> FollowedOk(s', t, c) && (IsAbandoned(s, c) ==> IsAbandoned(s', c))
  {
    forall c | c in s.tasks[t].followed
      ensures FollowedOk(s', t, c) && (IsAbandoned(s, c) ==> IsAbandoned(s', c))
    {
      assert FollowedOk(s, t, c);
      if IsAbandoned(s, c) { AbandonedStays(s, s', t, c); }
    }
  }

  lemma OwnFacts(s: State, t: nat)
    requires Coalesced(s) && t in s.tasks
    ensures PartOk(s, t) && HistoryOk(s, t) && RoundsOk(s, t)
    ensures var part := PartOf(s.tasks[t].pc);
            part.Leads? || part.Publishes? ==> part.channel < |s.channels| && ChannelOk(s, part.channel)
  {
  }

  lemma OwnPastKeeps(s: State, s': State, t: nat)
    requires OnlyTask(s, s', t) && t in s.tasks && t in s'.tasks && HistoryOk(s, t) && RoundsOk(s, t)
    requires s'.tasks[t] == s.tasks[t].(pc := s'.tasks[t].pc)
    requires PartOf(PcOf(s', t)).Got? || PartOf(PcOf(s', t)).Left? || PartOf(PcOf(s, t)).Leads?
             || PartOf(PcOf(s, t)).Publishes?
             || (PcOf(s, t).Following? &&
                 var c := PcOf(s, t).channel; c < |s.channels| && (s.channels[c].value.Some? || IsAbandoned(s, c)))
    ensures HistoryOk(s', t) && RoundsOk(s', t)
  {
    OwnHistoryKeeps(s, s', t);
  }

  lemma FollowKeeps(s: State, t: nat)
    requires Coalesced(s) && PcOf(s, t).Asking? && t in s.tasks && s.tasks[t].key in s.queue.inflight
    ensures Coalesced(EnterQueue(s, t))
  {
    OwnFacts(s, t);
    FollowedIsNew(s, t);
    FollowOk(s, t);
    NonOwnerKeeps(s, EnterQueue(s, t), t);
  }

  lemma FollowOk(s: State, t: nat)
    requires PcOf(s, t).Asking? && t in s.tasks && s.tasks[t].key in s.queue.inflight
    requires PartOk(s, t) && HistoryOk(s, t) && RoundsOk(s, t)
    requires var c := s.queue.inflight[s.tasks[t].key];
             && c < |s.channels| && s.channels[c].key == s.tasks[t].key && s.channels[c].owner != t
             && (c in s.tasks[t].followed ==> IsAbandoned(s, c))
    ensures var s' := EnterQueue(s, t);
            OnlyTask(s, s', t) && PartOk(s', t) && HistoryOk(s', t) && RoundsOk(s', t)
  {
    var s' := EnterQueue(s, t);
    var c := s.queue.inflight[s.tasks[t].key];
    MoveIsOnlyTask(s, s', t);
    OwnHistoryKeeps(s, s', t);
    if c in s.tasks[t].followed { AbandonedStays(s, s', t, c); }
  }

  /** A follower stops following: it heard an answer, was cancelled, saw its
      leader's sender close, or was dropped. */
  lemma StopFollowingKeeps(s: State, t: nat, pc: Pc)
    requires Coalesced(s) && PcOf(s, t).Following? && t in s.tasks
    requires pc.Applying? || pc.Gone? || pc.Asking?
    requires pc.Asking? ==>
               var c := s.tasks[t].pc.channel; c < |s.channels| && (s.channels[c].value.Some? || IsAbandoned(s, c))
    ensures Coalesced(Goto(s, t, pc))
  {
    OwnFacts(s, t);
    StopFollowingOk(s, t, pc);
    NonOwnerKeeps(s, Goto(s, t, pc), t);
  }

  lemma StopFollowingOk(s: State, t: nat, pc: Pc)
    requires PcOf(s, t).Following? && t in s.tasks && PartOk(s, t) && HistoryOk(s, t) && RoundsOk(s, t)
    requires pc.Applying? || pc.Gone? || pc.Asking?
    requires pc.Asking? ==>
               var c := s.tasks[t].pc.channel; c < |s.channels| && (s.channels[c].value.Some? || IsAbandoned(s, c))
    ensures var s' := Goto(s, t, pc);
            OnlyTask(s, s', t) && PartOk(s', t) && HistoryOk(s', t) && RoundsOk(s', t)
  {
    MoveIsOnlyTask(s, Goto(s, t, pc), t);
    OwnPastKeeps(s, Goto(s, t, pc), t);
  }

  /** Becoming a leader: the flow owned no channel before. */
  lemma LeadKeeps(s: State, t: nat)
    requires Coalesced(s) && PcOf(s, t).Asking? && t in s.tasks && s.tasks[t].key !in s.queue.inflight
    ensures Coalesced(EnterQueue(s, t))
  {
    LeadKeepsChannels(s, t);
    LeadKeepsHistories(s, t);
    LeadKeepsParts(s, t);
    LeadKeepsKeys(s, t);
  }

  lemma LeadKeepsHistories(s: State, t: nat)
    requires Coalesced(s) && PcOf(s, t).Asking? && t in s.tasks && s.tasks[t].key !in s.queue.inflight
    ensures Histories(EnterQueue(s, t))
  {
    var s' := EnterQueue(s, t);
    assert PartOk(s, t) && HistoryOk(s, t) && RoundsOk(s, t);
    LeadKeepsChannels(s, t);
    OwnHistoryKeeps(s, s', t);
    HistoriesKeep(s, s', t);
  }

  lemma LeadKeepsParts(s: State, t: nat)
    requires Coalesced(s) && PcOf(s, t).Asking? && t in s.tasks && s.tasks[t].key !in s.queue.inflight
    ensures Parts(EnterQueue(s, t))
  {
    assert PartOk(s, t);
    PartsKeep(s, EnterQueue(s, t), t);
  }

  lemma LeadKeepsKeys(s: State, t: nat)
    requires Coalesced(s) && PcOf(s, t).Asking? && t in s.tasks && s.tasks[t].key !in s.queue.inflight
    ensures Keys(EnterQueue(s, t))
  {
    var s' := EnterQueue(s, t);
    assert PartOk(s, t);
    forall k | k in s'.queue.inflight ensures KeyOk(s', k) {
      if k != s.tasks[t].key { assert KeyOk(s, k); }
    }
  }

  lemma LeadKeepsChannels(s: State, t: nat)
    requires Coalesced(s) && PcOf(s, t).Asking? && t in s.tasks && s.tasks[t].key !in s.queue.inflight
    ensures Channels(EnterQueue(s, t)) && Owners(EnterQueue(s, t))
  {
    var s' := EnterQueue(s, t);
    var n := |s.channels|;
    assert PartOk(s, t);
    forall c | 0 <= c < n ensures ChannelOk(s', c) && s.channels[c].owner != t {
      assert ChannelOk(s, c);
    }
    assert ChannelOk(s', n);
  }

  /** A leader moves on with the channel it owns. */
  lemma OwnerKeeps(s: State, s': State, t: nat)
    requires Coalesced(s) && OnlyTask(s, s', t) && t in s.tasks
    requires PartOf(PcOf(s, t)).Leads? || PartOf(PcOf(s, t)).Publishes?
    requires s'.tasks[t] == s.tasks[t].(pc := s'.tasks[t].pc) && PartOk(s', t)
    requires |s'.channels| == |s.channels|
    requires forall c :: 0 <= c < |s.channels| && s.channels[c].owner != t ==> s'.channels[c] == s.channels[c]
    requires var c := PartOf(PcOf(s, t)).channel; c < |s.channels| && ChannelOk(s', c)
    requires s'.queue.inflight == s.queue.inflight || s'.queue.inflight == s.queue.inflight - {s.tasks[t].key}
    requires s.tasks[t].key in s'.queue.inflight && PartOf(PcOf(s, t)).Leads? ==> PartOf(PcOf(s', t)).Leads?
    requires s'.queue.inflight != s.queue.inflight ==> PartOf(PcOf(s, t)).Leads?
    ensures Coalesced(s')
  {
    assert Channels(s') by {
      forall c | 0 <= c < |s.channels| && s.channels[c].owner == t ensures c == PartOf(s.tasks[t].pc).channel {
        assert ChannelOk(s, c);
      }
      ChannelsKeep(s, s', t);
    }
    assert Histories(s') by {
      OwnFacts(s, t);
      OwnPastKeeps(s, s', t);
      HistoriesKeep(s, s', t);
    }
    OtherKeysKeep(s, s', t);
  }

  lemma OtherKeysKeep(s: State, s': State, t: nat)
    requires Channels(s) && Parts(s) && Keys(s) && OnlyTask(s, s', t) && t in s.tasks
    requires PartOf(PcOf(s, t)).Leads? || PartOf(PcOf(s, t)).Publishes?
    requires PartOk(s', t)
    requires s'.queue.inflight == s.queue.inflight || s'.queue.inflight == s.queue.inflight - {s.tasks[t].key}
    requires s.tasks[t].key in s'.queue.inflight && PartOf(PcOf(s, t)).Leads? ==> PartOf(PcOf(s', t)).Leads?
    requires s'.queue.inflight != s.queue.inflight ==> PartOf(PcOf(s, t)).Leads?
    ensures Parts(s') && Keys(s')
  {
    forall u | u in s.tasks && u != t && PartOf(s.tasks[u].pc).Leads? && s.tasks[u].key == s.tasks[t].key
      ensures s'.queue.inflight == s.queue.inflight
    {
      assert PartOk(s, u) && PartOk(s, t);
    }
    PartsKeep(s, s', t);
    forall k | k in s'.queue.inflight && OwnedBy(s, s.queue.inflight[k], t)
      ensures PartOf(PcOf(s', t)).Leads?
    {
      assert KeyOk(s, k) && ChannelOk(s, s.queue.inflight[k]);
    }
    KeysKeep(s, s', t);
  }

  /** Dropping a leader in its `select!` leaves the key with a dead channel. */
  lemma AbandonKeeps(s: State, t: nat, pc: Pc)
    requires Coalesced(s) && PcOf(s, t).Waiting? && t in s.tasks
    requires pc.Abandoned? && pc.channel == s.tasks[t].pc.channel
    ensures Coalesced(Goto(s, t, pc))
  {
    var s' := Goto(s, t, pc);
    OwnFacts(s, t);
    AbandonOk(s, t, pc);
    AbandonIs(s, t, pc, s');
    OwnerKeeps(s, s', t);
  }

  lemma AbandonIs(s: State, t: nat, pc: Pc, s': State)
    requires PcOf(s, t).Waiting? && t in s.tasks && s' == Goto(s, t, pc)
    requires pc.Abandoned? && pc.channel == s.tasks[t].pc.channel
    ensures PartOf(PcOf(s, t)) == Leads(pc.channel, false)
    ensures PartOf(PcOf(s', t)) == Leads(pc.channel, true)
    ensures s'.channels == s.channels && s'.queue.inflight == s.queue.inflight
    ensures s'.tasks[t] == s.tasks[t].(pc := s'.tasks[t].pc)
  {
  }

  lemma AbandonOk(s: State, t: nat, pc: Pc)
    requires PcOf(s, t).Waiting? && t in s.tasks
    requires pc.Abandoned? && pc.channel == s.tasks[t].pc.channel
    requires var c := pc.channel; c < |s.channels| && ChannelOk(s, c) && PartOk(s, t)
    ensures var s' := Goto(s, t, pc); OnlyTask(s, s', t) && PartOk(s', t) && ChannelOk(s', pc.channel)
  {
    MoveIsOnlyTask(s, Goto(s, t, pc), t);
  }

  /** The removal takes out the leader's own channel, and nobody else's. */
  lemma ReleaseKeeps(s: State, t: nat, outcome: Outcome)
    requires Coalesced(s) && PcOf(s, t).Releasing? && t in s.tasks
    ensures s.tasks[t].key in s.queue.inflight && s.queue.inflight[s.tasks[t].key] == s.tasks[t].pc.channel
    ensures Coalesced(Goto(s.(queue := s.queue.Release(s.tasks[t].key)), t, Publishing(s.tasks[t].pc.channel, outcome)))
  {
    var c := s.tasks[t].pc.channel;
    OwnFacts(s, t);
    ReleaseOk(s, t, outcome);
    OwnerKeeps(s, Goto(s.(queue := s.queue.Release(s.tasks[t].key)), t, Publishing(c, outcome)), t);
  }

  lemma ReleaseOk(s: State, t: nat, outcome: Outcome)
    requires PcOf(s, t).Releasing? && t in s.tasks
    requires var c := s.tasks[t].pc.channel; c < |s.channels| && ChannelOk(s, c) && PartOk(s, t)
    ensures var c := s.tasks[t].pc.channel;
            var s' := Goto(s.(queue := s.queue.Release(s.tasks[t].key)), t, Publishing(c, outcome));
            OnlyTask(s, s', t) && PartOk(s', t) && ChannelOk(s', c)
  {
  }

  /** Publishing after the removal: no flow can start to follow the channel any more. */
  lemma PublishKeeps(s: State, s': State, t: nat, outcome: Outcome)
    requires Coalesced(s) && PcOf(s, t).Publishing? && t in s.tasks
    requires var c := s.tasks[t].pc.channel;
             && c < |s.channels|
             && s' == Goto(s.(channels := s.channels[c := s.channels[c].(value := Some(outcome))]), t, Applying(outcome))
    ensures var c := s.tasks[t].pc.channel; s.channels[c].owner == t && s.channels[c].value.None?
    ensures Coalesced(s')
  {
    OwnFacts(s, t);
    PublishOk(s, s', t, outcome);
    OwnerKeeps(s, s', t);
  }

  lemma PublishOk(s: State, s': State, t: nat, outcome: Outcome)
    requires PcOf(s, t).Publishing? && t in s.tasks
    requires var c := s.tasks[t].pc.channel;
             && c < |s.channels| && ChannelOk(s, c) && PartOk(s, t)
             && s' == Goto(s.(channels := s.channels[c := s.channels[c].(value := Some(outcome))]), t, Applying(outcome))
    ensures OnlyTask(s, s', t) && PartOk(s', t) && ChannelOk(s', s.tasks[t].pc.channel)
  {
  }

  //--- every step --------------------------------------------------------------------------------

  /** A step within a part: only the flow's program counter and what coalescing
      does not look at changed. */
  ghost predicate StaysInPart(s: State, s': State, t: nat) {
    && t in s.tasks && t in s'.tasks
    && s'.channels == s.channels && s'.queue.inflight == s.queue.inflight
    && s'.tasks == s.tasks[t := s.tasks[t].(pc := s'.tasks[t].pc)]
    && PartOf(s'.tasks[t].pc) == PartOf(s.tasks[t].pc)
  }

  lemma WaitStepStays(s: State, e: Event)
    requires IsFlowEvent(e) && WaitStep(s, e).Some?
    ensures StaysInPart(s, WaitStep(s, e).value, e.task)
  {
  }

  lemma EarlyStepStays(cfg: Settings, s: State, e: Event)
    requires e.CheckLimited? || e.Consult? || e.CountPrompt? || e.Open?
    requires FlowStep(cfg, s, e).Some?
    ensures StaysInPart(s, FlowStep(cfg, s, e).value, e.task)
  {
  }

  lemma LateStepStays(cfg: Settings, s: State, e: Event)
    requires e.List? || e.TakeScreen? || e.ShowDialog? || e.Unlist? || e.Settle?
    requires FlowStep(cfg, s, e).Some?
    ensures StaysInPart(s, FlowStep(cfg, s, e).value, e.task)
  {
  }

  lemma HearKeeps(cfg: Settings, s: State, e: Event)
    requires Coalesced(s) && (e.Hear? || e.HearClosed?) && FlowStep(cfg, s, e).Some? && PcOf(s, e.task).Following?
    ensures Coalesced(FlowStep(cfg, s, e).value)
  {
    StopFollowingKeeps(s, e.task, FlowStep(cfg, s, e).value.tasks[e.task].pc);
  }

  lemma LeaveKeeps(s: State, t: nat)
    requires Coalesced(s) && DropStep(s, t).Some? && PcOf(s, t).Following?
    ensures Coalesced(DropStep(s, t).value)
  {
    StopFollowingKeeps(s, t, Gone);
  }

  lemma CancelledKeeps(cfg: Settings, s: State, e: Event)
    requires Coalesced(s) && e.ObserveCancel? && FlowStep(cfg, s, e).Some? && PcOf(s, e.task).Following?
    ensures Coalesced(FlowStep(cfg, s, e).value)
  {
    StopFollowingKeeps(s, e.task, Applying(Cancelled));
  }

  lemma FollowerEvents(cfg: Settings, s: State, e: Event)
    requires IsFlowEvent(e) && FlowStep(cfg, s, e).Some? && PcOf(s, e.task).Following?
    ensures e.Hear? || e.HearClosed? || e.Drop? || e.ObserveCancel?
  {
  }

  lemma FollowerStepKeeps(cfg: Settings, s: State, e: Event)
    requires Coalesced(s) && IsFlowEvent(e) && FlowStep(cfg, s, e).Some? && PcOf(s, e.task).Following?
    ensures Coalesced(FlowStep(cfg, s, e).value)
  {
    FollowerEvents(cfg, s, e);
    if e.Hear? || e.HearClosed? {
      HearKeeps(cfg, s, e);
    } else if e.Drop? {
      LeaveKeeps(s, e.task);
    } else {
      CancelledKeeps(cfg, s, e);
    }
  }

  lemma OwnerStepKeeps(cfg: Settings, s: State, e: Event)
    requires Coalesced(s) && (e.Enter? || e.Release? || e.Publish?) && FlowStep(cfg, s, e).Some?
    ensures Coalesced(FlowStep(cfg, s, e).value)
  {
    var t := e.task;
    match e
    case Enter(_) => if s.tasks[t].key in s.queue.inflight { FollowKeeps(s, t); } else { LeadKeeps(s, t); }
    case Release(_) => ReleaseKeeps(s, t, s.tasks[t].pc.outcome);
    case Publish(_) => PublishKeeps(s, PublishStep(s, t).value, t, s.tasks[t].pc.outcome);
  }

  lemma DropLeaderKeeps(s: State, t: nat)
    requires Coalesced(s) && PcOf(s, t).Waiting? && DropStep(s, t).Some?
    ensures Coalesced(DropStep(s, t).value)
  {
    var s' := DropStep(s, t).value;
    AbandonKeeps(s, t, s'.tasks[t].pc);
    SamePartsKeep(Goto(s, t, s'.tasks[t].pc), s');
  }

  lemma FlowStepKeeps(cfg: Settings, s: State, e: Event)
    requires Coalesced(s) && IsFlowEvent(e) && FlowStep(cfg, s, e).Some?
    ensures Coalesced(FlowStep(cfg, s, e).value)
  {
    if PcOf(s, e.task).Following? {
      FollowerStepKeeps(cfg, s, e);
    } else if e.Enter? || e.Release? || e.Publish? {
      OwnerStepKeeps(cfg, s, e);
    } else if e.Drop? {
      DropLeaderKeeps(s, e.task);
    } else {
      QuietStepKeeps(cfg, s, e);
    }
  }

  lemma QuietStepKeeps(cfg: Settings, s: State, e: Event)
    requires Coalesced(s) && IsFlowEvent(e) && FlowStep(cfg, s, e).Some? && !PcOf(s, e.task).Following?
    requires !e.Enter? && !e.Release? && !e.Publish? && !e.Drop?
    ensures Coalesced(FlowStep(cfg, s, e).value)
  {
    QuietStepStays(cfg, s, e);
    SamePartsKeep(s, FlowStep(cfg, s, e).value);
  }

  lemma QuietStepStays(cfg: Settings, s: State, e: Event)
    requires IsFlowEvent(e) && FlowStep(cfg, s, e).Some? && !PcOf(s, e.task).Following?
    requires !e.Enter? && !e.Release? && !e.Publish? && !e.Drop?
    ensures StaysInPart(s, FlowStep(cfg, s, e).value, e.task)
  {
    if e.CheckLimited? || e.Consult? || e.CountPrompt? || e.Open? {
      EarlyStepStays(cfg, s, e);
    } else if e.List? || e.TakeScreen? || e.ShowDialog? || e.Unlist? || e.Settle? {
      LateStepStays(cfg, s, e);
    } else if !e.Hear? && !e.HearClosed? {
      WaitStepStays(s, e);
    }
  }

  /** Outside events leave every flow's part alone. */
  lemma RetireSameParts(s: State, entry: Entry)
    ensures SameParts(s, RetireEntry(s, entry))
  {
  }

  lemma CancelSameParts(s: State, t: nat)
    requires t in s.tasks
    ensures SameParts(s, s.(tasks := s.tasks[t := s.tasks[t].(cancelled := true)]))
  {
  }

  lemma OutsideSameParts(cfg: Settings, s: State, e: Event)
    requires !IsFlowEvent(e) && !e.Begin? && Next(cfg, s, e).Some?
    ensures SameParts(s, Next(cfg, s, e).value)
  {
    if e.Retire? {
      RetireSameParts(s, e.entry);
    } else if e.CancelFlow? {
      CancelSameParts(s, e.task);
    }
  }

  lemma OutsideKeeps(cfg: Settings, s: State, e: Event)
    requires Coalesced(s) && !IsFlowEvent(e) && !e.Begin? && Next(cfg, s, e).Some?
    ensures Coalesced(Next(cfg, s, e).value)
  {
    OutsideSameParts(cfg, s, e);
    SamePartsKeep(s, Next(cfg, s, e).value);
  }

  /** Every step of every flow and of the operator keeps coalescing in order. */
  lemma StepKeeps(cfg: Settings, s: State, e: Event)
    requires Coalesced(s) && Next(cfg, s, e).Some?
    ensures Coalesced(Next(cfg, s, e).value)
  {
    match e
    case Begin(t, entry, key, tcp, dead) => BeginKeeps(s, t, Task(entry, key, tcp, dead, Starting, false, 0, {}));
    case _ =>
      if IsFlowEvent(e) {
        FlowStepKeeps(cfg, s, e);
      } else {
        OutsideKeeps(cfg, s, e);
      }
  }

  lemma {:induction false} RunKeeps(cfg: Settings, limited: set<Entry>, run: seq<Event>)
    requires After(cfg, limited, run).Some?
    ensures Coalesced(After(cfg, limited, run).value)
  {
    if run != [] {
      var n := |run| - 1;
      RunKeeps(cfg, limited, run[..n]);
      StepKeeps(cfg, After(cfg, limited, run[..n]).value, run[n]);
    }
  }
}
