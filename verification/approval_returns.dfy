/** What a flow that was sent to ask returns, and where its outcome comes from. */
module ApprovalReturns {
  import opened Net
  import opened ApprovalQueue
  import opened ApprovalProtocol
  import opened ApprovalRuns
  import opened ApprovalAnswers
  import opened ApprovalEndings
  import Coalescing = ApprovalCoalescing
  import Prompts = ApprovalPrompts

  //--- outcomes ----------------------------------------------------------------------------------

  /** What was published on the channel that flow `t` follows. */
  function Heard(s: State, t: nat): Option<Outcome> {
    match PcOf(s, t)
    case Following(c) => if c < |s.channels| then s.channels[c].value else None
    case _ => None
  }

  predicate IsRefused(cfg: Settings, s: State, t: nat, now: int)
    requires t in s.tasks
  {
    !s.queue.CountPrompt(cfg, s.tasks[t].key.sandbox, now).0
  }

  /** The step gives flow `t` its outcome: a leader's prompt ends, or the limit
      refuses it, or nobody can answer one; a follower is cancelled, or hears what
      its leader got, unless that was a cancellation. */
  ghost predicate GetsIn(cfg: Settings, s: State, e: Event, t: nat, outcome: Outcome) {
    match PcOf(s, t)
    case Waiting(_, id, _) => IsEnding(s, e, t, id, outcome)
    case Counting(_) =>
      && e.CountPrompt? && e.task == t && outcome.RateLimited?
      && (cfg.surface || cfg.queueHeadless) && IsRefused(cfg, s, t, e.now)
    case Opening(_) => e == Open(t) && outcome.Dismissed? && !cfg.surface && !cfg.queueHeadless
    case Following(_) =>
      || (e == ObserveCancel(t) && outcome.Cancelled? && IsCancelled(s, t))
      || (e == Hear(t) && !outcome.Cancelled? && Heard(s, t) == Some(outcome))
    case _ => false
  }

  ghost predicate GetsNext(cfg: Settings, limited: set<Entry>, run: seq<Event>, e: Event, t: nat, outcome: Outcome) {
    After(cfg, limited, run).Some? && GetsIn(cfg, After(cfg, limited, run).value, e, t, outcome)
  }

  ghost predicate GetsAt(cfg: Settings, limited: set<Entry>, run: seq<Event>, i: nat, t: nat, outcome: Outcome) {
    i < |run| && GetsNext(cfg, limited, run[..i], run[i], t, outcome)
  }

  ghost predicate EverGets(cfg: Settings, limited: set<Entry>, run: seq<Event>, t: nat, outcome: Outcome) {
    exists i: nat :: GetsAt(cfg, limited, run, i, t, outcome)
  }

  /** The step brings the flow its outcome, and no other does. */
  ghost predicate Brings(cfg: Settings, s: State, e: Event, s': State, t: nat, outcome: Outcome) {
    Carries(PcOf(s', t), outcome) <==> Carries(PcOf(s, t), outcome) || GetsIn(cfg, s, e, t, outcome)
  }

  lemma WaiterGets(cfg: Settings, s: State, e: Event, outcome: Outcome)
    requires Prompts.Prompted(s) && IsFlowEvent(e) && PcOf(s, e.task).Waiting? && FlowStep(cfg, s, e).Some?
    ensures Brings(cfg, s, e, FlowStep(cfg, s, e).value, e.task, outcome)
  {
    var t := e.task;
    var id := PcOf(s, t).id;
    assert Prompts.PromptOk(s, t);
    EndsInIff(cfg, s, e, t, id, outcome);
    assert EndsAsListed(cfg, s, e, t, id, outcome);
    WaiterGoes(cfg, s, e, outcome);
  }

  lemma WaiterGoes(cfg: Settings, s: State, e: Event, outcome: Outcome)
    requires IsFlowEvent(e) && PcOf(s, e.task).Waiting? && FlowStep(cfg, s, e).Some?
    ensures Carries(PcOf(FlowStep(cfg, s, e).value, e.task), outcome) <==>
              EndsIn(cfg, s, e, e.task, PcOf(s, e.task).id, outcome)
  {
  }

  lemma FollowerGets(cfg: Settings, s: State, e: Event, outcome: Outcome)
    requires IsFlowEvent(e) && PcOf(s, e.task).Following? && FlowStep(cfg, s, e).Some?
    ensures Brings(cfg, s, e, FlowStep(cfg, s, e).value, e.task, outcome)
  {
    Coalescing.FollowerEvents(cfg, s, e);
  }

  lemma EarlyFlowGets(cfg: Settings, s: State, e: Event, outcome: Outcome)
    requires e.CheckLimited? || e.Consult? || e.Enter? || e.List? || e.Open? || e.CountPrompt?
    requires FlowStep(cfg, s, e).Some?
    ensures Brings(cfg, s, e, FlowStep(cfg, s, e).value, e.task, outcome)
  {
  }

  lemma LateFlowGets(cfg: Settings, s: State, e: Event, outcome: Outcome)
    requires e.Unlist? || e.Release? || e.Publish? || e.Settle?
    requires FlowStep(cfg, s, e).Some?
    ensures Brings(cfg, s, e, FlowStep(cfg, s, e).value, e.task, outcome)
  {
  }

  lemma OwnStepGets(cfg: Settings, s: State, e: Event, outcome: Outcome)
    requires Prompts.Prompted(s) && IsFlowEvent(e) && FlowStep(cfg, s, e).Some?
    ensures Brings(cfg, s, e, FlowStep(cfg, s, e).value, e.task, outcome)
  {
    if e.CheckLimited? || e.Consult? || e.Enter? || e.List? || e.Open? || e.CountPrompt? {
      EarlyFlowGets(cfg, s, e, outcome);
    } else if e.Unlist? || e.Release? || e.Publish? || e.Settle? {
      LateFlowGets(cfg, s, e, outcome);
    } else if PcOf(s, e.task).Following? {
      FollowerGets(cfg, s, e, outcome);
    } else {
      WaiterGets(cfg, s, e, outcome);
    }
  }

  lemma StepGets(cfg: Settings, s: State, e: Event, t: nat, outcome: Outcome)
    requires Prompts.Prompted(s) && Next(cfg, s, e).Some?
    ensures Brings(cfg, s, e, Next(cfg, s, e).value, t, outcome)
  {
    if IsFlowEvent(e) && e.task == t {
      OwnStepGets(cfg, s, e, outcome);
    } else {
      OthersGiveNothing(cfg, s, e, t, outcome);
      OtherStepsStay(cfg, s, e, t);
    }
  }

  lemma OthersGiveNothing(cfg: Settings, s: State, e: Event, t: nat, outcome: Outcome)
    requires !(IsFlowEvent(e) && e.task == t)
    ensures !GetsIn(cfg, s, e, t, outcome)
  {
  }

  lemma GetsEarlier(cfg: Settings, limited: set<Entry>, run: seq<Event>, i: nat, t: nat, outcome: Outcome)
    requires i < |run| - 1
    ensures GetsAt(cfg, limited, run, i, t, outcome) <==> GetsAt(cfg, limited, run[..|run| - 1], i, t, outcome)
  {
    assert run[..|run| - 1][..i] == run[..i];
  }

  lemma EverGetsShifts(cfg: Settings, limited: set<Entry>, run: seq<Event>, t: nat, outcome: Outcome)
    requires run != []
    ensures var n := |run| - 1;
            EverGets(cfg, limited, run, t, outcome)
            <==> EverGets(cfg, limited, run[..n], t, outcome) || GetsNext(cfg, limited, run[..n], run[n], t, outcome)
  {
    var n := |run| - 1;
    if i: nat :| GetsAt(cfg, limited, run, i, t, outcome) {
      if i < n { GetsEarlier(cfg, limited, run, i, t, outcome); }
    }
    if i: nat :| GetsAt(cfg, limited, run[..n], i, t, outcome) {
      GetsEarlier(cfg, limited, run, i, t, outcome);
    }
    if GetsNext(cfg, limited, run[..n], run[n], t, outcome) {
      assert GetsAt(cfg, limited, run, n, t, outcome);
    }
  }

  /** Over every run, a flow carries or returned an outcome exactly when some step
      of the run gave it that outcome. */
  lemma {:induction false} CarriesIff(cfg: Settings, limited: set<Entry>, run: seq<Event>, t: nat, outcome: Outcome)
    requires After(cfg, limited, run).Some?
    ensures Carries(PcOf(After(cfg, limited, run).value, t), outcome) <==> EverGets(cfg, limited, run, t, outcome)
  {
    if run != [] {
      var n := |run| - 1;
      Prompts.RunKeeps(cfg, limited, run[..n]);
      CarriesIff(cfg, limited, run[..n], t, outcome);
      StepGets(cfg, After(cfg, limited, run[..n]).value, run[n], t, outcome);
      assert Brings(cfg, After(cfg, limited, run[..n]).value, run[n], After(cfg, limited, run).value, t, outcome);
      EverGetsShifts(cfg, limited, run, t, outcome);
    }
  }

  //--- verdicts ----------------------------------------------------------------------------------

  /** A flow that was asked about passed exactly when it got an Allow or a Temp. */
  ghost predicate AsAnswered(s: State, t: nat) {
    match PcOf(s, t)
    case Returned(allowed, Some(outcome)) => allowed <==> outcome.Allow? || outcome.Temp?
    case _ => true
  }

  lemma OwnStepReturns(cfg: Settings, s: State, e: Event)
    requires IsFlowEvent(e) && FlowStep(cfg, s, e).Some?
    ensures AsAnswered(FlowStep(cfg, s, e).value, e.task)
  {
  }

  lemma StepReturns(cfg: Settings, s: State, e: Event, t: nat)
    requires AsAnswered(s, t) && Next(cfg, s, e).Some?
    ensures AsAnswered(Next(cfg, s, e).value, t)
  {
    if IsFlowEvent(e) && e.task == t {
      OwnStepReturns(cfg, s, e);
    } else {
      OtherStepsStay(cfg, s, e, t);
    }
  }

  lemma {:induction false} RunReturns(cfg: Settings, limited: set<Entry>, run: seq<Event>, t: nat)
    requires After(cfg, limited, run).Some?
    ensures AsAnswered(After(cfg, limited, run).value, t)
  {
    if run != [] {
      var n := |run| - 1;
      RunReturns(cfg, limited, run[..n], t);
      StepReturns(cfg, After(cfg, limited, run[..n]).value, run[n], t);
    }
  }

  /** Over every run, what a flow returned after it was sent to ask: true exactly
      when a step of the run gave it an Allow or a Temp, and false exactly when one
      gave it any other outcome. */
  lemma AskedFlowReturns(cfg: Settings, limited: set<Entry>, run: seq<Event>, t: nat)
    requires After(cfg, limited, run).Some?
    requires PcOf(After(cfg, limited, run).value, t).Returned? && PcOf(After(cfg, limited, run).value, t).asked.Some?
    ensures PcOf(After(cfg, limited, run).value, t).allowed
            <==> EverGets(cfg, limited, run, t, Allow) || EverGets(cfg, limited, run, t, Temp)
  {
    RunReturns(cfg, limited, run, t);
    CarriesIff(cfg, limited, run, t, Allow);
    CarriesIff(cfg, limited, run, t, Temp);
  }

  //--- progress ----------------------------------------------------------------------------------

  /** The flow has a step of its own, other than being dropped. */
  ghost predicate CanStep(cfg: Settings, s: State, t: nat) {
    exists e :: TakesStep(cfg, s, e, t)
  }

  predicate TakesStep(cfg: Settings, s: State, e: Event, t: nat) {
    IsFlowEvent(e) && !e.Drop? && e.task == t && FlowStep(cfg, s, e).Some?
  }

  predicate IsOver(pc: Pc) {
    pc.Returned? || pc.Abandoned? || pc.Gone?
  }

  lemma EarlyFlowSteps(cfg: Settings, s: State, t: nat)
    requires var pc := PcOf(s, t); pc.Starting? || pc.Unlimited? || pc.Asking? || pc.Counting? || pc.Opening? || pc.Listing?
    ensures CanStep(cfg, s, t)
  {
    var e := match PcOf(s, t)
      case Starting => CheckLimited(t)
      case Unlimited => Consult(t, MustAsk)
      case Asking => Enter(t)
      case Counting(_) => CountPrompt(t, 0)
      case Opening(_) => Open(t)
      case _ => List(t);
    assert TakesStep(cfg, s, e, t);
  }

  lemma LateFlowSteps(cfg: Settings, s: State, t: nat)
    requires var pc := PcOf(s, t);
             pc.Waiting? || pc.Answered? || pc.Releasing? || (pc.Publishing? && pc.channel < |s.channels|) || pc.Applying?
    ensures CanStep(cfg, s, t)
  {
    var e := match PcOf(s, t)
      case Waiting(_, _, _) => TimeOut(t)
      case Answered(_, _, _) => Unlist(t)
      case Releasing(_, _) => Release(t)
      case Publishing(_, _) => Publish(t)
      case _ => Settle(t);
    assert TakesStep(cfg, s, e, t);
  }

  /** Every flow but a follower has a step, until it is over. */
  lemma ActiveFlowSteps(cfg: Settings, s: State, t: nat)
    requires Coalescing.Coalesced(s) && !IsOver(PcOf(s, t)) && !PcOf(s, t).Following?
    ensures CanStep(cfg, s, t)
  {
    assert Coalescing.PartOk(s, t);
    var pc := PcOf(s, t);
    if pc.Starting? || pc.Unlimited? || pc.Asking? || pc.Counting? || pc.Opening? || pc.Listing? {
      EarlyFlowSteps(cfg, s, t);
    } else {
      LateFlowSteps(cfg, s, t);
    }
  }

  lemma HearerSteps(cfg: Settings, s: State, t: nat, c: nat)
    requires PcOf(s, t) == Following(c) && c < |s.channels|
    requires s.channels[c].value.Some? || Coalescing.IsAbandoned(s, c)
    ensures CanStep(cfg, s, t)
  {
    var e := if s.channels[c].value.Some? then Hear(t) else HearClosed(t);
    assert TakesStep(cfg, s, e, t);
  }

  /** A leader that has neither published nor been dropped is active. */
  lemma UnpublishedLeaderIsActive(s: State, c: nat)
    requires Coalescing.Coalesced(s) && c < |s.channels| && s.channels[c].value.None? && !Coalescing.IsAbandoned(s, c)
    ensures !IsOver(PcOf(s, s.channels[c].owner)) && !PcOf(s, s.channels[c].owner).Following?
  {
    assert Coalescing.ChannelOk(s, c);
  }

  lemma FollowedLeaderSteps(cfg: Settings, s: State, t: nat, c: nat)
    requires Coalescing.Coalesced(s) && PcOf(s, t) == Following(c)
    ensures c < |s.channels|
    ensures s.channels[c].value.Some? || Coalescing.IsAbandoned(s, c) || CanStep(cfg, s, s.channels[c].owner)
  {
    assert Coalescing.PartOk(s, t) && Coalescing.HistoryOk(s, t);
    assert Coalescing.FollowedOk(s, t, c);
    if s.channels[c].value.None? && !Coalescing.IsAbandoned(s, c) {
      UnpublishedLeaderIsActive(s, c);
      ActiveFlowSteps(cfg, s, s.channels[c].owner);
    }
  }

  /** In every reachable state, a flow that is not over has a step of its own, or
      follows a leader that has one: no two flows ever wait for each other. */
  lemma NoFlowIsStuck(cfg: Settings, limited: set<Entry>, run: seq<Event>, t: nat)
    requires After(cfg, limited, run).Some? && !IsOver(PcOf(After(cfg, limited, run).value, t))
    ensures var s := After(cfg, limited, run).value;
            || CanStep(cfg, s, t)
            || (PcOf(s, t).Following? && PcOf(s, t).channel < |s.channels|
                && CanStep(cfg, s, s.channels[PcOf(s, t).channel].owner))
  {
    Coalescing.RunKeeps(cfg, limited, run);
    var s := After(cfg, limited, run).value;
    match PcOf(s, t)
    case Following(c) =>
      FollowedLeaderSteps(cfg, s, t, c);
      if s.channels[c].value.Some? || Coalescing.IsAbandoned(s, c) { HearerSteps(cfg, s, t, c); }
    case _ => ActiveFlowSteps(cfg, s, t);
  }
}
