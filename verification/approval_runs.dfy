/** Continuing runs: what later steps leave alone, and two runs that others are
    built on. */
module ApprovalRuns {
  import opened Net
  import opened ApprovalQueue
  import opened ApprovalProtocol
  import Coalescing = ApprovalCoalescing

  lemma Extend(cfg: Settings, limited: set<Entry>, run: seq<Event>, e: Event, s: State, s': State)
    requires After(cfg, limited, run) == Some(s) && Next(cfg, s, e) == Some(s')
    ensures After(cfg, limited, run + [e]) == Some(s')
  {
    assert (run + [e])[..|run|] == run;
  }

  //--- flows keep who they are -------------------------------------------------------------------

  /** Flows never disappear, and keep what they ask about and for whom. */
  ghost predicate SameFlows(s: State, s': State) {
    forall u :: u in s.tasks ==> u in s'.tasks && s'.tasks[u].key == s.tasks[u].key && s'.tasks[u].entry == s.tasks[u].entry
  }

  lemma GotoSameFlows(s: State, t: nat, pc: Pc)
    requires t in s.tasks
    ensures SameFlows(s, Goto(s, t, pc)) && Goto(s, t, pc).tasks.Keys == s.tasks.Keys
  {
  }

  lemma FollowerStepSameFlows(cfg: Settings, s: State, e: Event)
    requires IsFlowEvent(e) && FlowStep(cfg, s, e).Some? && PcOf(s, e.task).Following?
    ensures SameFlows(s, FlowStep(cfg, s, e).value) && FlowStep(cfg, s, e).value.tasks.Keys == s.tasks.Keys
  {
    Coalescing.FollowerEvents(cfg, s, e);
    var s' := FlowStep(cfg, s, e).value;
    assert s' == Goto(s, e.task, s'.tasks[e.task].pc);
    GotoSameFlows(s, e.task, s'.tasks[e.task].pc);
  }

  lemma EnterSameFlows(s: State, t: nat)
    requires t in s.tasks
    ensures SameFlows(s, EnterQueue(s, t)) && EnterQueue(s, t).tasks.Keys == s.tasks.Keys
  {
  }

  lemma OwnerStepSameFlows(cfg: Settings, s: State, e: Event)
    requires (e.Release? || e.Publish? || e.Drop?) && FlowStep(cfg, s, e).Some?
    ensures SameFlows(s, FlowStep(cfg, s, e).value) && FlowStep(cfg, s, e).value.tasks.Keys == s.tasks.Keys
  {
    var s' := FlowStep(cfg, s, e).value;
    OwnerGoes(cfg, s, e);
    GotoSameFlows(s, e.task, s'.tasks[e.task].pc);
  }

  lemma OwnerGoes(cfg: Settings, s: State, e: Event)
    requires (e.Release? || e.Publish? || e.Drop?) && FlowStep(cfg, s, e).Some?
    ensures var s' := FlowStep(cfg, s, e).value;
            e.task in s.tasks && e.task in s'.tasks && s'.tasks == Goto(s, e.task, s'.tasks[e.task].pc).tasks
  {
  }

  lemma FlowStepSameFlows(cfg: Settings, s: State, e: Event)
    requires IsFlowEvent(e) && FlowStep(cfg, s, e).Some?
    ensures SameFlows(s, FlowStep(cfg, s, e).value) && FlowStep(cfg, s, e).value.tasks.Keys == s.tasks.Keys
  {
    if PcOf(s, e.task).Following? {
      FollowerStepSameFlows(cfg, s, e);
    } else if e.Enter? {
      EnterSameFlows(s, e.task);
    } else if e.Release? || e.Publish? || e.Drop? {
      OwnerStepSameFlows(cfg, s, e);
    } else {
      Coalescing.QuietStepStays(cfg, s, e);
    }
  }

  /** A step that a flow takes leaves every other flow where it was. */
  ghost predicate OthersStay(s: State, s': State, t: nat) {
    forall u :: u in s.tasks && u != t ==> u in s'.tasks && s'.tasks[u] == s.tasks[u]
  }

  lemma FollowerStepAlone(cfg: Settings, s: State, e: Event)
    requires IsFlowEvent(e) && FlowStep(cfg, s, e).Some? && PcOf(s, e.task).Following?
    ensures OthersStay(s, FlowStep(cfg, s, e).value, e.task)
  {
    Coalescing.FollowerEvents(cfg, s, e);
  }

  lemma OwnerStepAlone(cfg: Settings, s: State, e: Event)
    requires (e.Enter? || e.Release? || e.Publish? || e.Drop?) && FlowStep(cfg, s, e).Some?
    ensures OthersStay(s, FlowStep(cfg, s, e).value, e.task)
  {
  }

  lemma StepsAlone(cfg: Settings, s: State, e: Event)
    requires IsFlowEvent(e) && FlowStep(cfg, s, e).Some?
    ensures OthersStay(s, FlowStep(cfg, s, e).value, e.task)
  {
    if PcOf(s, e.task).Following? {
      FollowerStepAlone(cfg, s, e);
    } else if e.Enter? || e.Release? || e.Publish? || e.Drop? {
      OwnerStepAlone(cfg, s, e);
    } else {
      Coalescing.QuietStepStays(cfg, s, e);
    }
  }

  /** What happens outside the flows moves none of them, and publishes nothing. */
  ghost predicate AllStay(s: State, s': State) {
    && s'.channels == s.channels
    && forall u :: u in s.tasks ==> u in s'.tasks && s'.tasks[u].pc == s.tasks[u].pc
  }

  lemma OutsideStays(cfg: Settings, s: State, e: Event)
    requires !IsFlowEvent(e) && Next(cfg, s, e).Some?
    ensures AllStay(s, Next(cfg, s, e).value)
  {
  }

  /** A step that is not the flow's own leaves it where it was, or begins it. */
  lemma OtherStepsStay(cfg: Settings, s: State, e: Event, t: nat)
    requires Next(cfg, s, e).Some? && !(IsFlowEvent(e) && e.task == t)
    ensures var before, after := PcOf(s, t), PcOf(Next(cfg, s, e).value, t);
            after == before || (t !in s.tasks && after.Starting?)
  {
    if IsFlowEvent(e) {
      StepsAlone(cfg, s, e);
      FlowStepSameFlows(cfg, s, e);
    } else {
      OutsideStaysThere(cfg, s, e, t);
    }
  }

  lemma OutsideStaysThere(cfg: Settings, s: State, e: Event, t: nat)
    requires !IsFlowEvent(e) && Next(cfg, s, e).Some?
    ensures var before, after := PcOf(s, t), PcOf(Next(cfg, s, e).value, t);
            after == before || (t !in s.tasks && after.Starting?)
  {
  }

  lemma StepSameFlows(cfg: Settings, s: State, e: Event)
    requires Next(cfg, s, e).Some?
    ensures SameFlows(s, Next(cfg, s, e).value)
    ensures !e.Begin? ==> Next(cfg, s, e).value.tasks.Keys == s.tasks.Keys
  {
    if IsFlowEvent(e) {
      FlowStepSameFlows(cfg, s, e);
    } else {
      OutsideSameFlows(cfg, s, e);
    }
  }

  lemma TokenSameFlows(cfg: Settings, s: State, e: Event)
    requires (e.Begin? || e.CancelFlow? || e.Retire?) && Next(cfg, s, e).Some?
    ensures SameFlows(s, Next(cfg, s, e).value)
    ensures !e.Begin? ==> Next(cfg, s, e).value.tasks.Keys == s.tasks.Keys
  {
  }

  lemma OutsideSameTasks(cfg: Settings, s: State, e: Event)
    requires !IsFlowEvent(e) && !e.Begin? && !e.CancelFlow? && !e.Retire? && Next(cfg, s, e).Some?
    ensures Next(cfg, s, e).value.tasks == s.tasks
  {
  }

  lemma OutsideSameFlows(cfg: Settings, s: State, e: Event)
    requires !IsFlowEvent(e) && Next(cfg, s, e).Some?
    ensures SameFlows(s, Next(cfg, s, e).value)
    ensures !e.Begin? ==> Next(cfg, s, e).value.tasks.Keys == s.tasks.Keys
  {
    if e.Begin? || e.CancelFlow? || e.Retire? {
      TokenSameFlows(cfg, s, e);
    } else {
      OutsideSameTasks(cfg, s, e);
    }
  }

  /** A run that goes on has the flows it had, and only them unless new ones begin. */
  lemma {:induction false} Continues(cfg: Settings, limited: set<Entry>, run: seq<Event>, more: seq<Event>)
    requires After(cfg, limited, run + more).Some?
    ensures After(cfg, limited, run).Some?
    ensures SameFlows(After(cfg, limited, run).value, After(cfg, limited, run + more).value)
    ensures (forall k :: 0 <= k < |more| ==> !more[k].Begin?) ==>
              After(cfg, limited, run + more).value.tasks.Keys == After(cfg, limited, run).value.tasks.Keys
  {
    if more == [] {
      assert run + more == run;
    } else {
      var n := |more| - 1;
      assert (run + more)[..|run| + n] == run + more[..n] && (run + more)[|run| + n] == more[n];
      Continues(cfg, limited, run, more[..n]);
      StepSameFlows(cfg, After(cfg, limited, run + more[..n]).value, more[n]);
    }
  }

  //--- two flows with one key --------------------------------------------------------------------

  ghost predicate IsLedAndWaiting(s: State) {
    && 0 in s.tasks && s.tasks[0].pc == Waiting(0, 1, NoDialog) && s.tasks[0].tcp
    && s.tasks[0].key.sandbox == "mk-a" && s.limited == {} && s.screen.None?
    && s.queue.inflight == map[s.tasks[0].key := 0]
    && s.channels == [Channel(s.tasks[0].key, 0, None)]
    && s.queue.pending == map[1 := Pending(0, "mk-a")] && s.answers == map[]
  }

  /** No flow has come to its end by asking. */
  predicate NoneSettled(run: seq<Event>) {
    forall k :: 0 <= k < |run| ==> !run[k].Settle?
  }

  /** A second flow arrives at the queue with the same key. */
  lemma SecondAsks(cfg: Settings, run: seq<Event>) returns (longer: seq<Event>)
    requires After(cfg, {}, run).Some? && NoneSettled(run)
    requires var s := After(cfg, {}, run).value; IsLedAndWaiting(s) && s.tasks.Keys == {0}
    ensures After(cfg, {}, longer).Some? && NoneSettled(longer)
    ensures var s := After(cfg, {}, longer).value;
            && IsLedAndWaiting(s) && s.tasks.Keys == {0, 1} && s.tasks[1].pc == Asking && s.tasks[1].rounds == 0
            && s.tasks[1].key == s.tasks[0].key
  {
    var s := After(cfg, {}, run).value;
    var entry := Entry("mk-a", 0);
    var s1 := s.(tasks := s.tasks[1 := Task(entry, s.tasks[0].key, false, false, Starting, false, 0, {})]);
    Extend(cfg, {}, run, Begin(1, entry, s.tasks[0].key, false, false), s, s1);
    longer := run + [Begin(1, entry, s.tasks[0].key, false, false)];
    var s2 := Goto(s1, 1, Unlimited);
    Extend(cfg, {}, longer, CheckLimited(1), s1, s2);
    longer := longer + [CheckLimited(1)];
    Extend(cfg, {}, longer, Consult(1, MustAsk), s2, Goto(s2, 1, Asking));
    longer := longer + [Consult(1, MustAsk)];
  }

  /** A leader on a TCP flow, listed and waiting. */
  lemma LeadAndWait(cfg: Settings) returns (run: seq<Event>)
    requires cfg == Settings(false, true, 1, 1)
    ensures After(cfg, {}, run).Some? && NoneSettled(run)
    ensures var s := After(cfg, {}, run).value;
            s.tasks.Keys == {0} && IsLedAndWaiting(s)
  {
    var entry := Entry("mk-a", 0);
    var key := Key("mk-a", "example.com", 443);
    var s0 := Initial({});
    var s1 := s0.(tasks := map[0 := Task(entry, key, true, false, Starting, false, 0, {})]);
    Extend(cfg, {}, [], Begin(0, entry, key, true, false), s0, s1);
    run := [] + [Begin(0, entry, key, true, false)];
    var s2 := Goto(s1, 0, Unlimited);
    Extend(cfg, {}, run, CheckLimited(0), s1, s2);
    run := run + [CheckLimited(0)];
    var s3 := Goto(s2, 0, Asking);
    Extend(cfg, {}, run, Consult(0, MustAsk), s2, s3);
    run := run + [Consult(0, MustAsk)];
    var s4 := EnterQueue(s3, 0);
    Extend(cfg, {}, run, Enter(0), s3, s4);
    run := run + [Enter(0)];
    var (accepted, counted) := s4.queue.CountPrompt(cfg, "mk-a", 0);
    assert accepted;
    var s5 := Goto(s4.(queue := counted), 0, Opening(0));
    Extend(cfg, {}, run, CountPrompt(0, 0), s4, s5);
    run := run + [CountPrompt(0, 0)];
    var s6 := Goto(s5.(queue := s5.queue.TakeId()), 0, Listing(0, 1));
    Extend(cfg, {}, run, Open(0), s5, s6);
    run := run + [Open(0)];
    var s7 := Goto(s6.(queue := s6.queue.List(1, Pending(0, "mk-a"))), 0, Waiting(0, 1, NoDialog));
    Extend(cfg, {}, run, List(0), s6, s7);
    run := run + [List(0)];
  }
}
