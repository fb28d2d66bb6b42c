/** What becomes of prompt ids: how often one is answered, which outcome its flow
    takes, and which ids dropped flows leave on the list. */
module ApprovalAnswers {
  import opened Net
  import opened ApprovalQueue
  import opened ApprovalProtocol
  import opened ApprovalRuns
  import opened ApprovalTheorems
  import Coalescing = ApprovalCoalescing
  import Prompts = ApprovalPrompts

  //--- answers -----------------------------------------------------------------------------------

  /** `decide` answers the flow that holds `id` at step `i` (it returns true). */
  ghost predicate Answers(cfg: Settings, limited: set<Entry>, run: seq<Event>, i: nat, id: nat) {
    && i < |run| && run[i].Decide? && run[i].id == id
    && After(cfg, limited, run[..i]).Some? && Reachable(After(cfg, limited, run[..i]).value, id)
  }

  /** An id that was given out, is off the list, and will not be listed again. */
  ghost predicate Closed(s: State, id: nat) {
    && id <= s.queue.nextId && id !in s.queue.pending
    && forall t :: t in s.tasks && s.tasks[t].pc.Listing? ==> s.tasks[t].pc.id != id
  }

  lemma AnsweringCloses(cfg: Settings, s: State, e: Event)
    requires Prompts.Prompted(s) && e.Decide? && Reachable(s, e.id)
    ensures Closed(DecideId(s, e.id, e.answer), e.id)
  {
    var holder := s.queue.pending[e.id].task;
    assert Prompts.ListedOk(s, e.id) && Prompts.PromptOk(s, holder);
    forall t | t in s.tasks && s.tasks[t].pc.Listing? ensures s.tasks[t].pc.id != e.id {
      assert Prompts.PromptOk(s, t);
    }
  }

  lemma QueueStepKeepsClosed(cfg: Settings, s: State, e: Event, id: nat)
    requires e.List? || e.Unlist? || e.Open?
    requires Closed(s, id) && FlowStep(cfg, s, e).Some?
    ensures Closed(FlowStep(cfg, s, e).value, id)
  {
  }

  lemma EnterKeepsClosed(s: State, t: nat, id: nat)
    requires Closed(s, id) && PcOf(s, t).Asking?
    ensures Closed(EnterQueue(s, t), id)
  {
  }

  lemma OwnerStepKeepsClosed(cfg: Settings, s: State, e: Event, id: nat)
    requires e.Release? || e.Publish? || e.Drop?
    requires Closed(s, id) && FlowStep(cfg, s, e).Some?
    ensures Closed(FlowStep(cfg, s, e).value, id)
  {
  }

  lemma FlowKeepsClosed(cfg: Settings, s: State, e: Event, id: nat)
    requires Closed(s, id) && IsFlowEvent(e) && FlowStep(cfg, s, e).Some?
    ensures Closed(FlowStep(cfg, s, e).value, id)
  {
    if e.List? || e.Unlist? || e.Open? {
      QueueStepKeepsClosed(cfg, s, e, id);
    } else if e.Enter? {
      EnterKeepsClosed(s, e.task, id);
    } else if e.Release? || e.Publish? || e.Drop? {
      OwnerStepKeepsClosed(cfg, s, e, id);
    } else {
      OtherStepKeepsClosed(cfg, s, e, id);
    }
  }

  /** No other step lists an id or gets ready to. */
  lemma OtherStepKeepsClosed(cfg: Settings, s: State, e: Event, id: nat)
    requires IsFlowEvent(e) && !e.List? && !e.Unlist? && !e.Open? && !e.Enter? && !e.Release? && !e.Publish? && !e.Drop?
    requires Closed(s, id) && FlowStep(cfg, s, e).Some?
    ensures Closed(FlowStep(cfg, s, e).value, id)
  {
    StepsAlone(cfg, s, e);
    FlowKeepsList(cfg, s, e);
    GivesNoId(cfg, s, e);
  }

  lemma GivesNoId(cfg: Settings, s: State, e: Event)
    requires IsFlowEvent(e) && !e.List? && !e.Unlist? && !e.Open? && !e.Enter? && !e.Release? && !e.Publish? && !e.Drop?
    requires FlowStep(cfg, s, e).Some?
    ensures var s' := FlowStep(cfg, s, e).value;
            s'.queue.nextId == s.queue.nextId && s'.tasks.Keys == s.tasks.Keys && !PcOf(s', e.task).Listing?
  {
  }

  lemma StepKeepsClosed(cfg: Settings, s: State, e: Event, id: nat)
    requires Closed(s, id) && Next(cfg, s, e).Some?
    ensures Closed(Next(cfg, s, e).value, id)
  {
    if IsFlowEvent(e) {
      FlowKeepsClosed(cfg, s, e, id);
    }
  }

  ghost predicate AnsweredBy(cfg: Settings, limited: set<Entry>, run: seq<Event>, i: nat, id: nat) {
    After(cfg, limited, run).Some? && Answers(cfg, limited, run, i, id)
  }

  lemma AnsweredBefore(cfg: Settings, limited: set<Entry>, run: seq<Event>, i: nat, id: nat)
    requires AnsweredBy(cfg, limited, run, i, id) && i < |run| - 1
    ensures AnsweredBy(cfg, limited, run[..|run| - 1], i, id)
  {
    assert run[..|run| - 1][..i] == run[..i];
  }

  ghost predicate ClosedAfter(cfg: Settings, limited: set<Entry>, run: seq<Event>, id: nat) {
    After(cfg, limited, run).Some? && Closed(After(cfg, limited, run).value, id)
  }

  lemma AnswersLast(cfg: Settings, limited: set<Entry>, run: seq<Event>, id: nat)
    requires After(cfg, limited, run).Some? && run != [] && Answers(cfg, limited, run, |run| - 1, id)
    ensures ClosedAfter(cfg, limited, run, id)
  {
    var n := |run| - 1;
    Prompts.RunKeeps(cfg, limited, run[..n]);
    AnsweringCloses(cfg, After(cfg, limited, run[..n]).value, run[n]);
  }

  lemma StaysClosed(cfg: Settings, limited: set<Entry>, run: seq<Event>, id: nat)
    requires After(cfg, limited, run).Some? && run != [] && ClosedAfter(cfg, limited, run[..|run| - 1], id)
    ensures ClosedAfter(cfg, limited, run, id)
  {
    StepKeepsClosed(cfg, After(cfg, limited, run[..|run| - 1]).value, run[|run| - 1], id);
  }

  lemma {:induction false} ClosedForever(cfg: Settings, limited: set<Entry>, run: seq<Event>, i: nat, id: nat)
    requires AnsweredBy(cfg, limited, run, i, id)
    ensures ClosedAfter(cfg, limited, run, id)
  {
    var n := |run| - 1;
    if i == n {
      AnswersLast(cfg, limited, run, id);
    } else {
      AnsweredBefore(cfg, limited, run, i, id);
      ClosedForever(cfg, limited, run[..n], i, id);
      StaysClosed(cfg, limited, run, id);
    }
  }

  /** Each id is answered at most once. */
  lemma AnsweredAtMostOnce(cfg: Settings, limited: set<Entry>, run: seq<Event>, i: nat, j: nat, id: nat)
    requires After(cfg, limited, run).Some?
    requires Answers(cfg, limited, run, i, id) && Answers(cfg, limited, run, j, id)
    ensures i == j
  {
    if i < j {
      assert run[..j][..i] == run[..i];
      assert Answers(cfg, limited, run[..j], i, id);
      ClosedForever(cfg, limited, run[..j], i, id);
    } else if j < i {
      assert run[..i][..j] == run[..j];
      assert Answers(cfg, limited, run[..i], j, id);
      ClosedForever(cfg, limited, run[..i], j, id);
    }
  }

  /** No flow ever reads a dropped answer sender: while it waits, its request is
      listed or has been answered. */
  lemma WaitersAreListedOrAnswered(cfg: Settings, limited: set<Entry>, run: seq<Event>, t: nat)
    requires After(cfg, limited, run).Some?
    requires PcOf(After(cfg, limited, run).value, t).Waiting?
    ensures var s := After(cfg, limited, run).value;
            var id := s.tasks[t].pc.id;
            if id in s.queue.pending then s.queue.pending[id] == Pending(t, s.tasks[t].entry.name)
            else id in s.answers && (IsAnswer(s.answers[id]) || s.answers[id].Cancelled?)
  {
    Prompts.RunKeeps(cfg, limited, run);
    var s := After(cfg, limited, run).value;
    assert Prompts.PromptOk(s, t);
    var id := s.tasks[t].pc.id;
    if id in s.queue.pending { assert Prompts.ListedOk(s, id); } else { assert Prompts.AnswerOk(s, id); }
  }

  //--- outcomes ----------------------------------------------------------------------------------

  /** At step `i` flow `t` leaves the `select!` of prompt `id` with `outcome`. */
  ghost predicate Ends(cfg: Settings, limited: set<Entry>, run: seq<Event>, i: nat, t: nat, id: nat, outcome: Outcome) {
    && i < |run| && After(cfg, limited, run[..i]).Some?
    && EndsIn(cfg, After(cfg, limited, run[..i]).value, run[i], t, id, outcome)
  }

  ghost predicate EndedBy(cfg: Settings, limited: set<Entry>, run: seq<Event>, i: nat, t: nat, id: nat, outcome: Outcome) {
    After(cfg, limited, run).Some? && Ends(cfg, limited, run, i, t, id, outcome)
  }

  ghost predicate EndsIn(cfg: Settings, s: State, e: Event, t: nat, id: nat, outcome: Outcome) {
    && PcOf(s, t).Waiting? && PcOf(s, t).id == id
    && Next(cfg, s, e).Some? && PcOf(Next(cfg, s, e).value, t) == Answered(PcOf(s, t).channel, id, outcome)
  }

  /** An id that was given out and whose `select!` is over. */
  ghost predicate Over(s: State, id: nat) {
    && id <= s.queue.nextId
    && forall t :: t in s.tasks && (s.tasks[t].pc.Listing? || s.tasks[t].pc.Waiting?) ==> s.tasks[t].pc.id != id
  }

  lemma EndingIsOver(cfg: Settings, s: State, e: Event, t: nat, id: nat, outcome: Outcome)
    requires Prompts.Prompted(s) && EndsIn(cfg, s, e, t, id, outcome)
    ensures Over(Next(cfg, s, e).value, id)
  {
    Prompts.StepKeeps(cfg, s, e);
    var s' := Next(cfg, s, e).value;
    assert Prompts.PromptOk(s', t);
    forall u | u in s'.tasks && (s'.tasks[u].pc.Listing? || s'.tasks[u].pc.Waiting?) ensures s'.tasks[u].pc.id != id {
      assert Prompts.PromptOf(s'.tasks[t].pc) != Prompts.PromptOf(s'.tasks[u].pc);
    }
  }

  lemma QueueStepKeepsOver(cfg: Settings, s: State, e: Event, id: nat)
    requires e.List? || e.Unlist? || e.Open? || e.CountPrompt?
    requires Over(s, id) && FlowStep(cfg, s, e).Some?
    ensures Over(FlowStep(cfg, s, e).value, id)
  {
  }

  lemma EnterKeepsOver(s: State, t: nat, id: nat)
    requires Over(s, id) && PcOf(s, t).Asking?
    ensures Over(EnterQueue(s, t), id)
  {
  }

  lemma OwnerStepKeepsOver(cfg: Settings, s: State, e: Event, id: nat)
    requires e.Release? || e.Publish? || e.Drop? || e.TakeScreen? || e.ShowDialog?
    requires Over(s, id) && FlowStep(cfg, s, e).Some?
    ensures Over(FlowStep(cfg, s, e).value, id)
  {
  }

  lemma FollowerStepKeepsOver(cfg: Settings, s: State, e: Event, id: nat)
    requires IsFlowEvent(e) && PcOf(s, e.task).Following?
    requires Over(s, id) && FlowStep(cfg, s, e).Some?
    ensures Over(FlowStep(cfg, s, e).value, id)
  {
    Coalescing.FollowerEvents(cfg, s, e);
  }

  lemma OtherStepKeepsOver(cfg: Settings, s: State, e: Event, id: nat)
    requires e.CheckLimited? || e.Consult? || e.Settle?
    requires Over(s, id) && FlowStep(cfg, s, e).Some?
    ensures Over(FlowStep(cfg, s, e).value, id)
  {
  }

  lemma WaitStepKeepsOver(s: State, e: Event, id: nat)
    requires IsFlowEvent(e) && Over(s, id) && WaitStep(s, e).Some?
    ensures Over(WaitStep(s, e).value, id)
  {
  }

  lemma FlowKeepsOver(cfg: Settings, s: State, e: Event, id: nat)
    requires Over(s, id) && IsFlowEvent(e) && FlowStep(cfg, s, e).Some?
    ensures Over(FlowStep(cfg, s, e).value, id)
  {
    if PcOf(s, e.task).Following? {
      FollowerStepKeepsOver(cfg, s, e, id);
    } else if e.List? || e.Unlist? || e.Open? || e.CountPrompt? {
      QueueStepKeepsOver(cfg, s, e, id);
    } else if e.Enter? {
      EnterKeepsOver(s, e.task, id);
    } else if e.Release? || e.Publish? || e.Drop? || e.TakeScreen? || e.ShowDialog? {
      OwnerStepKeepsOver(cfg, s, e, id);
    } else if e.CheckLimited? || e.Consult? || e.Settle? {
      OtherStepKeepsOver(cfg, s, e, id);
    } else {
      WaitStepKeepsOver(s, e, id);
    }
  }

  lemma StepKeepsOver(cfg: Settings, s: State, e: Event, id: nat)
    requires Over(s, id) && Next(cfg, s, e).Some?
    ensures Over(Next(cfg, s, e).value, id)
  {
    if IsFlowEvent(e) {
      FlowKeepsOver(cfg, s, e, id);
    }
  }

  lemma EndsEarlier(cfg: Settings, limited: set<Entry>, run: seq<Event>, i: nat, t: nat, id: nat, outcome: Outcome)
    requires EndedBy(cfg, limited, run, i, t, id, outcome) && i < |run| - 1
    ensures EndedBy(cfg, limited, run[..|run| - 1], i, t, id, outcome)
  {
    assert run[..|run| - 1][..i] == run[..i];
  }

  ghost predicate OverAfter(cfg: Settings, limited: set<Entry>, run: seq<Event>, id: nat) {
    After(cfg, limited, run).Some? && Over(After(cfg, limited, run).value, id)
  }

  lemma OverAtLast(cfg: Settings, limited: set<Entry>, run: seq<Event>, t: nat, id: nat, outcome: Outcome)
    requires After(cfg, limited, run).Some? && run != [] && Ends(cfg, limited, run, |run| - 1, t, id, outcome)
    ensures OverAfter(cfg, limited, run, id)
  {
    var n := |run| - 1;
    Prompts.RunKeeps(cfg, limited, run[..n]);
    EndingIsOver(cfg, After(cfg, limited, run[..n]).value, run[n], t, id, outcome);
  }

  lemma StaysOver(cfg: Settings, limited: set<Entry>, run: seq<Event>, id: nat)
    requires After(cfg, limited, run).Some? && run != [] && OverAfter(cfg, limited, run[..|run| - 1], id)
    ensures OverAfter(cfg, limited, run, id)
  {
    StepKeepsOver(cfg, After(cfg, limited, run[..|run| - 1]).value, run[|run| - 1], id);
  }

  lemma {:induction false} OverForever(cfg: Settings, limited: set<Entry>, run: seq<Event>, i: nat, t: nat, id: nat,
                                       outcome: Outcome)
    requires EndedBy(cfg, limited, run, i, t, id, outcome)
    ensures OverAfter(cfg, limited, run, id)
  {
    var n := |run| - 1;
    if i == n {
      OverAtLast(cfg, limited, run, t, id, outcome);
    } else {
      EndsEarlier(cfg, limited, run, i, t, id, outcome);
      OverForever(cfg, limited, run[..n], i, t, id, outcome);
      StaysOver(cfg, limited, run, id);
    }
  }

  lemma EndsBefore(cfg: Settings, limited: set<Entry>, run: seq<Event>, i: nat, t: nat, j: nat, u: nat, id: nat,
                   o1: Outcome, o2: Outcome)
    requires After(cfg, limited, run).Some?
    requires Ends(cfg, limited, run, i, t, id, o1) && Ends(cfg, limited, run, j, u, id, o2)
    ensures j <= i
  {
    if i < j {
      assert run[..j][..i] == run[..i];
      OverForever(cfg, limited, run[..j], i, t, id, o1);
    }
  }

  /** However a prompt is answered, from the command line, in its dialog or by
      neither, one step ends it, for one flow and with one outcome. */
  lemma OneOutcomePerPrompt(cfg: Settings, limited: set<Entry>, run: seq<Event>, i: nat, t: nat, j: nat, u: nat, id: nat,
                            o1: Outcome, o2: Outcome)
    requires After(cfg, limited, run).Some?
    requires Ends(cfg, limited, run, i, t, id, o1) && Ends(cfg, limited, run, j, u, id, o2)
    ensures i == j && t == u && o1 == o2
  {
    EndsBefore(cfg, limited, run, i, t, j, u, id, o1, o2);
    EndsBefore(cfg, limited, run, j, u, i, t, id, o2, o1);
    Prompts.RunKeeps(cfg, limited, run[..i]);
  }

  /** The flow carries the outcome of its own prompt, or returned it. */
  predicate Carries(pc: Pc, outcome: Outcome) {
    match pc
    case Answered(_, _, o) => o == outcome
    case Releasing(_, o) => o == outcome
    case Publishing(_, o) => o == outcome
    case Applying(o) => o == outcome
    case Returned(_, asked) => asked == Some(outcome)
    case _ => false
  }

  lemma StepCarries(cfg: Settings, s: State, e: Event, t: nat, outcome: Outcome)
    requires Next(cfg, s, e).Some? && Carries(PcOf(s, t), outcome)
    ensures Carries(PcOf(Next(cfg, s, e).value, t), outcome)
  {
    if !IsFlowEvent(e) {
      OutsideStays(cfg, s, e);
    } else if e.task != t {
      StepsAlone(cfg, s, e);
    } else {
      OwnStepCarries(cfg, s, e, outcome);
    }
  }

  lemma OwnStepCarries(cfg: Settings, s: State, e: Event, outcome: Outcome)
    requires IsFlowEvent(e) && FlowStep(cfg, s, e).Some? && Carries(PcOf(s, e.task), outcome)
    ensures Carries(PcOf(FlowStep(cfg, s, e).value, e.task), outcome)
  {
    assert e.Unlist? || e.Release? || e.Publish? || e.Settle?;
  }

  lemma EndingCarries(cfg: Settings, s: State, e: Event, t: nat, id: nat, outcome: Outcome)
    requires EndsIn(cfg, s, e, t, id, outcome)
    ensures Carries(PcOf(Next(cfg, s, e).value, t), outcome)
  {
  }

  ghost predicate CarriesAfter(cfg: Settings, limited: set<Entry>, run: seq<Event>, t: nat, outcome: Outcome) {
    After(cfg, limited, run).Some? && Carries(PcOf(After(cfg, limited, run).value, t), outcome)
  }

  lemma EndsAtLast(cfg: Settings, limited: set<Entry>, run: seq<Event>, t: nat, id: nat, outcome: Outcome)
    requires After(cfg, limited, run).Some? && run != [] && Ends(cfg, limited, run, |run| - 1, t, id, outcome)
    ensures CarriesAfter(cfg, limited, run, t, outcome)
  {
    EndingCarries(cfg, After(cfg, limited, run[..|run| - 1]).value, run[|run| - 1], t, id, outcome);
  }

  lemma CarriesOn(cfg: Settings, limited: set<Entry>, run: seq<Event>, t: nat, outcome: Outcome)
    requires After(cfg, limited, run).Some? && run != [] && CarriesAfter(cfg, limited, run[..|run| - 1], t, outcome)
    ensures CarriesAfter(cfg, limited, run, t, outcome)
  {
    StepCarries(cfg, After(cfg, limited, run[..|run| - 1]).value, run[|run| - 1], t, outcome);
  }

  lemma {:induction false} CarriesForever(cfg: Settings, limited: set<Entry>, run: seq<Event>, i: nat, t: nat, id: nat,
                                          outcome: Outcome)
    requires EndedBy(cfg, limited, run, i, t, id, outcome)
    ensures CarriesAfter(cfg, limited, run, t, outcome)
  {
    var n := |run| - 1;
    if i < n {
      EndsEarlier(cfg, limited, run, i, t, id, outcome);
      CarriesForever(cfg, limited, run[..n], i, t, id, outcome);
      CarriesOn(cfg, limited, run, t, outcome);
    } else {
      EndsAtLast(cfg, limited, run, t, id, outcome);
    }
  }

  /** What ended a prompt is what its flow goes on to return. */
  lemma OutcomeIsReturned(cfg: Settings, limited: set<Entry>, run: seq<Event>, i: nat, t: nat, id: nat, outcome: Outcome)
    requires After(cfg, limited, run).Some? && Ends(cfg, limited, run, i, t, id, outcome)
    ensures Carries(PcOf(After(cfg, limited, run).value, t), outcome)
  {
    CarriesForever(cfg, limited, run, i, t, id, outcome);
  }

  //--- ids left behind ---------------------------------------------------------------------------

  /** The list still holds `id` for flow `t`, which was dropped. */
  ghost predicate LeftBehind(s: State, id: nat, t: nat) {
    id in s.queue.pending && s.queue.pending[id].task == t && PcOf(s, t).Abandoned?
  }

  /** Flow `t` is dropped while it waits on prompt `id`, which is on the list. */
  ghost predicate DropsIn(s: State, e: Event, id: nat, t: nat) {
    e == Drop(t) && PcOf(s, t).Waiting? && PcOf(s, t).id == id && id in s.queue.pending
  }

  /** The two ways off the list that need no flow. */
  predicate TakesOff(e: Event, id: nat, sandbox: string) {
    (e.Decide? && e.id == id) || e == CancelSandbox(sandbox)
  }

  /** `LeftBehind` after a step, in terms of the state before it. */
  ghost predicate LeavesBehind(s: State, e: Event, s': State, id: nat, t: nat)
    requires t in s.tasks
  {
    LeftBehind(s', id, t)
    <==> (LeftBehind(s, id, t) && !TakesOff(e, id, s.tasks[t].key.sandbox)) || DropsIn(s, e, id, t)
  }

  lemma DropLeaves(cfg: Settings, s: State, u: nat, id: nat, t: nat)
    requires Prompts.Prompted(s) && t in s.tasks && DropStep(s, u).Some?
    ensures LeavesBehind(s, Drop(u), DropStep(s, u).value, id, t)
  {
    FlowKeepsList(cfg, s, Drop(u));
    if u == t {
      if id in s.queue.pending { assert Prompts.ListedOk(s, id); }
      DropsOwn(s, t);
    } else {
      StepsAlone(cfg, s, Drop(u));
    }
  }

  lemma DropsOwn(s: State, t: nat)
    requires DropStep(s, t).Some?
    ensures !PcOf(s, t).Abandoned?
    ensures PcOf(DropStep(s, t).value, t).Abandoned? <==> PcOf(s, t).Waiting?
  {
  }

  /** No other step of a flow abandons one, or takes an abandoned one's id off the list. */
  lemma ListLeaves(cfg: Settings, s: State, u: nat, id: nat, t: nat)
    requires Prompts.Prompted(s) && t in s.tasks && ListStep(cfg, s, u).Some?
    ensures LeavesBehind(s, List(u), ListStep(cfg, s, u).value, id, t)
  {
    assert Prompts.PromptOk(s, u);
  }

  lemma UnlistLeaves(s: State, u: nat, id: nat, t: nat)
    requires Prompts.Prompted(s) && t in s.tasks && UnlistStep(s, u).Some?
    ensures LeavesBehind(s, Unlist(u), UnlistStep(s, u).value, id, t)
  {
    if LeftBehind(s, id, t) {
      assert Prompts.ListedOk(s, id);
      assert u != t ==> Prompts.PromptOf(s.tasks[t].pc) != Prompts.PromptOf(s.tasks[u].pc);
    }
  }

  lemma FlowKeepsList(cfg: Settings, s: State, e: Event)
    requires IsFlowEvent(e) && !e.List? && !e.Unlist? && FlowStep(cfg, s, e).Some?
    ensures FlowStep(cfg, s, e).value.queue.pending == s.queue.pending
  {
  }

  lemma FlowLeaves(cfg: Settings, s: State, e: Event, id: nat, t: nat)
    requires Prompts.Prompted(s) && t in s.tasks && IsFlowEvent(e) && FlowStep(cfg, s, e).Some?
    ensures LeavesBehind(s, e, FlowStep(cfg, s, e).value, id, t)
  {
    if e.Drop? {
      DropLeaves(cfg, s, e.task, id, t);
    } else if e.List? {
      ListLeaves(cfg, s, e.task, id, t);
    } else if e.Unlist? {
      UnlistLeaves(s, e.task, id, t);
    } else {
      FlowAbandons(cfg, s, e, t);
      FlowKeepsList(cfg, s, e);
    }
  }

  lemma CancelLeaves(s: State, sandbox: string, id: nat, t: nat)
    requires Prompts.Prompted(s) && t in s.tasks
    ensures LeavesBehind(s, CancelSandbox(sandbox), CancelRequests(s, sandbox), id, t)
  {
    if id in s.queue.pending { assert Prompts.ListedOk(s, id); }
  }

  lemma StepLeaves(cfg: Settings, s: State, e: Event, id: nat, t: nat)
    requires Prompts.Prompted(s) && t in s.tasks && Next(cfg, s, e).Some?
    ensures LeavesBehind(s, e, Next(cfg, s, e).value, id, t)
  {
    if IsFlowEvent(e) {
      FlowLeaves(cfg, s, e, id, t);
    } else if e.CancelSandbox? {
      CancelLeaves(s, e.sandbox, id, t);
    } else if e.Begin? {
      BeginLeaves(cfg, s, e, id, t);
    } else {
      OutsideLeaves(cfg, s, e, id, t);
    }
  }

  lemma BeginLeaves(cfg: Settings, s: State, e: Event, id: nat, t: nat)
    requires t in s.tasks && e.Begin? && Next(cfg, s, e).Some?
    ensures LeavesBehind(s, e, Next(cfg, s, e).value, id, t)
  {
  }

  lemma OutsideLeaves(cfg: Settings, s: State, e: Event, id: nat, t: nat)
    requires t in s.tasks && (e.Decide? || e.CancelFlow? || e.Retire? || e.Reset? || e.Resume?) && Next(cfg, s, e).Some?
    ensures LeavesBehind(s, e, Next(cfg, s, e).value, id, t)
  {
  }

  /** At step `i` flow `t` leaves `id` on the list, and nothing takes it off since. */
  ghost predicate LeftSince(cfg: Settings, limited: set<Entry>, run: seq<Event>, i: nat, id: nat, t: nat, sandbox: string) {
    && i < |run| && After(cfg, limited, run[..i]).Some? && DropsIn(After(cfg, limited, run[..i]).value, run[i], id, t)
    && forall k :: i < k < |run| ==> !TakesOff(run[k], id, sandbox)
  }

  lemma LeftSinceShifts(cfg: Settings, limited: set<Entry>, run: seq<Event>, i: nat, id: nat, t: nat, sandbox: string)
    requires After(cfg, limited, run).Some? && i < |run|
    ensures var n := |run| - 1;
            LeftSince(cfg, limited, run, i, id, t, sandbox)
            <==> if i == n then DropsIn(After(cfg, limited, run[..n]).value, run[n], id, t)
                 else LeftSince(cfg, limited, run[..n], i, id, t, sandbox) && !TakesOff(run[n], id, sandbox)
  {
    var n := |run| - 1;
    if i < n {
      assert run[..n][..i] == run[..i];
    }
  }

  ghost predicate EverLeft(cfg: Settings, limited: set<Entry>, run: seq<Event>, id: nat, t: nat, sandbox: string) {
    exists i: nat :: LeftSince(cfg, limited, run, i, id, t, sandbox)
  }

  lemma EverLeftShifts(cfg: Settings, limited: set<Entry>, run: seq<Event>, id: nat, t: nat, sandbox: string)
    requires After(cfg, limited, run).Some? && run != []
    ensures var n := |run| - 1;
            EverLeft(cfg, limited, run, id, t, sandbox)
            <==> DropsIn(After(cfg, limited, run[..n]).value, run[n], id, t)
                 || (EverLeft(cfg, limited, run[..n], id, t, sandbox) && !TakesOff(run[n], id, sandbox))
  {
    var n := |run| - 1;
    if i: nat :| LeftSince(cfg, limited, run, i, id, t, sandbox) {
      LeftSinceShifts(cfg, limited, run, i, id, t, sandbox);
    }
    LeftSinceShifts(cfg, limited, run, n, id, t, sandbox);
    if i: nat :| LeftSince(cfg, limited, run[..n], i, id, t, sandbox) {
      LeftSinceShifts(cfg, limited, run, i, id, t, sandbox);
    }
  }

  /** A prompt stays on the list for a flow that is gone exactly from when the
      flow was dropped, with the prompt listed, until someone answers it or the
      sandbox's requests are cancelled. */
  lemma {:induction false} LeftBehindIff(cfg: Settings, limited: set<Entry>, run: seq<Event>, id: nat, t: nat)
    requires After(cfg, limited, run).Some? && t in After(cfg, limited, run).value.tasks
    ensures var s := After(cfg, limited, run).value;
            LeftBehind(s, id, t) <==> EverLeft(cfg, limited, run, id, t, s.tasks[t].key.sandbox)
  {
    var n := |run| - 1;
    var before := After(cfg, limited, run[..n]).value;
    EverLeftShifts(cfg, limited, run, id, t, After(cfg, limited, run).value.tasks[t].key.sandbox);
    if t in before.tasks {
      Prompts.RunKeeps(cfg, limited, run[..n]);
      StepSameFlows(cfg, before, run[n]);
      LeftBehindIff(cfg, limited, run[..n], id, t);
      StepLeaves(cfg, before, run[n], id, t);
    } else {
      BeginsHere(cfg, before, run[n], t);
      NotBegun(cfg, limited, run[..n], id, t, After(cfg, limited, run).value.tasks[t].key.sandbox);
    }
  }

  lemma BeginsHere(cfg: Settings, s: State, e: Event, t: nat)
    requires Next(cfg, s, e).Some? && t !in s.tasks && t in Next(cfg, s, e).value.tasks
    ensures e.Begin? && PcOf(Next(cfg, s, e).value, t).Starting?
  {
    StepSameFlows(cfg, s, e);
  }

  lemma NotBegun(cfg: Settings, limited: set<Entry>, run: seq<Event>, id: nat, t: nat, sandbox: string)
    requires After(cfg, limited, run).Some? && t !in After(cfg, limited, run).value.tasks
    ensures !EverLeft(cfg, limited, run, id, t, sandbox)
  {
    if i: nat :| LeftSince(cfg, limited, run, i, id, t, sandbox) {
      assert run == run[..i] + run[i..];
      Continues(cfg, limited, run[..i], run[i..]);
    }
  }

  /** The shortest such run: a listed leader is dropped. */
  lemma DropLeavesPrompt() returns (cfg: Settings, run: seq<Event>)
    ensures After(cfg, {}, run).Some? && LeftBehind(After(cfg, {}, run).value, 1, 0)
  {
    cfg := Settings(false, true, 1, 1);
    run := LeadAndWait(cfg);
    var s := After(cfg, {}, run).value;
    Extend(cfg, {}, run, Drop(0), s, Goto(s, 0, Abandoned(0, 1)));
    run := run + [Drop(0)];
  }
}
