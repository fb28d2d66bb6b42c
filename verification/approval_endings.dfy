/** How prompts end: which steps of a run end one, and with which outcome. */
module ApprovalEndings {
  import opened Net
  import opened ApprovalQueue
  import opened ApprovalProtocol
  import opened ApprovalRuns
  import opened ApprovalAnswers
  import Coalescing = ApprovalCoalescing
  import Prompts = ApprovalPrompts

  ghost predicate WaitsIn(s: State, t: nat, id: nat) {
    PcOf(s, t).Waiting? && PcOf(s, t).id == id
  }

  /** Flow `t` waits on prompt `id` after the run. */
  ghost predicate WaitsOn(cfg: Settings, limited: set<Entry>, run: seq<Event>, t: nat, id: nat) {
    After(cfg, limited, run).Some? && WaitsIn(After(cfg, limited, run).value, t, id)
  }

  //--- what reaches a waiting flow ---------------------------------------------------------------

  /** What a step says to whoever waits on `id`: an operator answers it, or the
      requests of its sandbox are cancelled. */
  function Word(e: Event, id: nat, sandbox: string): Option<Outcome> {
    if e.Decide? && e.id == id then Some(e.answer)
    else if e == CancelSandbox(sandbox) then Some(Cancelled)
    else None
  }

  /** The first word since flow `t` began to wait on `id`. */
  ghost function FirstWord(cfg: Settings, limited: set<Entry>, run: seq<Event>, t: nat, id: nat, sandbox: string)
    : Option<Outcome>
  {
    if run == [] || !WaitsOn(cfg, limited, run[..|run| - 1], t, id) then None
    else
      var before := FirstWord(cfg, limited, run[..|run| - 1], t, id, sandbox);
      if before.Some? then before else Word(run[|run| - 1], id, sandbox)
  }

  function AnswerOf(s: State, id: nat): Option<Outcome> {
    if id in s.answers then Some(s.answers[id]) else None
  }

  lemma OwnStepWaits(cfg: Settings, s: State, e: Event, id: nat)
    requires IsFlowEvent(e) && FlowStep(cfg, s, e).Some? && !WaitsIn(s, e.task, id)
    requires WaitsIn(FlowStep(cfg, s, e).value, e.task, id)
    ensures e.List? && PcOf(s, e.task).Listing? && PcOf(s, e.task).id == id
  {
  }

  /** A flow begins to wait by listing its id, which nobody has answered yet. */
  lemma BeginsToWait(cfg: Settings, s: State, e: Event, t: nat, id: nat)
    requires Next(cfg, s, e).Some?
    requires !WaitsIn(s, t, id) && WaitsIn(Next(cfg, s, e).value, t, id)
    ensures e == List(t) && PcOf(s, t).Listing? && PcOf(s, t).id == id
  {
    if IsFlowEvent(e) && e.task == t {
      OwnStepWaits(cfg, s, e, id);
    } else {
      OtherStepsStay(cfg, s, e, t);
    }
  }

  lemma FlowKeepsAnswers(cfg: Settings, s: State, e: Event)
    requires IsFlowEvent(e) && FlowStep(cfg, s, e).Some?
    ensures FlowStep(cfg, s, e).value.answers == s.answers
  {
  }

  lemma ListedIsUnanswered(cfg: Settings, s: State, t: nat, id: nat)
    requires Prompts.Prompted(s) && PcOf(s, t).Listing? && PcOf(s, t).id == id && ListStep(cfg, s, t).Some?
    ensures AnswerOf(ListStep(cfg, s, t).value, id).None?
  {
    FlowKeepsAnswers(cfg, s, List(t));
    assert Prompts.PromptOk(s, t);
  }

  lemma OwnRequest(s: State, t: nat, id: nat)
    requires Prompts.Prompted(s) && WaitsIn(s, t, id) && id in s.queue.pending
    ensures Reachable(s, id) && s.queue.pending[id] == Pending(t, s.tasks[t].key.sandbox)
  {
    assert Prompts.ListedOk(s, id);
    OneHolder(s, t, s.queue.pending[id].task);
  }

  lemma OneHolder(s: State, t: nat, u: nat)
    requires Prompts.IdsUnique(s) && t in s.tasks && u in s.tasks
    requires Prompts.PromptOf(s.tasks[t].pc).Some? && Prompts.PromptOf(s.tasks[t].pc) == Prompts.PromptOf(s.tasks[u].pc)
    ensures t == u
  {
  }

  /** The first word is kept as the answer; later ones are not heard. */
  ghost predicate Keeps(s: State, e: Event, s': State, t: nat, id: nat)
    requires t in s.tasks
  {
    AnswerOf(s', id) == if AnswerOf(s, id).Some? then AnswerOf(s, id) else Word(e, id, s.tasks[t].key.sandbox)
  }

  lemma ListedOrAnswered(s: State, t: nat, id: nat)
    requires Prompts.Prompted(s) && WaitsIn(s, t, id)
    ensures if id in s.queue.pending
            then Reachable(s, id) && s.queue.pending[id] == Pending(t, s.tasks[t].key.sandbox) && id !in s.answers
            else id in s.answers
  {
    assert Prompts.PromptOk(s, t);
    if id in s.queue.pending { OwnRequest(s, t, id); }
    if id in s.answers { assert Prompts.AnswerOk(s, id); }
  }

  lemma DecideIsKept(s: State, t: nat, id: nat, e: Event)
    requires Prompts.Prompted(s) && WaitsIn(s, t, id) && e.Decide?
    ensures Keeps(s, e, DecideId(s, e.id, e.answer), t, id)
  {
    ListedOrAnswered(s, t, id);
  }

  lemma CancelIsKept(s: State, t: nat, id: nat, e: Event)
    requires Prompts.Prompted(s) && WaitsIn(s, t, id) && e.CancelSandbox?
    ensures Keeps(s, e, CancelRequests(s, e.sandbox), t, id)
  {
    ListedOrAnswered(s, t, id);
  }

  lemma SpeakerIs(cfg: Settings, s: State, e: Event)
    requires (e.Decide? || e.CancelSandbox?) && Next(cfg, s, e).Some?
    ensures Next(cfg, s, e).value == if e.Decide? then DecideId(s, e.id, e.answer) else CancelRequests(s, e.sandbox)
  {
  }

  lemma OtherKeepsAnswers(cfg: Settings, s: State, e: Event)
    requires !IsFlowEvent(e) && !e.Decide? && !e.CancelSandbox? && Next(cfg, s, e).Some?
    ensures Next(cfg, s, e).value.answers == s.answers
  {
  }

  lemma SilenceIsKept(s: State, e: Event, s': State, t: nat, id: nat)
    requires t in s.tasks && s'.answers == s.answers && !e.Decide? && !e.CancelSandbox?
    ensures Keeps(s, e, s', t, id)
  {
  }

  ghost predicate KeepsNext(cfg: Settings, s: State, e: Event, t: nat, id: nat)
    requires t in s.tasks
  {
    Next(cfg, s, e).Some? && Keeps(s, e, Next(cfg, s, e).value, t, id)
  }

  lemma OthersAreSilent(cfg: Settings, s: State, e: Event, t: nat, id: nat)
    requires t in s.tasks && !e.Decide? && !e.CancelSandbox? && Next(cfg, s, e).Some?
    ensures KeepsNext(cfg, s, e, t, id)
  {
    if IsFlowEvent(e) { FlowKeepsAnswers(cfg, s, e); } else { OtherKeepsAnswers(cfg, s, e); }
    SilenceIsKept(s, e, Next(cfg, s, e).value, t, id);
  }

  lemma WordIsKept(cfg: Settings, s: State, e: Event, t: nat, id: nat)
    requires Prompts.Prompted(s) && WaitsIn(s, t, id) && Next(cfg, s, e).Some?
    ensures KeepsNext(cfg, s, e, t, id)
  {
    if e.Decide? || e.CancelSandbox? {
      SpeakerIs(cfg, s, e);
      if e.Decide? { DecideIsKept(s, t, id, e); } else { CancelIsKept(s, t, id, e); }
    } else {
      OthersAreSilent(cfg, s, e, t, id);
    }
  }

  /** What a waiting flow would receive is the first word about its prompt. */
  lemma {:induction false} FirstWordIsAnswer(cfg: Settings, limited: set<Entry>, run: seq<Event>, t: nat, id: nat)
    requires WaitsOn(cfg, limited, run, t, id)
    ensures var s := After(cfg, limited, run).value;
            AnswerOf(s, id) == FirstWord(cfg, limited, run, t, id, s.tasks[t].key.sandbox)
  {
    var n := |run| - 1;
    Prompts.RunKeeps(cfg, limited, run[..n]);
    var before := After(cfg, limited, run[..n]).value;
    if WaitsIn(before, t, id) {
      FirstWordIsAnswer(cfg, limited, run[..n], t, id);
      WordIsKept(cfg, before, run[n], t, id);
      StepSameFlows(cfg, before, run[n]);
    } else {
      BeginsToWait(cfg, before, run[n], t, id);
      ListedIsUnanswered(cfg, before, t, id);
    }
  }

  //--- the dialog --------------------------------------------------------------------------------

  /** Before its prompt, a flow has no dialog. */
  predicate BeforePrompt(pc: Pc) {
    pc.Starting? || pc.Unlimited? || pc.Asking? || pc.Following? || pc.Counting? || pc.Opening? || pc.Listing?
  }

  /** The dialog of a waiting flow is as far as its steps took it. */
  predicate DialogFollows(cfg: Settings, taken: bool, shown: bool, pc: Pc) {
    && (BeforePrompt(pc) ==> !taken && !shown)
    && (pc.Waiting? ==>
          pc.dialog == if shown then Showing else if taken then Preparing
                       else if cfg.surface then AwaitingScreen else NoDialog)
  }

  lemma DialogStepFollows(cfg: Settings, s: State, taken: bool, shown: bool, e: Event)
    requires (e.List? || e.TakeScreen? || e.ShowDialog?) && FlowStep(cfg, s, e).Some?
    requires DialogFollows(cfg, taken, shown, PcOf(s, e.task))
    ensures DialogFollows(cfg, taken || e.TakeScreen?, shown || e.ShowDialog?, PcOf(FlowStep(cfg, s, e).value, e.task))
  {
  }

  /** No other step begins a wait, or goes back to before one. */
  lemma OtherStepGoesOn(cfg: Settings, s: State, e: Event)
    requires IsFlowEvent(e) && !e.List? && !e.TakeScreen? && !e.ShowDialog? && FlowStep(cfg, s, e).Some?
    ensures var pc := PcOf(FlowStep(cfg, s, e).value, e.task);
            !pc.Waiting? && (BeforePrompt(pc) ==> BeforePrompt(PcOf(s, e.task)))
  {
  }

  lemma OwnStepFollows(cfg: Settings, s: State, taken: bool, shown: bool, e: Event)
    requires IsFlowEvent(e) && FlowStep(cfg, s, e).Some? && DialogFollows(cfg, taken, shown, PcOf(s, e.task))
    ensures DialogFollows(cfg, taken || e.TakeScreen?, shown || e.ShowDialog?, PcOf(FlowStep(cfg, s, e).value, e.task))
  {
    if e.List? || e.TakeScreen? || e.ShowDialog? {
      DialogStepFollows(cfg, s, taken, shown, e);
    } else {
      OtherStepGoesOn(cfg, s, e);
    }
  }

  ghost predicate DialogFollowsRun(cfg: Settings, run: seq<Event>, pc: Pc, t: nat) {
    DialogFollows(cfg, TakeScreen(t) in run, ShowDialog(t) in run, pc)
  }

  lemma StepFollows(cfg: Settings, s: State, run: seq<Event>, e: Event, t: nat)
    requires Next(cfg, s, e).Some? && t in s.tasks && DialogFollowsRun(cfg, run, PcOf(s, t), t)
    ensures DialogFollowsRun(cfg, run + [e], PcOf(Next(cfg, s, e).value, t), t)
  {
    assert forall d :: d in run + [e] <==> d in run || d == e;
    if IsFlowEvent(e) && e.task == t {
      OwnStepFollows(cfg, s, TakeScreen(t) in run, ShowDialog(t) in run, e);
    } else {
      OtherStepsStay(cfg, s, e, t);
    }
  }

  lemma NotBegunYet(cfg: Settings, s: State, e: Event, t: nat)
    requires Next(cfg, s, e).Some? && t !in Next(cfg, s, e).value.tasks
    ensures t !in s.tasks && e != TakeScreen(t) && e != ShowDialog(t)
  {
    StepSameFlows(cfg, s, e);
  }

  /** A flow that has not begun took no step. */
  lemma {:induction false} NoStepsBefore(cfg: Settings, limited: set<Entry>, run: seq<Event>, t: nat)
    requires After(cfg, limited, run).Some? && t !in After(cfg, limited, run).value.tasks
    ensures TakeScreen(t) !in run && ShowDialog(t) !in run
  {
    if run != [] {
      var n := |run| - 1;
      NotBegunYet(cfg, After(cfg, limited, run[..n]).value, run[n], t);
      NoStepsBefore(cfg, limited, run[..n], t);
      assert run == run[..n] + [run[n]];
    }
  }

  lemma {:induction false} DialogIs(cfg: Settings, limited: set<Entry>, run: seq<Event>, t: nat)
    requires After(cfg, limited, run).Some? && t in After(cfg, limited, run).value.tasks
    ensures DialogFollowsRun(cfg, run, PcOf(After(cfg, limited, run).value, t), t)
  {
    var n := |run| - 1;
    var before := After(cfg, limited, run[..n]).value;
    assert run == run[..n] + [run[n]];
    if t in before.tasks {
      DialogIs(cfg, limited, run[..n], t);
      StepFollows(cfg, before, run[..n], run[n], t);
    } else {
      NoStepsBefore(cfg, limited, run[..n], t);
      BeginsHere(cfg, before, run[n], t);
    }
  }

  //--- cancelled flows ---------------------------------------------------------------------------

  /** A step that cancels flow `t`: it begins with its sandbox's token cancelled,
      its source gives up, or its registration is retired. */
  ghost predicate CancelsIn(s: State, e: Event, t: nat) {
    || (e.Begin? && e.task == t && e.dead)
    || e == CancelFlow(t)
    || (t in s.tasks && e == Retire(s.tasks[t].entry))
  }

  ghost predicate CancelsAfter(cfg: Settings, limited: set<Entry>, run: seq<Event>, e: Event, t: nat) {
    After(cfg, limited, run).Some? && CancelsIn(After(cfg, limited, run).value, e, t)
  }

  ghost predicate CancelsAt(cfg: Settings, limited: set<Entry>, run: seq<Event>, i: nat, t: nat) {
    i < |run| && CancelsAfter(cfg, limited, run[..i], run[i], t)
  }

  ghost predicate EverCancelled(cfg: Settings, limited: set<Entry>, run: seq<Event>, t: nat) {
    exists i: nat :: CancelsAt(cfg, limited, run, i, t)
  }

  predicate IsCancelled(s: State, t: nat) {
    t in s.tasks && s.tasks[t].cancelled
  }

  predicate IsTcp(s: State, t: nat) {
    t in s.tasks && s.tasks[t].tcp
  }

  lemma FlowStepKeepsToken(cfg: Settings, s: State, e: Event)
    requires IsFlowEvent(e) && FlowStep(cfg, s, e).Some?
    ensures IsCancelled(FlowStep(cfg, s, e).value, e.task) <==> IsCancelled(s, e.task)
    ensures IsTcp(FlowStep(cfg, s, e).value, e.task) <==> IsTcp(s, e.task)
  {
    if PcOf(s, e.task).Following? {
      Coalescing.FollowerEvents(cfg, s, e);
    } else if e.Enter? || e.Release? || e.Publish? || e.Drop? {
      OwnerStepKeepsToken(cfg, s, e);
    } else {
      Coalescing.QuietStepStays(cfg, s, e);
    }
  }

  lemma OwnerStepKeepsToken(cfg: Settings, s: State, e: Event)
    requires (e.Enter? || e.Release? || e.Publish? || e.Drop?) && FlowStep(cfg, s, e).Some?
    ensures IsCancelled(FlowStep(cfg, s, e).value, e.task) <==> IsCancelled(s, e.task)
    ensures IsTcp(FlowStep(cfg, s, e).value, e.task) <==> IsTcp(s, e.task)
  {
  }

  ghost predicate CancelsNext(cfg: Settings, s: State, e: Event, t: nat) {
    && Next(cfg, s, e).Some?
    && (IsCancelled(Next(cfg, s, e).value, t) <==> IsCancelled(s, t) || CancelsIn(s, e, t))
  }

  lemma OutsideCancels(cfg: Settings, s: State, e: Event, t: nat)
    requires !IsFlowEvent(e) && Next(cfg, s, e).Some?
    ensures CancelsNext(cfg, s, e, t)
  {
  }

  lemma FlowStepCancelsNone(cfg: Settings, s: State, e: Event, t: nat)
    requires IsFlowEvent(e) && FlowStep(cfg, s, e).Some?
    ensures IsCancelled(FlowStep(cfg, s, e).value, t) <==> IsCancelled(s, t)
  {
    FlowStepSameFlows(cfg, s, e);
    StepsAlone(cfg, s, e);
    FlowStepKeepsToken(cfg, s, e);
  }

  lemma StepCancels(cfg: Settings, s: State, e: Event, t: nat)
    requires Next(cfg, s, e).Some?
    ensures CancelsNext(cfg, s, e, t)
  {
    if IsFlowEvent(e) {
      FlowStepCancelsNone(cfg, s, e, t);
    } else {
      OutsideCancels(cfg, s, e, t);
    }
  }

  lemma CancelsEarlier(cfg: Settings, limited: set<Entry>, run: seq<Event>, i: nat, t: nat)
    requires i < |run| - 1
    ensures CancelsAt(cfg, limited, run, i, t) <==> CancelsAt(cfg, limited, run[..|run| - 1], i, t)
  {
    assert run[..|run| - 1][..i] == run[..i];
  }

  lemma EverCancelledShifts(cfg: Settings, limited: set<Entry>, run: seq<Event>, t: nat)
    requires run != []
    ensures var n := |run| - 1;
            EverCancelled(cfg, limited, run, t)
            <==> EverCancelled(cfg, limited, run[..n], t) || CancelsAfter(cfg, limited, run[..n], run[n], t)
  {
    var n := |run| - 1;
    if i: nat :| CancelsAt(cfg, limited, run, i, t) {
      if i < n { CancelsEarlier(cfg, limited, run, i, t); }
    }
    if i: nat :| CancelsAt(cfg, limited, run[..n], i, t) {
      CancelsEarlier(cfg, limited, run, i, t);
    }
    if CancelsAfter(cfg, limited, run[..n], run[n], t) {
      assert CancelsAt(cfg, limited, run, n, t);
    }
  }

  lemma {:induction false} CancelledIff(cfg: Settings, limited: set<Entry>, run: seq<Event>, t: nat)
    requires After(cfg, limited, run).Some?
    ensures IsCancelled(After(cfg, limited, run).value, t) <==> EverCancelled(cfg, limited, run, t)
  {
    if run != [] {
      var n := |run| - 1;
      CancelledIff(cfg, limited, run[..n], t);
      StepCancels(cfg, After(cfg, limited, run[..n]).value, run[n], t);
      EverCancelledShifts(cfg, limited, run, t);
    }
  }

  //--- steps that are possible -------------------------------------------------------------------

  /** The step can follow the run. */
  ghost predicate CanFollow(cfg: Settings, limited: set<Entry>, run: seq<Event>, e: Event) {
    After(cfg, limited, run).Some? && Next(cfg, After(cfg, limited, run).value, e).Some?
  }

  predicate BeginsTcp(e: Event, t: nat) {
    e.Begin? && e.task == t && e.tcp
  }

  lemma StepKeepsTcp(cfg: Settings, s: State, e: Event, t: nat)
    requires Next(cfg, s, e).Some?
    ensures IsTcp(Next(cfg, s, e).value, t) <==> IsTcp(s, t) || BeginsTcp(e, t)
  {
    if IsFlowEvent(e) {
      FlowStepKeepsTcp(cfg, s, e, t);
    }
  }

  lemma FlowStepKeepsTcp(cfg: Settings, s: State, e: Event, t: nat)
    requires IsFlowEvent(e) && FlowStep(cfg, s, e).Some?
    ensures IsTcp(FlowStep(cfg, s, e).value, t) <==> IsTcp(s, t)
  {
    FlowStepSameFlows(cfg, s, e);
    StepsAlone(cfg, s, e);
    FlowStepKeepsToken(cfg, s, e);
  }

  lemma {:induction false} TcpIff(cfg: Settings, limited: set<Entry>, run: seq<Event>, t: nat)
    requires After(cfg, limited, run).Some?
    ensures IsTcp(After(cfg, limited, run).value, t) <==> exists e :: e in run && BeginsTcp(e, t)
  {
    if run != [] {
      var n := |run| - 1;
      TcpIff(cfg, limited, run[..n], t);
      StepKeepsTcp(cfg, After(cfg, limited, run[..n]).value, run[n], t);
      assert run == run[..n] + [run[n]];
      assert forall e :: e in run <==> e in run[..n] || e == run[n];
    }
  }

  /** Exactly flows that began as TCP ones can be dropped, and only while they
      wait for an answer or for a leader. */
  lemma DropsIff(cfg: Settings, limited: set<Entry>, run: seq<Event>, t: nat)
    requires After(cfg, limited, run).Some?
    ensures CanFollow(cfg, limited, run, Drop(t)) <==>
              && (exists e :: e in run && BeginsTcp(e, t))
              && (PcOf(After(cfg, limited, run).value, t).Waiting? || PcOf(After(cfg, limited, run).value, t).Following?)
  {
    TcpIff(cfg, limited, run, t);
  }

  /** No flow has its dialog on the screen. */
  ghost predicate ScreenIsFree(s: State) {
    forall u :: u in s.tasks ==> !Prompts.OnScreen(s.tasks[u].pc)
  }

  lemma DialogStepsAre(cfg: Settings, s: State, t: nat)
    ensures Next(cfg, s, TakeScreen(t)).Some? <==>
              PcOf(s, t).Waiting? && PcOf(s, t).dialog.AwaitingScreen? && s.screen.None?
    ensures Next(cfg, s, ShowDialog(t)).Some? <==> PcOf(s, t).Waiting? && PcOf(s, t).dialog.Preparing?
  {
  }

  /** With a surface, the dialog of a waiting flow goes up exactly when it is not up
      yet and no other flow has one, and appears exactly when it is being prepared. */
  lemma DialogStepsIff(cfg: Settings, limited: set<Entry>, run: seq<Event>, t: nat, id: nat)
    requires WaitsOn(cfg, limited, run, t, id)
    ensures CanFollow(cfg, limited, run, TakeScreen(t)) <==>
              && cfg.surface && TakeScreen(t) !in run && ShowDialog(t) !in run
              && ScreenIsFree(After(cfg, limited, run).value)
    ensures CanFollow(cfg, limited, run, ShowDialog(t)) <==> TakeScreen(t) in run && ShowDialog(t) !in run
  {
    DialogIs(cfg, limited, run, t);
    DialogStepsAre(cfg, After(cfg, limited, run).value, t);
    Prompts.RunKeeps(cfg, limited, run);
    FreeScreen(After(cfg, limited, run).value);
  }

  lemma FreeScreen(s: State)
    requires Prompts.ScreenOk(s)
    ensures ScreenIsFree(s) <==> s.screen.None?
  {
    if s.screen.Some? {
      assert Prompts.OnScreen(s.tasks[s.screen.value].pc);
    }
  }

  //--- endings -----------------------------------------------------------------------------------

  lemma OnlyOwnStepsEnd(cfg: Settings, s: State, e: Event, t: nat, id: nat, outcome: Outcome)
    requires EndsIn(cfg, s, e, t, id, outcome)
    ensures IsFlowEvent(e) && e.task == t
  {
    if !(IsFlowEvent(e) && e.task == t) { OtherStepsStay(cfg, s, e, t); }
  }

  /** The steps that end a prompt, by what the state holds. */
  ghost predicate IsEnding(s: State, e: Event, t: nat, id: nat, outcome: Outcome)
    requires WaitsIn(s, t, id)
  {
    || (e == AnswerDialog(t, outcome) && PcOf(s, t).dialog.Showing? && (IsAnswer(outcome) || outcome.Dismissed?))
    || (e == ReceiveAnswer(t) && AnswerOf(s, id) == Some(outcome))
    || (outcome.Dismissed? && (e == TimeOut(t) || (e == MissDeadline(t) && PcOf(s, t).dialog.Preparing?)))
    || (outcome.Cancelled? && e == ObserveCancel(t) && IsCancelled(s, t))
  }

  /** The branches of the `select!`. */
  predicate IsBranch(e: Event) {
    e.AnswerDialog? || e.ReceiveAnswer? || e.TimeOut? || e.MissDeadline? || e.ObserveCancel?
  }

  ghost predicate EndsAsListed(cfg: Settings, s: State, e: Event, t: nat, id: nat, outcome: Outcome)
    requires WaitsIn(s, t, id)
  {
    EndsIn(cfg, s, e, t, id, outcome) <==> IsEnding(s, e, t, id, outcome)
  }

  lemma BranchEnds(cfg: Settings, s: State, e: Event, id: nat, outcome: Outcome)
    requires IsBranch(e) && WaitsIn(s, e.task, id) && (id in s.queue.pending || id in s.answers)
    ensures EndsAsListed(cfg, s, e, e.task, id, outcome)
  {
    assert FlowStep(cfg, s, e) == WaitStep(s, e);
  }

  lemma OthersDoNotEnd(cfg: Settings, s: State, e: Event, id: nat, outcome: Outcome)
    requires IsFlowEvent(e) && !IsBranch(e)
    ensures !EndsIn(cfg, s, e, e.task, id, outcome)
  {
  }

  lemma EndsInIff(cfg: Settings, s: State, e: Event, t: nat, id: nat, outcome: Outcome)
    requires WaitsIn(s, t, id) && (id in s.queue.pending || id in s.answers)
    ensures EndsAsListed(cfg, s, e, t, id, outcome)
  {
    if IsBranch(e) && e.task == t {
      BranchEnds(cfg, s, e, id, outcome);
    } else if EndsIn(cfg, s, e, t, id, outcome) {
      OnlyOwnStepsEnd(cfg, s, e, t, id, outcome);
      OthersDoNotEnd(cfg, s, e, id, outcome);
    }
  }

  /** A step ends prompt `id` of flow `t` with `outcome` after the run. */
  ghost predicate EndsNext(cfg: Settings, limited: set<Entry>, run: seq<Event>, e: Event, t: nat, id: nat, outcome: Outcome) {
    After(cfg, limited, run).Some? && EndsIn(cfg, After(cfg, limited, run).value, e, t, id, outcome)
  }

  ghost function FirstWordFor(cfg: Settings, limited: set<Entry>, run: seq<Event>, t: nat, id: nat): Option<Outcome>
    requires WaitsOn(cfg, limited, run, t, id)
  {
    FirstWord(cfg, limited, run, t, id, After(cfg, limited, run).value.tasks[t].key.sandbox)
  }

  lemma EndsNextIff(cfg: Settings, limited: set<Entry>, run: seq<Event>, e: Event, t: nat, id: nat, outcome: Outcome)
    ensures EndsNext(cfg, limited, run, e, t, id, outcome)
            <==> WaitsOn(cfg, limited, run, t, id) && IsEnding(After(cfg, limited, run).value, e, t, id, outcome)
  {
    if WaitsOn(cfg, limited, run, t, id) {
      WaitersAreListedOrAnswered(cfg, limited, run, t);
      EndsInIff(cfg, After(cfg, limited, run).value, e, t, id, outcome);
      assert EndsAsListed(cfg, After(cfg, limited, run).value, e, t, id, outcome);
    }
  }

  lemma WaiterIs(cfg: Settings, limited: set<Entry>, run: seq<Event>, t: nat, id: nat)
    requires WaitsOn(cfg, limited, run, t, id)
    ensures var s := After(cfg, limited, run).value;
            && AnswerOf(s, id) == FirstWordFor(cfg, limited, run, t, id) != Some(Dismissed)
            && (PcOf(s, t).dialog.Showing? <==> ShowDialog(t) in run)
            && (PcOf(s, t).dialog.Preparing? <==> TakeScreen(t) in run && ShowDialog(t) !in run)
            && (IsCancelled(s, t) <==> EverCancelled(cfg, limited, run, t))
  {
    FirstWordIsAnswer(cfg, limited, run, t, id);
    DialogIs(cfg, limited, run, t);
    CancelledIff(cfg, limited, run, t);
    AnswersAre(cfg, limited, run, id);
  }

  lemma AnswersAre(cfg: Settings, limited: set<Entry>, run: seq<Event>, id: nat)
    requires After(cfg, limited, run).Some?
    ensures AnswerOf(After(cfg, limited, run).value, id) != Some(Dismissed)
  {
    Prompts.RunKeeps(cfg, limited, run);
    var s := After(cfg, limited, run).value;
    if id in s.answers { assert Prompts.AnswerOk(s, id); }
  }

  /** A prompt ends with a human's answer exactly when its flow waits on it and
      the answer is given in its dialog, which is on screen, or is received, being
      the first word about the prompt since. */
  lemma EndsAnsweredIff(cfg: Settings, limited: set<Entry>, run: seq<Event>, e: Event, t: nat, id: nat, outcome: Outcome)
    requires IsAnswer(outcome)
    ensures EndsNext(cfg, limited, run, e, t, id, outcome) <==>
              && WaitsOn(cfg, limited, run, t, id)
              && (|| (e == AnswerDialog(t, outcome) && ShowDialog(t) in run)
                  || (e == ReceiveAnswer(t) && FirstWordFor(cfg, limited, run, t, id) == Some(outcome)))
  {
    EndsNextIff(cfg, limited, run, e, t, id, outcome);
    if WaitsOn(cfg, limited, run, t, id) { WaiterIs(cfg, limited, run, t, id); }
  }

  /** A prompt is dismissed exactly when its time is up, its dialog misses the
      deadline to appear, or the human dismisses the dialog. */
  lemma EndsDismissedIff(cfg: Settings, limited: set<Entry>, run: seq<Event>, e: Event, t: nat, id: nat)
    ensures EndsNext(cfg, limited, run, e, t, id, Dismissed) <==>
              && WaitsOn(cfg, limited, run, t, id)
              && (|| e == TimeOut(t)
                  || (e == MissDeadline(t) && TakeScreen(t) in run && ShowDialog(t) !in run)
                  || (e == AnswerDialog(t, Dismissed) && ShowDialog(t) in run))
  {
    EndsNextIff(cfg, limited, run, e, t, id, Dismissed);
    if WaitsOn(cfg, limited, run, t, id) { WaiterIs(cfg, limited, run, t, id); }
  }

  /** A prompt is cancelled exactly when its flow was, or when the requests of its
      sandbox were before anyone answered it. */
  lemma EndsCancelledIff(cfg: Settings, limited: set<Entry>, run: seq<Event>, e: Event, t: nat, id: nat)
    ensures EndsNext(cfg, limited, run, e, t, id, Cancelled) <==>
              && WaitsOn(cfg, limited, run, t, id)
              && (|| (e == ObserveCancel(t) && EverCancelled(cfg, limited, run, t))
                  || (e == ReceiveAnswer(t) && FirstWordFor(cfg, limited, run, t, id) == Some(Cancelled)))
  {
    EndsNextIff(cfg, limited, run, e, t, id, Cancelled);
    if WaitsOn(cfg, limited, run, t, id) { WaiterIs(cfg, limited, run, t, id); }
  }
}
